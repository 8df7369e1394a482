/** Two archives whose fate the exact conditions tell: one the checker accepts and extraction rejects, and one the
    converter takes as far as its self-check, which rejects it because its layer looks compressed. */
module ArchiveExamples {
  import opened Base
  import opened CanonicalJson
  import opened ImageArchive
  import opened PortableParser
  import opened OciSubset
  import opened SubsetMeaning
  import opened DockerConversion
  import opened ConversionMeaning
  import CX = Consistency

  // ---------------------------------------------------------------------------
  // The content: an index, a manifest, a configuration and one layer

  const INDEX: bytes := [4]
  const MANIFEST: bytes := [3]
  const CONFIG: bytes := [2]
  /** The layer is no gzip stream but begins like one. */
  const LAYER: bytes := [0x1f, 0x8b]

  function D(k: char): (d: string)
    requires IsHex(k)
    ensures IsDigest(d)
  {
    "sha256:" + seq(64, i => k)
  }

  function Hash(b: bytes): (d: string)
    ensures IsDigest(d)
  {
    if b == MANIFEST then D('1') else if b == CONFIG then D('2') else if b == LAYER then D('3') else D('0')
  }

  const DESCRIPTOR_FIELDS: seq<string> := ["digest", "size", "mediaType", "annotations"]
  const INDEX_FIELDS: seq<string> := ["schemaVersion", "manifests"]
  const MANIFEST_FIELDS: seq<string> := ["schemaVersion", "config", "layers"]
  const CONFIG_FIELDS: seq<string> := ["rootfs", "os", "architecture"]
  const ROOTFS_FIELDS: seq<string> := ["type", "diff_ids"]

  function Descriptor(digest: string, size: nat): Json {
    Table(DESCRIPTOR_FIELDS, [Str(digest), Num(size), Str(TAR_TYPE), Table([REF_NAME], [Str("t")])])
  }

  function IndexDoc(): Json {
    Table(INDEX_FIELDS, [Num(2), Arr([Descriptor(D('1'), 1)])])
  }

  function ManifestDoc(): Json {
    Table(MANIFEST_FIELDS, [Num(2), Descriptor(D('2'), 1), Arr([Descriptor(D('3'), 2)])])
  }

  function Rootfs(): Json {
    Table(ROOTFS_FIELDS, [Str("layers"), TextArray([D('3')])])
  }

  function ConfigDoc(): Json {
    Table(CONFIG_FIELDS, [Rootfs(), Str("linux"), Str("amd64")])
  }

  lemma DescriptorReads(digest: string, size: nat)
    ensures
      var d := Descriptor(digest, size);
      d.Obj? && At(d, "digest") == Some(Str(digest)) && At(d, "size") == Some(Num(size)) &&
      At(d, "mediaType") == Some(Str(TAR_TYPE)) && At(d, "annotations") == Some(Table([REF_NAME], [Str("t")]))
    ensures At(Table([REF_NAME], [Str("t")]), REF_NAME) == Some(Str("t"))
    ensures WellFormed(Descriptor(digest, size))
  {
    hide At;
    var values := [Str(digest), Num(size), Str(TAR_TYPE), Table([REF_NAME], [Str("t")])];
    TableAt(DESCRIPTOR_FIELDS, values, 0);
    TableAt(DESCRIPTOR_FIELDS, values, 1);
    TableAt(DESCRIPTOR_FIELDS, values, 2);
    TableAt(DESCRIPTOR_FIELDS, values, 3);
    TableAt([REF_NAME], [Str("t")], 0);
    TableWellFormed([REF_NAME], [Str("t")]);
    TableWellFormed(DESCRIPTOR_FIELDS, values);
  }

  lemma IndexReads()
    ensures At(IndexDoc(), "schemaVersion") == Some(Num(2))
    ensures At(IndexDoc(), "manifests") == Some(Arr([Descriptor(D('1'), 1)]))
    ensures WellFormed(IndexDoc())
  {
    hide At, Descriptor;
    DescriptorReads(D('1'), 1);
    var values := [Num(2), Arr([Descriptor(D('1'), 1)])];
    TableAt(INDEX_FIELDS, values, 0);
    TableAt(INDEX_FIELDS, values, 1);
    TableWellFormed(INDEX_FIELDS, values);
  }

  lemma ManifestReads()
    ensures At(ManifestDoc(), "schemaVersion") == Some(Num(2))
    ensures At(ManifestDoc(), "config") == Some(Descriptor(D('2'), 1))
    ensures At(ManifestDoc(), "layers") == Some(Arr([Descriptor(D('3'), 2)]))
    ensures WellFormed(ManifestDoc())
  {
    hide At, Descriptor;
    DescriptorReads(D('2'), 1);
    DescriptorReads(D('3'), 2);
    var values := [Num(2), Descriptor(D('2'), 1), Arr([Descriptor(D('3'), 2)])];
    TableAt(MANIFEST_FIELDS, values, 0);
    TableAt(MANIFEST_FIELDS, values, 1);
    TableAt(MANIFEST_FIELDS, values, 2);
    TableWellFormed(MANIFEST_FIELDS, values);
  }

  lemma RootfsReads()
    ensures At(Rootfs(), "type") == Some(Str("layers")) && At(Rootfs(), "diff_ids") == Some(TextArray([D('3')]))
    ensures WellFormed(Rootfs())
  {
    hide At;
    var values := [Str("layers"), TextArray([D('3')])];
    TableAt(ROOTFS_FIELDS, values, 0);
    TableAt(ROOTFS_FIELDS, values, 1);
    TableWellFormed(ROOTFS_FIELDS, values);
  }

  lemma ConfigReads()
    ensures At(ConfigDoc(), "rootfs") == Some(Rootfs())
    ensures At(ConfigDoc(), "os") == Some(Str("linux")) && At(ConfigDoc(), "architecture") == Some(Str("amd64"))
    ensures ConfigDoc().Obj? && WellFormed(ConfigDoc())
  {
    hide At, Rootfs;
    RootfsReads();
    var values := [Rootfs(), Str("linux"), Str("amd64")];
    TableAt(CONFIG_FIELDS, values, 0);
    TableAt(CONFIG_FIELDS, values, 1);
    TableAt(CONFIG_FIELDS, values, 2);
    TableWellFormed(CONFIG_FIELDS, values);
  }

  /** The configuration is the pinned one. */
  lemma ConfigFits(tag: Option<string>)
    ensures ConfigOk(Some(ConfigDoc()), Expected(D('2'), "linux", "amd64", [D('3')], tag))
  {
    hide At, TextArray;
    ConfigReads();
    RootfsReads();
  }

  // ---------------------------------------------------------------------------
  // The listing

  function Names(): (r: seq<string>)
    ensures |r| == 4
  {
    ["index.json", BlobName(D('1')), BlobName(D('2')), BlobName(D('3'))]
  }

  function Contents(): (r: seq<bytes>)
    ensures |r| == 4
  {
    [INDEX, MANIFEST, CONFIG, LAYER]
  }

  function Listing(): seq<Entry> {
    seq(4, i requires 0 <= i < 4 => Entry(Names()[i], File, |Contents()[i]|, Contents()[i]))
  }

  /** A directory as some archives list it. */
  const SLASHED: Entry := Entry("d/", Directory, 0, [])

  lemma NamesProper(i: nat)
    requires i < 4
    ensures PosixName(Names()[i]) && Names()[i] != "" && '\\' !in Names()[i]
    ensures Names()[i] != "manifest.json" && Names()[i] != "d/" && Names()[i] != "d"
  {
    if i == 0 {
      PlainNamePosix("index.json");
    } else {
      var k := if i == 1 then '1' else if i == 2 then '2' else '3';
      BlobNamePosix(D(k));
      assert |BlobName(D(k))| == 77;
    }
  }

  lemma NamesDistinct()
    ensures forall i, j | 0 <= i < j < 4 :: Names()[i] != Names()[j]
  {
    assert BlobName(D('1'))[13] == '1' && BlobName(D('2'))[13] == '2' && BlobName(D('3'))[13] == '3';
    assert |BlobName(D('1'))| == 77 && |BlobName(D('2'))| == 77 && |BlobName(D('3'))| == 77;
  }

  /** These members can be read, whatever else is listed. */
  predicate Holds(es: seq<Entry>) {
    forall i | 0 <= i < 4 :: Find(es, Names()[i]) == Some(Entry(Names()[i], File, |Contents()[i]|, Contents()[i]))
  }

  lemma ListingHolds(es: seq<Entry>)
    requires es == Listing() || es == Listing() + [SLASHED]
    ensures DistinctNames(es) && Holds(es)
  {
    hide Names, Find;
    NamesDistinct();
    forall i | 0 <= i < 4 ensures Names()[i] != "d/" { NamesProper(i); }
    forall i | 0 <= i < 4
      ensures Find(es, Names()[i]) == Some(Entry(Names()[i], File, |Contents()[i]|, Contents()[i]))
    {
      assert es[i].name == Names()[i];
      FindAt(es, i);
    }
  }

  // ---------------------------------------------------------------------------
  // Reading it

  /** A codec that reads these documents and hashes these contents. */
  predicate Reads(c: Codec) {
    c.loads(INDEX) == Some(IndexDoc()) && c.loads(MANIFEST) == Some(ManifestDoc()) &&
    c.loads(CONFIG) == Some(ConfigDoc()) && c.gunzip(LAYER).None? &&
    c.digest(MANIFEST) == D('1') && c.digest(CONFIG) == D('2') && c.digest(LAYER) == D('3')
  }

  lemma BlobRead(c: Codec, es: seq<Entry>, i: nat, digest: string, limit: int)
    requires Holds(es) && 1 <= i < 4 && IsDigest(digest) && BlobName(digest) == Names()[i]
    requires c.digest(Contents()[i]) == digest && |Contents()[i]| <= limit
    ensures Blob(c, es, Descriptor(digest, |Contents()[i]|), limit) == Some(Contents()[i])
  {
    hide Names, Contents, Descriptor, At, Find;
    DescriptorReads(digest, |Contents()[i]|);
  }

  function TheChain(): Resolved {
    Resolved(Descriptor(D('1'), 1), MANIFEST, ManifestDoc(), CONFIG, [Descriptor(D('3'), 2)])
  }

  lemma BlobsRead(c: Codec, es: seq<Entry>, limit: int)
    requires Reads(c) && Holds(es) && limit >= 2
    ensures Blob(c, es, Descriptor(D('1'), 1), limit) == Some(MANIFEST)
    ensures Blob(c, es, Descriptor(D('2'), 1), limit) == Some(CONFIG)
    ensures Blob(c, es, Descriptor(D('3'), 2), limit) == Some(LAYER)
  {
    hide Holds, Descriptor, Blob, BlobName;
    BlobRead(c, es, 1, D('1'), limit);
    BlobRead(c, es, 2, D('2'), limit);
    BlobRead(c, es, 3, D('3'), limit);
  }

  lemma Resolves(c: Codec, es: seq<Entry>, sizes: Sizes)
    requires Reads(c) && Holds(es) && sizes.manifest >= 2 && sizes.config >= 2 && sizes.layer >= 2
    ensures Resolve(c, es, INDEX, sizes) == Some(TheChain())
  {
    hide Holds, Descriptor, Blob, At, IndexDoc, ManifestDoc, ConfigDoc;
    BlobsRead(c, es, sizes.manifest);
    BlobsRead(c, es, sizes.config);
    BlobsRead(c, es, sizes.layer);
    IndexReads();
    ManifestReads();
    DescriptorReads(D('1'), 1);
  }

  lemma IndexRead(es: seq<Entry>, limit: int)
    requires Holds(es) && limit >= 1
    ensures Read(es, "index.json", limit) == Some(INDEX) && HasIndex(es)
  {
    assert Names()[0] == "index.json";
  }

  const IMAGE: Image := Image(CONFIG, [LAYER])

  lemma Denotes(c: Codec, es: seq<Entry>, limit: int)
    requires Reads(c) && Holds(es) && limit >= 2
    ensures OciImage(c, es, TheChain(), limit) == Some(IMAGE)
  {
    hide Holds, Descriptor, Blob, At, ManifestDoc;
    BlobsRead(c, es, limit);
    DescriptorReads(D('3'), 2);
    var contents := OciContents(c, es, TheChain().layers, limit);
    assert contents == [Some(LAYER)];
    assert Values(contents) == [LAYER];
  }

  // ---------------------------------------------------------------------------
  // A lawful codec for it

  ghost function Parse(b: bytes): Option<Json> {
    if b == INDEX then Some(IndexDoc())
    else if b == MANIFEST then Some(ManifestDoc())
    else if b == CONFIG then Some(ConfigDoc())
    else CX.Load(b)
  }

  /** The archives: the listing with the directory, and the listing alone. */
  const WITH_DIRECTORY: bytes := [1]
  const WITHOUT: bytes := [5]

  function Code(): bytes {
    seq(1024, i => 6)
  }

  ghost function Simple(): Codec {
    Codec(b => Hash(b), b => None, b => None, files => [], b => Parse(b), v => CX.Dump(v))
  }

  lemma SimpleChain()
    ensures Reads(Simple()) && Chain(Simple(), Listing()) == Some(TheChain())
  {
    hide IndexDoc, ManifestDoc, ConfigDoc, Holds, D, TheChain, Resolve, Read;
    ListingHolds(Listing());
    IndexRead(Listing(), PortableParser.MAX_ARCHIVE_BYTES);
    Resolves(Simple(), Listing(), WIDE);
  }

  /** What extraction writes of the listing. */
  ghost function Extracted(): seq<Pair<bytes>> {
    SimpleChain();
    SubsetFiles(Simple(), Listing())
  }

  ghost function Example(): Codec {
    Codec(b => Hash(b), b => None,
          b => if b == WITH_DIRECTORY then Some(Listing() + [SLASHED])
               else if b == WITHOUT then Some(Listing())
               else if b == Code() then Some(Written(Extracted())) else CX.Unpack(b),
          files => if files == Extracted() then Code() else CX.Pack(files),
          b => Parse(b), v => CX.Dump(v))
  }

  /** No printed document is one of these short codes. */
  lemma DumpStarts(v: Json)
    ensures CX.Dump(v) != [] && CX.Dump(v)[0] > 6
  {
    TextStarts(v);
    var c := Text(v)[0];
    assert Utf8(c) == [c as int];
  }

  lemma PackStarts(files: seq<Pair<bytes>>)
    ensures CX.Pack(files) != [] && CX.Pack(files)[0] > 6
  {
    DumpStarts(Obj(CX.AsJson(files)));
  }

  lemma ContentsSmall(i: nat)
    requires i < 4
    ensures |Contents()[i]| <= 2
  {
  }

  lemma ListedSmall(name: string)
    requires Find(Listing(), name).Some?
    ensures
      var e := Find(Listing(), name).value;
      Read(Listing(), name, PortableParser.MAX_ARCHIVE_BYTES) == Some(e.data) && |e.data| <= 2
  {
    hide Names, Contents;
    FindSound(Listing(), name);
    var i :| 0 <= i < 4 && Listing()[i] == Find(Listing(), name).value;
    ContentsSmall(i);
  }

  lemma ExtractedSmall(i: nat)
    requires i < |Extracted()|
    ensures |Extracted()[i].value| <= 2
  {
    hide Listing, Simple, SubsetFiles, Chain, Reachable, TheChain;
    SimpleChain();
    var c, es, files := Simple(), Listing(), Extracted();
    SubsetFilesNames(c, es);
    SubsetFileReachable(c, es, i);
    ReachableListed(c, es, files[i].key);
    ListedSmall(files[i].key);
    SubsetReads(c, es, files[i].key, PortableParser.MAX_ARCHIVE_BYTES);
    GetAt(files, i);
    FindWritten(files, files[i].key);
  }

  lemma ExampleTars(files: seq<Pair<bytes>>)
    ensures
      var c := Example();
      c.untar(c.tar(files)) == Some(Written(files)) && c.tar(files) != [] &&
      forall i :: 0 <= i < |files| ==> |files[i].value| <= |c.tar(files)|
  {
    hide Listing, Extracted, CX.Pack, CX.Unpack, Parse;
    if files == Extracted() {
      assert Code()[0] == 6;
      forall i | 0 <= i < |files| ensures |files[i].value| <= 2 { ExtractedSmall(i); }
    } else {
      PackStarts(files);
      CX.UnpackBack(files);
      assert CX.Pack(files) != Code() by { assert Code()[0] == 6; }
      forall i: nat | i < |files| ensures |files[i].value| <= |CX.Pack(files)| { CX.PackLonger(files, i); }
    }
  }

  lemma ParsesBack(v: Json)
    requires WellFormed(v)
    ensures Parse(CX.Dump(v)) == Some(v)
  {
    hide IndexDoc, ManifestDoc, ConfigDoc, CX.Dump, CX.Load;
    DumpStarts(v);
    CX.LoadBack(v);
  }

  lemma ParsesWell(b: bytes)
    requires Parse(b).Some?
    ensures WellFormed(Parse(b).value)
  {
    hide IndexDoc, ManifestDoc, ConfigDoc, CX.Load, WellFormed;
    IndexReads();
    ManifestReads();
    ConfigReads();
    if CX.Load(b).Some? { CX.LoadWellFormed(b); }
  }

  lemma ExampleTarLaw()
    ensures TarLaw(Example())
  {
    hide Example, TarName;
    var c := Example();
    forall files: seq<Pair<bytes>>
      ensures c.untar(c.tar(files)) == Some(Written(files)) && c.tar(files) != []
      ensures forall i :: 0 <= i < |files| ==> |files[i].value| <= |c.tar(files)|
    {
      ExampleTars(files);
    }
  }

  lemma ExampleJsonLaw()
    ensures JsonLaw(Example())
  {
    hide Listing, Extracted, CX.Pack, CX.Unpack, CX.Dump, Parse, WellFormed, Hash, Code;
    var c := Example();
    forall v: Json | WellFormed(v) ensures c.loads(c.dumps(v)) == Some(v) { ParsesBack(v); }
    forall b: bytes | c.loads(b).Some? ensures WellFormed(c.loads(b).value) { ParsesWell(b); }
  }

  lemma ExampleLawful()
    ensures Lawful(Example()) && Reads(Example())
  {
    hide TarLaw, JsonLaw, Listing, Extracted, CX.Pack, CX.Unpack, CX.Dump, CX.Load, IsDigest, D, Code;
    hide IndexDoc, ManifestDoc, ConfigDoc;
    ExampleTarLaw();
    ExampleJsonLaw();
  }

  // ---------------------------------------------------------------------------
  // Accepted, and not extractable

  function Pinned(): Expected {
    Expected(D('2'), "linux", "amd64", [D('3')], Some("r:t"))
  }

  lemma PinsProper()
    ensures ExpectedOk(Pinned()) && RefName("r:t") == "t"
  {
    assert "r:t"[1..] == ":t" && ":t"[1..] == "t";
    assert ':' in "r:t" && ':' in ":t" && ':' !in "t";
    assert "r:t"[1] == ':' && ":t"[0] == ':';
  }

  lemma ListingProper(es: seq<Entry>)
    requires es == Listing() || es == Listing() + [SLASHED]
    ensures TableOk(es, PortableParser.MAX_ARCHIVE_BYTES) && !HasLegacy(es)
    ensures NamesOk(es) <==> es == Listing()
  {
    hide Names, Split, Find;
    NamesDistinct();
    forall i | 0 <= i < 4
      ensures PosixName(Names()[i]) && Names()[i] !in {"", "manifest.json", "d/", "d"} && '\\' !in Names()[i]
    {
      NamesProper(i);
    }
    Slashed();
    FindSound(es, "manifest.json");
    forall i | 0 <= i < |es| ensures EntryOk(es[i], PortableParser.MAX_ARCHIVE_BYTES) {
      if i < 4 {
        ContentsSmall(i);
        assert es[i].name == Names()[i] && Normalized(es[i]) == Names()[i];
      } else {
        assert es[i] == SLASHED;
      }
    }
    forall i, j | 0 <= i < j < |es| ensures es[i].name != es[j].name && Normalized(es[i]) != Normalized(es[j]) {
      assert es[i].name == Names()[i] && Normalized(es[i]) == Names()[i];
      if j < 4 {
        assert es[j].name == Names()[j] && Normalized(es[j]) == Names()[j];
      } else {
        assert es[j] == SLASHED && Names()[i] != "d" && Names()[i] != "d/";
      }
    }
    if es != Listing() { assert es[4] == SLASHED; }
  }

  lemma Slashed()
    ensures Normalized(SLASHED) == "d" && PosixName("d") && !PosixName("d/") && '\\' !in "d/"
  {
    SplitWhole("d");
    SplitWhole("");
    SplitFirst("d", "");
    assert "d/" == "d" + "/" + "";
    assert Split("d/")[1] == "";
  }

  lemma ExampleContent(es: seq<Entry>)
    requires es == Listing() || es == Listing() + [SLASHED]
    ensures
      var c, max := Example(), PortableParser.MAX_ARCHIVE_BYTES;
      Chain(c, es) == Some(TheChain()) && OciChain(c, es, max) == Some(TheChain()) &&
      OciImage(c, es, TheChain(), max) == Some(IMAGE) && HasIndex(es)
  {
    hide Listing, Example, Holds, Resolve, TheChain, OciImage, Read, Lawful, Reads;
    ExampleLawful();
    ListingHolds(es);
    IndexRead(es, PortableParser.MAX_ARCHIVE_BYTES);
    IndexRead(es, 65536);
    Resolves(Example(), es, WIDE);
    Resolves(Example(), es, ParserSizes(PortableParser.MAX_ARCHIVE_BYTES));
    Denotes(Example(), es, PortableParser.MAX_ARCHIVE_BYTES);
  }

  lemma LayersPinned()
    ensures DiffIdsOk(Example(), IMAGE.layers, [D('3')]) && Total(IMAGE.layers) == 2
    ensures Example().loads(IMAGE.config) == Some(ConfigDoc()) && Example().digest(IMAGE.config) == D('2')
  {
    hide Listing, Extracted, CX.Pack, CX.Unpack, CX.Dump, ConfigDoc, IndexDoc, ManifestDoc, D, Code;
    assert IMAGE.layers[..0] == [];
    assert Total([]) == 0;
  }

  lemma ReferenceFits()
    ensures RefOk(TheChain().descriptor, Pinned(), false)
    ensures At(TheChain().manifest, "config").Some? &&
            At(At(TheChain().manifest, "config").value, "digest") == Some(Str(D('2')))
  {
    hide At, RefName, Descriptor, ManifestDoc;
    DescriptorReads(D('1'), 1);
    DescriptorReads(D('2'), 1);
    ManifestReads();
    PinsProper();
  }

  /** The checker accepts an archive whose directory is listed with a trailing slash; extraction rejects it. */
  lemma AcceptedNotExtractable() returns (c: Codec, archive: bytes, exp: Expected)
    ensures Lawful(c) && Accepts(c, archive, exp, PortableParser.MAX_ARCHIVE_BYTES, MAX_EXPANDED_LAYER_BYTES)
    ensures HasIndex(c.untar(archive).value) && !NoTrailingSlash(c.untar(archive).value)
    ensures !Extractable(c, archive)
  {
    hide Lawful, TableOk, ExpectedOk, NamesOk, Chain, OciChain, OciImage, TheChain, Listing, ConfigDoc, DiffIdsOk, At;
    hide RefOk, Extracted, HasIndex, HasLegacy, ConfigOk, Code, D;
    var es := Listing() + [SLASHED];
    c, archive, exp := Example(), WITH_DIRECTORY, Pinned();
    ExampleLawful();
    ListingProper(es);
    ExampleContent(es);
    LayersPinned();
    ReferenceFits();
    PinsProper();
    ConfigFits(Some("r:t"));
    assert c.untar(archive) == Some(es);
    assert es[|es| - 1] == SLASHED && es != Listing();
  }

  // ---------------------------------------------------------------------------
  // Convertible, and not converted

  lemma {:induction false} SelectedAlike(es: seq<Entry>, indexRaw: bytes, ds: seq<Json>)
    requires BlobsPresent(Simple(), es, ds) && BlobsPresent(Example(), es, ds)
    ensures Selected(Simple(), es, indexRaw, ds) == Selected(Example(), es, indexRaw, ds)
  {
    hide Listing, Extracted, Parse, CX.Pack, CX.Unpack, CX.Dump, Hash, Code;
    if ds != [] { SelectedAlike(es, indexRaw, ds[..|ds| - 1]); }
  }

  lemma ExtractedAlike()
    ensures Chain(Example(), Listing()).Some? && SubsetFiles(Example(), Listing()) == Extracted()
  {
    hide Listing, Simple, Example, Chain, TheChain, Selected, SortByKey, Read, Holds, Descriptors, BlobsPresent;
    SimpleChain();
    ExampleContent(Listing());
    ChainBlobs(Simple(), Listing());
    ChainBlobs(Example(), Listing());
    ListingHolds(Listing());
    IndexRead(Listing(), PortableParser.MAX_ARCHIVE_BYTES);
    SelectedAlike(Listing(), INDEX, Descriptors(TheChain()));
  }

  lemma ExampleExtracts()
    ensures SubsetOk(Example(), WITHOUT) && SubsetBytes(Example(), WITHOUT) == Code()
    ensures Example().untar(Code()) == Some(SubsetEntries(Example(), Listing()))
  {
    hide Listing, Chain, Extracted, NamesOk, CX.Pack, CX.Unpack, SubsetFiles, Parse, Hash;
    ExampleContent(Listing());
    ExtractedAlike();
    ListingProper(Listing());
    assert Code()[0] == 6;
  }

  lemma SubsetPinned()
    ensures Chain(Example(), Listing()).Some?
    ensures
      var es := SubsetEntries(Example(), Listing());
      DistinctNames(es) && SourceChain(Example(), es) == Some(TheChain()) &&
      SourceImage(Example(), es) == Some(IMAGE) && ContentPinned(Example(), es, D('2'), [D('3')])
  {
    hide Listing, Example, Chain, TheChain, OciImage, Read, NamesOk, SubsetEntries, Resolve, ConfigOk, DiffIdsOk, At, D;
    hide Reachable, ConfigDoc;
    var c, es, max := Example(), Listing(), PortableParser.MAX_ARCHIVE_BYTES;
    ExampleContent(es);
    var sub := SubsetEntries(c, es);
    ListingHolds(es);
    IndexRead(es, max);
    SubsetNamesOk(c, es);
    SubsetNamesDistinct(sub);
    SubsetReads(c, es, "index.json", max);
    IndexReachable(c, es);
    ChainKept(c, es, WIDE);
    ExampleResolves();
    ImageKept(c, es, max);
    LayersPinned();
    ReferenceFits();
    ConfigFits(Some(""));
  }

  lemma SubsetNamesDistinct(es: seq<Entry>)
    requires NamesOk(es)
    ensures DistinctNames(es)
  {
  }

  lemma IndexReachable(c: Codec, es: seq<Entry>)
    requires Chain(c, es).Some?
    ensures Reachable(Chain(c, es).value, "index.json")
  {
  }

  lemma ExampleResolves()
    ensures Resolve(Example(), Listing(), INDEX, WIDE) == Some(TheChain())
  {
    hide Listing, Example, TheChain, Resolve, Holds, Reads, Lawful;
    ExampleLawful();
    ListingHolds(Listing());
    Resolves(Example(), Listing(), WIDE);
  }

  /** The converter gets as far as its self-check with this archive, which rejects the result under every tag. */
  lemma ConvertibleNotConverted() returns (c: Codec, archive: bytes, configDigest: string, diffIds: seq<string>)
    ensures Lawful(c) && Convertible(c, archive, configDigest, diffIds)
    ensures
      var image := ConvertedImage(c, archive);
      image.layers != [] && GzipMagic(image.layers[0]) && !GzipLayersRehash(c, image.layers) &&
      forall tag :: !SelfCheck(c, image, configDigest, diffIds, tag)
  {
    hide Lawful, SubsetOk, SubsetBytes, SubsetEntries, ContentPinned, SourceImage, SelfCheck, Listing, D, Reads;
    c, archive, configDigest, diffIds := Example(), WITHOUT, D('2'), [D('3')];
    ExampleLawful();
    ExampleExtracts();
    SubsetPinned();
    NotRehashed(c);
    forall tag ensures !SelfCheck(c, IMAGE, configDigest, diffIds, tag) {
      SelfCheckRedundant(c, archive, configDigest, diffIds, tag);
    }
  }

  lemma NotRehashed(c: Codec)
    requires Reads(c)
    ensures GzipMagic(IMAGE.layers[0]) && !GzipLayersRehash(c, IMAGE.layers)
  {
    assert IMAGE.layers[0] == LAYER;
  }
}
