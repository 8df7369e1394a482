/** What conversion keeps: the converted archive denotes the source's image, and the
    self-check decides exactly the size, tag and layer conditions below. */
module ConversionMeaning {
  import opened Base
  import opened CanonicalJson
  import opened ImageArchive
  import opened PortableParser
  import opened OciSubset
  import opened SubsetMeaning
  import opened DockerConversion

  // ---------------------------------------------------------------------------
  // Names

  function Padded(i: nat): string {
    (if i < 10 then "0" else "") + NatText(i)
  }

  lemma {:induction false} NatTextLead(n: nat)
    requires n > 0
    ensures NatText(n)[0] != '0'
  {
    if n >= 10 { NatTextLead(n / 10); NatTextDigits(n / 10); }
  }

  lemma PaddedSpec(i: nat)
    ensures Padded(i) != "" && IsDigit(Padded(i)[0]) && '/' !in Padded(i)
    ensures (Padded(i)[0] == '0') <==> i < 10
  {
    NatTextDigits(i);
    if i >= 10 { NatTextLead(i); }
  }

  lemma PaddedInjective(i: nat, j: nat)
    requires Padded(i) == Padded(j)
    ensures i == j
  {
    PaddedSpec(i);
    PaddedSpec(j);
    if i < 10 { Cancel("0", "0", NatText(i), NatText(j)); }
    assert NatText(i) == NatText(j) by {
      if i >= 10 { assert "" + NatText(i) == NatText(i) && "" + NatText(j) == NatText(j); }
    }
    NatTextInjective(i, j);
  }

  lemma LayerNameInjective(i: nat, j: nat)
    requires LayerName(i) == LayerName(j)
    ensures i == j
  {
    Regroup("layers/", Padded(i), "/layer.tar");
    Regroup("layers/", Padded(j), "/layer.tar");
    Cancel("layers/", "layers/", Padded(i) + "/layer.tar", Padded(j) + "/layer.tar");
    Cancel(Padded(i), Padded(j), "/layer.tar", "/layer.tar");
    PaddedInjective(i, j);
  }

  /** A name members can be written under and read back from. */
  predicate WritableName(name: string) {
    TarName(name) && name != "" && '\\' !in name && name != "index.json"
  }

  lemma LayerNameSplit(i: nat)
    ensures Split(LayerName(i)) == ["layers", Padded(i), "layer.tar"]
  {
    PaddedSpec(i);
    assert "layers/" == "layers" + "/" && "/layer.tar" == "/" + "layer.tar";
    Regroup("layers/", Padded(i), "/layer.tar");
    Regroup(Padded(i), "/", "layer.tar");
    assert LayerName(i) == "layers" + "/" + (Padded(i) + "/" + "layer.tar");
    SplitFirst("layers", Padded(i) + "/" + "layer.tar");
    SplitFirst(Padded(i), "layer.tar");
    SplitWhole("layer.tar");
  }

  lemma LayerNameChars(i: nat)
    ensures '\\' !in LayerName(i) && '\0' !in LayerName(i) && LayerName(i)[6] == '/' && |LayerName(i)| > 16
  {
    NatTextDigits(i);
    assert '\\' !in "layers/" && '\\' !in "/layer.tar";
    assert '\\' !in Padded(i) && '\0' !in Padded(i);
  }

  lemma LayerNameWritable(i: nat)
    ensures WritableName(LayerName(i)) && LayerName(i)[6] == '/'
  {
    LayerNameSplit(i);
    LayerNameChars(i);
    PaddedSpec(i);
  }

  lemma ConfigNameWritable(configDigest: string)
    requires IsDigest(configDigest)
    ensures WritableName(ConfigName(configDigest)) && ConfigName(configDigest)[6] != '/'
    ensures |ConfigName(configDigest)| == 69 && ConfigName(configDigest) != "manifest.json"
  {
    HexDigits(configDigest);
    PlainNamePosix(ConfigName(configDigest));
  }

  lemma ManifestNameWritable()
    ensures WritableName("manifest.json")
  {
    PlainNamePosix("manifest.json");
  }

  lemma DockerFilesNames(c: Codec, image: Image, configDigest: string, tag: string)
    requires IsDigest(configDigest)
    ensures DistinctKeys(DockerFiles(c, image, configDigest, tag))
    ensures forall i :: 0 <= i < |DockerFiles(c, image, configDigest, tag)| ==>
              WritableName(DockerFiles(c, image, configDigest, tag)[i].key)
  {
    var files := DockerFiles(c, image, configDigest, tag);
    ConfigNameWritable(configDigest);
    ManifestNameWritable();
    forall i | 0 <= i < |files| ensures WritableName(files[i].key) {
      if i >= 2 { LayerNameWritable(i - 2); }
    }
    forall i, j | 0 <= i < j < |files| ensures files[i].key != files[j].key {
      if j >= 2 {
        LayerNameWritable(j - 2);
        if i >= 2 && files[i].key == files[j].key { LayerNameInjective(i - 2, j - 2); }
      }
    }
  }

  // ---------------------------------------------------------------------------
  // What the written archive lists

  function DockerEntries(c: Codec, image: Image, configDigest: string, tag: string): seq<Entry>
    requires |configDigest| >= 7
  {
    Written(SortByKey(DockerFiles(c, image, configDigest, tag)))
  }

  lemma DockerLookup(c: Codec, image: Image, configDigest: string, tag: string, i: nat)
    requires IsDigest(configDigest) && i < |DockerFiles(c, image, configDigest, tag)|
    ensures
      var file := DockerFiles(c, image, configDigest, tag)[i];
      Find(DockerEntries(c, image, configDigest, tag), file.key)
        == Some(Entry(file.key, File, |file.value|, file.value))
  {
    var files := DockerFiles(c, image, configDigest, tag);
    DockerFilesNames(c, image, configDigest, tag);
    GetAt(files, i);
    GetSorted(files, files[i].key);
    FindWritten(SortByKey(files), files[i].key);
  }

  lemma DockerAbsent(c: Codec, image: Image, configDigest: string, tag: string)
    requires IsDigest(configDigest)
    ensures Find(DockerEntries(c, image, configDigest, tag), "index.json").None?
  {
    var files := DockerFiles(c, image, configDigest, tag);
    DockerFilesNames(c, image, configDigest, tag);
    GetFinds(files, "index.json");
    GetSorted(files, "index.json");
    FindWritten(SortByKey(files), "index.json");
  }

  lemma DockerUntars(c: Codec, image: Image, configDigest: string, tag: string)
    requires Lawful(c) && IsDigest(configDigest)
    ensures c.untar(DockerBytes(c, image, configDigest, tag)) == Some(DockerEntries(c, image, configDigest, tag))
    ensures DockerBytes(c, image, configDigest, tag) != []
    ensures forall i :: 0 <= i < |SortByKey(DockerFiles(c, image, configDigest, tag))| ==>
      |SortByKey(DockerFiles(c, image, configDigest, tag))[i].value| <= |DockerBytes(c, image, configDigest, tag)|
  {
    SortedWritable(c, image, configDigest, tag);
  }

  lemma SortedWritable(c: Codec, image: Image, configDigest: string, tag: string)
    requires IsDigest(configDigest)
    ensures
      var sorted := SortByKey(DockerFiles(c, image, configDigest, tag));
      |sorted| == |image.layers| + 2 && DistinctKeys(sorted) &&
      forall i :: 0 <= i < |sorted| ==> WritableName(sorted[i].key)
  {
    var files := DockerFiles(c, image, configDigest, tag);
    var sorted := SortByKey(files);
    DockerFilesNames(c, image, configDigest, tag);
    SortSpec(files);
    GetSorted(files, "");
    forall i | 0 <= i < |sorted| ensures WritableName(sorted[i].key) {
      assert sorted[i] in files;
      var j :| 0 <= j < |files| && files[j] == sorted[i];
    }
  }

  lemma DockerTable(c: Codec, image: Image, configDigest: string, tag: string)
    requires Lawful(c) && IsDigest(configDigest)
    requires |DockerBytes(c, image, configDigest, tag)| <= MAX_DOCKER_ARCHIVE_BYTES
    ensures TableOk(DockerEntries(c, image, configDigest, tag), MAX_DOCKER_ARCHIVE_BYTES)
            <==> |image.layers| + 2 <= 128
  {
    SortedWritable(c, image, configDigest, tag);
    DockerUntars(c, image, configDigest, tag);
    var es := DockerEntries(c, image, configDigest, tag);
    forall i | 0 <= i < |es| ensures EntryOk(es[i], MAX_DOCKER_ARCHIVE_BYTES) && Normalized(es[i]) == es[i].name {
    }
  }

  // ---------------------------------------------------------------------------
  // The image the written archive denotes

  function ManifestBytes(c: Codec, image: Image, configDigest: string, tag: string): bytes
    requires |configDigest| >= 7
  {
    c.dumps(LegacyManifest(configDigest, tag, |image.layers|))
  }

  function LegacyViews(c: Codec, layers: seq<bytes>): seq<Option<bytes>> {
    seq(|layers|, i requires 0 <= i < |layers| => LegacyExpand(c, layers[i]))
  }

  lemma ManifestFields(configDigest: string, tag: string, layers: nat)
    requires |configDigest| >= 7
    ensures WellFormed(LegacyManifest(configDigest, tag, layers))
    ensures
      var record := LegacyManifest(configDigest, tag, layers).items[0];
      Keys(record.members) == {"Config", "RepoTags", "Layers"} &&
      At(record, "Config") == Some(Str(ConfigName(configDigest))) &&
      At(record, "RepoTags") == Some(TextArray([tag])) &&
      At(record, "Layers") == Some(Arr(seq(layers, i requires 0 <= i < layers => Str(LayerName(i)))))
  {
    var record := LegacyManifest(configDigest, tag, layers).items[0];
    var ms := record.members;
    assert ms[0].key == "Config" && ms[1].key == "RepoTags" && ms[2].key == "Layers";
    assert forall i | 0 <= i < |ms| :: WellFormed(ms[i].value);
    assert WellFormed(record);
    GetAt(ms, 0);
    GetAt(ms, 1);
    GetAt(ms, 2);
  }

  lemma RecordWritten(c: Codec, image: Image, configDigest: string, tag: string)
    requires Lawful(c) && IsDigest(configDigest)
    ensures LegacyRecord(c, DockerEntries(c, image, configDigest, tag))
         == if |ManifestBytes(c, image, configDigest, tag)| <= 65536
            then Some(LegacyManifest(configDigest, tag, |image.layers|).items[0]) else None
  {
    DockerLookup(c, image, configDigest, tag, 0);
    ManifestFields(configDigest, tag, |image.layers|);
  }

  lemma LayerWritten(c: Codec, image: Image, configDigest: string, tag: string, i: nat)
    requires Lawful(c) && IsDigest(configDigest) && i < |image.layers|
    requires |DockerBytes(c, image, configDigest, tag)| <= MAX_DOCKER_ARCHIVE_BYTES
    ensures ReadNamed(DockerEntries(c, image, configDigest, tag), Str(LayerName(i)), MAX_DOCKER_ARCHIVE_BYTES)
         == Some(image.layers[i])
  {
    hide LayerName, SortByKey, Split;
    var files := DockerFiles(c, image, configDigest, tag);
    assert files[i + 2] == Pair(LayerName(i), image.layers[i]);
    DockerLookup(c, image, configDigest, tag, i + 2);
    LayerNameWritable(i);
    DockerUntars(c, image, configDigest, tag);
    SortSpec(files);
    assert files[i + 2] in SortByKey(files);
  }

  lemma ConfigWritten(c: Codec, image: Image, configDigest: string, tag: string, limit: int)
    requires IsDigest(configDigest)
    ensures ReadNamed(DockerEntries(c, image, configDigest, tag), Str(ConfigName(configDigest)), limit)
         == if |image.config| <= limit then Some(image.config) else None
  {
    var files := DockerFiles(c, image, configDigest, tag);
    assert files[1] == Pair(ConfigName(configDigest), image.config);
    DockerLookup(c, image, configDigest, tag, 1);
    ConfigNameWritable(configDigest);
  }

  /** The written archive denotes the image with each layer as a legacy reader sees it. */
  lemma WrittenImage(c: Codec, image: Image, configDigest: string, tag: string)
    requires Lawful(c) && IsDigest(configDigest)
    requires |DockerBytes(c, image, configDigest, tag)| <= MAX_DOCKER_ARCHIVE_BYTES
    ensures LegacyImage(c, DockerEntries(c, image, configDigest, tag), MAX_DOCKER_ARCHIVE_BYTES)
         == if |ManifestBytes(c, image, configDigest, tag)| <= 65536 && |image.config| <= 1048576
               && AllSome(LegacyViews(c, image.layers))
            then Some(Image(image.config, Values(LegacyViews(c, image.layers)))) else None
  {
    var es := DockerEntries(c, image, configDigest, tag);
    RecordWritten(c, image, configDigest, tag);
    ConfigWritten(c, image, configDigest, tag, 1048576);
    var record := LegacyManifest(configDigest, tag, |image.layers|).items[0];
    ManifestFields(configDigest, tag, |image.layers|);
    var names := At(record, "Layers").value.items;
    var contents, views := LegacyContents(c, es, names, MAX_DOCKER_ARCHIVE_BYTES), LegacyViews(c, image.layers);
    forall i | 0 <= i < |names| ensures contents[i] == views[i] {
      LayerWritten(c, image, configDigest, tag, i);
    }
    assert contents == views;
  }

  predicate NoGzipLayer(layers: seq<bytes>) {
    forall i | 0 <= i < |layers| :: !GzipMagic(layers[i])
  }

  lemma PlainViews(c: Codec, layers: seq<bytes>)
    requires NoGzipLayer(layers)
    ensures AllSome(LegacyViews(c, layers)) && Values(LegacyViews(c, layers)) == layers
  {
  }

  // ---------------------------------------------------------------------------
  // The self-check

  /** What a caller can check before converting, the layers' first bytes aside. */
  predicate SizesAndTag(c: Codec, image: Image, configDigest: string, diffIds: seq<string>, tag: string)
    requires |configDigest| >= 7
  {
    TagOk(tag) && |diffIds| > 0 && |image.config| <= 1048576 &&
    |ManifestBytes(c, image, configDigest, tag)| <= 65536 && |image.layers| + 2 <= 128 &&
    |DockerBytes(c, image, configDigest, tag)| <= MAX_DOCKER_ARCHIVE_BYTES
  }

  /** A legacy reader takes a layer that begins with the gzip magic for a compressed one. It still
      reads the same DiffID only if the layer decompresses to content of the same digest. */
  predicate GzipLayersRehash(c: Codec, layers: seq<bytes>) {
    forall i | 0 <= i < |layers| :: GzipMagic(layers[i]) ==>
      c.gunzip(layers[i]).Some? && c.digest(c.gunzip(layers[i]).value) == c.digest(layers[i])
  }

  lemma LegacyDigestsAgree(c: Codec, layers: seq<bytes>, diffIds: seq<string>)
    requires DiffIdsOk(c, layers, diffIds)
    ensures AllSome(LegacyViews(c, layers)) && DiffIdsOk(c, Values(LegacyViews(c, layers)), diffIds)
            <==> GzipLayersRehash(c, layers)
  {
    var views := LegacyViews(c, layers);
    if AllSome(views) && DiffIdsOk(c, Values(views), diffIds) {
      forall i | 0 <= i < |layers| && GzipMagic(layers[i])
        ensures c.gunzip(layers[i]).Some? && c.digest(c.gunzip(layers[i]).value) == c.digest(layers[i])
      {
        assert views[i].Some? && c.digest(Values(views)[i]) == diffIds[i];
      }
    }
    if GzipLayersRehash(c, layers) {
      forall i | 0 <= i < |views| ensures views[i].Some? && c.digest(views[i].value) == diffIds[i] { }
    }
  }

  /** The legacy reading of the written archive is accepted exactly when it can be made, its
      manifest and configuration are within the parser's limits, and its layers keep their DiffIDs. */
  lemma WrittenLegacyOk(c: Codec, image: Image, configDigest: string, diffIds: seq<string>, tag: string)
    requires Lawful(c) && IsDigest(configDigest)
    requires c.digest(image.config) == configDigest && ConfigOk(c.loads(image.config), Pins(configDigest, diffIds, ""))
    requires DiffIdsOk(c, image.layers, diffIds)
    requires |DockerBytes(c, image, configDigest, tag)| <= MAX_DOCKER_ARCHIVE_BYTES
    ensures LegacyOk(c, DockerEntries(c, image, configDigest, tag), Pins(configDigest, diffIds, tag),
                     MAX_DOCKER_ARCHIVE_BYTES)
            <==> |ManifestBytes(c, image, configDigest, tag)| <= 65536 && |image.config| <= 1048576 &&
                 GzipLayersRehash(c, image.layers)
  {
    WrittenImage(c, image, configDigest, tag);
    RecordWritten(c, image, configDigest, tag);
    ManifestFields(configDigest, tag, |image.layers|);
    LegacyDigestsAgree(c, image.layers, diffIds);
    assert TagsOk(LegacyManifest(configDigest, tag, |image.layers|).items[0], Pins(configDigest, diffIds, tag));
    assert ConfigOk(c.loads(image.config), Pins(configDigest, diffIds, tag));
  }

  lemma PinsOk(c: Codec, image: Image, configDigest: string, diffIds: seq<string>, tag: string)
    requires DigestLaw(c) && IsDigest(configDigest) && DiffIdsOk(c, image.layers, diffIds)
    ensures ExpectedOk(Pins(configDigest, diffIds, tag)) <==> TagOk(tag) && |diffIds| > 0
  {
    assert forall i | 0 <= i < |diffIds| :: IsDigest(c.digest(image.layers[i]));
  }

  /** The self-check passes exactly under the size and tag conditions, when every layer that looks
      compressed re-hashes and the legacy reading of the layers fits the budget. */
  lemma SelfCheckDecides(c: Codec, image: Image, configDigest: string, diffIds: seq<string>, tag: string)
    requires Lawful(c) && IsDigest(configDigest)
    requires c.digest(image.config) == configDigest && ConfigOk(c.loads(image.config), Pins(configDigest, diffIds, ""))
    requires DiffIdsOk(c, image.layers, diffIds)
    ensures SelfCheck(c, image, configDigest, diffIds, tag) <==>
      SizesAndTag(c, image, configDigest, diffIds, tag) && GzipLayersRehash(c, image.layers) &&
      (AllSome(LegacyViews(c, image.layers)) ==>
        Total(Values(LegacyViews(c, image.layers))) <= MAX_EXPANDED_LAYER_BYTES)
  {
    var es := DockerEntries(c, image, configDigest, tag);
    DockerUntars(c, image, configDigest, tag);
    PinsOk(c, image, configDigest, diffIds, tag);
    if |DockerBytes(c, image, configDigest, tag)| <= MAX_DOCKER_ARCHIVE_BYTES {
      DockerTable(c, image, configDigest, tag);
      DockerAbsent(c, image, configDigest, tag);
      DockerLookup(c, image, configDigest, tag, 0);
      WrittenImage(c, image, configDigest, tag);
      WrittenLegacyOk(c, image, configDigest, diffIds, tag);
      WrittenParts(c, es, Pins(configDigest, diffIds, tag));
    }
  }

  /** Without an index, acceptance of content is acceptance of its legacy part within the budget. */
  lemma WrittenParts(c: Codec, es: seq<Entry>, exp: Expected)
    requires !HasIndex(es) && HasLegacy(es)
    ensures ContentOk(c, es, exp, MAX_DOCKER_ARCHIVE_BYTES, MAX_EXPANDED_LAYER_BYTES) <==>
      TableOk(es, MAX_DOCKER_ARCHIVE_BYTES) && LegacyOk(c, es, exp, MAX_DOCKER_ARCHIVE_BYTES) &&
      Expansion(LegacyImage(c, es, MAX_DOCKER_ARCHIVE_BYTES)) <= MAX_EXPANDED_LAYER_BYTES
  {
  }

  lemma PinnedImage(c: Codec, es: seq<Entry>, configDigest: string, diffIds: seq<string>)
    requires ContentPinned(c, es, configDigest, diffIds)
    ensures IsDigest(configDigest) && c.digest(SourceImage(c, es).value.config) == configDigest
  {
  }

  /** For every convertible archive the self-check comes down to the conditions above; when no
      layer begins with the gzip magic, to the size and tag conditions alone. */
  lemma SelfCheckRedundant(c: Codec, archive: bytes, configDigest: string, diffIds: seq<string>, tag: string)
    requires Lawful(c) && Convertible(c, archive, configDigest, diffIds)
    ensures
      var image := ConvertedImage(c, archive);
      IsDigest(configDigest) &&
      (NoGzipLayer(image.layers) ==>
        (SelfCheck(c, image, configDigest, diffIds, tag) <==> SizesAndTag(c, image, configDigest, diffIds, tag))) &&
      (SelfCheck(c, image, configDigest, diffIds, tag) ==>
        SizesAndTag(c, image, configDigest, diffIds, tag) && GzipLayersRehash(c, image.layers))
  {
    hide SelfCheck;
    var image := ConvertedImage(c, archive);
    PinnedImage(c, c.untar(SubsetBytes(c, archive)).value, configDigest, diffIds);
    SelfCheckDecides(c, image, configDigest, diffIds, tag);
    if NoGzipLayer(image.layers) { PlainViews(c, image.layers); }
  }

  /** The converter's image is the one the source archive's own chain denotes, as long as the part of the index
      it reads is the document the whole index is. */
  lemma ConvertsSourceImage(c: Codec, archive: bytes, configDigest: string, diffIds: seq<string>)
    requires Lawful(c) && Convertible(c, archive, configDigest, diffIds)
    requires var raw := Read(c.untar(archive).value, "index.json", MAX_ARCHIVE_BYTES).value;
             c.loads(Take(raw, INDEX_READ)) == c.loads(raw)
    ensures
      var es := c.untar(archive).value;
      OciImage(c, es, Chain(c, es).value, MAX_ARCHIVE_BYTES) == Some(ConvertedImage(c, archive))
  {
    var es := c.untar(archive).value;
    SubsetUntars(c, archive);
    SubsetChain(c, es);
    SubsetReads(c, es, "index.json", MAX_ARCHIVE_BYTES);
    ImageKept(c, es, MAX_ARCHIVE_BYTES);
  }

  /** What is read of the index of a convertible archive is the whole document, however long the index is. */
  lemma IndexReadWhole(c: Codec, archive: bytes, configDigest: string, diffIds: seq<string>)
    requires Lawful(c) && PrefixLaw(c) && Convertible(c, archive, configDigest, diffIds)
    ensures var raw := Read(c.untar(archive).value, "index.json", MAX_ARCHIVE_BYTES).value;
            c.loads(Take(raw, INDEX_READ)) == c.loads(raw)
  {
    var es := c.untar(archive).value;
    var raw := Read(es, "index.json", MAX_ARCHIVE_BYTES).value;
    SubsetUntars(c, archive);
    SubsetReads(c, es, "index.json", MAX_ARCHIVE_BYTES);
    assert IndexDescriptor(c, raw).Some?;
    assert IndexDescriptor(c, Take(raw, INDEX_READ)).Some?;
  }

  /** Every convertible archive is converted to the image its own chain denotes. */
  lemma ConvertsEverySource(c: Codec, archive: bytes, configDigest: string, diffIds: seq<string>)
    requires Lawful(c) && PrefixLaw(c) && Convertible(c, archive, configDigest, diffIds)
    ensures
      var es := c.untar(archive).value;
      OciImage(c, es, Chain(c, es).value, MAX_ARCHIVE_BYTES) == Some(ConvertedImage(c, archive))
  {
    hide Read, Convertible, OciImage, Chain;
    IndexReadWhole(c, archive, configDigest, diffIds);
    ConvertsSourceImage(c, archive, configDigest, diffIds);
  }

  /** A layer that looks compressed does not share its digest with a different expansion of it. */
  predicate NoGzipCollision(c: Codec, layers: seq<bytes>) {
    forall i | 0 <= i < |layers| && GzipMagic(layers[i]) && c.gunzip(layers[i]).Some? ::
      c.digest(c.gunzip(layers[i]).value) == c.digest(layers[i]) ==> c.gunzip(layers[i]).value == layers[i]
  }

  lemma RehashedViews(c: Codec, layers: seq<bytes>)
    requires GzipLayersRehash(c, layers) && NoGzipCollision(c, layers)
    ensures AllSome(LegacyViews(c, layers)) && Values(LegacyViews(c, layers)) == layers
  {
  }

  lemma RehashedReadsBack(c: Codec, image: Image, configDigest: string, diffIds: seq<string>, tag: string)
    requires Lawful(c) && IsDigest(configDigest) && SizesAndTag(c, image, configDigest, diffIds, tag)
    requires GzipLayersRehash(c, image.layers) && NoGzipCollision(c, image.layers)
    ensures
      var written := c.untar(DockerBytes(c, image, configDigest, tag));
      written.Some? && LegacyImage(c, written.value, MAX_DOCKER_ARCHIVE_BYTES) == Some(image)
  {
    hide LegacyImage, GzipLayersRehash, NoGzipCollision, DockerBytes, DockerEntries, LegacyViews, IsDigest, TagOk;
    hide Lawful;
    DockerUntars(c, image, configDigest, tag);
    WrittenImage(c, image, configDigest, tag);
    RehashedViews(c, image.layers);
  }

  /** Whatever the converter returns, read back as a Docker archive, denotes the image it converted. */
  lemma ReturnedDenotesImage(c: Codec, archive: bytes, configDigest: string, diffIds: seq<string>, tag: string)
    requires Lawful(c) && Convertible(c, archive, configDigest, diffIds) && IsDigest(configDigest)
    requires SelfCheck(c, ConvertedImage(c, archive), configDigest, diffIds, tag)
    requires NoGzipCollision(c, ConvertedImage(c, archive).layers)
    ensures
      var image := ConvertedImage(c, archive);
      var written := c.untar(DockerBytes(c, image, configDigest, tag));
      written.Some? && LegacyImage(c, written.value, MAX_DOCKER_ARCHIVE_BYTES) == Some(image)
  {
    hide SelfCheck, LegacyImage, GzipLayersRehash, NoGzipCollision, DockerBytes, SizesAndTag;
    SelfCheckRedundant(c, archive, configDigest, diffIds, tag);
    RehashedReadsBack(c, ConvertedImage(c, archive), configDigest, diffIds, tag);
  }

  /** Conversion preserves the image: the configuration bytes are unchanged, the i-th layer file is
      the expansion of the i-th source layer, and, read back, the archive denotes that image: always when no
      layer looks compressed, and otherwise whenever the self-check passes. */
  lemma ConversionPreservesImage(c: Codec, archive: bytes, configDigest: string, diffIds: seq<string>, tag: string,
                                 i: nat)
    requires Lawful(c) && Convertible(c, archive, configDigest, diffIds) && IsDigest(configDigest)
    requires |DockerBytes(c, ConvertedImage(c, archive), configDigest, tag)| <= MAX_DOCKER_ARCHIVE_BYTES
    ensures
      var image := ConvertedImage(c, archive);
      var written := c.untar(DockerBytes(c, image, configDigest, tag));
      written.Some? &&
      ReadNamed(written.value, Str(ConfigName(configDigest)), |image.config|) == Some(image.config) &&
      (i < |image.layers| ==>
        ReadNamed(written.value, Str(LayerName(i)), MAX_DOCKER_ARCHIVE_BYTES) == Some(image.layers[i])) &&
      (SizesAndTag(c, image, configDigest, diffIds, tag) && NoGzipLayer(image.layers) ==>
        LegacyImage(c, written.value, MAX_DOCKER_ARCHIVE_BYTES) == Some(image)) &&
      (SelfCheck(c, image, configDigest, diffIds, tag) && NoGzipCollision(c, image.layers) ==>
        LegacyImage(c, written.value, MAX_DOCKER_ARCHIVE_BYTES) == Some(image))
  {
    hide SelfCheck, NoGzipCollision, LegacyImage, TagOk;
    var image := ConvertedImage(c, archive);
    DockerUntars(c, image, configDigest, tag);
    ConfigWritten(c, image, configDigest, tag, |image.config|);
    if i < |image.layers| { LayerWritten(c, image, configDigest, tag, i); }
    WrittenImage(c, image, configDigest, tag);
    if NoGzipLayer(image.layers) { PlainViews(c, image.layers); }
    if SelfCheck(c, image, configDigest, diffIds, tag) && NoGzipCollision(c, image.layers) {
      ReturnedDenotesImage(c, archive, configDigest, diffIds, tag);
    }
  }
}
