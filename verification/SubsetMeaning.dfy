/** What extraction keeps: exactly the reachable content, the denoted image, the parser's verdict. */
module SubsetMeaning {
  import opened Base
  import opened CanonicalJson
  import opened ImageArchive
  import opened PortableParser
  import opened OciSubset

  /** index.json and the blobs a resolved chain's descriptors name. */
  predicate Reachable(r: Resolved, name: string) {
    name == "index.json" ||
    exists i :: 0 <= i < |Descriptors(r)| && DescriptorOk(Descriptors(r)[i], MAX_ARCHIVE_BYTES)
                && NameOf(Descriptors(r)[i]) == name
  }

  /** The `selected` dictionary holds the index and each named blob, with the source's content. */
  lemma SelectedSpec(c: Codec, es: seq<Entry>, indexRaw: bytes, ds: seq<Json>, name: string)
    requires BlobsPresent(c, es, ds) && Read(es, "index.json", MAX_ARCHIVE_BYTES) == Some(indexRaw)
    ensures DistinctKeys(Selected(c, es, indexRaw, ds))
    ensures Get(Selected(c, es, indexRaw, ds), name).Some? <==>
            name == "index.json" || exists i :: 0 <= i < |ds| && NameOf(ds[i]) == name
    ensures Get(Selected(c, es, indexRaw, ds), name).Some? ==>
            Get(Selected(c, es, indexRaw, ds), name) == Read(es, name, MAX_ARCHIVE_BYTES)
  {
    hide Blob, DescriptorOk, Read, Selected;
    SelectedDistinct(c, es, indexRaw, ds);
    SelectedHolds(c, es, indexRaw, ds, name);
    forall i | 0 <= i < |ds| ensures DescriptorOk(ds[i], MAX_ARCHIVE_BYTES) { BlobNamed(c, es, ds[i]); }
  }

  /** The entries of the extracted archive. */
  function SubsetEntries(c: Codec, es: seq<Entry>): seq<Entry>
    requires Chain(c, es).Some?
  {
    Written(SubsetFiles(c, es))
  }

  /** A name every reader of archives takes, and not the legacy manifest's. */
  predicate PlainMember(name: string) {
    TarName(name) && name != "" && '\\' !in name && name != "manifest.json"
  }

  lemma ReachablePlain(c: Codec, es: seq<Entry>, name: string)
    requires Chain(c, es).Some? && Reachable(Chain(c, es).value, name)
    ensures PlainMember(name)
  {
    if name == "index.json" {
      PlainNamePosix("index.json");
    } else {
      var ds := Descriptors(Chain(c, es).value);
      var j :| 0 <= j < |ds| && DescriptorOk(ds[j], MAX_ARCHIVE_BYTES) && NameOf(ds[j]) == name;
      BlobNamePosix(At(ds[j], "digest").value.s);
    }
  }

  lemma SubsetFileReachable(c: Codec, es: seq<Entry>, i: nat)
    requires Chain(c, es).Some? && i < |SubsetFiles(c, es)|
    ensures Reachable(Chain(c, es).value, SubsetFiles(c, es)[i].key)
  {
    ChainBlobs(c, es);
    var raw := Read(es, "index.json", MAX_ARCHIVE_BYTES).value;
    var ds := Descriptors(Chain(c, es).value);
    var sel := Selected(c, es, raw, ds);
    var file := SubsetFiles(c, es)[i];
    SelectedSpec(c, es, raw, ds, file.key);
    SortSpec(sel);
    assert file in SortByKey(sel);
    GetIffMember(sel, file.key, file.value);
    if file.key != "index.json" {
      var j :| 0 <= j < |ds| && NameOf(ds[j]) == file.key;
      assert Blob(c, es, ds[j], MAX_ARCHIVE_BYTES).Some?;
    }
  }

  lemma SubsetFilesNames(c: Codec, es: seq<Entry>)
    requires Chain(c, es).Some?
    ensures DistinctKeys(SubsetFiles(c, es))
    ensures forall i :: 0 <= i < |SubsetFiles(c, es)| ==> PlainMember(SubsetFiles(c, es)[i].key)
  {
    ChainBlobs(c, es);
    var raw := Read(es, "index.json", MAX_ARCHIVE_BYTES).value;
    SelectedSpec(c, es, raw, Descriptors(Chain(c, es).value), "index.json");
    GetSorted(Selected(c, es, raw, Descriptors(Chain(c, es).value)), "index.json");
    forall i | 0 <= i < |SubsetFiles(c, es)| ensures PlainMember(SubsetFiles(c, es)[i].key) {
      SubsetFileReachable(c, es, i);
      ReachablePlain(c, es, SubsetFiles(c, es)[i].key);
    }
  }

  /** The extracted archive lists exactly the reachable names, each with the source's content. */
  lemma SubsetKeepsReachable(c: Codec, archive: bytes, name: string, limit: int)
    requires Lawful(c) && Extractable(c, archive) && limit <= MAX_ARCHIVE_BYTES
    ensures
      var es := c.untar(archive).value;
      c.untar(SubsetBytes(c, archive)) == Some(SubsetEntries(c, es)) &&
      (Find(SubsetEntries(c, es), name).Some? <==> Reachable(Chain(c, es).value, name)) &&
      Read(SubsetEntries(c, es), name, limit)
        == if Reachable(Chain(c, es).value, name) then Read(es, name, limit) else None
  {
    var es := c.untar(archive).value;
    SubsetFilesNames(c, es);
    SubsetReads(c, es, name, limit);
  }

  lemma SubsetReads(c: Codec, es: seq<Entry>, name: string, limit: int)
    requires Chain(c, es).Some? && limit <= MAX_ARCHIVE_BYTES
    ensures Find(SubsetEntries(c, es), name).Some? <==> Reachable(Chain(c, es).value, name)
    ensures Read(SubsetEntries(c, es), name, limit)
         == if Reachable(Chain(c, es).value, name) then Read(es, name, limit) else None
  {
    ChainBlobs(c, es);
    var r := Chain(c, es).value;
    var raw := Read(es, "index.json", MAX_ARCHIVE_BYTES).value;
    var ds := Descriptors(r);
    SelectedSpec(c, es, raw, ds, name);
    GetSorted(Selected(c, es, raw, ds), name);
    FindWritten(SubsetFiles(c, es), name);
    if Reachable(r, name) && name != "index.json" {
      var i :| 0 <= i < |ds| && DescriptorOk(ds[i], MAX_ARCHIVE_BYTES) && NameOf(ds[i]) == name;
      assert Blob(c, es, ds[i], MAX_ARCHIVE_BYTES).Some?;
    }
  }

  /** Every blob of the chain verifies in the extracted archive as it does in the source. */
  lemma BlobKept(c: Codec, es: seq<Entry>, i: nat, limit: int)
    requires Chain(c, es).Some? && i < |Descriptors(Chain(c, es).value)| && limit <= MAX_ARCHIVE_BYTES
    ensures Blob(c, SubsetEntries(c, es), Descriptors(Chain(c, es).value)[i], limit)
         == Blob(c, es, Descriptors(Chain(c, es).value)[i], limit)
  {
    var d := Descriptors(Chain(c, es).value)[i];
    ChainBlobs(c, es);
    assert Blob(c, es, d, MAX_ARCHIVE_BYTES).Some?;
    SubsetReads(c, es, NameOf(d), limit);
  }

  /** The chain resolves alike in both archives, under any limits up to the archive limit. */
  lemma ChainKept(c: Codec, es: seq<Entry>, sizes: Sizes)
    requires Chain(c, es).Some?
    requires sizes.manifest <= MAX_ARCHIVE_BYTES && sizes.config <= MAX_ARCHIVE_BYTES &&
      sizes.layer <= MAX_ARCHIVE_BYTES
    ensures
      var raw := Read(es, "index.json", MAX_ARCHIVE_BYTES).value;
      Resolve(c, SubsetEntries(c, es), raw, sizes) == Resolve(c, es, raw, sizes)
  {
    var r := Chain(c, es).value;
    var sub := SubsetEntries(c, es);
    BlobKept(c, es, 0, sizes.manifest);
    BlobKept(c, es, 1, sizes.config);
    assert Descriptors(r)[1] == At(r.manifest, "config").value;
    forall i | 0 <= i < |r.layers|
      ensures Blob(c, sub, r.layers[i], sizes.layer) == Blob(c, es, r.layers[i], sizes.layer)
    {
      assert Descriptors(r)[i + 2] == r.layers[i];
      BlobKept(c, es, i + 2, sizes.layer);
    }
    WiderSizes(c, es, Read(es, "index.json", MAX_ARCHIVE_BYTES).value, sizes);
  }

  /** A chain that resolves under some limits is the one that resolves under wider ones. */
  lemma WiderSizes(c: Codec, es: seq<Entry>, raw: bytes, sizes: Sizes)
    requires Resolve(c, es, raw, WIDE).Some?
    requires sizes.manifest <= MAX_ARCHIVE_BYTES && sizes.config <= MAX_ARCHIVE_BYTES &&
      sizes.layer <= MAX_ARCHIVE_BYTES
    ensures Resolve(c, es, raw, sizes).Some? ==> Resolve(c, es, raw, sizes) == Resolve(c, es, raw, WIDE)
    ensures ManifestOf(c, es, IndexDescriptor(c, raw).value, sizes.manifest).Some? ==>
            ManifestOf(c, es, IndexDescriptor(c, raw).value, sizes.manifest).value.1
            == Resolve(c, es, raw, WIDE).value.manifest
  {
  }

  /** The extracted archive denotes the source's image. */
  lemma ImageKept(c: Codec, es: seq<Entry>, limit: int)
    requires Chain(c, es).Some? && limit <= MAX_ARCHIVE_BYTES
    ensures OciImage(c, SubsetEntries(c, es), Chain(c, es).value, limit) == OciImage(c, es, Chain(c, es).value, limit)
  {
    var r := Chain(c, es).value;
    forall i | 0 <= i < |r.layers|
      ensures OciLayer(c, SubsetEntries(c, es), r.layers[i], limit) == OciLayer(c, es, r.layers[i], limit)
    {
      assert Descriptors(r)[i + 2] == r.layers[i];
      BlobKept(c, es, i + 2, limit);
    }
    assert OciContents(c, SubsetEntries(c, es), r.layers, limit) == OciContents(c, es, r.layers, limit);
  }

  // ---------------------------------------------------------------------------
  // Idempotence

  lemma EntryNamesCount(es: seq<Entry>)
    ensures |set i | 0 <= i < |es| :: es[i].name| <= |es|
  {
    if es != [] {
      EntryNamesCount(es[1..]);
      var all, rest := set i | 0 <= i < |es| :: es[i].name, set i | 0 <= i < |es[1..]| :: es[1..][i].name;
      forall x | x in all ensures x in {es[0].name} + rest {
        var i :| 0 <= i < |es| && es[i].name == x;
        assert i > 0 ==> es[1..][i - 1].name == x;
      }
      assert all <= {es[0].name} + rest;
      SubsetCount(all, {es[0].name} + rest);
    }
  }

  lemma SubsetCount<T>(a: set<T>, b: set<T>)
    requires a <= b
    ensures |a| <= |b|
  {
    if a != b { SmallerSubset(a, b); }
  }

  /** Extraction never lists more members than the source had. */
  lemma SubsetNoLarger(c: Codec, es: seq<Entry>)
    requires Chain(c, es).Some?
    ensures 0 < |SubsetFiles(c, es)| <= |es|
  {
    var files := SubsetFiles(c, es);
    var names := set i | 0 <= i < |es| :: es[i].name;
    SubsetFilesNames(c, es);
    forall x | x in Keys(files) ensures x in names {
      var i :| 0 <= i < |files| && files[i].key == x;
      SubsetFileReachable(c, es, i);
      ReachableListed(c, es, x);
      FindSound(es, x);
    }
    KeysCount(files);
    SubsetCount(Keys(files), names);
    EntryNamesCount(es);
    SubsetReads(c, es, "index.json", MAX_ARCHIVE_BYTES);
    assert files == [] ==> Written(files) == [];
  }

  lemma ReachableListed(c: Codec, es: seq<Entry>, name: string)
    requires Chain(c, es).Some? && Reachable(Chain(c, es).value, name)
    ensures Find(es, name).Some?
  {
    ChainBlobs(c, es);
    if name != "index.json" {
      var ds := Descriptors(Chain(c, es).value);
      var j :| 0 <= j < |ds| && DescriptorOk(ds[j], MAX_ARCHIVE_BYTES) && NameOf(ds[j]) == name;
      assert Blob(c, es, ds[j], MAX_ARCHIVE_BYTES).Some?;
    }
  }

  lemma SubsetNamesOk(c: Codec, es: seq<Entry>)
    requires Chain(c, es).Some? && |es| <= 128
    ensures NamesOk(SubsetEntries(c, es))
  {
    SubsetFilesNames(c, es);
    SubsetNoLarger(c, es);
  }

  lemma {:induction false} SelectedKept(c: Codec, es: seq<Entry>, k: nat)
    requires Chain(c, es).Some? && k <= |Descriptors(Chain(c, es).value)|
    ensures
      var ds, sub := Descriptors(Chain(c, es).value)[..k], SubsetEntries(c, es);
      var raw := Read(es, "index.json", MAX_ARCHIVE_BYTES).value;
      BlobsPresent(c, es, ds) && BlobsPresent(c, sub, ds) && Selected(c, sub, raw, ds) == Selected(c, es, raw, ds)
  {
    ChainBlobs(c, es);
    if k > 0 {
      var all := Descriptors(Chain(c, es).value);
      SelectedKept(c, es, k - 1);
      BlobKept(c, es, k - 1, MAX_ARCHIVE_BYTES);
      assert all[..k][..k - 1] == all[..k - 1];
      assert Blob(c, es, all[k - 1], MAX_ARCHIVE_BYTES).Some?;
      forall i | 0 <= i < k ensures Blob(c, SubsetEntries(c, es), all[..k][i], MAX_ARCHIVE_BYTES).Some? {
        assert i < k - 1 ==> all[..k][i] == all[..k - 1][i];
      }
    }
  }

  lemma SubsetChain(c: Codec, es: seq<Entry>)
    requires Chain(c, es).Some?
    ensures Chain(c, SubsetEntries(c, es)) == Chain(c, es)
    ensures SubsetFiles(c, SubsetEntries(c, es)) == SubsetFiles(c, es)
  {
    SubsetReads(c, es, "index.json", MAX_ARCHIVE_BYTES);
    ChainKept(c, es, WIDE);
    var all := Descriptors(Chain(c, es).value);
    SelectedKept(c, es, |all|);
    assert all[..|all|] == all;
  }

  lemma SubsetUntars(c: Codec, archive: bytes)
    requires Lawful(c) && Extractable(c, archive)
    ensures c.untar(SubsetBytes(c, archive)) == Some(SubsetEntries(c, c.untar(archive).value))
    ensures SubsetBytes(c, archive) != []
    ensures var files := SubsetFiles(c, c.untar(archive).value);
            forall i :: 0 <= i < |files| ==> |files[i].value| <= |SubsetBytes(c, archive)|
  {
    SubsetFilesNames(c, c.untar(archive).value);
  }

  /** Extracting twice is extracting once. */
  lemma SubsetIdempotent(c: Codec, archive: bytes)
    requires Lawful(c) && SubsetOk(c, archive)
    ensures SubsetOk(c, SubsetBytes(c, archive))
    ensures SubsetBytes(c, SubsetBytes(c, archive)) == SubsetBytes(c, archive)
  {
    var es := c.untar(archive).value;
    SubsetUntars(c, archive);
    SubsetNamesOk(c, es);
    SubsetChain(c, es);
  }

  // ---------------------------------------------------------------------------
  // The parser's verdict

  /** The one kind of name the parser takes and the extractor does not. */
  predicate NoTrailingSlash(es: seq<Entry>) {
    forall i | 0 <= i < |es| :: es[i].kind == Directory && es[i].name != "" ==> es[i].name[|es[i].name| - 1] != '/'
  }

  lemma {:induction false} SplitTrailing(s: string)
    requires s != "" && s[|s| - 1] == '/'
    ensures Split(s)[|Split(s)| - 1] == "" && |Split(s)| >= 2
  {
    if |s| > 1 { SplitTrailing(s[1..]); }
  }

  lemma TableNames(es: seq<Entry>, max: int)
    requires TableOk(es, max)
    ensures NamesOk(es) <==> NoTrailingSlash(es)
  {
    forall i | 0 <= i < |es|
      ensures PosixName(es[i].name) <==>
              !(es[i].kind == Directory && es[i].name != "" && es[i].name[|es[i].name| - 1] == '/')
    {
      assert EntryOk(es[i], max);
      if es[i].name[|es[i].name| - 1] == '/' {
        SplitTrailing(es[i].name);
        assert Split(es[i].name)[|Split(es[i].name)| - 1] in {"", ".", ".."};
      }
    }
  }

  /** An accepted archive's OCI chain is the one the extractor follows. */
  lemma AcceptedChain(c: Codec, es: seq<Entry>)
    requires OciChain(c, es, MAX_ARCHIVE_BYTES).Some?
    ensures Chain(c, es) == OciChain(c, es, MAX_ARCHIVE_BYTES)
    ensures Read(es, "index.json", 65536) == Read(es, "index.json", MAX_ARCHIVE_BYTES)
  {
  }

  lemma SubsetTable(c: Codec, archive: bytes)
    requires Lawful(c) && SubsetOk(c, archive)
    ensures TableOk(SubsetEntries(c, c.untar(archive).value), MAX_ARCHIVE_BYTES)
    ensures HasIndex(SubsetEntries(c, c.untar(archive).value))
    ensures !HasLegacy(SubsetEntries(c, c.untar(archive).value))
  {
    var es := c.untar(archive).value;
    SubsetUntars(c, archive);
    SubsetNamesOk(c, es);
    SubsetReads(c, es, "index.json", MAX_ARCHIVE_BYTES);
    SubsetReads(c, es, "manifest.json", MAX_ARCHIVE_BYTES);
    if HasLegacy(SubsetEntries(c, es)) { ReachablePlain(c, es, "manifest.json"); }
  }

  lemma OciPartKept(c: Codec, es: seq<Entry>)
    requires OciChain(c, es, MAX_ARCHIVE_BYTES).Some?
    ensures Chain(c, es).Some?
    ensures OciChain(c, SubsetEntries(c, es), MAX_ARCHIVE_BYTES) == OciChain(c, es, MAX_ARCHIVE_BYTES)
    ensures OciPart(c, SubsetEntries(c, es), MAX_ARCHIVE_BYTES) == OciPart(c, es, MAX_ARCHIVE_BYTES)
    ensures Read(SubsetEntries(c, es), "index.json", 65536) == Read(es, "index.json", 65536)
  {
    AcceptedChain(c, es);
    SubsetReads(c, es, "index.json", 65536);
    ChainKept(c, es, ParserSizes(MAX_ARCHIVE_BYTES));
    ImageKept(c, es, MAX_ARCHIVE_BYTES);
  }

  /** For an archive with an index that the parser accepts: extraction succeeds exactly when no
      directory is listed with a trailing slash and the result is within the archive limit; the
      result is then accepted with the same facts, as format "oci", if the index names the
      reference, and otherwise is rejected as unbound. */
  lemma AcceptedSubset(c: Codec, archive: bytes, exp: Expected, maxExpanded: int)
    requires Lawful(c) && Accepts(c, archive, exp, MAX_ARCHIVE_BYTES, maxExpanded)
    requires HasIndex(c.untar(archive).value)
    ensures Extractable(c, archive) <==> NoTrailingSlash(c.untar(archive).value)
    ensures SubsetOk(c, archive) <==>
      Extractable(c, archive) && |SubsetBytes(c, archive)| <= MAX_ARCHIVE_BYTES
    ensures SubsetOk(c, archive) ==>
      var es, subset := c.untar(archive).value, SubsetBytes(c, archive);
      var annotated := Annotated(OciChain(c, es, MAX_ARCHIVE_BYTES).value.descriptor);
      c.untar(subset).Some? &&
      (annotated ==>
        Accepts(c, subset, exp, MAX_ARCHIVE_BYTES, maxExpanded) &&
        FactsOf(c, c.untar(subset).value, exp, MAX_ARCHIVE_BYTES)
          == FactsOf(c, es, exp, MAX_ARCHIVE_BYTES).(format := "oci")) &&
      (!annotated ==>
        Preflight(c, subset, exp, MAX_ARCHIVE_BYTES, maxExpanded) && IndexUnbound(c, c.untar(subset).value))
  {
    hide ExpectedOk, PlatformOk, TextArray, WellFormed;
    var es := c.untar(archive).value;
    TableNames(es, MAX_ARCHIVE_BYTES);
    AcceptedChain(c, es);
    if Extractable(c, archive) {
      SubsetUntars(c, archive);
      OciPartKept(c, es);
    }
    if SubsetOk(c, archive) { SubsetTable(c, archive); }
  }
}
