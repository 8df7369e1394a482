/** make_oci_subset: an archive of index.json and the blobs reachable from it. */
module OciSubset {
  import opened Base
  import opened CanonicalJson
  import opened ImageArchive
  import opened PortableParser

  const WIDE := Sizes(MAX_ARCHIVE_BYTES, MAX_ARCHIVE_BYTES, MAX_ARCHIVE_BYTES)

  predicate NamesOk(es: seq<Entry>) {
    0 < |es| <= 128 && DistinctNames(es) &&
    forall i | 0 <= i < |es| :: es[i].name != "" && '\\' !in es[i].name && PosixName(es[i].name)
  }

  /** The chain as the extractor reads it: every limit is the archive limit. */
  function Chain(c: Codec, es: seq<Entry>): Option<Resolved> {
    var raw := Read(es, "index.json", MAX_ARCHIVE_BYTES);
    if raw.Some? then Resolve(c, es, raw.value, WIDE) else None
  }

  /** Every descriptor of a resolved chain: the manifest's, the configuration's, the layers'. */
  function Descriptors(r: Resolved): seq<Json> {
    [r.descriptor] + [if At(r.manifest, "config").Some? then At(r.manifest, "config").value else Null] + r.layers
  }

  predicate BlobsPresent(c: Codec, es: seq<Entry>, ds: seq<Json>) {
    forall i | 0 <= i < |ds| :: Blob(c, es, ds[i], MAX_ARCHIVE_BYTES).Some?
  }

  function NameOf(d: Json): string
    requires DescriptorOk(d, MAX_ARCHIVE_BYTES)
  {
    BlobName(At(d, "digest").value.s)
  }

  /** The `selected` dictionary after the given descriptors. */
  function Selected(c: Codec, es: seq<Entry>, indexRaw: bytes, ds: seq<Json>): seq<Pair<bytes>>
    requires BlobsPresent(c, es, ds)
  {
    if ds == [] then [Pair("index.json", indexRaw)]
    else
      var last := ds[|ds| - 1];
      Put(Selected(c, es, indexRaw, ds[..|ds| - 1]), NameOf(last), Blob(c, es, last, MAX_ARCHIVE_BYTES).value)
  }

  /** A blob that verifies is the content of the member its descriptor names. */
  lemma BlobNamed(c: Codec, es: seq<Entry>, d: Json)
    requires Blob(c, es, d, MAX_ARCHIVE_BYTES).Some?
    ensures DescriptorOk(d, MAX_ARCHIVE_BYTES) && NameOf(d) != "index.json"
    ensures Read(es, NameOf(d), MAX_ARCHIVE_BYTES) == Blob(c, es, d, MAX_ARCHIVE_BYTES)
  {
    BlobNamePosix(At(d, "digest").value.s);
  }

  lemma {:induction false} SelectedDistinct(c: Codec, es: seq<Entry>, indexRaw: bytes, ds: seq<Json>)
    requires BlobsPresent(c, es, ds)
    ensures DistinctKeys(Selected(c, es, indexRaw, ds))
  {
    hide Blob, DescriptorOk;
    if ds != [] {
      var front, last := ds[..|ds| - 1], ds[|ds| - 1];
      SelectedDistinct(c, es, indexRaw, front);
      BlobNamed(c, es, last);
      PutSpec(Selected(c, es, indexRaw, front), NameOf(last), Blob(c, es, last, MAX_ARCHIVE_BYTES).value);
    }
  }

  /** Some descriptor names this member. */
  predicate Named(ds: seq<Json>, name: string) {
    exists i | 0 <= i < |ds| :: DescriptorOk(ds[i], MAX_ARCHIVE_BYTES) && NameOf(ds[i]) == name
  }

  lemma NamedLast(ds: seq<Json>, name: string)
    requires ds != []
    ensures Named(ds, name) <==>
      Named(ds[..|ds| - 1], name) ||
      (DescriptorOk(ds[|ds| - 1], MAX_ARCHIVE_BYTES) && NameOf(ds[|ds| - 1]) == name)
  {
    hide DescriptorOk;
    var front := ds[..|ds| - 1];
    if Named(front, name) {
      var i :| 0 <= i < |front| && DescriptorOk(front[i], MAX_ARCHIVE_BYTES) && NameOf(front[i]) == name;
      assert ds[i] == front[i];
    }
    if Named(ds, name) {
      var i :| 0 <= i < |ds| && DescriptorOk(ds[i], MAX_ARCHIVE_BYTES) && NameOf(ds[i]) == name;
      if i < |front| { assert front[i] == ds[i]; }
    }
  }

  /** The index, and under each name a descriptor names, what the archive holds there; nothing else. */
  lemma {:induction false} SelectedHolds(c: Codec, es: seq<Entry>, indexRaw: bytes, ds: seq<Json>, name: string)
    requires BlobsPresent(c, es, ds)
    ensures Get(Selected(c, es, indexRaw, ds), name)
         == if name == "index.json" then Some(indexRaw)
            else if Named(ds, name) then Read(es, name, MAX_ARCHIVE_BYTES) else None
    ensures Named(ds, name) ==> Read(es, name, MAX_ARCHIVE_BYTES).Some?
  {
    hide Blob, DescriptorOk, Read, Named;
    if ds == [] {
      NamedNone(name);
      assert Get([Pair("index.json", indexRaw)][1..], name).None?;
    } else {
      var front, last := ds[..|ds| - 1], ds[|ds| - 1];
      SelectedHolds(c, es, indexRaw, front, name);
      BlobNamed(c, es, last);
      GetPut(Selected(c, es, indexRaw, front), NameOf(last), Blob(c, es, last, MAX_ARCHIVE_BYTES).value, name);
      NamedLast(ds, name);
    }
  }

  lemma NamedNone(name: string)
    ensures !Named([], name)
  {
  }

  predicate Extractable(c: Codec, archive: bytes) {
    c.untar(archive).Some? && NamesOk(c.untar(archive).value) && Chain(c, c.untar(archive).value).Some?
  }

  lemma ChainBlobs(c: Codec, es: seq<Entry>)
    requires Chain(c, es).Some?
    ensures BlobsPresent(c, es, Descriptors(Chain(c, es).value))
  {
  }

  /** The files the extractor writes, in name order. */
  function SubsetFiles(c: Codec, es: seq<Entry>): seq<Pair<bytes>>
    requires Chain(c, es).Some?
  {
    ChainBlobs(c, es);
    SortByKey(Selected(c, es, Read(es, "index.json", MAX_ARCHIVE_BYTES).value, Descriptors(Chain(c, es).value)))
  }

  function SubsetBytes(c: Codec, archive: bytes): bytes
    requires Extractable(c, archive)
  {
    c.tar(SubsetFiles(c, c.untar(archive).value))
  }

  predicate SubsetOk(c: Codec, archive: bytes) {
    Extractable(c, archive) && 0 < |SubsetBytes(c, archive)| <= MAX_ARCHIVE_BYTES
  }

  // ---------------------------------------------------------------------------
  // The extractor

  /** _descriptor_name and _read_member and the digest comparison after them: under a hash whose
      digests are well formed these accept exactly the descriptors whose blob verifies. */
  method FetchBlob(c: Codec, es: seq<Entry>, d: Json) returns (r: Option<Pair<bytes>>)
    requires DigestLaw(c)
    ensures r.Some? <==> Blob(c, es, d, MAX_ARCHIVE_BYTES).Some?
    ensures r.Some? ==> r.value == Pair(NameOf(d), Blob(c, es, d, MAX_ARCHIVE_BYTES).value)
  {
    if !d.Obj? { return None; }
    var digest, size := At(d, "digest"), At(d, "size");
    if digest.None? || !digest.value.Str? || |digest.value.s| != 71 || digest.value.s[..7] != "sha256:" { return None; }
    if size.None? || !size.value.Num? || !(0 <= size.value.n <= MAX_ARCHIVE_BYTES) { return None; }
    var name := BlobName(digest.value.s);
    var member := Find(es, name);
    if member.None? || member.value.kind != File || member.value.size != size.value.n { return None; }
    var payload := member.value.data;
    if |payload| != member.value.size { return None; }
    if c.digest(payload) != digest.value.s { return None; }
    return Some(Pair(name, payload));
  }

  method CheckNames(es: seq<Entry>) returns (ok: bool)
    ensures ok <==> NamesOk(es)
  {
    if !(0 < |es| <= 128) { return false; }
    var names: set<string> := {};
    for i := 0 to |es|
      invariant names == set k | 0 <= k < i :: es[k].name
      invariant DistinctNames(es[..i])
    {
      if es[i].name in names {
        var k :| 0 <= k < i && es[k].name == es[i].name;
        return false;
      }
      names := names + {es[i].name};
    }
    assert es[..|es|] == es;
    for i := 0 to |es|
      invariant forall k | 0 <= k < i :: es[k].name != "" && '\\' !in es[k].name && PosixName(es[k].name)
    {
      if es[i].name == "" || '\\' in es[i].name || !PosixName(es[i].name) { return false; }
    }
    return true;
  }

  /** The loop that fills `selected` descriptor by descriptor. */
  method SelectBlobs(c: Codec, es: seq<Entry>, indexRaw: bytes, ds: seq<Json>) returns (r: Option<seq<Pair<bytes>>>)
    requires DigestLaw(c)
    ensures r.Some? <==> BlobsPresent(c, es, ds)
    ensures r.Some? ==> r.value == Selected(c, es, indexRaw, ds)
    // each name once: the index, and what the archive holds under every name a descriptor names
    ensures r.Some? ==> DistinctKeys(r.value)
    ensures r.Some? ==> forall name: string ::
      Get(r.value, name) == if name == "index.json" then Some(indexRaw)
                            else if Named(ds, name) then Read(es, name, MAX_ARCHIVE_BYTES) else None
  {
    hide Read, Named;
    var selected := [Pair("index.json", indexRaw)];
    for i := 0 to |ds|
      invariant BlobsPresent(c, es, ds[..i])
      invariant selected == Selected(c, es, indexRaw, ds[..i])
    {
      var blob := FetchBlob(c, es, ds[i]);
      if blob.None? { return None; }
      assert ds[..i + 1][..i] == ds[..i];
      selected := Put(selected, blob.value.key, blob.value.value);
    }
    assert ds[..|ds|] == ds;
    SelectedDistinct(c, es, indexRaw, ds);
    forall name: string
      ensures Get(selected, name) == if name == "index.json" then Some(indexRaw)
                                     else if Named(ds, name) then Read(es, name, MAX_ARCHIVE_BYTES) else None
    {
      SelectedHolds(c, es, indexRaw, ds, name);
    }
    return Some(selected);
  }

  /** The chain resolves exactly when its links hold and every descriptor's blob is present. */
  lemma ChainUnfolds(c: Codec, es: seq<Entry>, indexRaw: bytes, d: Json, manifest: (bytes, Json), layers: seq<Json>)
    requires Read(es, "index.json", MAX_ARCHIVE_BYTES) == Some(indexRaw)
    requires IndexDescriptor(c, indexRaw) == Some(d)
    requires ManifestOf(c, es, d, MAX_ARCHIVE_BYTES) == Some(manifest)
    requires At(manifest.1, "layers") == Some(Arr(layers))
    ensures
      var config := At(manifest.1, "config");
      var ds := [d] + [if config.Some? then config.value else Null] + layers;
      (Chain(c, es).Some? <==> BlobsPresent(c, es, ds)) &&
      (Chain(c, es).Some? ==> Descriptors(Chain(c, es).value) == ds)
  {
    var config := At(manifest.1, "config");
    var ds := [d] + [if config.Some? then config.value else Null] + layers;
    assert ds[1] == if config.Some? then config.value else Null;
    assert forall i | 0 <= i < |layers| :: ds[i + 2] == layers[i];
    if Chain(c, es).Some? {
      forall i | 0 <= i < |ds| ensures Blob(c, es, ds[i], MAX_ARCHIVE_BYTES).Some? {
        if i >= 2 { assert ds[i] == layers[i - 2]; }
      }
    }
    if BlobsPresent(c, es, ds) {
      assert Blob(c, es, ds[1], MAX_ARCHIVE_BYTES).Some?;
      forall i | 0 <= i < |layers| ensures Blob(c, es, layers[i], MAX_ARCHIVE_BYTES).Some? {
        assert Blob(c, es, ds[i + 2], MAX_ARCHIVE_BYTES).Some?;
      }
    }
  }

  /** make_oci_subset */
  method MakeOciSubset(c: Codec, archive: bytes) returns (r: Result<bytes, string>)
    requires DigestLaw(c)
    ensures r.Ok? <==> SubsetOk(c, archive)
    ensures r.Ok? ==> r.value == SubsetBytes(c, archive)
  {
    var listed := c.untar(archive);
    if listed.None? { return Err("archive-format"); }
    var es := listed.value;
    var namesOk := CheckNames(es);
    if !namesOk { return Err("archive-members"); }
    var member := Find(es, "index.json");
    if member.None? || member.value.kind != File { return Err("oci-index-header"); }
    var indexRaw := Read(es, "index.json", MAX_ARCHIVE_BYTES);
    if indexRaw.None? { return Err("archive-members"); }
    var index := c.loads(indexRaw.value);
    if index.None? || At(index.value, "schemaVersion") != Some(Num(2)) { return Err("oci-index-header"); }
    var list := At(index.value, "manifests");
    if list.None? || !list.value.Arr? || |list.value.items| != 1 { return Err("oci-index-manifest-list"); }
    var d := list.value.items[0];
    var manifestBlob := FetchBlob(c, es, d);
    if manifestBlob.None? { return Err("oci-index-descriptor"); }
    var manifest := c.loads(manifestBlob.value.value);
    if manifest.None? || At(manifest.value, "schemaVersion") != Some(Num(2)) { return Err("oci-manifest"); }
    var config, layers := At(manifest.value, "config"), At(manifest.value, "layers");
    if layers.None? || !layers.value.Arr? { return Err("oci-layers"); }
    ChainUnfolds(c, es, indexRaw.value, d, (manifestBlob.value.value, manifest.value), layers.value.items);
    var selected := SelectBlobs(c, es, indexRaw.value,
                                [d] + [if config.Some? then config.value else Null] + layers.value.items);
    if selected.None? { return Err("oci-layers"); }
    var subset := c.tar(SortByKey(selected.value));
    if subset == [] || |subset| > MAX_ARCHIVE_BYTES { return Err("archive-format"); }
    return Ok(subset);
  }
}
