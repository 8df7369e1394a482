/** prepare_tagged_oci_archive: the extracted archive under a new reference name. */
module Retagging {
  import opened Base
  import opened CanonicalJson
  import opened ImageArchive
  import opened PortableParser
  import opened OciSubset
  import opened SubsetMeaning

  /** The oci-layout file: {"imageLayoutVersion":"1.0.0"}. */
  function LayoutFile(c: Codec): bytes {
    c.dumps(Obj([Pair("imageLayoutVersion", Str("1.0.0"))]))
  }

  /** The extracted files with their index replaced and an oci-layout file added. */
  function Relabelled(files: seq<Pair<bytes>>, indexRaw: bytes, layout: bytes): seq<Pair<bytes>> {
    Put(Put(files, "index.json", indexRaw), "oci-layout", layout)
  }

  function Annotations(d: Json): Json {
    if At(d, "annotations").Some? then At(d, "annotations").value else Obj([])
  }

  /** The descriptor with its ref-name annotation set. */
  function RetagDescriptor(d: Json, ref: string): Json
    requires d.Obj? && Annotations(d).Obj?
  {
    Obj(Put(d.members, "annotations", Obj(Put(Annotations(d).members, REF_NAME, Str(ref)))))
  }

  function RetagIndex(index: Json, d: Json, ref: string): Json
    requires index.Obj? && d.Obj? && Annotations(d).Obj?
  {
    Obj(Put(index.members, "manifests", Arr([RetagDescriptor(d, ref)])))
  }

  /** The extraction succeeds, its annotations are a dictionary and the tag has a reference name. */
  predicate Retaggable(c: Codec, archive: bytes, tag: string) {
    SubsetOk(c, archive) && Annotations(Chain(c, c.untar(archive).value).value.descriptor).Obj? && ':' in tag
  }

  function NewIndex(c: Codec, es: seq<Entry>, tag: string): Json
    requires Chain(c, es).Some? && Annotations(Chain(c, es).value.descriptor).Obj? && ':' in tag
  {
    RetagIndex(c.loads(Read(es, "index.json", MAX_ARCHIVE_BYTES).value).value, Chain(c, es).value.descriptor,
               RefName(tag))
  }

  function TaggedFiles(c: Codec, es: seq<Entry>, tag: string): seq<Pair<bytes>>
    requires Chain(c, es).Some? && Annotations(Chain(c, es).value.descriptor).Obj? && ':' in tag
  {
    Relabelled(SubsetFiles(c, es), c.dumps(NewIndex(c, es, tag)), LayoutFile(c))
  }

  function TaggedBytes(c: Codec, archive: bytes, tag: string): bytes
    requires Retaggable(c, archive, tag)
  {
    c.tar(SortByKey(TaggedFiles(c, c.untar(archive).value, tag)))
  }

  /** The regular members of an archive, as a dictionary in listing order. */
  method FilesOf(es: seq<Entry>, ghost files: seq<Pair<bytes>>) returns (d: seq<Pair<bytes>>)
    requires es == Written(files) && DistinctKeys(files)
    ensures d == files
  {
    d := [];
    for i := 0 to |es|
      invariant d == files[..i]
    {
      if es[i].kind == File {
        PutAppends(files[..i], es[i].name, es[i].data);
        d := Put(d, es[i].name, es[i].data);
      }
    }
    assert files[..|es|] == files;
  }

  lemma {:induction false} PutAppends<V>(d: seq<Pair<V>>, key: string, value: V)
    requires forall i :: 0 <= i < |d| ==> d[i].key != key
    ensures Put(d, key, value) == d + [Pair(key, value)]
  {
    if d != [] {
      assert forall i :: 0 <= i < |d[1..]| ==> d[1..][i] == d[i + 1];
      PutAppends(d[1..], key, value);
      assert d == [d[0]] + d[1..];
    }
  }

  /** prepare_tagged_oci_archive */
  method PrepareTagged(c: Codec, archive: bytes, exp: Expected) returns (r: Result<bytes, string>)
    requires Lawful(c) && exp.repoTag.Some?
    ensures r.Ok? <==>
      Retaggable(c, archive, exp.repoTag.value) && |TaggedBytes(c, archive, exp.repoTag.value)| <= MAX_ARCHIVE_BYTES &&
      Accepts(c, TaggedBytes(c, archive, exp.repoTag.value), exp, MAX_ARCHIVE_BYTES, MAX_EXPANDED_LAYER_BYTES)
    ensures r.Ok? ==> r.value == TaggedBytes(c, archive, exp.repoTag.value)
  {
    var tag := exp.repoTag.value;
    var subset := MakeOciSubset(c, archive);
    if subset.Err? { return Err(subset.error); }
    ghost var source := c.untar(archive).value;
    SubsetUntars(c, archive);
    SubsetFilesNames(c, source);
    SubsetReads(c, source, "index.json", MAX_ARCHIVE_BYTES);
    FindWritten(SubsetFiles(c, source), "index.json");
    var files := FilesOf(c.untar(subset.value).value, SubsetFiles(c, source));
    var index := c.loads(Get(files, "index.json").value).value;
    var descriptor := At(index, "manifests").value.items[0];
    var annotations := if At(descriptor, "annotations").Some? then At(descriptor, "annotations").value else Obj([]);
    if !annotations.Obj? { return Err("oci-index-annotations-invalid"); }
    if ':' !in tag { return Err("IndexError"); }
    annotations := Obj(Put(annotations.members, REF_NAME, Str(RefName(tag))));
    descriptor := Obj(Put(descriptor.members, "annotations", annotations));
    index := Obj(Put(index.members, "manifests", Arr([descriptor])));
    files := Put(files, "index.json", c.dumps(index));
    files := Put(files, "oci-layout", LayoutFile(c));
    var candidate := c.tar(SortByKey(files));
    if candidate == [] || |candidate| > MAX_ARCHIVE_BYTES { return Err("archive-format"); }
    var checked := ParsePortableArchive(c, candidate, exp, MAX_ARCHIVE_BYTES, MAX_EXPANDED_LAYER_BYTES);
    if checked.Err? { return Err(checked.error); }
    return Ok(candidate);
  }

  // ---------------------------------------------------------------------------
  // What retagging keeps

  lemma PutWellFormed(d: seq<Pair<Json>>, key: string, value: Json)
    requires WellFormed(Obj(d)) && WellFormed(value)
    ensures WellFormed(Obj(Put(d, key, value)))
  {
    PutSpec(d, key, value);
    PutMembers(d, key, value);
  }

  lemma {:induction false} PutMembers<V>(d: seq<Pair<V>>, key: string, value: V)
    ensures forall i :: 0 <= i < |Put(d, key, value)| ==>
      Put(d, key, value)[i] == Pair(key, value) || Put(d, key, value)[i] in d
  {
    if d != [] && d[0].key != key { PutMembers(d[1..], key, value); }
  }

  /** Only the annotation changes: other fields and other annotations keep their values. */
  lemma RetagChangesAnnotation(d: Json, ref: string, field: string, name: string)
    requires d.Obj? && Annotations(d).Obj?
    ensures field != "annotations" ==> At(RetagDescriptor(d, ref), field) == At(d, field)
    ensures At(Annotations(RetagDescriptor(d, ref)), name)
         == if name == REF_NAME then Some(Str(ref)) else At(Annotations(d), name)
  {
    var annotations := Obj(Put(Annotations(d).members, REF_NAME, Str(ref)));
    GetPut(d.members, "annotations", annotations, field);
    GetPut(d.members, "annotations", annotations, "annotations");
    GetPut(Annotations(d).members, REF_NAME, Str(ref), name);
  }

  lemma AtWellFormed(v: Json, key: string)
    requires WellFormed(v) && At(v, key).Some?
    ensures WellFormed(At(v, key).value)
  {
    GetFinds(v.members, key);
    var i :| 0 <= i < |v.members| && v.members[i] == Pair(key, At(v, key).value);
  }

  /** The retagged index parses to one descriptor: the source's, retagged. */
  lemma NewIndexDescriptor(c: Codec, es: seq<Entry>, tag: string)
    requires Lawful(c) && Chain(c, es).Some? && Annotations(Chain(c, es).value.descriptor).Obj? && ':' in tag
    ensures IndexDescriptor(c, c.dumps(NewIndex(c, es, tag)))
         == Some(RetagDescriptor(Chain(c, es).value.descriptor, RefName(tag)))
  {
    hide RefName, Read, Find, Blob, TarName;
    var index := c.loads(Read(es, "index.json", MAX_ARCHIVE_BYTES).value).value;
    var d := Chain(c, es).value.descriptor;
    var retagged := RetagDescriptor(d, RefName(tag));
    AtWellFormed(index, "manifests");
    assert WellFormed(At(index, "manifests").value.items[0]);
    if At(d, "annotations").Some? { AtWellFormed(d, "annotations"); }
    PutWellFormed(Annotations(d).members, REF_NAME, Str(RefName(tag)));
    PutWellFormed(d.members, "annotations", Obj(Put(Annotations(d).members, REF_NAME, Str(RefName(tag)))));
    assert WellFormed(Arr([retagged]));
    PutWellFormed(index.members, "manifests", Arr([retagged]));
    GetPut(index.members, "manifests", Arr([retagged]), "schemaVersion");
    GetPut(index.members, "manifests", Arr([retagged]), "manifests");
  }

  function TaggedEntries(c: Codec, es: seq<Entry>, tag: string): seq<Entry>
    requires Chain(c, es).Some? && Annotations(Chain(c, es).value.descriptor).Obj? && ':' in tag
  {
    Written(SortByKey(TaggedFiles(c, es, tag)))
  }

  lemma RelabelledFind(files: seq<Pair<bytes>>, raw: bytes, layout: bytes, name: string)
    requires DistinctKeys(files)
    ensures DistinctKeys(Relabelled(files, raw, layout))
    ensures Find(Written(SortByKey(Relabelled(files, raw, layout))), name)
         == if name == "oci-layout" then Some(Entry(name, File, |layout|, layout))
            else if name == "index.json" then Some(Entry(name, File, |raw|, raw))
            else Find(Written(files), name)
  {
    var all := Relabelled(files, raw, layout);
    PutSpec(files, "index.json", raw);
    PutSpec(Put(files, "index.json", raw), "oci-layout", layout);
    GetSorted(all, name);
    FindWritten(SortByKey(all), name);
    FindWritten(files, name);
  }

  lemma RelabelledNames(files: seq<Pair<bytes>>, raw: bytes, layout: bytes, i: nat)
    requires i < |SortByKey(Relabelled(files, raw, layout))|
    requires forall k :: 0 <= k < |files| ==> TarName(files[k].key)
    ensures TarName(SortByKey(Relabelled(files, raw, layout))[i].key)
  {
    hide TarName, SortByKey, Put;
    var all := Relabelled(files, raw, layout);
    var file := SortByKey(all)[i];
    SortMember(all, file);
    PutMembers(Put(files, "index.json", raw), "oci-layout", layout);
    PutMembers(files, "index.json", raw);
    AddedNames();
  }

  lemma AddedNames()
    ensures TarName("index.json") && TarName("oci-layout")
  {
    PlainNamePosix("index.json");
    PlainNamePosix("oci-layout");
  }

  lemma TaggedFind(c: Codec, es: seq<Entry>, tag: string, name: string)
    requires Chain(c, es).Some? && Annotations(Chain(c, es).value.descriptor).Obj? && ':' in tag
    ensures name != "index.json" && name != "oci-layout" ==>
      Find(TaggedEntries(c, es, tag), name) == Find(SubsetEntries(c, es), name)
    ensures var raw := c.dumps(NewIndex(c, es, tag));
      name == "index.json" ==> Find(TaggedEntries(c, es, tag), name) == Some(Entry("index.json", File, |raw|, raw))
  {
    SubsetFilesNames(c, es);
    RelabelledFind(SubsetFiles(c, es), c.dumps(NewIndex(c, es, tag)), LayoutFile(c), name);
  }

  lemma TaggedBlob(c: Codec, es: seq<Entry>, tag: string, d: Json, limit: int)
    requires Chain(c, es).Some? && Annotations(Chain(c, es).value.descriptor).Obj? && ':' in tag
    ensures Blob(c, TaggedEntries(c, es, tag), d, limit) == Blob(c, SubsetEntries(c, es), d, limit)
  {
    if DescriptorOk(d, limit) {
      var name := BlobName(At(d, "digest").value.s);
      BlobNameLong(At(d, "digest").value.s);
      assert |name| == 77 && name != "index.json" && name != "oci-layout";
      TaggedFind(c, es, tag, name);
    }
  }

  lemma BlobNameLong(digest: string)
    requires IsDigest(digest)
    ensures |BlobName(digest)| == 77
  {
  }

  lemma TaggedUntars(c: Codec, archive: bytes, tag: string)
    requires Lawful(c) && Retaggable(c, archive, tag)
    ensures c.untar(TaggedBytes(c, archive, tag)) == Some(TaggedEntries(c, c.untar(archive).value, tag))
    ensures TaggedBytes(c, archive, tag) != []
    ensures forall e | e in TaggedEntries(c, c.untar(archive).value, tag) ::
      e.kind == File && e.size <= |TaggedBytes(c, archive, tag)| && TarName(e.name)
  {
    var es := c.untar(archive).value;
    var files, raw := SubsetFiles(c, es), c.dumps(NewIndex(c, es, tag));
    SubsetFilesNames(c, es);
    RelabelledFind(files, raw, LayoutFile(c), "");
    var sorted := SortByKey(Relabelled(files, raw, LayoutFile(c)));
    GetSorted(Relabelled(files, raw, LayoutFile(c)), "");
    forall i | 0 <= i < |sorted| ensures TarName(sorted[i].key) {
      RelabelledNames(files, raw, LayoutFile(c), i);
    }
  }

  /** The source's chain under its retagged descriptor. */
  function RetaggedChain(c: Codec, es: seq<Entry>, tag: string): Resolved
    requires Chain(c, es).Some? && Annotations(Chain(c, es).value.descriptor).Obj? && ':' in tag
  {
    var source := Chain(c, es).value;
    source.(descriptor := RetagDescriptor(source.descriptor, RefName(tag)))
  }

  lemma RetaggedManifest(c: Codec, es: seq<Entry>, tag: string)
    requires Chain(c, es).Some? && Annotations(Chain(c, es).value.descriptor).Obj? && ':' in tag
    ensures ManifestOf(c, TaggedEntries(c, es, tag), RetaggedChain(c, es, tag).descriptor, MAX_ARCHIVE_BYTES)
         == ManifestOf(c, es, Chain(c, es).value.descriptor, MAX_ARCHIVE_BYTES)
  {
    var d := Chain(c, es).value.descriptor;
    var retagged := RetaggedChain(c, es, tag).descriptor;
    RetagChangesAnnotation(d, RefName(tag), "digest", REF_NAME);
    RetagChangesAnnotation(d, RefName(tag), "size", REF_NAME);
    TaggedBlob(c, es, tag, retagged, MAX_ARCHIVE_BYTES);
    BlobKept(c, es, 0, MAX_ARCHIVE_BYTES);
    assert Descriptors(Chain(c, es).value)[0] == d;
    SameBlob(c, SubsetEntries(c, es), retagged, d, MAX_ARCHIVE_BYTES);
  }

  /** A blob depends only on a descriptor's digest and size. */
  lemma SameBlob(c: Codec, es: seq<Entry>, d1: Json, d2: Json, limit: int)
    requires d1.Obj? && d2.Obj? && At(d1, "digest") == At(d2, "digest") && At(d1, "size") == At(d2, "size")
    ensures Blob(c, es, d1, limit) == Blob(c, es, d2, limit)
  {
  }

  lemma RetaggedBlobs(c: Codec, es: seq<Entry>, tag: string, i: nat)
    requires Chain(c, es).Some? && Annotations(Chain(c, es).value.descriptor).Obj? && ':' in tag
    requires i < |Descriptors(Chain(c, es).value)|
    ensures Blob(c, TaggedEntries(c, es, tag), Descriptors(Chain(c, es).value)[i], MAX_ARCHIVE_BYTES)
         == Blob(c, es, Descriptors(Chain(c, es).value)[i], MAX_ARCHIVE_BYTES)
  {
    TaggedBlob(c, es, tag, Descriptors(Chain(c, es).value)[i], MAX_ARCHIVE_BYTES);
    BlobKept(c, es, i, MAX_ARCHIVE_BYTES);
  }

  lemma RetaggedResolves(c: Codec, es: seq<Entry>, tag: string)
    requires Lawful(c) && Chain(c, es).Some? && Annotations(Chain(c, es).value.descriptor).Obj? && ':' in tag
    ensures Resolve(c, TaggedEntries(c, es, tag), c.dumps(NewIndex(c, es, tag)), WIDE)
      == Some(RetaggedChain(c, es, tag))
  {
    hide TaggedEntries, Blob, NewIndex, RetagDescriptor, RefName, IndexDescriptor;
    var source := Chain(c, es).value;
    NewIndexDescriptor(c, es, tag);
    RetaggedManifest(c, es, tag);
    RetaggedBlobs(c, es, tag, 1);
    assert Descriptors(source)[1] == At(source.manifest, "config").value;
    forall i | 0 <= i < |source.layers|
      ensures Blob(c, TaggedEntries(c, es, tag), source.layers[i], MAX_ARCHIVE_BYTES).Some?
    {
      assert Descriptors(source)[i + 2] == source.layers[i];
      RetaggedBlobs(c, es, tag, i + 2);
    }
  }

  lemma RetaggedLayer(c: Codec, es: seq<Entry>, tag: string, i: nat)
    requires Chain(c, es).Some? && Annotations(Chain(c, es).value.descriptor).Obj? && ':' in tag
    requires i < |Chain(c, es).value.layers|
    ensures OciLayer(c, TaggedEntries(c, es, tag), Chain(c, es).value.layers[i], MAX_ARCHIVE_BYTES)
         == OciLayer(c, es, Chain(c, es).value.layers[i], MAX_ARCHIVE_BYTES)
  {
    hide Chain, TaggedEntries, Blob, Annotations, OciLayer;
    assert Descriptors(Chain(c, es).value)[i + 2] == Chain(c, es).value.layers[i];
    RetaggedBlobs(c, es, tag, i + 2);
    SameLayer(c, TaggedEntries(c, es, tag), es, Chain(c, es).value.layers[i], MAX_ARCHIVE_BYTES);
  }

  lemma SameLayer(c: Codec, es1: seq<Entry>, es2: seq<Entry>, d: Json, limit: int)
    requires Blob(c, es1, d, limit) == Blob(c, es2, d, limit)
    ensures OciLayer(c, es1, d, limit) == OciLayer(c, es2, d, limit)
  {
  }

  lemma RetaggedImage(c: Codec, es: seq<Entry>, tag: string)
    requires Chain(c, es).Some? && Annotations(Chain(c, es).value.descriptor).Obj? && ':' in tag
    ensures OciImage(c, TaggedEntries(c, es, tag), RetaggedChain(c, es, tag), MAX_ARCHIVE_BYTES)
         == OciImage(c, es, Chain(c, es).value, MAX_ARCHIVE_BYTES)
  {
    var source := Chain(c, es).value;
    var a, b := OciContents(c, TaggedEntries(c, es, tag), source.layers, MAX_ARCHIVE_BYTES),
                OciContents(c, es, source.layers, MAX_ARCHIVE_BYTES);
    forall i | 0 <= i < |source.layers| ensures a[i] == b[i] {
      RetaggedLayer(c, es, tag, i);
    }
    assert a == b;
  }

  /** Retagging keeps the image: the chain behind the new index differs from the source's only in
      its descriptor's annotation, so the manifest, the configuration and every layer are the source's. */
  lemma RetagKeepsImage(c: Codec, archive: bytes, tag: string)
    requires Lawful(c) && Retaggable(c, archive, tag)
    ensures
      var es, tagged := c.untar(archive).value, c.untar(TaggedBytes(c, archive, tag));
      tagged.Some? && Find(tagged.value, "index.json").Some? &&
      Resolve(c, tagged.value, Find(tagged.value, "index.json").value.data, WIDE) == Some(RetaggedChain(c, es, tag)) &&
      OciImage(c, tagged.value, RetaggedChain(c, es, tag), MAX_ARCHIVE_BYTES)
        == OciImage(c, es, Chain(c, es).value, MAX_ARCHIVE_BYTES) &&
      At(RetaggedChain(c, es, tag).descriptor, "digest") == At(Chain(c, es).value.descriptor, "digest")
  {
    var es := c.untar(archive).value;
    TaggedUntars(c, archive, tag);
    TaggedFind(c, es, tag, "index.json");
    RetaggedResolves(c, es, tag);
    RetaggedImage(c, es, tag);
    RetagChangesAnnotation(Chain(c, es).value.descriptor, RefName(tag), "digest", REF_NAME);
  }

  lemma NoLegacyTagged(c: Codec, es: seq<Entry>, tag: string)
    requires Chain(c, es).Some? && Annotations(Chain(c, es).value.descriptor).Obj? && ':' in tag
    ensures !HasLegacy(TaggedEntries(c, es, tag))
  {
    TaggedFind(c, es, tag, "manifest.json");
    SubsetReads(c, es, "manifest.json", MAX_ARCHIVE_BYTES);
    if Reachable(Chain(c, es).value, "manifest.json") { ReachablePlain(c, es, "manifest.json"); }
  }

  // ---------------------------------------------------------------------------
  // When the self-check passes

  /** Within narrower limits, a blob that verifies still does, if it is short enough. */
  lemma BlobWithin(c: Codec, es: seq<Entry>, d: Json, limit: int)
    requires Blob(c, es, d, MAX_ARCHIVE_BYTES).Some? && limit <= MAX_ARCHIVE_BYTES
    ensures Blob(c, es, d, limit)
         == if |Blob(c, es, d, MAX_ARCHIVE_BYTES).value| <= limit then Blob(c, es, d, MAX_ARCHIVE_BYTES) else None
  {
  }

  lemma ResolvesWithin(c: Codec, es: seq<Entry>, raw: bytes)
    requires Resolve(c, es, raw, WIDE).Some?
    ensures
      var r := Resolve(c, es, raw, WIDE).value;
      Resolve(c, es, raw, ParserSizes(MAX_ARCHIVE_BYTES))
        == if |r.manifestRaw| <= 65536 && |r.configRaw| <= 1048576 then Some(r) else None
  {
    hide Blob, IndexDescriptor;
    var r := Resolve(c, es, raw, WIDE).value;
    BlobWithin(c, es, r.descriptor, 65536);
    BlobWithin(c, es, At(r.manifest, "config").value, 1048576);
  }

  /** The parser's view of the retagged archive: the source's chain, retagged, if it is within the limits. */
  lemma TaggedChain(c: Codec, es: seq<Entry>, tag: string)
    requires Lawful(c) && Chain(c, es).Some? && Annotations(Chain(c, es).value.descriptor).Obj? && ':' in tag
    ensures
      var r := Chain(c, es).value;
      OciChain(c, TaggedEntries(c, es, tag), MAX_ARCHIVE_BYTES)
        == if |c.dumps(NewIndex(c, es, tag))| <= 65536 && |r.manifestRaw| <= 65536 && |r.configRaw| <= 1048576
           then Some(RetaggedChain(c, es, tag)) else None
    ensures HasIndex(TaggedEntries(c, es, tag)) && !HasLegacy(TaggedEntries(c, es, tag))
  {
    hide Resolve, Chain, Annotations, TaggedEntries, NewIndex, Lawful, RetagDescriptor;
    TaggedFind(c, es, tag, "index.json");
    RetaggedResolves(c, es, tag);
    ResolvesWithin(c, TaggedEntries(c, es, tag), c.dumps(NewIndex(c, es, tag)));
    NoLegacyTagged(c, es, tag);
  }

  lemma {:induction false} PutLength<V>(d: seq<Pair<V>>, key: string, value: V)
    ensures |Put(d, key, value)| == if Get(d, key).Some? then |d| else |d| + 1
  {
    if d != [] && d[0].key != key { PutLength(d[1..], key, value); }
  }

  lemma TaggedSize(c: Codec, es: seq<Entry>, tag: string)
    requires Chain(c, es).Some? && Annotations(Chain(c, es).value.descriptor).Obj? && ':' in tag
    ensures |TaggedEntries(c, es, tag)| == |SubsetFiles(c, es)| + 1 && DistinctNames(TaggedEntries(c, es, tag))
  {
    hide Chain, Annotations, NewIndex, Reachable, SubsetFiles, LayoutFile, Put;
    var files, raw := SubsetFiles(c, es), c.dumps(NewIndex(c, es, tag));
    SubsetReads(c, es, "index.json", MAX_ARCHIVE_BYTES);
    SubsetReads(c, es, "oci-layout", MAX_ARCHIVE_BYTES);
    FindWritten(files, "index.json");
    FindWritten(files, "oci-layout");
    NoLayoutReachable(c, es);
    PutLength(files, "index.json", raw);
    GetPut(files, "index.json", raw, "oci-layout");
    PutLength(Put(files, "index.json", raw), "oci-layout", LayoutFile(c));
    SortSpec(TaggedFiles(c, es, tag));
    SubsetFilesNames(c, es);
    RelabelledFind(files, raw, LayoutFile(c), "");
    GetSorted(TaggedFiles(c, es, tag), "");
  }

  lemma NoLayoutReachable(c: Codec, es: seq<Entry>)
    requires Chain(c, es).Some?
    ensures Reachable(Chain(c, es).value, "index.json") && !Reachable(Chain(c, es).value, "oci-layout")
  {
    hide Chain;
  }

  lemma TaggedTable(c: Codec, archive: bytes, tag: string)
    requires Lawful(c) && Retaggable(c, archive, tag) && |TaggedBytes(c, archive, tag)| <= MAX_ARCHIVE_BYTES
    ensures TableOk(TaggedEntries(c, c.untar(archive).value, tag), MAX_ARCHIVE_BYTES)
            <==> |SubsetFiles(c, c.untar(archive).value)| < 128
  {
    hide Lawful, Chain, Annotations, TaggedBytes, TaggedEntries, SubsetFiles, PosixName;
    var es := c.untar(archive).value;
    TaggedUntars(c, archive, tag);
    TaggedSize(c, es, tag);
    var tagged := TaggedEntries(c, es, tag);
    TaggedPlain(c, es, tag);
    forall i | 0 <= i < |tagged|
      ensures EntryOk(tagged[i], MAX_ARCHIVE_BYTES) && Normalized(tagged[i]) == tagged[i].name
    {
      assert tagged[i] in tagged;
    }
  }

  lemma TaggedPlain(c: Codec, es: seq<Entry>, tag: string)
    requires Chain(c, es).Some? && Annotations(Chain(c, es).value.descriptor).Obj? && ':' in tag
    ensures forall e | e in TaggedEntries(c, es, tag) :: e.name != "" && '\\' !in e.name
  {
    hide Chain, Annotations, NewIndex, SubsetFiles, LayoutFile, Put, TarName, Reachable, SortByKey;
    var all := TaggedFiles(c, es, tag);
    var sorted := SortByKey(all);
    SubsetFilesNames(c, es);
    PutMembers(Put(SubsetFiles(c, es), "index.json", c.dumps(NewIndex(c, es, tag))), "oci-layout", LayoutFile(c));
    PutMembers(SubsetFiles(c, es), "index.json", c.dumps(NewIndex(c, es, tag)));
    forall e | e in TaggedEntries(c, es, tag) ensures e.name != "" && '\\' !in e.name {
      var i :| 0 <= i < |sorted| && TaggedEntries(c, es, tag)[i] == e;
      SortMember(all, sorted[i]);
    }
  }

  /** What a caller can check of the source before retagging. */
  predicate SourceFits(c: Codec, es: seq<Entry>, exp: Expected)
    requires exp.repoTag.Some? && ':' in exp.repoTag.value
    requires Chain(c, es).Some? && Annotations(Chain(c, es).value.descriptor).Obj?
  {
    var r, image := Chain(c, es).value, OciImage(c, es, Chain(c, es).value, MAX_ARCHIVE_BYTES);
    ExpectedOk(exp) && |SubsetFiles(c, es)| < 128 && |c.dumps(NewIndex(c, es, exp.repoTag.value))| <= 65536 &&
    |r.manifestRaw| <= 65536 && |r.configRaw| <= 1048576 &&
    At(At(r.manifest, "config").value, "digest") == Some(Str(exp.configDigest)) &&
    image.Some? && ConfigOk(c.loads(image.value.config), exp) && DiffIdsOk(c, image.value.layers, exp.diffIds) &&
    Total(image.value.layers) <= MAX_EXPANDED_LAYER_BYTES
  }

  lemma TaggedRef(d: Json, exp: Expected)
    requires d.Obj? && Annotations(d).Obj? && exp.repoTag.Some? && ':' in exp.repoTag.value
    ensures RefOk(RetagDescriptor(d, RefName(exp.repoTag.value)), exp, false)
  {
    var ref := RefName(exp.repoTag.value);
    RetagChangesAnnotation(d, ref, "digest", REF_NAME);
    GetPut(d.members, "annotations", Obj(Put(Annotations(d).members, REF_NAME, Str(ref))), "annotations");
  }

  /** The self-check accepts the retagged archive exactly when the source's content is the pinned one and it and
      the new index are within the parser's limits. */
  lemma RetagDecides(c: Codec, archive: bytes, exp: Expected)
    requires Lawful(c) && exp.repoTag.Some? && Retaggable(c, archive, exp.repoTag.value)
    requires |TaggedBytes(c, archive, exp.repoTag.value)| <= MAX_ARCHIVE_BYTES
    ensures Accepts(c, TaggedBytes(c, archive, exp.repoTag.value), exp, MAX_ARCHIVE_BYTES, MAX_EXPANDED_LAYER_BYTES)
            <==> SourceFits(c, c.untar(archive).value, exp)
  {
    hide Lawful, Chain, Annotations, TaggedBytes, TaggedEntries, SubsetFiles, TableOk, ExpectedOk, ConfigOk;
    hide DiffIdsOk, OciImage, RetagDescriptor, NewIndex, OciChain, RefOk;
    var es, tag := c.untar(archive).value, exp.repoTag.value;
    TaggedUntars(c, archive, tag);
    TaggedTable(c, archive, tag);
    TaggedChain(c, es, tag);
    RetaggedImage(c, es, tag);
    ChainDescriptor(c, es);
    TaggedRef(Chain(c, es).value.descriptor, exp);
    if OciImage(c, es, Chain(c, es).value, MAX_ARCHIVE_BYTES).Some? { ImageConfig(c, es); }
  }

  lemma ChainDescriptor(c: Codec, es: seq<Entry>)
    requires Chain(c, es).Some?
    ensures var d := Chain(c, es).value.descriptor;
            d.Obj? && At(d, "digest").Some? && At(d, "digest").value.Str?
  {
  }

  lemma ImageConfig(c: Codec, es: seq<Entry>)
    requires Chain(c, es).Some? && OciImage(c, es, Chain(c, es).value, MAX_ARCHIVE_BYTES).Some?
    ensures OciImage(c, es, Chain(c, es).value, MAX_ARCHIVE_BYTES).value.config == Chain(c, es).value.configRaw
  {
    hide Chain;
  }

  /** A retagged archive that passes its self-check has the source's manifest digest, configuration digest,
      image and DiffIDs, and the new tag. */
  lemma RetagKeepsFacts(c: Codec, archive: bytes, exp: Expected)
    requires Lawful(c) && exp.repoTag.Some? && Retaggable(c, archive, exp.repoTag.value)
    requires Accepts(c, TaggedBytes(c, archive, exp.repoTag.value), exp, MAX_ARCHIVE_BYTES, MAX_EXPANDED_LAYER_BYTES)
    ensures
      var es, tagged := c.untar(archive).value, c.untar(TaggedBytes(c, archive, exp.repoTag.value)).value;
      var facts := FactsOf(c, tagged, exp, MAX_ARCHIVE_BYTES);
      facts.format == "oci" &&
      facts.manifestDigest == Some(At(Chain(c, es).value.descriptor, "digest").value.s) &&
      At(At(Chain(c, es).value.manifest, "config").value, "digest") == Some(Str(facts.configDigest)) &&
      facts.repoTags == [exp.repoTag.value] &&
      At(Annotations(OciChain(c, tagged, MAX_ARCHIVE_BYTES).value.descriptor), REF_NAME)
        == Some(Str(RefName(exp.repoTag.value))) &&
      var image := OciImage(c, es, Chain(c, es).value, MAX_ARCHIVE_BYTES);
      image.Some? && OciPart(c, tagged, MAX_ARCHIVE_BYTES) == image &&
      RootfsOk(c.loads(image.value.config)) &&
      At(At(c.loads(image.value.config).value, "rootfs").value, "diff_ids") == Some(TextArray(facts.diffIds)) &&
      DiffIdsOk(c, image.value.layers, facts.diffIds)
  {
    hide Lawful, Chain, Annotations, TaggedBytes, TaggedEntries, SubsetFiles, TableOk, ExpectedOk, ConfigOk, TagOk;
    hide DiffIdsOk, OciImage, RetagDescriptor, NewIndex, OciChain, RefOk, RefName, PosixName, SubsetBytes, TarName;
    var es, tag := c.untar(archive).value, exp.repoTag.value;
    TaggedUntars(c, archive, tag);
    TaggedChain(c, es, tag);
    RetaggedImage(c, es, tag);
    ChainDescriptor(c, es);
    var d := Chain(c, es).value.descriptor;
    RetagChangesAnnotation(d, RefName(tag), "digest", REF_NAME);
    PinnedFacts(c, OciPart(c, TaggedEntries(c, es, tag), MAX_ARCHIVE_BYTES).value, exp);
  }

  lemma PinnedFacts(c: Codec, image: Image, exp: Expected)
    requires ConfigOk(c.loads(image.config), exp)
    ensures RootfsOk(c.loads(image.config))
    ensures At(At(c.loads(image.config).value, "rootfs").value, "diff_ids") == Some(TextArray(exp.diffIds))
  {
  }
}
