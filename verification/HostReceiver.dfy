/** The receiving end of the verifier-host bundle: what it accepts, and that it accepts what the builder
    builds. */
module HostReceiver {
  import opened Base
  import opened CanonicalJson
  import opened HostBundle
  import opened HostTransfer
  import IC = ImportClosure

  /** The receiver's arguments. */
  datatype Pins = Pins(digest: string, count: int, size: int, archive: int)

  function PinsOf(b: Bundle): Pins {
    Pins(b.digest, b.count, b.size, |b.archive|)
  }

  function SourceFiles(items: seq<Item>): seq<Pair<bytes>> {
    Without(Files(items), MANIFEST)
  }

  predicate AllAllowed(files: seq<Pair<bytes>>) {
    forall i | 0 <= i < |files| :: ReceiverAllows(files[i].key)
  }

  /** The archive is the pinned one, and its manifest is byte for byte the one a builder would write for the
      files beside it. */
  ghost predicate Authentic(h: Host, pins: Pins, input: bytes, items: seq<Item>) {
    |input| == pins.archive && h.sha(input) == pins.digest && h.unpack(input) == Some(items) &&
    |items| == pins.count + 1 && DistinctKeys(Files(items)) && (forall i | 0 <= i < |items| :: PlainItem(items[i])) &&
    Get(Files(items), MANIFEST) == Some(ManifestBytes(h, SortByKey(SourceFiles(items)))) &&
    Volume(SourceFiles(items)) == pins.size && AllAllowed(SourceFiles(items))
  }

  ghost predicate Accepted(h: Host, pins: Pins, input: bytes) {
    h.unpack(input).Some? && Authentic(h, pins, input, h.unpack(input).value)
  }

  /** The comparison of the manifest's paths with the sorted names. */
  method CheckPaths(records: seq<Json>, sources: seq<Pair<bytes>>) returns (ok: bool)
    ensures ok <==> (|records| == |sources| &&
                     forall i :: 0 <= i < |sources| ==> At(records[i], "path") == Some(Str(sources[i].key)))
  {
    if |records| != |sources| { return false; }
    for i := 0 to |sources|
      invariant forall j :: 0 <= j < i ==> At(records[j], "path") == Some(Str(sources[j].key))
    {
      if At(records[i], "path") != Some(Str(sources[i].key)) { return false; }
    }
    return true;
  }

  predicate RecordAllowed(h: Host, record: Json, source: Pair<bytes>) {
    RecordFits(h, record, source) && ReceiverAllows(source.key)
  }

  /** One turn of the loop over the manifest's records. */
  method CheckRecord(h: Host, record: Json, source: Pair<bytes>) returns (ok: bool)
    requires At(record, "path") == Some(Str(source.key))
    ensures ok <==> RecordAllowed(h, record, source)
  {
    if !record.Obj? || Keys(record.members) != {"path", "size", "sha256"} { return false; }
    if !ReceiverAllows(source.key) { return false; }
    return At(record, "size") == Some(Num(|source.value|)) && At(record, "sha256") == Some(Str(h.sha(source.value)));
  }

  method CheckRecords(h: Host, records: seq<Json>, sources: seq<Pair<bytes>>) returns (ok: bool)
    requires |records| == |sources|
    requires forall i :: 0 <= i < |sources| ==> At(records[i], "path") == Some(Str(sources[i].key))
    ensures ok <==> forall i :: 0 <= i < |sources| ==> RecordAllowed(h, records[i], sources[i])
  {
    hide RecordAllowed;
    for i := 0 to |sources|
      invariant forall j :: 0 <= j < i ==> RecordAllowed(h, records[j], sources[j])
    {
      ok := CheckRecord(h, records[i], sources[i]);
      if !ok { return; }
    }
    return true;
  }

  lemma AllowedSorted(files: seq<Pair<bytes>>)
    ensures AllAllowed(SortByKey(files)) <==> AllAllowed(files)
  {
    var sorted := SortByKey(files);
    if AllAllowed(files) {
      forall i | 0 <= i < |sorted| ensures ReceiverAllows(sorted[i].key) {
        SortMember(files, sorted[i]);
        var j :| 0 <= j < |files| && files[j] == sorted[i];
      }
    }
    if AllAllowed(sorted) {
      forall i | 0 <= i < |files| ensures ReceiverAllows(files[i].key) {
        SortMember(files, files[i]);
        var j :| 0 <= j < |sorted| && sorted[j] == files[i];
      }
    }
  }

  /** The manifest's checks, against the archive's other files. */
  method CheckManifest(h: Host, count: int, raw: bytes, sources: seq<Pair<bytes>>, size: int) returns (ok: bool)
    requires PrintLaw(h) && DistinctKeys(sources) && |sources| == count
    ensures ok <==> raw == ManifestBytes(h, SortByKey(sources)) && Volume(sources) == size && AllAllowed(sources)
  {
    ghost var sorted := SortByKey(sources);
    ManifestPinned(h, raw, sorted);
    SortSpec(sources);
    var doc := h.parse(raw);
    if doc.None? { return false; }
    var v := doc.value;
    if raw != h.render(v) + [10] || !v.Obj? || Keys(v.members) != {"schema", "files"} { return false; }
    if At(v, "schema") != Some(Str(SCHEMA)) { return false; }
    var records := At(v, "files");
    if records.None? || !records.value.Arr? || |records.value.items| != count { return false; }
    ok := CheckPaths(records.value.items, SortByKey(sources));
    if !ok || Volume(sources) != size { return false; }
    hide ReceiverAllows, RecordFits;
    AllowedSorted(sources);
    ok := CheckRecords(h, records.value.items, SortByKey(sources));
  }

  /** The receiver up to the first change it makes: the files it goes on to install. */
  method Validate(h: Host, pins: Pins, input: bytes) returns (files: Option<seq<Pair<bytes>>>)
    requires PrintLaw(h)
    ensures files.Some? <==> Accepted(h, pins, input)
    ensures files.Some? ==> files.value == Files(h.unpack(input).value)
  {
    var raw := if 0 <= pins.archive < |input| then input[..pins.archive + 1] else input;
    if |raw| != pins.archive || h.sha(raw) != pins.digest { return None; }
    var items := h.unpack(raw);
    if items.None? { return None; }
    var all := Files(items.value);
    KeysCount(all);
    if |items.value| != pins.count + 1 || |Keys(all)| != |all|
       || exists i | 0 <= i < |items.value| :: !PlainItem(items.value[i]) { return None; }
    var manifest := Get(all, MANIFEST);
    if manifest.None? { return None; }
    GetFinds(all, MANIFEST);
    WithoutSpec(all, MANIFEST);
    var ok := CheckManifest(h, pins.count, manifest.value, Without(all, MANIFEST), pins.size);
    if !ok { return None; }
    return Some(all);
  }

  // ---------------------------------------------------------------------------
  // Builder and receiver agree

  lemma SourcesKeepNames(t: Tree, needed: set<IC.Name>, members: seq<Pair<bytes>>)
    requires Sources(t, needed, members) && Fits(members)
    ensures DistinctKeys(members) && !HasKey(members, MANIFEST)
    ensures AllAllowed(members) && forall i :: 0 <= i < |members| ==> '\0' !in members[i].key
  {
    SortedDistinct(members);
    ManifestNotAllowed();
    forall i | 0 <= i < |members| ensures '\0' !in members[i].key && ReceiverAllows(members[i].key) {
      assert members[i] in members;
      assert ReadFile(t, members[i].key).Some?;
      NamesAgree(members[i].key);
    }
  }

  /** What a bundle's archive lists. */
  lemma BuiltUnpacks(h: Host, members: seq<Pair<bytes>>, b: Bundle)
    requires PackLaw(h) && Emits(h, members, b)
    requires forall i :: 0 <= i < |members| ==> '\0' !in members[i].key
    ensures h.unpack(b.archive) == Some(BundleItems(h, members))
    ensures Files(BundleItems(h, members)) == members + [Pair(MANIFEST, ManifestBytes(h, members))]
    ensures forall i :: 0 <= i < |members| + 1 ==> PlainItem(BundleItems(h, members)[i])
  {
    var files := members + [Pair(MANIFEST, ManifestBytes(h, members))];
    var items := BundleItems(h, members);
    FilesOfItems(files);
    forall i | 0 <= i < |items| ensures items[i] == Packed(items[i].name, items[i].data) && '\0' !in items[i].name {
      assert items[i].name == files[i].key;
    }
  }

  lemma SortedStays(members: seq<Pair<bytes>>)
    requires SortedByKey(members)
    ensures SortByKey(members) == members
  {
    SortedDistinct(members);
    SortOrders(members);
    forall p ensures p in SortByKey(members) <==> p in members { SortMember(members, p); }
    SortedUnique(SortByKey(members), members);
  }

  /** Every bundle the builder returns is one the receiver accepts, as exactly the files built in. */
  lemma BuiltIsAccepted(h: Host, t: Tree, needed: set<IC.Name>, members: seq<Pair<bytes>>, b: Bundle)
    requires PackLaw(h) && Buildable(h, t, needed, members, b)
    ensures Accepted(h, PinsOf(b), b.archive)
    ensures Files(h.unpack(b.archive).value) == members + [Pair(MANIFEST, ManifestBytes(h, members))]
  {
    SourcesKeepNames(t, needed, members);
    BuiltUnpacks(h, members, b);
    SortedStays(members);
    BuiltAuthentic(h, members, b);
  }

  lemma BuiltAuthentic(h: Host, members: seq<Pair<bytes>>, b: Bundle)
    requires Emits(h, members, b) && SortByKey(members) == members
    requires h.unpack(b.archive) == Some(BundleItems(h, members))
    requires Files(BundleItems(h, members)) == members + [Pair(MANIFEST, ManifestBytes(h, members))]
    requires forall i :: 0 <= i < |members| + 1 ==> PlainItem(BundleItems(h, members)[i])
    requires DistinctKeys(members) && !HasKey(members, MANIFEST)
    requires AllAllowed(members)
    ensures Authentic(h, PinsOf(b), b.archive, BundleItems(h, members))
  {
    hide ReceiverAllows, ManifestBytes, Fits, BundleItems;
    var manifest := ManifestBytes(h, members);
    WithoutLast(members, MANIFEST, manifest);
    GetLast(members, MANIFEST, manifest);
  }

  lemma GetLast(d: seq<Pair<bytes>>, key: string, data: bytes)
    requires DistinctKeys(d) && !HasKey(d, key)
    ensures DistinctKeys(d + [Pair(key, data)]) && Get(d + [Pair(key, data)], key) == Some(data)
  {
    GetAt(d + [Pair(key, data)], |d|);
  }

  /** What the operator's transfer comes to: the archive is not the pinned one and is not sent, or it is sent
      and the receiver goes on to install these files. */
  datatype Delivery = PinMismatch | Delivered(files: seq<Pair<bytes>>)

  /** run_transfer with the receiver's checks: the tree's bundle is sent exactly if it is the pinned one, and
      what is sent is accepted, as the tree's files. */
  method Transfer(h: Host, t: Tree, pins: Pins)
    returns (d: Delivery, ghost needed: set<IC.Name>, ghost members: seq<Pair<bytes>>)
    requires PackLaw(h) && PrintLaw(h)
    ensures d.Delivered? ==>
      Sources(t, needed, members) && d.files == members + [Pair(MANIFEST, ManifestBytes(h, members))]
    ensures d.Delivered? ==> exists b :: Buildable(h, t, needed, members, b) && PinsOf(b) == pins
    ensures d.PinMismatch? ==> forall n, m, b :: Buildable(h, t, n, m, b) ==> PinsOf(b) != pins
  {
    hide Sources, Emits, Accepted;
    var built;
    built, needed, members := BuildBundle(h, t);
    if built.None? { return PinMismatch, needed, members; }
    var b := built.value;
    if b.digest != pins.digest || b.count != pins.count || b.size != pins.size || |b.archive| != pins.archive {
      forall n, m, c | Buildable(h, t, n, m, c) ensures PinsOf(c) != pins {
        BundleUnique(h, t, needed, n, members, m, b, c);
      }
      return PinMismatch, needed, members;
    }
    BuiltIsAccepted(h, t, needed, members, b);
    var files := Validate(h, pins, b.archive);
    d := Delivered(files.value);
    BuiltSources(h, t, needed, members, b);
  }

  lemma BuiltSources(h: Host, t: Tree, needed: set<IC.Name>, members: seq<Pair<bytes>>, b: Bundle)
    requires Buildable(h, t, needed, members, b)
    ensures Sources(t, needed, members)
  {
    hide Sources, Emits;
  }

  /** In any accepted archive the manifest's records and the other files correspond one to one, in order of
      name, each with the file's size and hash; every name is relative, does not climb, and is a fixed file
      or a Python file of the package. */
  lemma AcceptedCorresponds(h: Host, pins: Pins, input: bytes, v: Json, file: Pair<bytes>)
    requires PrintLaw(h) && Accepted(h, pins, input)
    requires Get(Files(h.unpack(input).value), MANIFEST).Some?
    requires h.parse(Get(Files(h.unpack(input).value), MANIFEST).value) == Some(v)
    ensures Describes(h, v, SortByKey(SourceFiles(h.unpack(input).value)))
    ensures |At(v, "files").value.items| == pins.count == |SourceFiles(h.unpack(input).value)|
    ensures file in SourceFiles(h.unpack(input).value) ==>
      ReceiverAllows(file.key) &&
      exists j :: 0 <= j < pins.count && RecordFits(h, At(v, "files").value.items[j], file) &&
                  forall k :: 0 <= k < pins.count && k != j ==>
                    At(At(v, "files").value.items[k], "path") != Some(Str(file.key))
  {
    var files := Files(h.unpack(input).value);
    var sources := SourceFiles(h.unpack(input).value);
    var sorted := SortByKey(sources);
    GetFinds(files, MANIFEST);
    WithoutSpec(files, MANIFEST);
    SortSpec(sources);
    SortedDistinct(sorted);
    ManifestPinned(h, Get(files, MANIFEST).value, sorted);
    if file in sources {
      assert file in sorted;
      var j :| 0 <= j < |sorted| && sorted[j] == file;
      var records := At(v, "files").value.items;
      forall k | 0 <= k < pins.count && k != j ensures At(records[k], "path") != Some(Str(file.key)) {
        assert RecordFits(h, records[k], sorted[k]);
        assert sorted[k].key != file.key;
      }
      assert RecordFits(h, records[j], file);
    }
  }
}
