/** The verifier-host bundle: the deterministic archive its builder writes, and the check its receiver
    makes before installing anything. The receiver accepts exactly the archives whose manifest is the one
    the builder would have written for the files beside it. */
module HostBundle {
  import opened Base
  import opened CanonicalJson
  import opened ImageArchive

  const LAUNCHER: string := Within("scripts", "serve_ephemeral_signed_verifier_https.py")
  const REQUIREMENTS: string := "requirements-verifier-host.txt"
  const CHECKPOINT: string := Within("schemas", "checkpoint.schema.json")
  const OBSERVATION: string := Within("schemas", "observation-event.schema.json")
  const FIXED: set<string> := {LAUNCHER, REQUIREMENTS, CHECKPOINT, OBSERVATION}
  const APP_DIRECTORY: string := "src/app_contracts/"
  const MANIFEST: string := "MANIFEST.json"
  const SCHEMA: string := "agent00x-verifier-host-source-bundle/v1"
  const MAX_MEMBERS: int := 128
  const MAX_MEMBER_BYTES: int := 1048576
  const MAX_SOURCE_BYTES: int := 8388608
  const MAX_MANIFEST_BYTES: int := 65536
  const MAX_ARCHIVE_BYTES: int := 10485760

  /** A tar member as its header describes it. */
  datatype Item = Item(name: string, regular: bool, mode: nat, uid: nat, gid: nat, pax: bool, data: bytes)

  /** The formats that stay abstract: the hash in hex, JSON text with sorted keys and ASCII escapes, and
      USTAR archives, which cannot represent every name. */
  datatype Host = Host(
    sha: bytes -> string,
    render: Json -> bytes,
    parse: bytes -> Option<Json>,
    pack: seq<Item> -> Option<bytes>,
    unpack: bytes -> Option<seq<Item>>)

  function Packed(name: string, data: bytes): Item {
    Item(name, true, 420, 0, 0, false, data)
  }

  predicate PlainItem(i: Item) {
    i.regular && i.mode == 420 && i.uid == 0 && i.gid == 0 && !i.pax
  }

  /** A written archive lists what was added to it. */
  ghost predicate PackLaw(h: Host) {
    forall items: seq<Item> {:trigger h.pack(items)} ::
      h.pack(items).Some? &&
      (forall i :: 0 <= i < |items| ==> items[i] == Packed(items[i].name, items[i].data) && '\0' !in items[i].name) ==>
        h.unpack(h.pack(items).value) == Some(items)
  }

  /** A printed line parses back to an equal value; equal values print alike; parsing builds
      dictionaries with distinct keys. */
  ghost predicate PrintLaw(h: Host) {
    (forall v: Json {:trigger h.render(v)} :: WellFormed(v) ==>
      h.parse(h.render(v) + [10]).Some? && Canon(h.parse(h.render(v) + [10]).value) == Canon(v)) &&
    (forall v: Json, w: Json {:trigger h.render(v), h.render(w)} ::
      WellFormed(v) && WellFormed(w) && Canon(v) == Canon(w) ==> h.render(v) == h.render(w)) &&
    (forall b: bytes {:trigger h.parse(b)} :: h.parse(b).Some? ==> WellFormed(h.parse(b).value))
  }

  // ---------------------------------------------------------------------------
  // Names

  predicate StartsWith(s: string, prefix: string) {
    |s| >= |prefix| && s[..|prefix|] == prefix
  }

  predicate EndsWith(s: string, suffix: string) {
    |s| >= |suffix| && s[|s| - |suffix|..] == suffix
  }

  /** _is_allowed_name */
  predicate BuilderAllows(name: string) {
    name in FIXED ||
    (StartsWith(name, APP_DIRECTORY) && EndsWith(name, ".py") && '\\' !in name && ".." !in Split(name))
  }

  /** What the receiver asks of every name in the manifest. */
  predicate ReceiverAllows(name: string) {
    !StartsWith(name, "/") && '\\' !in name && ".." !in Split(name) &&
    (name in FIXED || (StartsWith(name, APP_DIRECTORY) && EndsWith(name, ".py")))
  }

  function Within(directory: string, leaf: string): string {
    directory + "/" + leaf
  }

  predicate Leaf(name: string) {
    |name| > 2 && '/' !in name && '\\' !in name && name[0] != '.'
  }

  /** What both rules ask of the fixed names anyway. */
  predicate Harmless(name: string) {
    name != "" && name[0] != '/' && name[0] != '.' && '\\' !in name && ".." !in Split(name)
  }

  lemma LeafHarmless(name: string)
    requires Leaf(name)
    ensures Harmless(name)
  {
    SplitWhole(name);
  }

  lemma WithinHarmless(directory: string, leaf: string)
    requires Leaf(directory) && Leaf(leaf)
    ensures Harmless(Within(directory, leaf))
  {
    SplitFirst(directory, leaf);
    SplitWhole(leaf);
  }

  lemma FixedLeaves()
    ensures Leaf("scripts") && Leaf("schemas") && Leaf(REQUIREMENTS)
    ensures Leaf("checkpoint.schema.json") && Leaf("observation-event.schema.json")
  {
  }

  lemma LauncherLeaf()
    ensures Leaf("serve_ephemeral_signed_verifier_https.py")
  {
  }

  lemma FixedHarmless(name: string)
    requires name in FIXED
    ensures Harmless(name)
  {
    hide Within, Harmless, Leaf;
    FixedLeaves();
    LauncherLeaf();
    WithinHarmless("scripts", "serve_ephemeral_signed_verifier_https.py");
    WithinHarmless("schemas", "checkpoint.schema.json");
    WithinHarmless("schemas", "observation-event.schema.json");
    LeafHarmless(REQUIREMENTS);
  }

  lemma NamesAgree(name: string)
    ensures BuilderAllows(name) <==> ReceiverAllows(name)
  {
    hide Within, Split;
    if name in FIXED {
      FixedHarmless(name);
    } else if StartsWith(name, APP_DIRECTORY) {
      assert name[0] == APP_DIRECTORY[0];
    }
  }

  lemma ManifestNotAllowed()
    ensures !BuilderAllows(MANIFEST)
  {
  }

  // ---------------------------------------------------------------------------
  // Dictionaries of files

  function Volume(d: seq<Pair<bytes>>): nat {
    if d == [] then 0 else |d[0].value| + Volume(d[1..])
  }

  function Files(items: seq<Item>): (r: seq<Pair<bytes>>)
    ensures |r| == |items|
  {
    seq(|items|, i requires 0 <= i < |items| => Pair(items[i].name, items[i].data))
  }

  function ItemsOf(files: seq<Pair<bytes>>): (r: seq<Item>)
    ensures |r| == |files|
  {
    seq(|files|, i requires 0 <= i < |files| => Packed(files[i].key, files[i].value))
  }

  lemma FilesOfItems(files: seq<Pair<bytes>>)
    ensures Files(ItemsOf(files)) == files
  {
  }

  // ---------------------------------------------------------------------------
  // The manifest

  function Record(h: Host, file: Pair<bytes>): Json {
    Obj([Pair("path", Str(file.key)), Pair("size", Num(|file.value|)), Pair("sha256", Str(h.sha(file.value)))])
  }

  function Manifest(h: Host, files: seq<Pair<bytes>>): Json {
    Obj([Pair("schema", Str(SCHEMA)),
         Pair("files", Arr(seq(|files|, i requires 0 <= i < |files| => Record(h, files[i]))))])
  }

  function ManifestBytes(h: Host, files: seq<Pair<bytes>>): bytes {
    h.render(Manifest(h, files)) + [10]
  }

  /** The receiver's check of one manifest record. */
  predicate RecordFits(h: Host, record: Json, file: Pair<bytes>) {
    record.Obj? && Keys(record.members) == {"path", "size", "sha256"} &&
    At(record, "path") == Some(Str(file.key)) && At(record, "size") == Some(Num(|file.value|)) &&
    At(record, "sha256") == Some(Str(h.sha(file.value)))
  }

  /** The receiver's check of the whole document against the sorted files. */
  predicate Describes(h: Host, v: Json, files: seq<Pair<bytes>>) {
    v.Obj? && Keys(v.members) == {"schema", "files"} && At(v, "schema") == Some(Str(SCHEMA)) &&
    At(v, "files").Some? && At(v, "files").value.Arr? && |At(v, "files").value.items| == |files| &&
    forall i | 0 <= i < |files| :: RecordFits(h, At(v, "files").value.items[i], files[i])
  }

  lemma RecordSame(h: Host, record: Json, file: Pair<bytes>)
    requires WellFormed(record)
    ensures Same(record, Record(h, file)) <==> RecordFits(h, record, file)
  {
    var w := Record(h, file);
    assert "path"[0] != "size"[0];
    assert w.members[0].key == "path" && w.members[1].key == "size" && w.members[2].key == "sha256";
    assert Keys(w.members) == {"path", "size", "sha256"};
    GetAt(w.members, 0);
    GetAt(w.members, 1);
    GetAt(w.members, 2);
    if record.Obj? {
      SameByKeys(record, w);
      if Keys(record.members) == {"path", "size", "sha256"} {
        KeysGet(record.members, "path");
        KeysGet(record.members, "size");
        KeysGet(record.members, "sha256");
      }
    }
  }

  lemma ManifestSame(h: Host, v: Json, files: seq<Pair<bytes>>)
    requires WellFormed(v)
    ensures Same(v, Manifest(h, files)) <==> Describes(h, v, files)
  {
    var w := Manifest(h, files);
    assert w.members[0].key == "schema" && w.members[1].key == "files";
    assert Keys(w.members) == {"schema", "files"};
    GetAt(w.members, 0);
    GetAt(w.members, 1);
    if v.Obj? {
      SameByKeys(v, w);
      if Keys(v.members) == {"schema", "files"} {
        KeysGet(v.members, "schema");
        KeysGet(v.members, "files");
        var value := At(v, "files").value;
        assert WellFormed(value) by { GetFinds(v.members, "files"); }
        if value.Arr? && |value.items| == |files| {
          forall i | 0 <= i < |files|
            ensures Same(value.items[i], w.members[1].value.items[i]) <==> RecordFits(h, value.items[i], files[i])
          {
            RecordSame(h, value.items[i], files[i]);
          }
        }
      }
    }
  }

  lemma ManifestWellFormed(h: Host, files: seq<Pair<bytes>>)
    ensures WellFormed(Manifest(h, files))
  {
    assert "path"[0] != "size"[0];
    forall i | 0 <= i < |files| ensures WellFormed(Record(h, files[i])) {
    }
  }

  /** A manifest file that parses, prints back to itself and describes the files is the builder's. */
  lemma ManifestPinned(h: Host, raw: bytes, files: seq<Pair<bytes>>)
    requires PrintLaw(h)
    ensures (h.parse(raw).Some? && raw == h.render(h.parse(raw).value) + [10] &&
             Describes(h, h.parse(raw).value, files))
            <==> raw == ManifestBytes(h, files)
  {
    var m := Manifest(h, files);
    ManifestWellFormed(h, files);
    if h.parse(raw).Some? {
      var v := h.parse(raw).value;
      ManifestSame(h, v, files);
      CanonSame(v, m);
    }
    assert raw == ManifestBytes(h, files) ==> h.parse(raw).Some?;
  }
}
