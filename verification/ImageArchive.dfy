/** Image archives as content-addressed stores, after the OCI Image Format Specification
    ("Content Descriptors", "Image Layout", "Image Manifest", "Image Configuration"):
    names, members, descriptors, and the images an archive denotes. */
module ImageArchive {
  import opened Base
  import opened CanonicalJson

  datatype EntryKind = File | Directory | Other

  /** A tar member: the size its header declares and the bytes that can be read from it. */
  datatype Entry = Entry(name: string, kind: EntryKind, size: nat, data: bytes)

  /** The formats that stay abstract. `digest` is the "sha256:" text of the hash. */
  datatype Codec = Codec(
    digest: bytes -> string,
    gunzip: bytes -> Option<bytes>,
    untar: bytes -> Option<seq<Entry>>,
    tar: seq<Pair<bytes>> -> bytes,
    loads: bytes -> Option<Json>,
    dumps: Json -> bytes)

  // ---------------------------------------------------------------------------
  // Names

  /** name.split("/") */
  function Split(s: string): (parts: seq<string>)
    ensures |parts| >= 1
  {
    if s == "" then [""]
    else if s[0] == '/' then [""] + Split(s[1..])
    else var rest := Split(s[1..]); [[s[0]] + rest[0]] + rest[1..]
  }

  /** A relative path in normal form. PurePosixPath drops empty and "." parts, so a name
      equal to its own path has none; "." itself is a path with no parts. */
  predicate PosixName(name: string) {
    name == "." || forall i | 0 <= i < |Split(name)| :: Split(name)[i] !in {"", ".", ".."}
  }

  function BlobName(digest: string): string
    requires |digest| >= 7
  {
    "blobs/sha256/" + digest[7..]
  }

  lemma {:induction false} SplitWhole(s: string)
    requires '/' !in s
    ensures Split(s) == [s]
  {
    if s != "" {
      SplitWhole(s[1..]);
      assert s == [s[0]] + s[1..];
    }
  }

  lemma {:induction false} SplitFirst(a: string, b: string)
    requires '/' !in a
    ensures Split(a + "/" + b) == [a] + Split(b)
  {
    var s := a + "/" + b;
    if a == "" {
      assert s[1..] == b;
    } else {
      assert s[1..] == a[1..] + "/" + b && a == [a[0]] + a[1..];
      SplitFirst(a[1..], b);
    }
  }

  lemma HexDigits(digest: string)
    requires IsDigest(digest)
    ensures |digest[7..]| == 64 && '/' !in digest[7..] && '.' !in digest[7..] && '\\' !in digest[7..]
    ensures '\0' !in digest[7..]
  {
    assert forall i | 0 <= i < 64 :: digest[7..][i] == digest[7 + i];
  }

  lemma BlobNamePosix(digest: string)
    requires IsDigest(digest)
    ensures PosixName(BlobName(digest)) && '\\' !in BlobName(digest) && BlobName(digest) != ""
    ensures '\0' !in BlobName(digest)
    ensures BlobName(digest) != "index.json" && BlobName(digest) != "manifest.json"
  {
    HexDigits(digest);
    var hex := digest[7..];
    assert BlobName(digest) == "blobs" + "/" + ("sha256" + "/" + hex);
    SplitFirst("blobs", "sha256" + "/" + hex);
    SplitFirst("sha256", hex);
    SplitWhole(hex);
    assert Split(BlobName(digest)) == ["blobs", "sha256", hex];
    assert |BlobName(digest)| == 77;
  }

  lemma PlainNamePosix(s: string)
    requires '/' !in s && |s| > 2
    ensures PosixName(s)
  {
    SplitWhole(s);
  }

  // ---------------------------------------------------------------------------
  // Members

  predicate DistinctNames(es: seq<Entry>) {
    forall i, j :: 0 <= i < j < |es| ==> es[i].name != es[j].name
  }

  function Find(es: seq<Entry>, name: string): Option<Entry> {
    if es == [] then None
    else if es[0].name == name then Some(es[0])
    else Find(es[1..], name)
  }

  /** The content of a regular member within a limit; None when the read is rejected. */
  function Read(es: seq<Entry>, name: string, limit: int): Option<bytes> {
    var found := Find(es, name);
    if found.Some? && found.value.kind == File && found.value.size <= limit
       && |found.value.data| == found.value.size
    then Some(found.value.data) else None
  }

  lemma {:induction false} FindAt(es: seq<Entry>, i: nat)
    requires DistinctNames(es) && i < |es|
    ensures Find(es, es[i].name) == Some(es[i])
  {
    if i > 0 {
      assert es[1..][i - 1] == es[i];
      FindAt(es[1..], i - 1);
    }
  }

  lemma {:induction false} FindSound(es: seq<Entry>, name: string)
    ensures Find(es, name).Some? ==> Find(es, name).value in es && Find(es, name).value.name == name
    ensures Find(es, name).None? ==> forall i :: 0 <= i < |es| ==> es[i].name != name
  {
    if es != [] {
      FindSound(es[1..], name);
      if Find(es, name).None? {
        forall i | 0 <= i < |es| ensures es[i].name != name { if i > 0 { assert es[1..][i - 1] == es[i]; } }
      }
    }
  }

  /** What a written archive lists: one regular member per file. */
  function Written(files: seq<Pair<bytes>>): seq<Entry> {
    seq(|files|, i requires 0 <= i < |files| => Entry(files[i].key, File, |files[i].value|, files[i].value))
  }

  lemma {:induction false} FindWritten(files: seq<Pair<bytes>>, name: string)
    ensures Find(Written(files), name)
         == if Get(files, name).Some?
            then Some(Entry(name, File, |Get(files, name).value|, Get(files, name).value)) else None
  {
    if files != [] {
      assert Written(files)[1..] == Written(files[1..]);
      FindWritten(files[1..], name);
    }
  }

  // ---------------------------------------------------------------------------
  // Laws of the abstract formats

  /** A name that survives in a tar header: relative, in normal form, and free of the terminator. */
  predicate TarName(name: string) {
    PosixName(name) && '\0' !in name
  }

  /** Writing files and reading the archive back lists exactly those files. */
  ghost predicate TarLaw(c: Codec) {
    forall files: seq<Pair<bytes>> {:trigger c.tar(files)} ::
      DistinctKeys(files) && (forall i :: 0 <= i < |files| ==> TarName(files[i].key)) ==>
        c.untar(c.tar(files)) == Some(Written(files)) && c.tar(files) != [] &&
        forall i :: 0 <= i < |files| ==> |files[i].value| <= |c.tar(files)|
  }

  /** Printed values parse back, and parsing builds dictionaries with distinct keys. */
  ghost predicate JsonLaw(c: Codec) {
    (forall v: Json {:trigger c.dumps(v)} :: WellFormed(v) ==> c.loads(c.dumps(v)) == Some(v)) &&
    (forall b: bytes {:trigger c.loads(b)} :: c.loads(b).Some? ==> WellFormed(c.loads(b).value))
  }

  /** A document that goes on after a complete object is that object followed by white space. */
  ghost predicate PrefixLaw(c: Codec) {
    forall b: bytes, n: nat {:trigger c.loads(b[..n])} ::
      n <= |b| && c.loads(b).Some? && c.loads(b[..n]).Some? && c.loads(b[..n]).value.Obj? ==>
        c.loads(b) == c.loads(b[..n])
  }

  ghost predicate DigestLaw(c: Codec) {
    forall b: bytes {:trigger c.digest(b)} :: IsDigest(c.digest(b))
  }

  ghost predicate Lawful(c: Codec) {
    TarLaw(c) && JsonLaw(c) && DigestLaw(c)
  }

  // ---------------------------------------------------------------------------
  // Descriptors and layers

  const GZIP_TYPES: set<string> :=
    {"application/vnd.oci.image.layer.v1.tar+gzip", "application/vnd.docker.image.rootfs.diff.tar.gzip"}
  const TAR_TYPE: string := "application/vnd.oci.image.layer.v1.tar"

  /** A descriptor's fields are well formed and its size is within the limit. */
  predicate DescriptorOk(d: Json, limit: int) {
    d.Obj? && At(d, "digest").Some? && At(d, "digest").value.Str? && IsDigest(At(d, "digest").value.s) &&
    At(d, "size").Some? && At(d, "size").value.Num? && 0 <= At(d, "size").value.n <= limit
  }

  /** The blob a descriptor names, when its size and digest are those declared. */
  function Blob(c: Codec, es: seq<Entry>, d: Json, limit: int): Option<bytes> {
    if !DescriptorOk(d, limit) then None
    else
      var digest := At(d, "digest").value.s;
      var data := Read(es, BlobName(digest), limit);
      if data.Some? && |data.value| == At(d, "size").value.n && c.digest(data.value) == digest
      then data else None
  }

  /** A layer's tar content by its media type. */
  function Expand(c: Codec, data: bytes, mediaType: Option<Json>): Option<bytes> {
    if mediaType == Some(Str(TAR_TYPE)) then Some(data)
    else if mediaType.Some? && mediaType.value.Str? && mediaType.value.s in GZIP_TYPES then c.gunzip(data)
    else None
  }

  /** The magic bytes of a gzip member (section 2.3.1 of RFC 1952). */
  predicate GzipMagic(data: bytes) {
    |data| >= 2 && data[0] == 0x1f && data[1] == 0x8b
  }

  function LegacyExpand(c: Codec, data: bytes): Option<bytes> {
    if GzipMagic(data) then c.gunzip(data) else Some(data)
  }

  /** The expanded content behind one OCI layer descriptor. */
  function OciLayer(c: Codec, es: seq<Entry>, d: Json, limit: int): Option<bytes> {
    var data := Blob(c, es, d, limit);
    if data.Some? then Expand(c, data.value, At(d, "mediaType")) else None
  }

  /** Total size of a list of contents. */
  function Total(xs: seq<bytes>): nat {
    if xs == [] then 0 else Total(xs[..|xs| - 1]) + |xs[|xs| - 1]|
  }

  lemma {:induction false} TotalPrefix(xs: seq<bytes>, i: nat)
    requires i <= |xs|
    ensures Total(xs[..i]) <= Total(xs)
    decreases |xs|
  {
    if i < |xs| {
      TotalPrefix(xs[..|xs| - 1], i);
      assert xs[..|xs| - 1][..i] == xs[..i];
    } else {
      assert xs[..i] == xs;
    }
  }

  predicate AllSome(xs: seq<Option<bytes>>) {
    forall i | 0 <= i < |xs| :: xs[i].Some?
  }

  function Values(xs: seq<Option<bytes>>): seq<bytes>
    requires AllSome(xs)
  {
    seq(|xs|, i requires 0 <= i < |xs| => xs[i].value)
  }

  // ---------------------------------------------------------------------------
  // The chain from an index, and the images archives denote

  /** An image: its configuration bytes and its layers' tar contents, in order. */
  datatype Image = Image(config: bytes, layers: seq<bytes>)

  datatype Sizes = Sizes(manifest: int, config: int, layer: int)

  /** index -> manifest -> config and layers, each link verified. */
  datatype Resolved = Resolved(
    descriptor: Json, manifestRaw: bytes, manifest: Json, configRaw: bytes, layers: seq<Json>)

  /** The one manifest descriptor of an index. */
  function IndexDescriptor(c: Codec, indexRaw: bytes): Option<Json> {
    var index := c.loads(indexRaw);
    if index.Some? && At(index.value, "schemaVersion") == Some(Num(2)) then
      var list := At(index.value, "manifests");
      if list.Some? && list.value.Arr? && |list.value.items| == 1 && list.value.items[0].Obj?
      then Some(list.value.items[0]) else None
    else None
  }

  /** The manifest behind a descriptor, as bytes and as a document. */
  function ManifestOf(c: Codec, es: seq<Entry>, d: Json, limit: int): Option<(bytes, Json)> {
    var raw := Blob(c, es, d, limit);
    if raw.Some? && c.loads(raw.value).Some? && At(c.loads(raw.value).value, "schemaVersion") == Some(Num(2))
    then Some((raw.value, c.loads(raw.value).value)) else None
  }

  function Resolve(c: Codec, es: seq<Entry>, indexRaw: bytes, sizes: Sizes): Option<Resolved> {
    var d := IndexDescriptor(c, indexRaw);
    if d.None? then None else
    var m := ManifestOf(c, es, d.value, sizes.manifest);
    if m.None? then None else
    var config := At(m.value.1, "config");
    var layers := At(m.value.1, "layers");
    if config.Some? && Blob(c, es, config.value, sizes.config).Some? && layers.Some? && layers.value.Arr?
       && forall i | 0 <= i < |layers.value.items| :: Blob(c, es, layers.value.items[i], sizes.layer).Some?
    then Some(Resolved(d.value, m.value.0, m.value.1, Blob(c, es, config.value, sizes.config).value,
                       layers.value.items))
    else None
  }

  /** What each layer descriptor expands to. */
  function OciContents(c: Codec, es: seq<Entry>, layers: seq<Json>, limit: int): seq<Option<bytes>> {
    seq(|layers|, i requires 0 <= i < |layers| => OciLayer(c, es, layers[i], limit))
  }

  /** The image an OCI chain denotes; None when a layer does not expand. */
  function OciImage(c: Codec, es: seq<Entry>, r: Resolved, limit: int): Option<Image> {
    var contents := OciContents(c, es, r.layers, limit);
    if AllSome(contents) then Some(Image(r.configRaw, Values(contents))) else None
  }

  /** The single record of a Docker-legacy manifest.json. */
  function LegacyRecord(c: Codec, es: seq<Entry>): Option<Json> {
    var raw := Read(es, "manifest.json", 65536);
    if raw.None? || c.loads(raw.value).None? then None else
    var doc := c.loads(raw.value).value;
    if doc.Arr? && |doc.items| == 1 && doc.items[0].Obj?
       && Keys(doc.items[0].members) == {"Config", "RepoTags", "Layers"}
    then Some(doc.items[0]) else None
  }

  /** A member named by a JSON string in normal form. */
  function ReadNamed(es: seq<Entry>, name: Json, limit: int): Option<bytes> {
    if name.Str? && PosixName(name.s) then Read(es, name.s, limit) else None
  }

  function LegacyLayer(c: Codec, es: seq<Entry>, name: Json, limit: int): Option<bytes> {
    var data := ReadNamed(es, name, limit);
    if data.Some? then LegacyExpand(c, data.value) else None
  }

  function LegacyContents(c: Codec, es: seq<Entry>, names: seq<Json>, limit: int): seq<Option<bytes>> {
    seq(|names|, i requires 0 <= i < |names| => LegacyLayer(c, es, names[i], limit))
  }

  /** The image a Docker-legacy record denotes. */
  function LegacyImage(c: Codec, es: seq<Entry>, limit: int): Option<Image> {
    var record := LegacyRecord(c, es);
    if record.None? then None else
    var config := At(record.value, "Config");
    var layers := At(record.value, "Layers");
    if config.Some? && ReadNamed(es, config.value, 1048576).Some? && layers.Some? && layers.value.Arr?
       && AllSome(LegacyContents(c, es, layers.value.items, limit))
    then Some(Image(ReadNamed(es, config.value, 1048576).value,
                    Values(LegacyContents(c, es, layers.value.items, limit))))
    else None
  }
}
