/** parse_portable_archive: one OCI or Docker-legacy archive against expected facts. */
module PortableParser {
  import opened Base
  import opened CanonicalJson
  import opened ImageArchive

  const MAX_ARCHIVE_BYTES := 128 * 1024 * 1024
  const MAX_EXPANDED_LAYER_BYTES := 512 * 1024 * 1024
  const REF_NAME := "org.opencontainers.image.ref.name"

  datatype Expected = Expected(
    configDigest: string, os: string, arch: string, diffIds: seq<string>, repoTag: Option<string>)

  datatype Facts = Facts(
    format: string, manifestDigest: Option<string>, configDigest: string, os: string, arch: string,
    diffIds: seq<string>, repoTags: seq<string>)

  // ---------------------------------------------------------------------------
  // What acceptance means

  predicate TagChar(ch: char) {
    'A' <= ch <= 'Z' || 'a' <= ch <= 'z' || '0' <= ch <= '9' || ch == '_'
  }

  predicate ImageTag(s: string) {
    1 <= |s| <= 128 && TagChar(s[0]) &&
    forall i | 1 <= i < |s| :: TagChar(s[i]) || s[i] == '.' || s[i] == '-'
  }

  /** tag.rsplit(":", 1)[1] */
  function RefName(tag: string): string
    requires ':' in tag
  {
    if ':' in tag[1..] then RefName(tag[1..]) else tag[1..]
  }

  predicate TagOk(tag: string) {
    '\n' !in tag && '@' !in tag && ':' in tag && ImageTag(RefName(tag))
  }

  predicate ExpectedOk(exp: Expected) {
    IsDigest(exp.configDigest) && exp.os in {"linux", "windows"} &&
    exp.arch in {"amd64", "arm64", "386", "arm", "ppc64le", "s390x"} &&
    |exp.diffIds| > 0 && (forall i | 0 <= i < |exp.diffIds| :: IsDigest(exp.diffIds[i])) &&
    (exp.repoTag.Some? ==> TagOk(exp.repoTag.value))
  }

  /** A directory may be listed with a trailing slash. */
  function Normalized(e: Entry): string {
    if e.kind == Directory && e.name != "" && e.name[|e.name| - 1] == '/' then e.name[..|e.name| - 1] else e.name
  }

  predicate EntryOk(e: Entry, max: int) {
    e.name != "" && '\\' !in e.name && Normalized(e) != "" && PosixName(Normalized(e)) &&
    (if e.kind == Directory then e.size == 0 else e.kind == File && e.size <= max)
  }

  predicate TableOk(es: seq<Entry>, max: int) {
    0 < |es| <= 128 && DistinctNames(es) && (forall i | 0 <= i < |es| :: EntryOk(es[i], max)) &&
    forall i, j | 0 <= i < j < |es| :: Normalized(es[i]) != Normalized(es[j])
  }

  predicate HasIndex(es: seq<Entry>) { Find(es, "index.json").Some? }
  predicate HasLegacy(es: seq<Entry>) { Find(es, "manifest.json").Some? }

  function TextArray(xs: seq<string>): Json {
    Arr(seq(|xs|, i requires 0 <= i < |xs| => Str(xs[i])))
  }

  /** A configuration document whose root file system is made of layers. */
  predicate RootfsOk(config: Option<Json>) {
    config.Some? && config.value.Obj? && At(config.value, "rootfs").Some? &&
    At(At(config.value, "rootfs").value, "type") == Some(Str("layers"))
  }

  predicate PlatformOk(config: Json, exp: Expected) {
    At(config, "os") == Some(Str(exp.os)) && At(config, "architecture") == Some(Str(exp.arch))
  }

  predicate ConfigOk(config: Option<Json>, exp: Expected) {
    RootfsOk(config) && PlatformOk(config.value, exp) &&
    At(At(config.value, "rootfs").value, "diff_ids") == Some(TextArray(exp.diffIds))
  }

  /** The descriptor carries a ref-name annotation. */
  predicate Annotated(d: Json) {
    At(d, "annotations").Some? && At(At(d, "annotations").value, REF_NAME).Some?
  }

  predicate RefOk(d: Json, exp: Expected, hasLegacy: bool) {
    (At(d, "annotations").Some? ==> At(d, "annotations").value.Obj?) &&
    if Annotated(d) then
      exp.repoTag.Some? && ':' in exp.repoTag.value &&
      At(At(d, "annotations").value, REF_NAME) in {Some(Str(RefName(exp.repoTag.value))), Some(Str(exp.repoTag.value))}
    else hasLegacy
  }

  /** Every content hashes to the DiffID in its place. */
  predicate DiffIdsOk(c: Codec, layers: seq<bytes>, diffIds: seq<string>) {
    |layers| == |diffIds| && forall i | 0 <= i < |layers| :: c.digest(layers[i]) == diffIds[i]
  }

  function ParserSizes(max: int): Sizes { Sizes(65536, 1048576, max) }

  /** The chain behind index.json, as the parser reads it. */
  function OciChain(c: Codec, es: seq<Entry>, max: int): Option<Resolved> {
    var raw := Read(es, "index.json", 65536);
    if raw.Some? then Resolve(c, es, raw.value, ParserSizes(max)) else None
  }

  function OciPart(c: Codec, es: seq<Entry>, max: int): Option<Image> {
    var r := OciChain(c, es, max);
    if r.Some? then OciImage(c, es, r.value, max) else None
  }

  predicate OciOk(c: Codec, es: seq<Entry>, exp: Expected, max: int) {
    OciPart(c, es, max).Some? &&
    var r, image := OciChain(c, es, max).value, OciPart(c, es, max).value;
    RefOk(r.descriptor, exp, HasLegacy(es)) &&
    At(At(r.manifest, "config").value, "digest") == Some(Str(exp.configDigest)) &&
    ConfigOk(c.loads(image.config), exp) && DiffIdsOk(c, image.layers, exp.diffIds)
  }

  predicate TagsOk(record: Json, exp: Expected) {
    At(record, "RepoTags") == Some(if exp.repoTag.None? then Null else TextArray([exp.repoTag.value]))
  }

  predicate LegacyOk(c: Codec, es: seq<Entry>, exp: Expected, max: int) {
    LegacyImage(c, es, max).Some? &&
    var image := LegacyImage(c, es, max).value;
    TagsOk(LegacyRecord(c, es).value, exp) && c.digest(image.config) == exp.configDigest &&
    ConfigOk(c.loads(image.config), exp) && DiffIdsOk(c, image.layers, exp.diffIds)
  }

  /** The bytes one image part expands to. */
  function Expansion(part: Option<Image>): nat {
    if part.Some? then Total(part.value.layers) else 0
  }

  /** Both copies together. */
  function SharedExpansion(c: Codec, es: seq<Entry>, max: int): nat {
    (if HasIndex(es) then Expansion(OciPart(c, es, max)) else 0) +
    (if HasLegacy(es) then Expansion(LegacyImage(c, es, max)) else 0)
  }

  predicate ContentOk(c: Codec, es: seq<Entry>, exp: Expected, maxArchive: int, maxExpanded: int) {
    TableOk(es, maxArchive) && (HasIndex(es) || HasLegacy(es)) &&
    (HasIndex(es) ==> OciOk(c, es, exp, maxArchive)) &&
    (HasLegacy(es) ==> LegacyOk(c, es, exp, maxArchive)) &&
    SharedExpansion(c, es, maxArchive) <= maxExpanded
  }

  /** Everything the parser demands, independent of the order it looks. */
  predicate Accepts(c: Codec, archive: bytes, exp: Expected, maxArchive: int, maxExpanded: int) {
    maxArchive > 0 && maxExpanded >= 0 && 0 < |archive| <= maxArchive && ExpectedOk(exp) &&
    c.untar(archive).Some? && ContentOk(c, c.untar(archive).value, exp, maxArchive, maxExpanded)
  }

  function FactsOf(c: Codec, es: seq<Entry>, exp: Expected, maxArchive: int): Facts {
    var chain := OciChain(c, es, maxArchive);
    var digest := if chain.Some? then At(chain.value.descriptor, "digest") else None;
    Facts(
      if HasIndex(es) && HasLegacy(es) then "oci+docker-legacy" else if HasIndex(es) then "oci" else "docker-legacy",
      if HasIndex(es) && digest.Some? && digest.value.Str? then Some(digest.value.s) else None,
      exp.configDigest, exp.os, exp.arch, exp.diffIds,
      if exp.repoTag.None? then [] else [exp.repoTag.value])
  }

  // ---------------------------------------------------------------------------
  // The parser

  method CheckTable(es: seq<Entry>, max: int) returns (ok: bool)
    ensures ok <==> TableOk(es, max)
  {
    if !(0 < |es| <= 128) { return false; }
    var names: set<string> := {};
    for i := 0 to |es|
      invariant names == set k | 0 <= k < i :: es[k].name
      invariant DistinctNames(es[..i])
    {
      if es[i].name in names {
        var k :| 0 <= k < i && es[k].name == es[i].name;
        return false;
      }
      names := names + {es[i].name};
    }
    assert es[..|es|] == es;
    var normalized: set<string> := {};
    for i := 0 to |es|
      invariant normalized == set k | 0 <= k < i :: Normalized(es[k])
      invariant forall k | 0 <= k < i :: EntryOk(es[k], max)
      invariant forall k, l | 0 <= k < l < i :: Normalized(es[k]) != Normalized(es[l])
    {
      var e := es[i];
      if e.name == "" || '\\' in e.name || Normalized(e) == "" { return false; }
      if Normalized(e) in normalized {
        var k :| 0 <= k < i && Normalized(es[k]) == Normalized(e);
        return false;
      }
      normalized := normalized + {Normalized(e)};
      if !PosixName(Normalized(e)) { return false; }
      if e.kind == Directory {
        if e.size != 0 { return false; }
      } else if e.kind != File || e.size > max {
        return false;
      }
    }
    return true;
  }

  datatype LayerFault = Unreadable(index: nat) | OverBudget(index: nat) | Mismatch(index: nat)

  /** The layer loop: `contents[i]` is what reading and expanding layer i gives. The budget
      already spent is carried in, so that the OCI and legacy copies share it. */
  method AuditLayers(c: Codec, contents: seq<Option<bytes>>, diffIds: seq<string>, spent: nat, maxExpanded: int)
    returns (total: Result<nat, LayerFault>)
    requires |contents| == |diffIds| && spent <= maxExpanded
    ensures total.Ok? <==>
      AllSome(contents) && DiffIdsOk(c, Values(contents), diffIds) && spent + Total(Values(contents)) <= maxExpanded
    ensures total.Ok? ==> total.value == spent + Total(Values(contents))
    ensures total.Err? ==> total.error.index < |contents|
  {
    var expanded := spent;
    ghost var done: seq<bytes> := [];
    for i := 0 to |contents|
      invariant |done| == i && expanded == spent + Total(done) <= maxExpanded
      invariant forall k | 0 <= k < i :: contents[k] == Some(done[k]) && c.digest(done[k]) == diffIds[k]
    {
      if contents[i].None? { return Err(Unreadable(i)); }
      ghost var next := done + [contents[i].value];
      assert next[..i] == done;
      if |contents[i].value| > maxExpanded - expanded {
        if AllSome(contents) {
          assert Values(contents)[..i + 1] == next;
          TotalPrefix(Values(contents), i + 1);
        }
        return Err(OverBudget(i));
      }
      expanded := expanded + |contents[i].value|;
      if c.digest(contents[i].value) != diffIds[i] { return Err(Mismatch(i)); }
      done := next;
    }
    assert done == Values(contents);
    return Ok(expanded);
  }

  /** What the OCI half establishes before the expected facts are compared. */
  predicate OciShape(c: Codec, es: seq<Entry>, exp: Expected, max: int) {
    OciPart(c, es, max).Some? && RefOk(OciChain(c, es, max).value.descriptor, exp, HasLegacy(es)) &&
    RootfsOk(c.loads(OciPart(c, es, max).value.config)) &&
    DiffIdsOk(c, OciPart(c, es, max).value.layers, exp.diffIds)
  }

  /** An index whose descriptor names no reference, in an archive without a legacy manifest. */
  predicate IndexUnbound(c: Codec, es: seq<Entry>) {
    var raw := Read(es, "index.json", 65536);
    raw.Some? && IndexDescriptor(c, raw.value).Some? && !HasLegacy(es) &&
    var d := IndexDescriptor(c, raw.value).value;
    (At(d, "annotations").Some? ==> At(d, "annotations").value.Obj?) && !Annotated(d)
  }

  method AuditIndex(c: Codec, es: seq<Entry>, exp: Expected) returns (d: Result<Json, string>)
    ensures d.Ok? <==>
      Read(es, "index.json", 65536).Some? && IndexDescriptor(c, Read(es, "index.json", 65536).value).Some? &&
      RefOk(IndexDescriptor(c, Read(es, "index.json", 65536).value).value, exp, HasLegacy(es))
    ensures d.Ok? ==> Some(d.value) == IndexDescriptor(c, Read(es, "index.json", 65536).value)
    ensures IndexUnbound(c, es) ==> d == Err("oci-index-ref-name-unbound")
  {
    var raw := Read(es, "index.json", 65536);
    if raw.None? { return Err("oci-index-header"); }
    var index := c.loads(raw.value);
    if index.None? || At(index.value, "schemaVersion") != Some(Num(2)) { return Err("oci-index-header"); }
    var list := At(index.value, "manifests");
    if list.None? || !list.value.Arr? || |list.value.items| != 1 { return Err("oci-index-manifest-list"); }
    var descriptor := list.value.items[0];
    if !descriptor.Obj? { return Err("oci-index-descriptor"); }
    var annotations := At(descriptor, "annotations");
    if annotations.Some? && !annotations.value.Obj? { return Err("oci-index-annotations-invalid"); }
    if annotations.Some? && At(annotations.value, REF_NAME).Some? {
      if exp.repoTag.None? || !RefOk(descriptor, exp, HasLegacy(es)) { return Err("oci-index-ref-name-mismatch"); }
    } else if !HasLegacy(es) {
      return Err("oci-index-ref-name-unbound");
    }
    return Ok(descriptor);
  }

  method AuditOci(c: Codec, es: seq<Entry>, exp: Expected, maxArchive: int, maxExpanded: int)
    returns (total: Result<nat, string>)
    requires maxExpanded >= 0
    ensures total.Ok? <==>
      OciShape(c, es, exp, maxArchive) && Expansion(OciPart(c, es, maxArchive)) <= maxExpanded
    ensures total.Ok? ==> total.value == Expansion(OciPart(c, es, maxArchive))
    ensures IndexUnbound(c, es) ==> total == Err("oci-index-ref-name-unbound")
  {
    var d := AuditIndex(c, es, exp);
    if d.Err? { return Err(d.error); }
    var m := ManifestOf(c, es, d.value, 65536);
    if m.None? { return Err("oci-manifest"); }
    var config := At(m.value.1, "config");
    if config.None? || !config.value.Obj? { return Err("oci-manifest"); }
    var configRaw := Blob(c, es, config.value, 1048576);
    if configRaw.None? || !RootfsOk(c.loads(configRaw.value)) { return Err("image-config"); }
    var layers := At(m.value.1, "layers");
    if layers.None? || !layers.value.Arr? || |layers.value.items| != |exp.diffIds| { return Err("image-config"); }
    var contents := OciContents(c, es, layers.value.items, maxArchive);
    var audited := AuditLayers(c, contents, exp.diffIds, 0, maxExpanded);
    if audited.Err? {
      OciPartUnfolds(c, es, d.value, m.value.1, maxArchive);
      return Err("oci-layers");
    }
    OciPartUnfolds(c, es, d.value, m.value.1, maxArchive);
    return Ok(audited.value);
  }

  /** The OCI image exists exactly when every layer expands, once the links above the layers hold. */
  lemma OciPartUnfolds(c: Codec, es: seq<Entry>, d: Json, manifest: Json, max: int)
    requires Read(es, "index.json", 65536).Some?
    requires IndexDescriptor(c, Read(es, "index.json", 65536).value) == Some(d)
    requires ManifestOf(c, es, d, 65536).Some? && ManifestOf(c, es, d, 65536).value.1 == manifest
    requires At(manifest, "config").Some? && Blob(c, es, At(manifest, "config").value, 1048576).Some?
    requires At(manifest, "layers").Some? && At(manifest, "layers").value.Arr?
    ensures
      var contents := OciContents(c, es, At(manifest, "layers").value.items, max);
      (OciPart(c, es, max).Some? <==> AllSome(contents)) &&
      (AllSome(contents) ==>
        OciPart(c, es, max) == Some(Image(Blob(c, es, At(manifest, "config").value, 1048576).value, Values(contents))))
  {
    var items := At(manifest, "layers").value.items;
    var contents := OciContents(c, es, items, max);
    if AllSome(contents) {
      forall i | 0 <= i < |items| ensures Blob(c, es, items[i], max).Some? { assert contents[i].Some?; }
    }
  }

  /** What the legacy half establishes. Beside an OCI index the configuration must hash to the
      OCI configuration's digest and is compared at once. */
  predicate LegacyShape(c: Codec, es: seq<Entry>, exp: Expected, max: int, beside: Option<string>) {
    LegacyImage(c, es, max).Some? && TagsOk(LegacyRecord(c, es).value, exp) &&
    var image := LegacyImage(c, es, max).value;
    (if beside.Some? then c.digest(image.config) == beside.value && ConfigOk(c.loads(image.config), exp)
     else RootfsOk(c.loads(image.config))) &&
    DiffIdsOk(c, image.layers, exp.diffIds)
  }

  method AuditLegacy(c: Codec, es: seq<Entry>, exp: Expected, beside: Option<string>, spent: nat,
                     maxArchive: int, maxExpanded: int)
    returns (total: Result<nat, string>)
    requires spent <= maxExpanded
    ensures total.Ok? <==>
      LegacyShape(c, es, exp, maxArchive, beside) &&
      spent + Expansion(LegacyImage(c, es, maxArchive)) <= maxExpanded
    ensures total.Ok? ==> total.value == spent + Expansion(LegacyImage(c, es, maxArchive))
  {
    var record := LegacyRecord(c, es);
    if record.None? || !TagsOk(record.value, exp) { return Err("docker-manifest"); }
    var name := At(record.value, "Config");
    if name.None? || !name.value.Str? { return Err("docker-manifest"); }
    var config := ReadNamed(es, name.value, 1048576);
    if config.None? { return Err("docker-config"); }
    if beside.Some? && (c.digest(config.value) != beside.value || !ConfigOk(c.loads(config.value), exp)) {
      return Err("docker-config");
    }
    if !RootfsOk(c.loads(config.value)) { return Err("docker-config"); }
    var layers := At(record.value, "Layers");
    if layers.None? || !layers.value.Arr? || |layers.value.items| != |exp.diffIds| { return Err("docker-config"); }
    var contents := LegacyContents(c, es, layers.value.items, maxArchive);
    var audited := AuditLayers(c, contents, exp.diffIds, spent, maxExpanded);
    if audited.Ok? { return Ok(audited.value); }
    match audited.error {
      case Unreadable(i) =>
        return Err(if ReadNamed(es, layers.value.items[i], maxArchive).None?
                   then "docker-layer-member" else "docker-layer-size-limit");
      case OverBudget(_) => return Err("docker-layer-size-limit");
      case Mismatch(_) => return Err("docker-layer-diff-id-mismatch");
    }
  }

  /** The bounds and well-formedness checks before the content is looked at. */
  predicate Preflight(c: Codec, archive: bytes, exp: Expected, maxArchive: int, maxExpanded: int) {
    maxArchive > 0 && maxExpanded >= 0 && 0 < |archive| <= maxArchive && ExpectedOk(exp) &&
    c.untar(archive).Some? && TableOk(c.untar(archive).value, maxArchive)
  }

  /** parse_portable_archive */
  method ParsePortableArchive(c: Codec, archive: bytes, exp: Expected, maxArchive: int, maxExpanded: int)
    returns (r: Result<Facts, string>)
    ensures r.Ok? <==> Accepts(c, archive, exp, maxArchive, maxExpanded)
    ensures r.Ok? ==> r.value == FactsOf(c, c.untar(archive).value, exp, maxArchive)
    ensures Preflight(c, archive, exp, maxArchive, maxExpanded) && IndexUnbound(c, c.untar(archive).value)
            ==> r == Err("oci-index-ref-name-unbound")
  {
    hide WellFormed, TableOk, ExpectedOk, PlatformOk, TextArray;
    if maxArchive <= 0 || maxExpanded < 0 || !(0 < |archive| <= maxArchive) || !ExpectedOk(exp) {
      return Err("expected-facts");
    }
    var listed := c.untar(archive);
    if listed.None? { return Err("archive-layout"); }
    var es := listed.value;
    var tableOk := CheckTable(es, maxArchive);
    if !tableOk { return Err("archive-members"); }
    if !HasIndex(es) && !HasLegacy(es) { return Err("archive-format"); }
    var spent: nat, configDigest, config := 0, "", Null;
    if HasIndex(es) {
      var oci := AuditOci(c, es, exp, maxArchive, maxExpanded);
      if oci.Err? { return Err(oci.error); }
      spent := oci.value;
      configDigest := At(At(OciChain(c, es, maxArchive).value.manifest, "config").value, "digest").value.s;
      config := c.loads(OciPart(c, es, maxArchive).value.config).value;
    }
    if HasLegacy(es) {
      var legacy := AuditLegacy(c, es, exp, if HasIndex(es) then Some(configDigest) else None,
                                spent, maxArchive, maxExpanded);
      if legacy.Err? { return Err(legacy.error); }
      spent := legacy.value;
      if !HasIndex(es) {
        configDigest := c.digest(LegacyImage(c, es, maxArchive).value.config);
        config := c.loads(LegacyImage(c, es, maxArchive).value.config).value;
      }
    }
    if configDigest != exp.configDigest { return Err("daemon-config-digest-mismatch"); }
    if !PlatformOk(config, exp) { return Err("daemon-platform-mismatch"); }
    if At(At(config, "rootfs").value, "diff_ids") != Some(TextArray(exp.diffIds)) {
      return Err("daemon-diff-id-mismatch");
    }
    return Ok(FactsOf(c, es, exp, maxArchive));
  }
}
