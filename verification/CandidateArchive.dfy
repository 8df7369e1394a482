/** _validate_archive: the saved candidate archive against the image id the daemon reported,
    and the fixed diagnostics attached when they disagree. */
module CandidateArchive {
  import opened Base
  import opened CanonicalJson
  import opened ImageArchive
  import opened PortableParser

  const MAX_CANDIDATE_BYTES := 640 * 1024 * 1024
  const MATCH := "daemon-match"
  const MISMATCH := "daemon-mismatch"
  const ABSENT := "absent"
  const UNCLASSIFIED := "unclassified"
  const EXPECTED_USER := "65532:65532"

  function ExpectedEntrypoint(): Json {
    TextArray(["python3", "-m", "app_contracts.verifier_container_entrypoint"])
  }

  /** The relation between the archive's identities and the inspected one. */
  datatype Relation = Relation(format: string, legacy: string, oci: string, ociManifest: string)

  datatype Fault = Fault(stage: string, nameMatches: Option<bool>, relation: Option<Relation>)

  function Plain(stage: string): Fault { Fault(stage, None, None) }

  function Compare(digest: string, inspected: string): string {
    if digest == inspected then MATCH else MISMATCH
  }

  /** json.loads of a readable member: None when it raises, Some(Null) when the member is unreadable. */
  function LoadsMember(c: Codec, raw: Option<bytes>): Option<Json> {
    if raw.Some? then c.loads(raw.value) else Some(Null)
  }

  /** The legacy half; None when parsing raises, which ends the classification. */
  function LegacyRelation(c: Codec, es: seq<Entry>, inspected: string): Option<string> {
    var manifest := LoadsMember(c, Read(es, "manifest.json", 65536));
    if manifest.None? then None
    else if manifest.value.Arr? && |manifest.value.items| == 1 && manifest.value.items[0].Obj?
            && At(manifest.value.items[0], "Config").Some? && At(manifest.value.items[0], "Config").value.Str?
    then
      var config := Read(es, At(manifest.value.items[0], "Config").value.s, 1048576);
      Some(if config.Some? then Compare(c.digest(config.value), inspected) else UNCLASSIFIED)
    else Some(UNCLASSIFIED)
  }

  /** The configuration behind a manifest document. */
  function ConfigRelation(c: Codec, es: seq<Entry>, manifest: Json, inspected: string): string {
    var d := if At(manifest, "config").Some? then At(manifest, "config").value else Null;
    if !DescriptorOk(d, 1048576) then UNCLASSIFIED else
    var digest := At(d, "digest").value.s;
    var raw := Read(es, BlobName(digest), 1048576);
    if raw.Some? && |raw.value| == At(d, "size").value.n
    then if digest == inspected && c.digest(raw.value) == inspected then MATCH else MISMATCH
    else UNCLASSIFIED
  }

  /** The OCI half: the configuration's relation and the manifest's. */
  function OciRelation(c: Codec, es: seq<Entry>, inspected: string): (string, string) {
    var index := LoadsMember(c, Read(es, "index.json", 65536));
    if index.None? then (UNCLASSIFIED, UNCLASSIFIED) else
    var list := At(index.value, "manifests");
    if list.Some? && list.value.Arr? && |list.value.items| == 1 && list.value.items[0].Obj?
       && At(list.value.items[0], "digest").Some? && At(list.value.items[0], "digest").value.Str?
       && IsDigest(At(list.value.items[0], "digest").value.s)
    then
      var digest := At(list.value.items[0], "digest").value.s;
      var manifest := LoadsMember(c, Read(es, BlobName(digest), 65536));
      (if manifest.Some? then ConfigRelation(c, es, manifest.value, inspected) else UNCLASSIFIED,
       Compare(digest, inspected))
    else (UNCLASSIFIED, UNCLASSIFIED)
  }

  /** _archive_identity_relation_facts, over an archive whose member names are distinct. */
  function IdentityRelation(c: Codec, es: seq<Entry>, inspected: string): Relation {
    var format := if HasIndex(es) && HasLegacy(es) then "oci+docker-legacy" else if HasIndex(es) then "oci"
                  else if HasLegacy(es) then "docker-legacy" else UNCLASSIFIED;
    var legacy := if HasLegacy(es) then LegacyRelation(c, es, inspected) else Some(ABSENT);
    var oci := if !HasIndex(es) then (ABSENT, ABSENT)
               else if legacy.Some? then OciRelation(c, es, inspected) else (UNCLASSIFIED, UNCLASSIFIED);
    Relation(format, if legacy.Some? then legacy.value else UNCLASSIFIED, oci.0, oci.1)
  }

  function CandidatePins(configDigest: string, diffIds: seq<string>, tag: string): Expected {
    Expected(configDigest, "linux", "amd64", diffIds, Some(tag))
  }

  /** rstrip("/") */
  function StripSlashes(s: string): string {
    if s != "" && s[|s| - 1] == '/' then StripSlashes(s[..|s| - 1]) else s
  }

  predicate LayoutOk(es: seq<Entry>) {
    forall i | 0 <= i < |es| ::
      es[i].name != "" && '\\' !in es[i].name && (es[i].kind == File || es[i].kind == Directory) &&
      PosixName(StripSlashes(es[i].name))
  }

  /** The facts agree with the inspected id on one of the two identities. */
  predicate Identified(facts: Facts, inspected: string) {
    inspected == facts.configDigest || facts.manifestDigest == Some(inspected)
  }

  /** The configuration a legacy manifest with this tag and this many layers names. */
  function CandidateConfig(c: Codec, es: seq<Entry>, tag: string, layers: nat): Option<bytes> {
    var raw := Read(es, "manifest.json", 65536);
    if raw.None? || c.loads(raw.value).None? then None else
    var doc := c.loads(raw.value).value;
    if !doc.Arr? || |doc.items| != 1 || !doc.items[0].Obj? then None else
    var record := doc.items[0];
    if At(record, "RepoTags") == Some(TextArray([tag])) && At(record, "Layers").Some? &&
       At(record, "Layers").value.Arr? && |At(record, "Layers").value.items| == layers &&
       At(record, "Config").Some? && At(record, "Config").value.Str?
    then Read(es, At(record, "Config").value.s, 1048576) else None
  }

  /** The runtime configuration of a verifier image with these layers. */
  predicate RuntimeOk(c: Codec, configRaw: bytes, diffIds: seq<string>, pins: Expected) {
    var config := c.loads(configRaw);
    config.Some? && config.value.Obj? && PlatformOk(config.value, pins) && At(config.value, "config").Some? &&
    At(At(config.value, "config").value, "User") == Some(Str(EXPECTED_USER)) &&
    At(At(config.value, "config").value, "Entrypoint") == Some(ExpectedEntrypoint()) &&
    RootfsOk(config) && At(At(config.value, "rootfs").value, "diff_ids") == Some(TextArray(diffIds))
  }

  /** What a candidate archive must be for the id the daemon reported. */
  predicate CandidateOk(c: Codec, archive: bytes, inspected: string, tag: string, diffIds: seq<string>,
                        requirePortable: bool)
  {
    c.untar(archive).Some? &&
    var es := c.untar(archive).value;
    0 < |es| <= 128 && DistinctNames(es) && LayoutOk(es) && CandidateConfig(c, es, tag, |diffIds|).Some? &&
    var configRaw := CandidateConfig(c, es, tag, |diffIds|).value;
    var pins := CandidatePins(c.digest(configRaw), diffIds, tag);
    RuntimeOk(c, configRaw, diffIds, pins) &&
    Accepts(c, archive, pins, MAX_CANDIDATE_BYTES, MAX_EXPANDED_LAYER_BYTES) &&
    Identified(FactsOf(c, es, pins, MAX_CANDIDATE_BYTES), inspected) &&
    (requirePortable ==> FactsOf(c, es, pins, MAX_CANDIDATE_BYTES).manifestDigest.Some?)
  }

  /** The configuration's name and bytes, or the stage that rejects. */
  method FindConfig(c: Codec, es: seq<Entry>, tag: string, layers: nat) returns (r: Result<(string, bytes), string>)
    ensures r.Ok? <==> CandidateConfig(c, es, tag, layers).Some?
    ensures r.Ok? ==> Some(r.value.1) == CandidateConfig(c, es, tag, layers)
    ensures r.Ok? ==> Read(es, "manifest.json", 65536).Some?
  {
    hide WellFormed;
    var raw := Read(es, "manifest.json", 65536);
    if raw.None? || c.loads(raw.value).None? { return Err("docker-manifest"); }
    var doc := c.loads(raw.value).value;
    if !doc.Arr? || |doc.items| != 1 || !doc.items[0].Obj? { return Err("docker-manifest"); }
    var record := doc.items[0];
    if At(record, "RepoTags") != Some(TextArray([tag])) || At(record, "Layers").None?
       || !At(record, "Layers").value.Arr? || |At(record, "Layers").value.items| != layers {
      return Err("docker-manifest");
    }
    if At(record, "Config").None? || !At(record, "Config").value.Str? { return Err("docker-config"); }
    var name := At(record, "Config").value.s;
    var configRaw := Read(es, name, 1048576);
    if configRaw.None? { return Err("docker-config"); }
    return Ok((name, configRaw.value));
  }

  /** The checks of the runtime configuration; None when it passes. */
  method CheckRuntime(c: Codec, configRaw: bytes, diffIds: seq<string>, pins: Expected) returns (stage: Option<string>)
    ensures stage.None? <==> RuntimeOk(c, configRaw, diffIds, pins)
  {
    var config := c.loads(configRaw);
    if config.None? { return Some("docker-config"); }
    if !config.value.Obj? { return Some("archive-validation"); }
    if !PlatformOk(config.value, pins) { return Some("daemon-platform-mismatch"); }
    var runtime := At(config.value, "config");
    if runtime.None? || At(runtime.value, "User") != Some(Str(EXPECTED_USER))
       || At(runtime.value, "Entrypoint") != Some(ExpectedEntrypoint()) || !RootfsOk(config) {
      return Some("docker-config");
    }
    if At(At(config.value, "rootfs").value, "diff_ids") != Some(TextArray(diffIds)) {
      return Some("daemon-diff-id-mismatch");
    }
    return None;
  }

  /** An attached relation never claims a match, and says "absent" exactly when there is no index. */
  predicate Telling(c: Codec, archive: bytes, f: Fault) {
    f.relation.Some? ==>
      f.stage == "daemon-image-id-mismatch" && c.untar(archive).Some? &&
      var relation := f.relation.value;
      relation.legacy == MISMATCH && relation.oci != MATCH && relation.ociManifest != MATCH &&
      (relation.oci == ABSENT <==> !HasIndex(c.untar(archive).value)) &&
      (relation.ociManifest == ABSENT <==> !HasIndex(c.untar(archive).value))
  }

  lemma PlainTells(c: Codec, archive: bytes, stage: string)
    ensures Telling(c, archive, Plain(stage))
  {
  }

  /** The diagnostics of an archive that parses but is not the inspected image. */
  method Mismatch(c: Codec, archive: bytes, configName: string, pins: Expected, inspected: string) returns (f: Fault)
    requires Accepts(c, archive, pins, MAX_CANDIDATE_BYTES, MAX_EXPANDED_LAYER_BYTES) &&
      HasLegacy(c.untar(archive).value)
    requires !Identified(FactsOf(c, c.untar(archive).value, pins, MAX_CANDIDATE_BYTES), inspected)
    ensures Telling(c, archive, f) && f.stage == "daemon-image-id-mismatch" && f.relation.Some?
  {
    hide ContentOk, FactsOf, HasIndex, HasLegacy, Identified;
    MismatchDiagnostics(c, archive, pins, inspected);
    var digest := pins.configDigest;
    f := Fault("daemon-image-id-mismatch", Some(|digest| >= 7 && configName == digest[7..] + ".json"),
               Some(IdentityRelation(c, c.untar(archive).value, inspected)));
  }

  lemma ManifestIsLegacy(es: seq<Entry>)
    requires Read(es, "manifest.json", 65536).Some?
    ensures HasLegacy(es)
  {
  }

  /** _validate_archive */
  method ValidateArchive(c: Codec, archive: bytes, inspected: string, tag: string, diffIds: seq<string>,
                         requirePortable: bool)
    returns (r: Result<Facts, Fault>)
    ensures r.Ok? <==> CandidateOk(c, archive, inspected, tag, diffIds, requirePortable)
    ensures r.Ok? ==>
      Identified(r.value, inspected) && (requirePortable ==> r.value.manifestDigest.Some?) &&
      var pins := CandidatePins(r.value.configDigest, diffIds, tag);
      Accepts(c, archive, pins, MAX_CANDIDATE_BYTES, MAX_EXPANDED_LAYER_BYTES) &&
      r.value == FactsOf(c, c.untar(archive).value, pins, MAX_CANDIDATE_BYTES)
    ensures r.Err? ==> Telling(c, archive, r.error)
  {
    hide LayoutOk, CandidateConfig, RuntimeOk, Accepts, HasLegacy, Identified, Telling, Plain, Read;
    var stage;
    var listed := c.untar(archive);
    if listed.None? || !(0 < |listed.value| <= 128) {
      PlainTells(c, archive, "archive-layout");
      return Err(Plain("archive-layout"));
    }
    var es := listed.value;
    if exists i, j | 0 <= i < j < |es| :: es[i].name == es[j].name {
      PlainTells(c, archive, "archive-members");
      return Err(Plain("archive-members"));
    }
    if !LayoutOk(es) {
      PlainTells(c, archive, "archive-layout");
      return Err(Plain("archive-layout"));
    }
    var config := FindConfig(c, es, tag, |diffIds|);
    if config.Err? {
      PlainTells(c, archive, config.error);
      return Err(Plain(config.error));
    }
    ManifestIsLegacy(es);
    var pins := CandidatePins(c.digest(config.value.1), diffIds, tag);
    stage := CheckRuntime(c, config.value.1, diffIds, pins);
    if stage.Some? {
      PlainTells(c, archive, stage.value);
      return Err(Plain(stage.value));
    }
    var facts := ParsePortableArchive(c, archive, pins, MAX_CANDIDATE_BYTES, MAX_EXPANDED_LAYER_BYTES);
    if facts.Err? {
      PlainTells(c, archive, facts.error);
      return Err(Plain(facts.error));
    }
    if requirePortable && facts.value.manifestDigest.None? {
      PlainTells(c, archive, "archive-format");
      return Err(Plain("archive-format"));
    }
    if !Identified(facts.value, inspected) {
      var fault := Mismatch(c, archive, config.value.0, pins, inspected);
      return Err(fault);
    }
    return Ok(facts.value);
  }

  /** In an accepted archive with a legacy manifest, diagnostics for an id that is neither of the
      archive's identities never claim a match, and say "absent" exactly when there is no index. */
  lemma MismatchDiagnostics(c: Codec, archive: bytes, exp: Expected, inspected: string)
    requires Accepts(c, archive, exp, MAX_CANDIDATE_BYTES, MAX_EXPANDED_LAYER_BYTES)
    requires HasLegacy(c.untar(archive).value)
    requires !Identified(FactsOf(c, c.untar(archive).value, exp, MAX_CANDIDATE_BYTES), inspected)
    ensures
      var es := c.untar(archive).value;
      var relation := IdentityRelation(c, es, inspected);
      relation.format == FactsOf(c, es, exp, MAX_CANDIDATE_BYTES).format && relation.legacy == MISMATCH &&
      (relation.oci == if HasIndex(es) then MISMATCH else ABSENT) &&
      (relation.ociManifest == if HasIndex(es) then MISMATCH else ABSENT)
  {
    var es := c.untar(archive).value;
    LegacyMismatch(c, es, exp, inspected);
    if HasIndex(es) { OciMismatch(c, es, exp, inspected); }
  }

  lemma LegacyMismatch(c: Codec, es: seq<Entry>, exp: Expected, inspected: string)
    requires LegacyOk(c, es, exp, MAX_CANDIDATE_BYTES) && inspected != exp.configDigest
    ensures LegacyRelation(c, es, inspected) == Some(MISMATCH)
  {
  }

  lemma OciMismatch(c: Codec, es: seq<Entry>, exp: Expected, inspected: string)
    requires HasIndex(es) && OciOk(c, es, exp, MAX_CANDIDATE_BYTES) && inspected != exp.configDigest
    requires FactsOf(c, es, exp, MAX_CANDIDATE_BYTES).manifestDigest != Some(inspected)
    ensures OciRelation(c, es, inspected) == (MISMATCH, MISMATCH)
  {
    var r := OciChain(c, es, MAX_CANDIDATE_BYTES).value;
    assert ManifestOf(c, es, r.descriptor, 65536).Some?;
    assert Blob(c, es, At(r.manifest, "config").value, 1048576).Some?;
  }
}
