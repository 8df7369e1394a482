/** Cross-contract invariants of the repository-change chain: validate_chain, and the
    hash-chain argument that an accepted chain's digests pin its contents. */
module Chain {
  import opened Base
  import opened CanonicalJson

  /** The functions of other modules that the validator calls. `hash` is the
      "sha256:" digest text of bytes; `idempotencyKey` and `baseBranchOk` are the
      publication seed's. */
  datatype Oracles = Oracles(
    hash: bytes -> string,
    idempotencyKey: (string, string, string) -> string,
    baseBranchOk: string -> bool)

  type Contracts = seq<Pair<Json>>

  const NAMES: seq<string> := [
    "process_contract", "identity", "capability_grant", "delegation_receipt", "trust_profile",
    "canonical_envelope", "task_contract", "evidence_bundle", "verification_report", "staged_change",
    "approval", "intent", "policy_decision", "actuator_request", "credential_use_grant", "action_receipt"]

  function RequiredMembers(): seq<(string, seq<string>)> {
    [("process_contract", ["process_id", "repository_id"]),
     ("identity", ["identity_id", "status"]),
     ("capability_grant", ["subject", "status", "process_id", "grant_id", "delegable_actions",
                           "resources", "max_delegation_depth"]),
     ("delegation_receipt", ["parent_grant_id", "issuer", "process_id", "actions", "resources",
                             "remaining_delegation_depth"]),
     ("trust_profile", ["principal_id"]),
     ("canonical_envelope", ["correlation_id", "security"]),
     ("task_contract", ["process_id", "task_id"]),
     ("evidence_bundle", ["task_id", "patch_digest"]),
     ("verification_report", ["evidence_digest", "verdict"]),
     ("staged_change", ["process_id", "repository_id", "patch_digest", "evidence_digest",
                        "verification_digest", "patch_artifact_ref"]),
     ("approval", ["process_id", "repository_id", "staged_change_digest", "approval_id"]),
     ("intent", ["process_id", "repository_id", "staged_change_digest", "approval_id",
                 "branch_namespace", "title_artifact_ref", "body_artifact_ref", "idempotency_key",
                 "base_commit", "base_branch"]),
     ("policy_decision", ["repository_id", "staged_change_digest", "decision_id", "effect"]),
     ("actuator_request", ["process_id", "repository_id", "base_commit", "staged_change_digest",
                           "approval_id", "branch_namespace", "title_artifact_ref", "body_artifact_ref",
                           "idempotency_key", "policy_decision_id", "patch_artifact_ref", "actuator_id",
                           "base_branch"]),
     ("credential_use_grant", ["actuator_id", "repository_id", "request_digest"]),
     ("action_receipt", ["process_id", "repository_id", "staged_change_digest", "approval_id",
                         "policy_decision_id", "idempotency_key", "base_branch"])]
  }

  /** Python's ==: truth values are the integers 0 and 1, dictionaries are unordered. */
  predicate PyEq(v: Json, w: Json)
    decreases v
  {
    match v
    case Bool(b) => w == Bool(b) || w == Num(if b then 1 else 0)
    case Num(n) => w == Num(n) || (n == 1 && w == Bool(true)) || (n == 0 && w == Bool(false))
    case Arr(items) =>
      w.Arr? && |items| == |w.items| && forall i | 0 <= i < |items| :: PyEq(items[i], w.items[i])
    case Obj(ms) =>
      w.Obj? && |ms| == |w.members| &&
      forall i | 0 <= i < |ms| ::
        Get(w.members, ms[i].key).Some? && PyEq(ms[i].value, Get(w.members, ms[i].key).value)
    case _ => v == w
  }

  /** The named contract's members; [] when it is missing or no dictionary. */
  function Members(chain: Contracts, name: string): seq<Pair<Json>> {
    var found := Get(chain, name);
    if found.Some? && found.value.Obj? then found.value.members else []
  }

  /** chain[name][field]; Null when there is none, which the member check excludes. */
  function Field(chain: Contracts, name: string, field: string): Json {
    var found := Get(Members(chain, name), field);
    if found.Some? then found.value else Null
  }

  function Digest(o: Oracles, v: Json): Json {
    Str(o.hash(Encode(v)))
  }

  predicate NonEmptyText(v: Json) {
    v.Str? && v.s != ""
  }

  /** _binding_values and _require_single: every named contract has the same non-empty text there. */
  predicate SameBinding(chain: Contracts, field: string, names: seq<string>)
    requires names != []
  {
    forall i | 0 <= i < |names| ::
      NonEmptyText(Field(chain, names[i], field)) &&
      Field(chain, names[i], field) == Field(chain, names[0], field)
  }

  predicate TextList(v: Json) {
    v.Arr? && forall i | 0 <= i < |v.items| :: NonEmptyText(v.items[i])
  }

  predicate SubList(v: Json, w: Json)
    requires v.Arr? && w.Arr?
  {
    forall i | 0 <= i < |v.items| :: v.items[i] in w.items
  }

  /** _validate_delegation */
  function CheckDelegation(parent: seq<Pair<Json>>, child: seq<Pair<Json>>): Outcome {
    var at := (d: seq<Pair<Json>>, k: string) => if Get(d, k).Some? then Get(d, k).value else Null;
    :- Need(TextList(at(child, "actions")), "chain: delegation actions is malformed");
    :- Need(TextList(at(child, "resources")), "chain: delegation resources is malformed");
    :- Need(TextList(at(parent, "delegable_actions")), "chain: delegation delegable_actions is malformed");
    :- Need(TextList(at(parent, "resources")), "chain: delegation resources is malformed");
    :- Need(at(child, "remaining_delegation_depth").Num?, "chain: delegation remaining_delegation_depth is malformed");
    :- Need(at(parent, "max_delegation_depth").Num?, "chain: delegation max_delegation_depth is malformed");
    :- Need(PyEq(at(child, "issuer"), at(parent, "subject")), "chain: delegation issuer mismatch");
    :- Need(PyEq(at(child, "process_id"), at(parent, "process_id")), "chain: delegation process mismatch");
    :- Need(SubList(at(child, "actions"), at(parent, "delegable_actions")), "chain: delegation expands actions");
    :- Need(SubList(at(child, "resources"), at(parent, "resources")), "chain: delegation expands resources");
    Need(at(child, "remaining_delegation_depth").n < at(parent, "max_delegation_depth").n,
         "chain: delegation depth is not reduced")
  }

  /** The presence checks that open validate_chain. */
  function CheckMembers(chain: Contracts): Outcome {
    var required := RequiredMembers();
    :- Need(forall i | 0 <= i < |NAMES| :: Get(chain, NAMES[i]).Some?, "chain: missing contracts");
    :- Need(forall i | 0 <= i < |NAMES| :: Get(chain, NAMES[i]).value.Obj?, "chain: malformed contracts");
    :- Need(forall i | 0 <= i < |required| :: forall j | 0 <= j < |required[i].1| ::
              Get(Members(chain, required[i].0), required[i].1[j]).Some?, "chain: missing member");
    var security := Field(chain, "canonical_envelope", "security");
    Need(security.Obj? && Get(security.members, "tainted").Some?,
         "chain: canonical_envelope is missing security.tainted")
  }

  /** The contracts that must name one repository. */
  const REPOSITORY_NAMED: seq<string> := [
    "process_contract", "staged_change", "approval", "intent", "policy_decision", "action_receipt"]

  function CheckIdentity(chain: Contracts): Outcome {
    var security := Field(chain, "canonical_envelope", "security");
    :- Need(SameBinding(chain, "process_id",
                        ["process_contract", "staged_change", "approval", "intent", "action_receipt"]),
            "chain: process_id mismatch");
    :- Need(PyEq(Field(chain, "identity", "identity_id"), Field(chain, "capability_grant", "subject")),
            "chain: capability subject identity mismatch");
    :- Need(Field(chain, "identity", "status") == Str("active") &&
            Field(chain, "capability_grant", "status") == Str("active"),
            "chain: inactive identity or capability grant");
    :- Need(PyEq(Field(chain, "capability_grant", "process_id"), Field(chain, "process_contract", "process_id")),
            "chain: capability process_id mismatch");
    :- Need(PyEq(Field(chain, "delegation_receipt", "parent_grant_id"), Field(chain, "capability_grant", "grant_id")),
            "chain: delegation parent grant mismatch");
    :- CheckDelegation(Members(chain, "capability_grant"), Members(chain, "delegation_receipt"));
    :- Need(PyEq(Field(chain, "trust_profile", "principal_id"), Field(chain, "identity", "identity_id")),
            "chain: trust profile principal mismatch");
    :- Need(SameBinding(chain, "repository_id", REPOSITORY_NAMED), "chain: repository_id mismatch");
    :- Need(PyEq(Field(chain, "canonical_envelope", "correlation_id"), Field(chain, "process_contract", "process_id")),
            "chain: envelope correlation_id mismatch");
    :- Need(security.Obj? && Get(security.members, "tainted").Some? &&
            Get(security.members, "tainted").value.Bool?, "chain: taint marker is not a boolean");
    :- Need(!Get(security.members, "tainted").value.b, "chain: tainted envelope cannot authorize publication");
    :- Need(PyEq(Field(chain, "task_contract", "process_id"), Field(chain, "process_contract", "process_id")),
            "chain: task process_id mismatch");
    Need(PyEq(Field(chain, "evidence_bundle", "task_id"), Field(chain, "task_contract", "task_id")),
         "chain: evidence task_id mismatch")
  }

  /** The digest links: evidence to report, both to the staged change, that to its four references. */
  function CheckDigests(o: Oracles, chain: Contracts): Outcome
    requires CheckMembers(chain).Pass?
  {
    var evidence := Digest(o, Obj(Members(chain, "evidence_bundle")));
    :- Need(PyEq(Field(chain, "evidence_bundle", "patch_digest"), Field(chain, "staged_change", "patch_digest")),
            "chain: patch_digest mismatch");
    :- Need(Field(chain, "verification_report", "evidence_digest") == evidence,
            "chain: verification evidence digest mismatch");
    :- Need(Field(chain, "staged_change", "evidence_digest") == evidence, "chain: staged evidence digest mismatch");
    var verification := Digest(o, Obj(Members(chain, "verification_report")));
    :- Need(Field(chain, "staged_change", "verification_digest") == verification,
            "chain: verification digest mismatch");
    :- Need(Field(chain, "verification_report", "verdict") == Str("pass"),
            "chain: only a passing verification can be staged");
    :- Need(SameBinding(chain, "staged_change_digest", ["approval", "intent", "policy_decision", "action_receipt"]),
            "chain: staged_change_digest mismatch");
    Need(Field(chain, "approval", "staged_change_digest") == Digest(o, Obj(Members(chain, "staged_change"))),
         "chain: staged change digest does not match content")
  }

  const COPIED_FIELDS: seq<string> := [
    "process_id", "repository_id", "base_commit", "staged_change_digest", "approval_id",
    "branch_namespace", "base_branch", "title_artifact_ref", "body_artifact_ref", "idempotency_key"]

  function CheckRequest(o: Oracles, chain: Contracts): Outcome {
    var approvalId := Field(chain, "approval", "approval_id");
    :- Need(PyEq(Field(chain, "intent", "approval_id"), approvalId) &&
            PyEq(Field(chain, "action_receipt", "approval_id"), approvalId), "chain: approval_id mismatch");
    var decisionId := Field(chain, "policy_decision", "decision_id");
    :- Need(PyEq(Field(chain, "action_receipt", "policy_decision_id"), decisionId),
            "chain: policy_decision_id mismatch");
    :- Need(Field(chain, "policy_decision", "effect") == Str("allow"),
            "chain: receipt cannot reference a deny decision");
    :- Need(forall i | 0 <= i < |COPIED_FIELDS| ::
              PyEq(Field(chain, "actuator_request", COPIED_FIELDS[i]), Field(chain, "intent", COPIED_FIELDS[i])),
            "chain: actuator request field mismatch");
    :- Need(PyEq(Field(chain, "actuator_request", "policy_decision_id"), decisionId),
            "chain: actuator request policy decision mismatch");
    :- Need(PyEq(Field(chain, "actuator_request", "patch_artifact_ref"),
                 Field(chain, "staged_change", "patch_artifact_ref")), "chain: actuator request patch mismatch");
    :- Need(PyEq(Field(chain, "credential_use_grant", "actuator_id"),
                 Field(chain, "actuator_request", "actuator_id")), "chain: credential grant actuator mismatch");
    :- Need(PyEq(Field(chain, "credential_use_grant", "repository_id"),
                 Field(chain, "actuator_request", "repository_id")), "chain: credential grant repository mismatch");
    Need(Field(chain, "credential_use_grant", "request_digest")
           == Digest(o, Obj(Members(chain, "actuator_request"))),
         "chain: credential grant request digest mismatch")
  }

  function CheckPublicationKey(o: Oracles, chain: Contracts): Outcome {
    var base := Field(chain, "intent", "base_branch");
    :- Need(base.Str? && o.baseBranchOk(base.s), "chain: intent base branch is invalid");
    :- Need(PyEq(Field(chain, "actuator_request", "base_branch"), base),
            "chain: actuator request base branch mismatch");
    :- Need(PyEq(Field(chain, "action_receipt", "base_branch"), base), "chain: receipt base branch mismatch");
    var branch := Field(chain, "intent", "branch_namespace");
    :- Need(branch.Str?, "AttributeError");
    var key := Str(o.idempotencyKey(branch.s, base.s, o.hash(Encode(Obj(Members(chain, "staged_change"))))));
    :- Need(Field(chain, "intent", "idempotency_key") == key, "chain: intent idempotency key is not content-bound");
    Need(Field(chain, "action_receipt", "idempotency_key") == key, "chain: receipt idempotency key mismatch")
  }

  /** validate_chain */
  function ValidateChain(o: Oracles, chain: Contracts): Outcome {
    var present := CheckMembers(chain);
    :- present;
    :- CheckIdentity(chain);
    :- CheckDigests(o, chain);
    :- CheckRequest(o, chain);
    CheckPublicationKey(o, chain)
  }

  // ---------------------------------------------------------------------------
  // What the digests pin

  /** The hash does not send these two messages to one digest unless they are one message. */
  predicate NoCollision(o: Oracles, x: Json, y: Json) {
    o.hash(Encode(x)) == o.hash(Encode(y)) ==> Encode(x) == Encode(y)
  }

  function Contract(chain: Contracts, name: string): Json {
    Obj(Members(chain, name))
  }

  /** The pinned contracts are values as Python builds them. */
  predicate Built(chain: Contracts) {
    WellFormed(Contract(chain, "staged_change")) && WellFormed(Contract(chain, "verification_report")) &&
    WellFormed(Contract(chain, "evidence_bundle")) && WellFormed(Contract(chain, "actuator_request"))
  }

  lemma DigestPins(o: Oracles, x: Json, y: Json)
    requires WellFormed(x) && WellFormed(y) && NoCollision(o, x, y)
    requires Digest(o, x) == Digest(o, y)
    ensures Same(x, y)
  {
    EncodeCanonical(x, y);
  }

  /** Equal dictionaries that carry the digests of two values pin those values. */
  lemma FieldPins(o: Oracles, a: seq<Pair<Json>>, b: seq<Pair<Json>>, key: string, x: Json, y: Json)
    requires WellFormed(Obj(a)) && WellFormed(Obj(b)) && Same(Obj(a), Obj(b))
    requires Get(a, key) == Some(Digest(o, x)) && Get(b, key) == Some(Digest(o, y))
    requires WellFormed(x) && WellFormed(y) && NoCollision(o, x, y)
    ensures Same(x, y)
  {
    GetFinds(a, key);
    var i :| 0 <= i < |a| && a[i] == Pair(key, Get(a, key).value);
    var j :| 0 <= j < |b| && a[i].key == b[j].key && Same(a[i].value, b[j].value);
    GetAt(b, j);
    DigestPins(o, x, y);
  }

  /** The four digest fields of a chain are the digests of the contracts they speak of. */
  predicate Linked(o: Oracles, chain: Contracts) {
    Field(chain, "approval", "staged_change_digest") == Digest(o, Contract(chain, "staged_change")) &&
    Field(chain, "staged_change", "verification_digest") == Digest(o, Contract(chain, "verification_report")) &&
    Field(chain, "staged_change", "evidence_digest") == Digest(o, Contract(chain, "evidence_bundle")) &&
    Field(chain, "credential_use_grant", "request_digest") == Digest(o, Contract(chain, "actuator_request"))
  }

  lemma Passed(o: Oracles, chain: Contracts)
    requires ValidateChain(o, chain).Pass?
    ensures CheckMembers(chain).Pass? && CheckDigests(o, chain).Pass? && CheckRequest(o, chain).Pass?
  {
  }

  lemma IdentityPassed(o: Oracles, chain: Contracts)
    requires ValidateChain(o, chain).Pass?
    ensures CheckIdentity(chain).Pass?
  {
    hide CheckMembers, CheckIdentity, CheckDigests, CheckRequest, CheckPublicationKey;
  }

  lemma IdentityNamesRepository(chain: Contracts)
    requires CheckIdentity(chain).Pass?
    ensures SameBinding(chain, "repository_id", REPOSITORY_NAMED)
  {
    hide CheckDelegation, PyEq, Field, SameBinding, Need, Members, Get;
  }

  lemma RequestCopiesFields(o: Oracles, chain: Contracts)
    requires CheckRequest(o, chain).Pass?
    ensures forall i | 0 <= i < |COPIED_FIELDS| ::
      PyEq(Field(chain, "actuator_request", COPIED_FIELDS[i]), Field(chain, "intent", COPIED_FIELDS[i]))
  {
    hide PyEq, Field, Need, Members, Digest;
  }

  lemma BoundTexts(chain: Contracts, field: string, names: seq<string>, i: nat)
    requires i < |names| && SameBinding(chain, field, names)
    ensures NonEmptyText(Field(chain, names[i], field))
  {
    hide NonEmptyText, Field;
  }

  lemma IntentNamesRepository(chain: Contracts)
    requires CheckIdentity(chain).Pass?
    ensures NonEmptyText(Field(chain, "intent", "repository_id"))
  {
    hide CheckIdentity, NonEmptyText, Field;
    IdentityNamesRepository(chain);
    BoundTexts(chain, "repository_id", REPOSITORY_NAMED, 3);
    assert REPOSITORY_NAMED[3] == "intent";
  }

  lemma RequestCopiesRepository(o: Oracles, chain: Contracts)
    requires CheckRequest(o, chain).Pass?
    ensures PyEq(Field(chain, "actuator_request", "repository_id"), Field(chain, "intent", "repository_id"))
  {
    hide CheckRequest, PyEq, Field;
    RequestCopiesFields(o, chain);
    assert COPIED_FIELDS[1] == "repository_id";
  }

  /** The only value equal to a text is that text. */
  lemma EqualText(v: Json, w: Json)
    requires PyEq(v, w) && NonEmptyText(w)
    ensures v == w
  {
  }

  /** In an accepted chain the actuator request goes to the repository of the intent. */
  lemma RequestRepository(o: Oracles, chain: Contracts)
    requires ValidateChain(o, chain).Pass?
    ensures Get(Members(chain, "actuator_request"), "repository_id") == Get(Members(chain, "intent"), "repository_id")
    ensures Get(Members(chain, "intent"), "repository_id").Some?
  {
    hide ValidateChain, CheckIdentity, CheckRequest, PyEq, Members, Get;
    Passed(o, chain);
    IdentityPassed(o, chain);
    IntentNamesRepository(chain);
    RequestCopiesRepository(o, chain);
    EqualText(Field(chain, "actuator_request", "repository_id"), Field(chain, "intent", "repository_id"));
  }

  lemma MemberAt(chain: Contracts, name: string, v: Json, key: string)
    requires Get(chain, name) == Some(v) && Get(Members(chain, name), key).Some?
    ensures At(v, key) == Get(Members(chain, name), key)
  {
  }

  lemma DigestLinks(o: Oracles, chain: Contracts)
    requires CheckMembers(chain).Pass? && CheckDigests(o, chain).Pass?
    ensures Field(chain, "approval", "staged_change_digest") == Digest(o, Contract(chain, "staged_change"))
    ensures Field(chain, "staged_change", "verification_digest") == Digest(o, Contract(chain, "verification_report"))
    ensures Field(chain, "staged_change", "evidence_digest") == Digest(o, Contract(chain, "evidence_bundle"))
  {
    hide PyEq, SameBinding, CheckMembers, Field, Members, Digest, Need;
  }

  lemma RequestLink(o: Oracles, chain: Contracts)
    requires CheckRequest(o, chain).Pass?
    ensures Field(chain, "credential_use_grant", "request_digest") == Digest(o, Contract(chain, "actuator_request"))
  {
    hide PyEq, Field, Members, Digest, Need;
  }

  /** An accepted chain is linked. */
  lemma AcceptedLinked(o: Oracles, chain: Contracts)
    requires ValidateChain(o, chain).Pass?
    ensures Linked(o, chain)
  {
    Passed(o, chain);
    DigestLinks(o, chain);
    RequestLink(o, chain);
  }

  /** Accepted chains whose approvals carry one staged digest hold the same staged change,
      verification report and evidence bundle. */
  lemma StagedDigestPinsEvidence(o: Oracles, c1: Contracts, c2: Contracts)
    requires Built(c1) && Built(c2)
    requires ValidateChain(o, c1).Pass? && ValidateChain(o, c2).Pass?
    requires Field(c1, "approval", "staged_change_digest") == Field(c2, "approval", "staged_change_digest")
    requires NoCollision(o, Contract(c1, "staged_change"), Contract(c2, "staged_change"))
    requires NoCollision(o, Contract(c1, "verification_report"), Contract(c2, "verification_report"))
    requires NoCollision(o, Contract(c1, "evidence_bundle"), Contract(c2, "evidence_bundle"))
    ensures Same(Contract(c1, "staged_change"), Contract(c2, "staged_change"))
    ensures Same(Contract(c1, "verification_report"), Contract(c2, "verification_report"))
    ensures Same(Contract(c1, "evidence_bundle"), Contract(c2, "evidence_bundle"))
  {
    AcceptedLinked(o, c1);
    AcceptedLinked(o, c2);
    DigestPins(o, Contract(c1, "staged_change"), Contract(c2, "staged_change"));
    FieldPins(o, Members(c1, "staged_change"), Members(c2, "staged_change"), "verification_digest",
              Contract(c1, "verification_report"), Contract(c2, "verification_report"));
    FieldPins(o, Members(c1, "staged_change"), Members(c2, "staged_change"), "evidence_digest",
              Contract(c1, "evidence_bundle"), Contract(c2, "evidence_bundle"));
  }

  /** Accepted chains with one credential-use grant hold the same actuator request. */
  lemma GrantPinsRequest(o: Oracles, c1: Contracts, c2: Contracts)
    requires Built(c1) && Built(c2)
    requires ValidateChain(o, c1).Pass? && ValidateChain(o, c2).Pass?
    requires Field(c1, "credential_use_grant", "request_digest") == Field(c2, "credential_use_grant", "request_digest")
    requires NoCollision(o, Contract(c1, "actuator_request"), Contract(c2, "actuator_request"))
    ensures Same(Contract(c1, "actuator_request"), Contract(c2, "actuator_request"))
  {
    AcceptedLinked(o, c1);
    AcceptedLinked(o, c2);
    DigestPins(o, Contract(c1, "actuator_request"), Contract(c2, "actuator_request"));
  }

  /** The contract that carries the digest of each pinned contract, and the field it is in. */
  function Pin(name: string): (string, string)
    requires name in {"staged_change", "verification_report", "evidence_bundle", "actuator_request"}
  {
    if name == "staged_change" then ("approval", "staged_change_digest")
    else if name == "verification_report" then ("staged_change", "verification_digest")
    else if name == "evidence_bundle" then ("staged_change", "evidence_digest")
    else ("credential_use_grant", "request_digest")
  }

  lemma PinnedElsewhere(name: string)
    requires name in {"staged_change", "verification_report", "evidence_bundle", "actuator_request"}
    ensures Pin(name).0 != name
  {
  }

  /** Linked chains with the same pinning contract carry the same digest of the pinned one. */
  lemma SamePinSameDigest(o: Oracles, c1: Contracts, c2: Contracts, name: string)
    requires name in {"staged_change", "verification_report", "evidence_bundle", "actuator_request"}
    requires Linked(o, c1) && Linked(o, c2) && Get(c1, Pin(name).0) == Get(c2, Pin(name).0)
    ensures Digest(o, Contract(c1, name)) == Digest(o, Contract(c2, name))
  {
  }

  /** Replacing any one of the four pinned contracts by a different one breaks an accepted chain. */
  lemma TamperedContractRejected(o: Oracles, chain: Contracts, name: string, ms: seq<Pair<Json>>)
    requires name in {"staged_change", "verification_report", "evidence_bundle", "actuator_request"}
    requires ValidateChain(o, chain).Pass? && WellFormed(Contract(chain, name)) && WellFormed(Obj(ms))
    requires NoCollision(o, Contract(chain, name), Obj(ms))
    requires !Same(Contract(chain, name), Obj(ms))
    ensures ValidateChain(o, Put(chain, name, Obj(ms))).Fail?
  {
    AcceptedLinked(o, chain);
    if ValidateChain(o, Put(chain, name, Obj(ms))).Pass? {
      AcceptedLinked(o, Put(chain, name, Obj(ms)));
      TamperUnlinks(o, chain, name, ms);
    }
  }

  lemma TamperUnlinks(o: Oracles, chain: Contracts, name: string, ms: seq<Pair<Json>>)
    requires name in {"staged_change", "verification_report", "evidence_bundle", "actuator_request"}
    requires Linked(o, chain) && WellFormed(Contract(chain, name)) && WellFormed(Obj(ms))
    requires NoCollision(o, Contract(chain, name), Obj(ms)) && !Same(Contract(chain, name), Obj(ms))
    ensures !Linked(o, Put(chain, name, Obj(ms)))
  {
    var changed := Put(chain, name, Obj(ms));
    GetPut(chain, name, Obj(ms), name);
    PinnedElsewhere(name);
    GetPut(chain, name, Obj(ms), Pin(name).0);
    if Linked(o, changed) {
      SamePinSameDigest(o, chain, changed, name);
      DigestPins(o, Contract(chain, name), Obj(ms));
    }
  }
}
