/** The publication authority: an approval's binding to one intent, and the allowlist policy's decision. */
module Authority {
  import opened Base
  import opened CanonicalJson
  import opened ApprovalSignature
  import Chain

  /** The functions this code calls: those of the chain, the clock's text format, and Ed25519 (section 5.1
      of RFC 8032). A time is an instant in microseconds; `parseTime` gives None for text that is malformed
      or has no offset; the instants that can be represented are those from `earliest` to `latest`. */
  datatype Services = Services(
    o: Chain.Oracles,
    parseTime: string -> Option<int>,
    formatTime: int -> string,
    earliest: int,
    latest: int,
    unhex: string -> bytes,
    verify: (bytes, bytes, bytes) -> bool)

  /** Formatted instants read back. */
  ghost predicate TimeLaw(s: Services) {
    forall t: int {:trigger s.formatTime(t)} ::
      s.earliest <= t <= s.latest ==> s.parseTime(s.formatTime(t)) == Some(t)
  }

  predicate IsText(v: Option<Json>) {
    v.Some? && v.value.Str? && v.value.s != ""
  }

  /** The text of a field that holds one. */
  function TextOf(v: Option<Json>): string {
    if v.Some? && v.value.Str? then v.value.s else ""
  }

  function DigestOf(s: Services, v: Json): string {
    s.o.hash(Encode(v))
  }

  /** Python's == on the results of dict.get. */
  predicate SameField(v: Option<Json>, w: Option<Json>) {
    if v.Some? && w.Some? then Chain.PyEq(v.value, w.value) else v.None? && w.None?
  }

  // ---------------------------------------------------------------------------
  // Approvals

  /** verify_approval_signature */
  predicate VerifySignature(s: Services, approval: Json, key: bytes) {
    var signature := At(approval, "signature");
    |key| == 32 && signature.Some? && signature.value.Str? && |signature.value.s| == 128 &&
    (forall i | 0 <= i < 128 :: IsHex(signature.value.s[i])) &&
    SignaturePayload(approval).Some? &&
    s.verify(key, s.unhex(signature.value.s), SignaturePayload(approval).value)
  }

  /** The instant an expiry field names. */
  function Instant(s: Services, v: Json, field: string): Option<int> {
    var raw := At(v, field);
    if raw.Some? && raw.value.Str? then s.parseTime(raw.value.s) else None
  }

  /** check_intent_approved */
  function CheckIntent(s: Services, intent: Json, approval: Json): Outcome {
    var approved := At(approval, "approved_intent_digest");
    :- Need(IsText(approved), "approval: approved intent digest is invalid");
    Need(approved.value == Str(DigestOf(s, intent)), "approval: approved intent digest mismatch")
  }

  const BINDINGS: seq<string> := ["process_id", "repository_id", "operation", "approval_id"]

  /** The first binding field, from the i-th on, that is not text or differs. */
  function CheckBindings(approval: Json, intent: Json, i: nat): Outcome
    requires i <= |BINDINGS|
    decreases |BINDINGS| - i
  {
    if i == |BINDINGS| then Pass
    else
      var left, right := At(approval, BINDINGS[i]), At(intent, BINDINGS[i]);
      :- Need(IsText(left) && IsText(right), "approval: " + BINDINGS[i] + " is invalid");
      :- Need(left == right, "approval: " + BINDINGS[i] + " mismatch");
      CheckBindings(approval, intent, i + 1)
  }

  /** The first field, from the i-th on, that its mapping lacks. */
  function CheckPresent(fields: seq<(Json, string)>, i: nat): Outcome
    requires i <= |fields|
    decreases |fields| - i
  {
    if i == |fields| then Pass
    else if At(fields[i].0, fields[i].1).None? then Fail("approval: " + fields[i].1 + " is missing")
    else CheckPresent(fields, i + 1)
  }

  function RequiredFields(approval: Json, intent: Json): seq<(Json, string)> {
    [(approval, BINDINGS[0]), (intent, BINDINGS[0]), (approval, BINDINGS[1]), (intent, BINDINGS[1]),
     (approval, BINDINGS[2]), (intent, BINDINGS[2]), (approval, BINDINGS[3]), (intent, BINDINGS[3]),
     (approval, "approver_id"), (approval, "policy_version"), (approval, "approved_at"), (approval, "expires_at"),
     (intent, "expires_at")]
  }

  function CheckDigests(s: Services, approval: Json, staged: Json, intent: Json): Outcome {
    var digest := Str(DigestOf(s, staged));
    :- Need(IsText(At(approval, "staged_change_digest")), "approval: staged change digest is invalid");
    :- Need(At(approval, "staged_change_digest").value == digest, "approval: staged change digest mismatch");
    :- Need(IsText(At(intent, "staged_change_digest")), "approval: intent staged change digest is invalid");
    :- Need(At(intent, "staged_change_digest").value == digest, "approval: intent staged change digest mismatch");
    CheckIntent(s, intent, approval)
  }

  function CheckTimes(s: Services, approval: Json, intent: Json, now: int): Outcome {
    var approvedAt := Instant(s, approval, "approved_at");
    :- Need(approvedAt.Some?, "approval: approval time is invalid");
    :- Need(approvedAt.value <= now, "approval: approval time is in the future");
    var expiry := Instant(s, approval, "expires_at");
    :- Need(expiry.Some?, "approval: expiry is invalid");
    :- Need(expiry.value > now, "approval: expired");
    :- Need(approvedAt.value < expiry.value, "approval: approval time is invalid");
    var intentExpiry := Instant(s, intent, "expires_at");
    :- Need(intentExpiry.Some?, "approval: intent expiry is invalid");
    Need(intentExpiry.value > now, "approval: intent expired")
  }

  /** validate_approval; `now` is the instant of an aware clock. */
  function ValidateApproval(s: Services, approval: Json, staged: Json, intent: Json, version: string,
                            now: Option<int>): Outcome
  {
    var required := RequiredFields(approval, intent);
    :- Need(approval.Obj? && intent.Obj? && staged.Obj?, "approval: binding root is malformed");
    :- Need(now.Some?, "authority: clock is invalid");
    :- Need(At(approval, "schema_version") == Some(Num(1)), "approval: schema version is invalid");
    :- CheckPresent(required, 0);
    :- CheckBindings(approval, intent, 0);
    :- Need(IsText(At(approval, "approver_id")), "approval: approver_id is invalid");
    :- CheckDigests(s, approval, staged, intent);
    :- Need(At(approval, "policy_version") == Some(Str(version)), "approval: policy version mismatch");
    CheckTimes(s, approval, intent, now.value)
  }

  predicate InForce(s: Services, approval: Json, intent: Json, now: int) {
    Instant(s, approval, "approved_at").Some? && Instant(s, approval, "expires_at").Some? &&
    Instant(s, intent, "expires_at").Some? &&
    Instant(s, approval, "approved_at").value <= now < Instant(s, approval, "expires_at").value &&
    now < Instant(s, intent, "expires_at").value
  }

  predicate Pinned(s: Services, approval: Json, staged: Json, intent: Json) {
    DigestOf(s, staged) != "" && DigestOf(s, intent) != "" &&
    At(approval, "staged_change_digest") == Some(Str(DigestOf(s, staged))) &&
    At(intent, "staged_change_digest") == Some(Str(DigestOf(s, staged))) &&
    At(approval, "approved_intent_digest") == Some(Str(DigestOf(s, intent)))
  }

  /** Both have every binding field, as the same text. */
  predicate Matching(approval: Json, intent: Json) {
    forall i | 0 <= i < |BINDINGS| ::
      IsText(At(approval, BINDINGS[i])) && At(intent, BINDINGS[i]) == At(approval, BINDINGS[i])
  }

  /** The approval is in force at an instant, and binds exactly this intent and staged change. */
  predicate Binds(s: Services, approval: Json, staged: Json, intent: Json, version: string, now: int) {
    approval.Obj? && intent.Obj? && staged.Obj? && At(approval, "schema_version") == Some(Num(1)) &&
    Matching(approval, intent) && IsText(At(approval, "approver_id")) &&
    At(approval, "policy_version") == Some(Str(version)) &&
    Pinned(s, approval, staged, intent) && InForce(s, approval, intent, now)
  }

  lemma {:induction false} BindingsChecked(approval: Json, intent: Json, i: nat)
    requires i <= |BINDINGS|
    ensures CheckBindings(approval, intent, i).Pass? <==>
      forall j | i <= j < |BINDINGS| ::
        IsText(At(approval, BINDINGS[j])) && At(intent, BINDINGS[j]) == At(approval, BINDINGS[j])
    decreases |BINDINGS| - i
  {
    if i < |BINDINGS| { BindingsChecked(approval, intent, i + 1); }
  }

  lemma AllBindingsChecked(approval: Json, intent: Json)
    ensures CheckBindings(approval, intent, 0).Pass? <==> Matching(approval, intent)
  {
    BindingsChecked(approval, intent, 0);
  }

  lemma {:induction false} PresentChecked(fields: seq<(Json, string)>, i: nat)
    requires i <= |fields|
    ensures CheckPresent(fields, i).Pass? <==> forall j | i <= j < |fields| :: At(fields[j].0, fields[j].1).Some?
    decreases |fields| - i
  {
    if i < |fields| { PresentChecked(fields, i + 1); }
  }

  lemma TimesChecked(s: Services, approval: Json, intent: Json, now: int)
    ensures CheckTimes(s, approval, intent, now).Pass? <==> InForce(s, approval, intent, now)
  {
    hide Instant;
  }

  lemma TextIs(v: Option<Json>, text: string)
    ensures IsText(v) && v.value == Str(text) <==> text != "" && v == Some(Str(text))
  {
  }

  lemma DigestsChecked(s: Services, approval: Json, staged: Json, intent: Json)
    ensures CheckDigests(s, approval, staged, intent).Pass? <==> Pinned(s, approval, staged, intent)
  {
    hide DigestOf, At, Need, IsText;
    TextIs(At(approval, "staged_change_digest"), DigestOf(s, staged));
    TextIs(At(intent, "staged_change_digest"), DigestOf(s, staged));
    TextIs(At(approval, "approved_intent_digest"), DigestOf(s, intent));
  }

  lemma BoundIsPresent(s: Services, approval: Json, staged: Json, intent: Json, version: string, now: int)
    requires Binds(s, approval, staged, intent, version, now)
    ensures CheckPresent(RequiredFields(approval, intent), 0).Pass?
  {
    PresentChecked(RequiredFields(approval, intent), 0);
    hide At;
    assert forall i | 0 <= i < |BINDINGS| :: At(approval, BINDINGS[i]).Some? && At(intent, BINDINGS[i]).Some?;
  }

  /** An approval validates exactly while it is in force and bound to what is presented. */
  lemma ValidatesWhileBound(s: Services, approval: Json, staged: Json, intent: Json, version: string, now: int)
    ensures ValidateApproval(s, approval, staged, intent, version, Some(now)).Pass?
            <==> Binds(s, approval, staged, intent, version, now)
  {
    hide At, IsText, CheckPresent, CheckBindings, CheckDigests, CheckTimes, Pinned, InForce, RequiredFields, Matching;
    hide Need;
    AllBindingsChecked(approval, intent);
    TimesChecked(s, approval, intent, now);
    DigestsChecked(s, approval, staged, intent);
    if Binds(s, approval, staged, intent, version, now) { BoundIsPresent(s, approval, staged, intent, version, now); }
  }

  // ---------------------------------------------------------------------------
  // The policy

  datatype Config = Config(
    version: string,
    repositories: set<string>,
    actuators: set<string>,
    approvers: set<string>,
    keys: map<string, bytes>,
    ttl: int)

  /** PolicyConfig's own checks. */
  predicate ConfigOk(c: Config) {
    c.ttl >= 1 && c.version != "" && c.repositories != {} && "" !in c.repositories &&
    c.actuators != {} && "" !in c.actuators && c.approvers != {} && "" !in c.approvers &&
    c.keys.Keys != {} && "" !in c.keys && (forall k | k in c.keys :: |c.keys[k]| == 32) && c.approvers <= c.keys.Keys
  }

  datatype Effect = Allow | Deny(reason: string)

  /** What one decision is asked about. */
  datatype Case = Case(request: Json, approval: Json, staged: Json, intent: Json)

  function Dashed(message: string): string {
    if message == "" then ""
    else [if message[0] == ' ' then '-' else message[0]] + Dashed(message[1..])
  }

  /** The reason code of a rejected approval: "approval: " becomes "approval-", and spaces dashes. */
  function ReasonCode(message: string): string {
    if |message| >= 10 && message[..10] == "approval: " then "approval-" + Dashed(message[10..]) else Dashed(message)
  }

  predicate WellAsked(request: Json) {
    request.Obj? && IsText(At(request, "operation")) && IsText(At(request, "repository_id")) &&
    IsText(At(request, "actuator_id"))
  }

  /** The rules of decide that look at the request and the staged change alone. */
  function Opening(s: Services, c: Config, q: Case): Option<string>
    requires WellAsked(q.request)
  {
    if At(q.request, "operation") != Some(Str("publish_pull_request")) then Some("operation-not-registered")
    else if TextOf(At(q.request, "repository_id")) !in c.repositories then Some("repository-not-allowlisted")
    else if TextOf(At(q.request, "actuator_id")) !in c.actuators then Some("actuator-not-allowlisted")
    else if At(q.request, "staged_change_digest") != Some(Str(DigestOf(s, q.staged))) then
      Some("request-digest-mismatch")
    else None
  }

  /** All the rules, in order. */
  function Judge(s: Services, c: Config, q: Case, now: int): Effect
    requires ConfigOk(c) && WellAsked(q.request)
  {
    var opening := Opening(s, c, q);
    if opening.Some? then Deny(opening.value)
    else if !SameField(At(q.request, "branch_namespace"), At(q.intent, "branch_namespace"))
            || !SameField(At(q.request, "idempotency_key"), At(q.intent, "idempotency_key")) then
      Deny("request-intent-mismatch")
    else if !q.approval.Obj? || !IsText(At(q.approval, "approver_id"))
            || TextOf(At(q.approval, "approver_id")) !in c.approvers then Deny("approver-not-allowlisted")
    else
      var valid := ValidateApproval(s, q.approval, q.staged, q.intent, c.version, Some(now));
      if valid.Fail? then Deny(ReasonCode(valid.message))
      else if !VerifySignature(s, q.approval, c.keys[TextOf(At(q.approval, "approver_id"))]) then
        Deny("approval-signature-invalid")
      else Allow
  }

  const DECISION_FIELDS: seq<string> := [
    "schema_version", "decision_id", "effect", "reason_codes", "principal_id", "operation", "repository_id",
    "staged_change_digest", "policy_version", "evaluated_at", "expires_at"]

  function Reasons(e: Effect): Json {
    match e
    case Allow => Arr([Str("repository-allowlisted"), Str("approval-valid"), Str("digest-bound")])
    case Deny(reason) => Arr([Str(reason)])
  }

  function DecisionValues(s: Services, c: Config, id: Json, q: Case, e: Effect, now: int): seq<Json>
    requires WellAsked(q.request)
  {
    [Num(1), id, Str(if e.Allow? then "allow" else "deny"), Reasons(e), At(q.request, "actuator_id").value,
     At(q.request, "operation").value, At(q.request, "repository_id").value, Str(DigestOf(s, q.staged)),
     Str(c.version), Str(s.formatTime(now)), Str(s.formatTime(now + c.ttl * 1000000))]
  }

  /** The decision record. */
  function Decision(s: Services, c: Config, id: Json, q: Case, e: Effect, now: int): Json
    requires WellAsked(q.request)
  {
    var values := DecisionValues(s, c, id, q, e, now);
    Obj(seq(|DECISION_FIELDS|, i requires 0 <= i < |DECISION_FIELDS| => Pair(DECISION_FIELDS[i], values[i])))
  }

  /** DeterministicPolicy.decide; it raises when the policy is unavailable, when the request or the clock is
      malformed, and when the expiry cannot be represented. */
  function Decide(s: Services, c: Config, available: bool, id: Json, q: Case, now: Option<int>): Result<Json, string>
    requires ConfigOk(c)
  {
    if !available then Err("policy service is unavailable")
    else if now.None? then Err("authority: clock is invalid")
    else if !WellAsked(q.request) then Err("policy: actuator request is malformed")
    else if Opening(s, c, q).None? && !q.intent.Obj? then Err("AttributeError")
    else if now.value < s.earliest || now.value + c.ttl * 1000000 > s.latest then Err("OverflowError")
    else Ok(Decision(s, c, id, q, Judge(s, c, q, now.value), now.value))
  }

  /** check_decision_usable */
  function CheckUsable(s: Services, decision: Json, now: Option<int>): Outcome {
    var expiry := Instant(s, decision, "expires_at");
    :- Need(now.Some?, "authority: clock is invalid");
    :- Need(decision.Obj?, "decision: decision is malformed");
    :- Need(expiry.Some?, "decision: expiry is invalid");
    :- Need(At(decision, "effect") == Some(Str("allow")), "decision: not allow");
    Need(expiry.value > now.value, "decision: expired")
  }

  // ---------------------------------------------------------------------------
  // What an allow decision means

  predicate Authorized(s: Services, c: Config, q: Case, now: int) {
    WellAsked(q.request) && Opening(s, c, q).None? &&
    SameField(At(q.request, "branch_namespace"), At(q.intent, "branch_namespace")) &&
    SameField(At(q.request, "idempotency_key"), At(q.intent, "idempotency_key")) &&
    TextOf(At(q.approval, "approver_id")) in c.approvers && TextOf(At(q.approval, "approver_id")) in c.keys &&
    Binds(s, q.approval, q.staged, q.intent, c.version, now) &&
    VerifySignature(s, q.approval, c.keys[TextOf(At(q.approval, "approver_id"))])
  }

  /** The policy allows exactly what is authorized. */
  lemma AllowsAuthorized(s: Services, c: Config, q: Case, now: int)
    requires ConfigOk(c) && WellAsked(q.request)
    ensures Judge(s, c, q, now) == Allow <==> Authorized(s, c, q, now)
  {
    hide Opening, SameField, VerifySignature, ValidateApproval, IsText, TextOf, At, ReasonCode;
    ValidatesWhileBound(s, q.approval, q.staged, q.intent, c.version, now);
    hide Matching, Pinned, InForce;
  }

  lemma DecisionFieldsDistinct()
    ensures forall i, j :: 0 <= i < j < |DECISION_FIELDS| ==> DECISION_FIELDS[i] != DECISION_FIELDS[j]
  {
  }

  /** Each field of a decision reads back. */
  lemma DecisionReads(s: Services, c: Config, id: Json, q: Case, e: Effect, now: int, i: nat)
    requires WellAsked(q.request) && i < |DECISION_FIELDS|
    ensures At(Decision(s, c, id, q, e, now), DECISION_FIELDS[i]) == Some(DecisionValues(s, c, id, q, e, now)[i])
  {
    var d := Decision(s, c, id, q, e, now).members;
    DecisionFieldsDistinct();
    assert DistinctKeys(d);
    GetAt(d, i);
  }

  lemma DecisionSays(s: Services, c: Config, id: Json, q: Case, e: Effect, now: int)
    requires WellAsked(q.request)
    ensures At(Decision(s, c, id, q, e, now), "effect") == Some(Str("allow")) <==> e.Allow?
    ensures At(Decision(s, c, id, q, e, now), "expires_at") == Some(Str(s.formatTime(now + c.ttl * 1000000)))
    ensures At(Decision(s, c, id, q, e, now), "operation") == At(q.request, "operation")
    ensures At(Decision(s, c, id, q, e, now), "repository_id") == At(q.request, "repository_id")
    ensures At(Decision(s, c, id, q, e, now), "staged_change_digest") == Some(Str(DigestOf(s, q.staged)))
  {
    DecisionReads(s, c, id, q, e, now, 2);
    DecisionReads(s, c, id, q, e, now, 5);
    DecisionReads(s, c, id, q, e, now, 6);
    DecisionReads(s, c, id, q, e, now, 7);
    DecisionReads(s, c, id, q, e, now, 10);
    hide Decision, At, DigestOf;
    assert "allow" != "deny";
  }

  /** A decision is usable exactly if it allows, until its time to live has passed. */
  lemma UsableWhileFresh(s: Services, c: Config, id: Json, q: Case, now: int, later: int)
    requires ConfigOk(c) && TimeLaw(s) && Decide(s, c, true, id, q, Some(now)).Ok?
    ensures CheckUsable(s, Decide(s, c, true, id, q, Some(now)).value, Some(later)).Pass?
            <==> Authorized(s, c, q, now) && later < now + c.ttl * 1000000
  {
    hide Judge, Authorized, Opening, At, Need, WellAsked;
    DecisionSays(s, c, id, q, Judge(s, c, q, now), now);
    AllowsAuthorized(s, c, q, now);
  }
}
