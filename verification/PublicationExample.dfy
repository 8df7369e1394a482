/** One approval, two repositories: the gates pass a request for any allowlisted repository under an approval and
    an intent that name another. */
module PublicationExample {
  import opened Base
  import opened CanonicalJson
  import opened ApprovalSignature
  import opened Authority
  import opened Broker
  import opened Publication
  import Chain

  /** The parties to a publication, with a key and a signature. */
  datatype Setting = Setting(
    s: Services, version: string, process: string, approval: string, approver: string, actuator: string,
    branch: string, base: string, key: bytes, signature: string)

  const SECOND := 1000000

  // ---------------------------------------------------------------------------
  // The documents

  const APPROVAL_FIELDS: seq<string> := SIGNED_FIELDS + ["signature"]
  const INTENT_FIELDS: seq<string> := [
    "process_id", "repository_id", "operation", "approval_id", "staged_change_digest", "expires_at",
    "branch_namespace", "base_branch", "idempotency_key"]
  const ASKED_FIELDS: seq<string> := [
    "actuator_id", "operation", "repository_id", "branch_namespace", "base_branch", "staged_change_digest",
    "idempotency_key"]
  const CREDENTIAL_FIELDS: seq<string> := [
    "credential_grant_id", "actuator_id", "repository_id", "operation", "request_digest", "single_use",
    "credential_class", "expires_at"]

  const PUBLISHES := Str("publish_pull_request")

  function Staged(): Json {
    Obj([])
  }

  function KeyOf(x: Setting): string {
    x.s.o.idempotencyKey(x.branch, x.base, DigestOf(x.s, Staged()))
  }

  function IntentValues(x: Setting, repository: string): (r: seq<Json>)
    ensures |r| == |INTENT_FIELDS|
  {
    [Str(x.process), Str(repository), PUBLISHES, Str(x.approval), Str(DigestOf(x.s, Staged())),
     Str(x.s.formatTime(SECOND)), Str(x.branch), Str(x.base), Str(KeyOf(x))]
  }

  function Intent(x: Setting, repository: string): Json {
    Table(INTENT_FIELDS, IntentValues(x, repository))
  }

  function ApprovalValues(x: Setting, repository: string): (r: seq<Json>)
    ensures |r| == |APPROVAL_FIELDS|
  {
    [Num(1), Str(x.approval), Str(x.approver), Str(x.process), PUBLISHES, Str(repository),
     Str(DigestOf(x.s, Staged())), Str(DigestOf(x.s, Intent(x, repository))), Str(x.version),
     Str(x.s.formatTime(0)), Str(x.s.formatTime(SECOND)), Str(x.signature)]
  }

  function Approval(x: Setting, repository: string): Json {
    Table(APPROVAL_FIELDS, ApprovalValues(x, repository))
  }

  function RequestValues(x: Setting, repository: string): (r: seq<Json>)
    ensures |r| == |ASKED_FIELDS|
  {
    [Str(x.actuator), PUBLISHES, Str(repository), Str(x.branch), Str(x.base), Str(DigestOf(x.s, Staged())),
     Str(KeyOf(x))]
  }

  function Request(x: Setting, repository: string): Json {
    Table(ASKED_FIELDS, RequestValues(x, repository))
  }

  function GrantValues(x: Setting, repository: string, id: string): (r: seq<Json>)
    ensures |r| == |CREDENTIAL_FIELDS|
  {
    [Str(id), Str(x.actuator), Str(repository), PUBLISHES, Str(DigestOf(x.s, Request(x, repository))),
     Bool(true), Str("github-app-installation"), Str(x.s.formatTime(SECOND))]
  }

  function Grant(x: Setting, repository: string, id: string): Json {
    Table(CREDENTIAL_FIELDS, GrantValues(x, repository, id))
  }

  /** An approval and an intent for one repository, a request for another. */
  function CaseFor(x: Setting, approved: string, asked: string): Case {
    Case(Request(x, asked), Approval(x, approved), Staged(), Intent(x, approved))
  }

  function PolicyFor(x: Setting, repositories: set<string>): Config {
    Config(x.version, repositories, {x.actuator}, {x.approver}, map[x.approver := x.key], 1)
  }

  function CallFor(x: Setting, approved: string, asked: string, decision: Json, grant: string): Call {
    Call(Request(x, asked), Grant(x, asked, grant), decision, true, Some(Gateway(true, true)), Intent(x, approved),
         Some(0), Some(Approval(x, approved)))
  }

  predicate Named(x: Setting) {
    x.version != "" && x.process != "" && x.approval != "" && x.approver != "" && x.actuator != "" &&
    x.branch != "" && x.base != ""
  }

  // ---------------------------------------------------------------------------
  // Reading them

  lemma IntentReads(x: Setting, r: string, i: nat)
    requires i < |INTENT_FIELDS|
    ensures At(Intent(x, r), INTENT_FIELDS[i]) == Some(IntentValues(x, r)[i])
  {
    hide At, IntentValues;
    TableAt(INTENT_FIELDS, IntentValues(x, r), i);
  }

  lemma ApprovalReads(x: Setting, r: string, i: nat)
    requires i < |APPROVAL_FIELDS|
    ensures At(Approval(x, r), APPROVAL_FIELDS[i]) == Some(ApprovalValues(x, r)[i])
  {
    hide At, ApprovalValues;
    ApprovalFieldsDistinct();
    TableAt(APPROVAL_FIELDS, ApprovalValues(x, r), i);
  }

  lemma ApprovalFieldsDistinct()
    ensures forall j, k | 0 <= j < k < |APPROVAL_FIELDS| :: APPROVAL_FIELDS[j] != APPROVAL_FIELDS[k]
  {
  }

  lemma RequestReads(x: Setting, r: string, i: nat)
    requires i < |ASKED_FIELDS|
    ensures At(Request(x, r), ASKED_FIELDS[i]) == Some(RequestValues(x, r)[i])
  {
    hide At, RequestValues;
    TableAt(ASKED_FIELDS, RequestValues(x, r), i);
  }

  lemma GrantReads(x: Setting, r: string, id: string, i: nat)
    requires i < |CREDENTIAL_FIELDS|
    ensures At(Grant(x, r, id), CREDENTIAL_FIELDS[i]) == Some(GrantValues(x, r, id)[i])
  {
    hide At, GrantValues;
    TableAt(CREDENTIAL_FIELDS, GrantValues(x, r, id), i);
  }

  // ---------------------------------------------------------------------------
  // The policy allows it

  lemma Texts(t: string)
    ensures IsText(Some(Str(t))) <==> t != ""
    ensures TextOf(Some(Str(t))) == t
    ensures SameField(Some(Str(t)), Some(Str(t)))
  {
  }

  lemma ApprovalBinds(x: Setting, r: string)
    ensures At(Approval(x, r), "process_id") == Some(Str(x.process))
    ensures At(Approval(x, r), "repository_id") == Some(Str(r))
    ensures At(Approval(x, r), "operation") == Some(PUBLISHES)
    ensures At(Approval(x, r), "approval_id") == Some(Str(x.approval))
  {
    hide At, Approval;
    ApprovalReads(x, r, 3);
    ApprovalReads(x, r, 5);
    ApprovalReads(x, r, 4);
    ApprovalReads(x, r, 1);
  }

  lemma IntentBinds(x: Setting, r: string)
    ensures At(Intent(x, r), "process_id") == Some(Str(x.process))
    ensures At(Intent(x, r), "repository_id") == Some(Str(r))
    ensures At(Intent(x, r), "operation") == Some(PUBLISHES)
    ensures At(Intent(x, r), "approval_id") == Some(Str(x.approval))
  {
    hide At, Intent;
    IntentReads(x, r, 0);
    IntentReads(x, r, 1);
    IntentReads(x, r, 2);
    IntentReads(x, r, 3);
  }

  lemma Bindings(x: Setting, approved: string)
    requires Named(x) && approved != ""
    ensures Matching(Approval(x, approved), Intent(x, approved))
  {
    hide At, Approval, Intent;
    ApprovalBinds(x, approved);
    IntentBinds(x, approved);
  }

  lemma ApprovalHolds(x: Setting, r: string)
    ensures At(Approval(x, r), "schema_version") == Some(Num(1))
    ensures At(Approval(x, r), "approver_id") == Some(Str(x.approver))
    ensures At(Approval(x, r), "policy_version") == Some(Str(x.version))
    ensures At(Approval(x, r), "signature") == Some(Str(x.signature))
  {
    hide At, Approval;
    ApprovalReads(x, r, 0);
    ApprovalReads(x, r, 2);
    ApprovalReads(x, r, 8);
    ApprovalReads(x, r, 11);
  }

  lemma DigestsHeld(x: Setting, r: string)
    requires forall b {:trigger x.s.o.hash(b)} :: x.s.o.hash(b) != ""
    ensures Pinned(x.s, Approval(x, r), Staged(), Intent(x, r))
  {
    ApprovalReads(x, r, 6);
    ApprovalReads(x, r, 7);
    IntentReads(x, r, 4);
    hide At, Approval, Intent;
  }

  lemma TimesHeld(x: Setting, r: string)
    requires TimeLaw(x.s) && x.s.earliest <= 0 && x.s.latest >= SECOND
    ensures InForce(x.s, Approval(x, r), Intent(x, r), 0)
  {
    ApprovalReads(x, r, 9);
    ApprovalReads(x, r, 10);
    IntentReads(x, r, 5);
    hide At, Approval, Intent;
  }

  lemma ApprovalSignable(x: Setting, r: string)
    ensures Signable(Approval(x, r))
  {
    var ms := Approval(x, r).members;
    assert Keys(ms) == FieldSet() + {"signature"} by {
      forall k | k in FieldSet() + {"signature"} ensures k in Keys(ms) {
        if k in FieldSet() {
          var i :| 0 <= i < |SIGNED_FIELDS| && SIGNED_FIELDS[i] == k;
          assert ms[i].key == k;
        } else {
          assert ms[|SIGNED_FIELDS|].key == k;
        }
      }
    }
  }

  /** Everything but the repositories is in order: texts where texts are due, a clock and a branch rule that work,
      digests that are texts, and a signature over the approval that verifies. */
  ghost predicate InOrder(x: Setting, approved: string) {
    Named(x) && TimeLaw(x.s) && x.s.earliest <= 0 && x.s.latest >= SECOND &&
    x.s.o.baseBranchOk(x.base) && KeyOf(x) != "" &&
    (forall b {:trigger x.s.o.hash(b)} :: x.s.o.hash(b) != "") && Signed(x, approved)
  }

  predicate Signed(x: Setting, approved: string) {
    ApprovalSignable(x, approved);
    |x.key| == 32 && |x.signature| == 128 && (forall i | 0 <= i < 128 :: IsHex(x.signature[i])) &&
    x.s.verify(x.key, x.s.unhex(x.signature), SignaturePayload(Approval(x, approved)).value)
  }

  lemma SignatureHeld(x: Setting, approved: string)
    requires Signed(x, approved)
    ensures VerifySignature(x.s, Approval(x, approved), x.key)
  {
    hide At, Approval;
    ApprovalHolds(x, approved);
    ApprovalSignable(x, approved);
  }

  lemma ApprovalInForce(x: Setting, approved: string)
    requires InOrder(x, approved) && approved != ""
    ensures Binds(x.s, Approval(x, approved), Staged(), Intent(x, approved), x.version, 0)
    ensures TextOf(At(Approval(x, approved), "approver_id")) == x.approver
  {
    hide At, Matching, Pinned, InForce, Signed;
    Bindings(x, approved);
    DigestsHeld(x, approved);
    TimesHeld(x, approved);
    ApprovalHolds(x, approved);
    Texts(x.approver);
  }

  lemma RequestHolds(x: Setting, r: string)
    ensures At(Request(x, r), "actuator_id") == Some(Str(x.actuator))
    ensures At(Request(x, r), "operation") == Some(PUBLISHES)
    ensures At(Request(x, r), "repository_id") == Some(Str(r))
    ensures At(Request(x, r), "branch_namespace") == Some(Str(x.branch))
    ensures At(Request(x, r), "base_branch") == Some(Str(x.base))
    ensures At(Request(x, r), "staged_change_digest") == Some(Str(DigestOf(x.s, Staged())))
    ensures At(Request(x, r), "idempotency_key") == Some(Str(KeyOf(x)))
  {
    hide At, Request, DigestOf;
    RequestReads(x, r, 0);
    RequestReads(x, r, 1);
    RequestReads(x, r, 2);
    RequestReads(x, r, 3);
    RequestReads(x, r, 4);
    RequestReads(x, r, 5);
    RequestReads(x, r, 6);
  }

  lemma IntentPublishes(x: Setting, r: string)
    ensures At(Intent(x, r), "branch_namespace") == Some(Str(x.branch))
    ensures At(Intent(x, r), "base_branch") == Some(Str(x.base))
    ensures At(Intent(x, r), "idempotency_key") == Some(Str(KeyOf(x)))
  {
    hide At, Intent;
    IntentReads(x, r, 6);
    IntentReads(x, r, 7);
    IntentReads(x, r, 8);
  }

  lemma PolicyWorks(x: Setting, repositories: set<string>, asked: string)
    requires Named(x) && |x.key| == 32 && asked in repositories && "" !in repositories
    ensures ConfigOk(PolicyFor(x, repositories))
  {
  }

  lemma RequestOpens(x: Setting, repositories: set<string>, approved: string, asked: string)
    requires Named(x) && asked in repositories && asked != ""
    ensures WellAsked(Request(x, asked))
    ensures Opening(x.s, PolicyFor(x, repositories), CaseFor(x, approved, asked)).None?
  {
    hide At, Request, Approval, Intent, DigestOf;
    AreObjects(x, approved, asked);
    RequestHolds(x, asked);
  }

  lemma FieldsAgree(x: Setting, approved: string, asked: string)
    ensures SameField(At(Request(x, asked), "branch_namespace"), At(Intent(x, approved), "branch_namespace"))
    ensures SameField(At(Request(x, asked), "idempotency_key"), At(Intent(x, approved), "idempotency_key"))
  {
    hide At, Request, Intent, KeyOf, SameField;
    RequestHolds(x, asked);
    IntentPublishes(x, approved);
    Texts(x.branch);
    Texts(KeyOf(x));
  }

  lemma Authorizes(x: Setting, repositories: set<string>, approved: string, asked: string)
    requires InOrder(x, approved) && approved != "" && asked in repositories && asked != ""
    ensures Authorized(x.s, PolicyFor(x, repositories), CaseFor(x, approved, asked), 0)
  {
    hide At, Request, Approval, Intent, Binds, VerifySignature, WellAsked, Opening, SameField, TimeLaw, Signed, TextOf;
    RequestOpens(x, repositories, approved, asked);
    FieldsAgree(x, approved, asked);
    ApprovalInForce(x, approved);
    SignatureHeld(x, approved);
  }

  /** The policy allows the case, and its decision is usable. */
  lemma Allows(x: Setting, repositories: set<string>, approved: string, asked: string) returns (decision: Json)
    requires InOrder(x, approved) && approved != "" && asked in repositories && "" !in repositories
    ensures ConfigOk(PolicyFor(x, repositories))
    ensures Decide(x.s, PolicyFor(x, repositories), true, Num(0), CaseFor(x, approved, asked), Some(0)) == Ok(decision)
    ensures CheckUsable(x.s, decision, Some(0)).Pass?
    ensures At(decision, "operation") == Some(PUBLISHES) && At(decision, "repository_id") == Some(Str(asked))
    ensures At(decision, "staged_change_digest") == Some(Str(DigestOf(x.s, Staged())))
  {
    hide At, Request, Approval, Intent, Judge, Authorized, WellAsked, Opening, DigestOf, ConfigOk, CheckUsable;
    hide Decision;
    hide KeyOf;
    var config, q := PolicyFor(x, repositories), CaseFor(x, approved, asked);
    PolicyWorks(x, repositories, asked);
    RequestOpens(x, repositories, approved, asked);
    Authorizes(x, repositories, approved, asked);
    AreObjects(x, approved, asked);
    decision := Decide(x.s, config, true, Num(0), q, Some(0)).value;
    UsableWhileFresh(x.s, config, Num(0), q, 0, 0);
    DecisionSays(x.s, config, Num(0), q, Judge(x.s, config, q, 0), 0);
    RequestHolds(x, asked);
  }

  lemma AreObjects(x: Setting, approved: string, asked: string)
    ensures Intent(x, approved).Obj? && Request(x, asked).Obj?
  {
  }

  // ---------------------------------------------------------------------------
  // The broker and the gates after it

  lemma GrantHolds(x: Setting, r: string, id: string)
    ensures At(Grant(x, r, id), "credential_grant_id") == Some(Str(id))
    ensures At(Grant(x, r, id), "actuator_id") == Some(Str(x.actuator))
    ensures At(Grant(x, r, id), "repository_id") == Some(Str(r))
    ensures At(Grant(x, r, id), "operation") == Some(PUBLISHES)
  {
    hide At, Grant;
    GrantReads(x, r, id, 0);
    GrantReads(x, r, id, 1);
    GrantReads(x, r, id, 2);
    GrantReads(x, r, id, 3);
  }

  lemma GrantTerms(x: Setting, r: string, id: string)
    ensures At(Grant(x, r, id), "request_digest") == Some(Str(DigestOf(x.s, Request(x, r))))
    ensures At(Grant(x, r, id), "single_use") == Some(Bool(true))
    ensures At(Grant(x, r, id), "credential_class") == Some(Str("github-app-installation"))
    ensures At(Grant(x, r, id), "expires_at") == Some(Str(x.s.formatTime(SECOND)))
  {
    hide At, Grant, DigestOf, Request;
    GrantReads(x, r, id, 4);
    GrantReads(x, r, id, 5);
    GrantReads(x, r, id, 6);
    GrantReads(x, r, id, 7);
  }

  lemma GrantComplete(x: Setting, r: string, id: string)
    ensures Complete(Grant(x, r, id), Request(x, r))
  {
    hide At;
    GrantHolds(x, r, id);
    GrantTerms(x, r, id);
    RequestHolds(x, r);
  }

  lemma GrantWorded(x: Setting, r: string, id: string)
    requires Named(x) && r != "" && id != ""
    ensures Worded(Grant(x, r, id), Request(x, r)) && SameScope(Grant(x, r, id), Request(x, r))
    ensures GrantId(Grant(x, r, id)) == id
  {
    hide At, Grant, Request;
    GrantHolds(x, r, id);
    GrantTerms(x, r, id);
    RequestHolds(x, r);
  }

  lemma GrantInTerms(x: Setting, r: string, id: string)
    requires TimeLaw(x.s) && x.s.earliest <= 0 && x.s.latest >= SECOND
    ensures InTerms(x.s, Grant(x, r, id), Request(x, r), 0)
  {
    hide At, Grant, Request, DigestOf;
    GrantTerms(x, r, id);
  }

  lemma Opens(x: Setting, approved: string, r: string, m: Memory, id: string)
    requires InOrder(x, approved) && r != "" && id != "" && id !in m.used
    ensures OpenOutcome(x.s, m, Grant(x, r, id), Request(x, r), Some(0), Channel).Pass?
    ensures GrantId(Grant(x, r, id)) == id
  {
    hide Complete, Worded, SameScope, InTerms, GrantId, Grant, Request, TimeLaw, ValidateGrant, Signed;
    GrantComplete(x, r, id);
    GrantWorded(x, r, id);
    GrantInTerms(x, r, id);
    ValidGrants(x.s, Grant(x, r, id), Request(x, r), Some(0));
  }

  lemma KeyFits(x: Setting, r: string)
    requires x.s.o.baseBranchOk(x.base)
    ensures CheckKey(x.s, Request(x, r)).Pass?
  {
    hide At, Request, DigestOf;
    RequestHolds(x, r);
  }

  lemma RequestProper(x: Setting, r: string)
    requires Named(x) && r != "" && KeyOf(x) != "" && DigestOf(x.s, Staged()) != ""
    ensures Request(x, r).Obj? && forall i | 0 <= i < |IDENTITY| :: IsText(At(Request(x, r), IDENTITY[i]))
  {
    hide At, DigestOf, KeyOf;
    RequestHolds(x, r);
  }

  lemma CallMatches(x: Setting, approved: string, asked: string, decision: Json, id: string)
    requires At(decision, "operation") == Some(PUBLISHES) && At(decision, "repository_id") == Some(Str(asked))
    requires At(decision, "staged_change_digest") == Some(Str(DigestOf(x.s, Staged())))
    ensures CheckMatch(CallFor(x, approved, asked, decision, id)).Pass?
  {
    hide At, Request, Intent, Approval, Grant, DigestOf, KeyOf, SameField;
    RequestHolds(x, asked);
    IntentPublishes(x, approved);
    Texts("publish_pull_request");
    Texts(asked);
    Texts(DigestOf(x.s, Staged()));
    Texts(x.branch);
    Texts(x.base);
    Texts(KeyOf(x));
  }

  lemma IntentApproved(x: Setting, approved: string)
    requires InOrder(x, approved)
    ensures CheckIntent(x.s, Intent(x, approved), Approval(x, approved)).Pass?
  {
    hide At, Approval, Intent, TimeLaw, Signed;
    ApprovalReads(x, approved, 7);
  }

  lemma PassesActuator(x: Setting, approved: string, asked: string, decision: Json, id: string)
    requires InOrder(x, approved) && asked != "" && CheckUsable(x.s, decision, Some(0)).Pass?
    requires At(decision, "operation") == Some(PUBLISHES) && At(decision, "repository_id") == Some(Str(asked))
    requires At(decision, "staged_change_digest") == Some(Str(DigestOf(x.s, Staged())))
    ensures AtActuator(x.s, CallFor(x, approved, asked, decision, id)).Pass?
  {
    hide At, Request, Intent, Approval, Grant, CheckUsable, CheckIntent, CheckMatch, CheckKey, TimeLaw, Signed, IsText;
    hide KeyOf;
    IntentApproved(x, approved);
    CallMatches(x, approved, asked, decision, id);
    KeyFits(x, asked);
    RequestProper(x, asked);
    RequestHolds(x, asked);
  }

  /** An approval and an intent for one repository pass a request, with its grant, for any allowlisted repository. */
  lemma PublishesAnywhere(x: Setting, repositories: set<string>, approved: string, asked: string, m: Memory, id: string)
    returns (decision: Json)
    requires InOrder(x, approved) && approved != "" && asked in repositories && "" !in repositories
    requires id != "" && id !in m.used
    ensures ConfigOk(PolicyFor(x, repositories))
    ensures Passed(x.s, PolicyFor(x, repositories), Num(0), CaseFor(x, approved, asked), 0, m,
                   CallFor(x, approved, asked, decision, id), Channel)
    ensures GrantId(Grant(x, asked, id)) == id
  {
    hide At, Request, Intent, Approval, Grant, CheckUsable, CheckIntent, AtActuator, OpenOutcome, InOrder, Decide;
    hide ConfigOk;
    hide KeyOf, DigestOf, GrantId;
    decision := Allows(x, repositories, approved, asked);
    IntentApproved(x, approved);
    PassesActuator(x, approved, asked, decision, id);
    Opens(x, approved, asked, m, id);
  }

  lemma Sends(s: Services, config: Config, id: Json, q: Case, decided: int, w: World, c: Call)
    requires ConfigOk(config) && Passed(s, config, id, q, decided, w.memory, c, Channel) && c.now.Some?
    ensures Step(s, w, Publish(c, Channel)).sent == w.sent + [Sent(GrantId(c.grant), c.request, c.now.value)]
    ensures Step(s, w, Publish(c, Channel)).memory
         == Memory(w.memory.used + {GrantId(c.grant)}, w.memory.openedGrants + [GrantId(c.grant)])
  {
    hide ConfigOk, Decide, BeforeBroker, OpenOutcome, AtActuator, GrantId;
  }

  /** One signed approval of a publication to one repository, used twice by one policy's leave: the provider
      receives it for that repository, and for another. */
  lemma OneApprovalTwoRepositories(x: Setting, a: string, b: string, g: string, h: string)
    returns (first: Json, second: Json)
    requires InOrder(x, a) && a != "" && b != "" && a != b && g != "" && h != "" && g != h
    ensures
      var c, d := CallFor(x, a, a, first, g), CallFor(x, a, b, second, h);
      var actions := [Publish(c, Channel), Publish(d, Channel)];
      Run(x.s, World(Memory({}, []), []), actions).sent == [Sent(g, Request(x, a), 0), Sent(h, Request(x, b), 0)]
    ensures TimeLaw(x.s) && ConfigOk(PolicyFor(x, {a, b}))
    ensures
      var config := PolicyFor(x, {a, b});
      Passed(x.s, config, Num(0), CaseFor(x, a, a), 0, Memory({}, []), CallFor(x, a, a, first, g), Channel) &&
      Passed(x.s, config, Num(0), CaseFor(x, a, b), 0, Memory({g}, [g]), CallFor(x, a, b, second, h), Channel)
    ensures TargetOf(Request(x, a)).repository == a && TargetOf(Request(x, b)).repository == b
    ensures TextOf(At(Approval(x, a), "repository_id")) == a
    ensures SameRepository(Request(x, a), Intent(x, a)) && !SameRepository(Request(x, b), Intent(x, a))
  {
    hide At, Request, Intent, Approval, Grant, Passed, ConfigOk, Step, GrantId, Signed;
    var config, w := PolicyFor(x, {a, b}), World(Memory({}, []), []);
    first := PublishesAnywhere(x, {a, b}, a, a, w.memory, g);
    var c := CallFor(x, a, a, first, g);
    Sends(x.s, config, Num(0), CaseFor(x, a, a), 0, w, c);
    var after := Step(x.s, w, Publish(c, Channel));
    assert after.memory == Memory({g}, [g]) && after.sent == [Sent(g, Request(x, a), 0)];
    second := PublishesAnywhere(x, {a, b}, a, b, after.memory, h);
    var d := CallFor(x, a, b, second, h);
    Sends(x.s, config, Num(0), CaseFor(x, a, b), 0, after, d);
    RunTwo(x.s, w, Publish(c, Channel), Publish(d, Channel));
    RepositoriesNamed(x, a, b);
  }

  lemma RunTwo(s: Services, w: World, a: Action, b: Action)
    ensures Run(s, w, [a, b]) == Step(s, Step(s, w, a), b)
  {
    hide Step;
    assert [a, b][1..] == [b] && [b][1..] == [];
    assert Run(s, Step(s, w, a), [b]) == Run(s, Step(s, Step(s, w, a), b), []);
  }

  lemma RepositoriesNamed(x: Setting, a: string, b: string)
    requires a != b
    ensures TargetOf(Request(x, a)).repository == a && TargetOf(Request(x, b)).repository == b
    ensures TextOf(At(Approval(x, a), "repository_id")) == a
    ensures SameRepository(Request(x, a), Intent(x, a)) && !SameRepository(Request(x, b), Intent(x, a))
  {
    hide At, Request, Intent, Approval, ContentOf;
    RequestHolds(x, a);
    RequestHolds(x, b);
    IntentBinds(x, a);
    ApprovalBinds(x, a);
    Texts(a);
    Texts(b);
  }

  // ---------------------------------------------------------------------------
  // Such settings exist

  ghost function ReadInt(text: string): Option<int> {
    if exists n: int :: IntText(n) == text then
      var n: int :| IntText(n) == text;
      Some(n)
    else None
  }

  lemma ReadsBack(n: int)
    ensures ReadInt(IntText(n)) == Some(n)
  {
    var m: int :| IntText(m) == IntText(n) && ReadInt(IntText(n)) == Some(m);
    assert IntText(m) + "" == IntText(m) && IntText(n) + "" == IntText(n);
    IntUnique(m, n, "", "");
  }

  ghost function PlainServices(): Services {
    var o := Chain.Oracles(b => "h", (branch, base, staged) => "k", base => true);
    Services(o, text => ReadInt(text), n => IntText(n), 0, SECOND, text => [], (key, signature, payload) => true)
  }

  ghost function PlainSetting(): Setting {
    Setting(PlainServices(), "v", "p", "a", "r", "t", "b", "m", seq(32, i => 0), seq(128, i => '0'))
  }

  lemma PlainClock()
    ensures TimeLaw(PlainServices())
  {
    hide IntText, ReadInt;
    var s := PlainServices();
    forall t: int | s.earliest <= t <= s.latest ensures s.parseTime(s.formatTime(t)) == Some(t) { ReadsBack(t); }
  }

  lemma PlainSigned(approved: string)
    ensures Signed(PlainSetting(), approved)
  {
    hide Approval, SignaturePayload, ReadInt, IntText;
  }

  lemma PlainTexts()
    ensures Named(PlainSetting()) && KeyOf(PlainSetting()) != ""
    ensures PlainSetting().s == PlainServices() && PlainServices().earliest <= 0 && PlainServices().latest >= SECOND
    ensures PlainServices().o.baseBranchOk(PlainSetting().base)
    ensures forall b {:trigger PlainServices().o.hash(b)} :: PlainServices().o.hash(b) != ""
  {
    hide ReadInt, IntText, DigestOf;
  }

  /** A setting that is in order, for every repository. */
  lemma SettingExists(approved: string)
    ensures exists x: Setting :: InOrder(x, approved)
  {
    hide PlainServices, PlainSetting, Signed, TimeLaw, Named, KeyOf;
    PlainClock();
    PlainTexts();
    PlainSigned(approved);
    assert InOrder(PlainSetting(), approved);
  }
}
