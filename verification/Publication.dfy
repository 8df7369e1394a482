/** Publication through the brokered actuator: the gates before the broker, the broker, the gates after it,
    and what a provider call therefore implies, over every history of calls. */
module Publication {
  import opened Base
  import opened CanonicalJson
  import opened Authority
  import opened ApprovalSignature
  import opened Broker
  import Chain

  /** A gateway verdict; None stands for anything that is not one. */
  datatype Gateway = Gateway(allowed: bool, slow: bool)

  datatype Call = Call(
    request: Json, grant: Json, decision: Json, approvalValid: bool, gateway: Option<Gateway>,
    intent: Json, now: Option<int>, approval: Option<Json>)

  /** A call the provider received: the channel's grant, the request and the time. */
  datatype Sent = Sent(grant: string, request: Json, now: int)

  /** The gates in front of the broker. */
  function BeforeBroker(s: Services, c: Call): Outcome {
    var routed := c.gateway.Some? && c.gateway.value.allowed && c.gateway.value.slow;
    :- Need(c.approval.Some?, "actuator: approval is required");
    :- CheckUsable(s, c.decision, c.now);
    :- CheckIntent(s, c.intent, c.approval.value);
    :- Need(c.gateway.Some?, "actuator: gateway decision is malformed");
    Need(routed, "actuator: gateway has not authorized slow path")
  }

  const IDENTITY: seq<string> := [
    "actuator_id", "operation", "repository_id", "branch_namespace", "base_branch", "staged_change_digest",
    "idempotency_key"]

  function CheckKey(s: Services, request: Json): Outcome {
    var base := TextOf(At(request, "base_branch"));
    :- Need(s.o.baseBranchOk(base), "actuator: base branch is invalid");
    Need(TextOf(At(request, "idempotency_key"))
           == s.o.idempotencyKey(TextOf(At(request, "branch_namespace")), base,
                                 TextOf(At(request, "staged_change_digest"))),
         "actuator: idempotency key does not match publication intent")
  }

  function CheckMatch(c: Call): Outcome {
    var same := (v: Json, field: string) => At(v, field).Some? && SameField(At(v, field), At(c.request, field));
    :- Need(same(c.decision, "operation"), "actuator: policy decision operation mismatch");
    :- Need(same(c.decision, "repository_id"), "actuator: policy decision repository_id mismatch");
    :- Need(same(c.decision, "staged_change_digest"), "actuator: policy decision staged_change_digest mismatch");
    :- Need(same(c.intent, "branch_namespace"), "actuator: approved intent branch_namespace mismatch");
    :- Need(same(c.intent, "base_branch"), "actuator: approved intent base_branch mismatch");
    Need(same(c.intent, "idempotency_key"), "actuator: approved intent idempotency_key mismatch")
  }

  /** publish_authorized_request up to the provider call. */
  function AtActuator(s: Services, c: Call): Outcome {
    var routed := c.gateway.Some? && c.gateway.value.allowed && c.gateway.value.slow;
    :- Need(c.approval.Some?, "actuator: approval is required");
    :- Need(c.approvalValid, "actuator: approval proof is invalid");
    :- Need(c.request.Obj?, "actuator: request is malformed");
    :- Need(forall i | 0 <= i < |IDENTITY| :: IsText(At(c.request, IDENTITY[i])),
            "actuator: request identity is invalid");
    :- Need(At(c.request, "operation") == Some(Str("publish_pull_request")), "actuator: operation is not registered");
    :- Need(c.gateway.Some?, "actuator: gateway decision is malformed");
    :- CheckUsable(s, c.decision, c.now);
    :- CheckIntent(s, c.intent, c.approval.value);
    :- Need(routed, "actuator: gateway has not authorized slow path");
    :- CheckMatch(c);
    CheckKey(s, c.request)
  }

  /** The provider's side of the channels: what it was called with. */
  class Provider {
    var calls: seq<Sent>

    constructor ()
      ensures calls == []
    {
      calls := [];
    }

    method Receive(call: Sent)
      modifies this
      ensures calls == old(calls) + [call]
    {
      calls := calls + [call];
    }
  }

  datatype World = World(memory: Memory, sent: seq<Sent>)

  /** One use of the system: a channel opened by any caller, or a publication through the actuator. */
  datatype Action =
    | Open(grant: Json, request: Json, now: Option<int>, minted: Minted)
    | Publish(call: Call, minted: Minted)

  function Opens(s: Services, m: Memory, a: Action): Outcome {
    match a
    case Open(grant, request, now, minted) => OpenOutcome(s, m, grant, request, now, minted)
    case Publish(c, minted) =>
      var before := BeforeBroker(s, c);
      :- before;
      OpenOutcome(s, m, c.grant, c.request, c.now, minted)
  }

  function Publishes(s: Services, m: Memory, c: Call, minted: Minted): Outcome {
    var channel := Opens(s, m, Publish(c, minted));
    :- channel;
    AtActuator(s, c)
  }

  function GrantOf(a: Action): Json {
    match a case Open(grant, _, _, _) => grant case Publish(c, _) => c.grant
  }

  /** What an action leaves. */
  function Step(s: Services, w: World, a: Action): World {
    var memory := Opened(w.memory, GrantOf(a), Opens(s, w.memory, a));
    World(memory,
          if a.Publish? && Publishes(s, w.memory, a.call, a.minted).Pass? && a.call.now.Some?
          then w.sent + [Sent(GrantId(a.call.grant), a.call.request, a.call.now.value)] else w.sent)
  }

  /** BrokeredGitHubActuator.publish_pull_request. The provider may go on to fail; it has been called. */
  method PublishPullRequest(s: Services, broker: CredentialBroker, provider: Provider, c: Call, minted: Minted)
    returns (r: Outcome)
    modifies broker, provider
    ensures r == Publishes(s, old(broker.State()), c, minted)
    ensures World(broker.State(), provider.calls)
      == Step(s, old(World(broker.State(), provider.calls)), Publish(c, minted))
  {
    r := BeforeBroker(s, c);
    if r.Fail? { return; }
    r := broker.OpenChannel(s, c.grant, c.request, c.now, minted);
    if r.Fail? { return; }
    r := AtActuator(s, c);
    if r.Fail? { return; }
    if c.now.Some? { provider.Receive(Sent(GrantId(c.grant), c.request, c.now.value)); }
  }

  // ---------------------------------------------------------------------------
  // Every history

  /** The world after a sequence of actions, whoever takes them. */
  function Run(s: Services, w: World, actions: seq<Action>): World
    decreases |actions|
  {
    if actions == [] then w else Run(s, Step(s, w, actions[0]), actions[1..])
  }

  predicate NoDup(xs: seq<string>) {
    forall i, j | 0 <= i < j < |xs| :: xs[i] != xs[j]
  }

  function Grants(sent: seq<Sent>): seq<string> {
    seq(|sent|, i requires 0 <= i < |sent| => sent[i].grant)
  }

  /** No grant opened twice; the used grants are those opened; each provider call has its own. */
  ghost predicate Sound(w: World) {
    NoDup(w.memory.openedGrants) && (forall g :: g in w.memory.used <==> g in w.memory.openedGrants) &&
    NoDup(Grants(w.sent)) && (forall g :: g in Grants(w.sent) ==> g in w.memory.used) &&
    |w.sent| <= |w.memory.openedGrants|
  }

  lemma NoDupMore(xs: seq<string>, x: string)
    requires NoDup(xs) && x !in xs
    ensures NoDup(xs + [x])
  {
  }

  /** What opening asks: a fresh grant. */
  lemma OpeningIsFresh(s: Services, m: Memory, a: Action)
    requires Opens(s, m, a).Pass?
    ensures GrantId(GrantOf(a)) !in m.used
  {
    hide ValidateGrant, BeforeBroker, GrantId, Need;
  }

  lemma StepSound(s: Services, w: World, a: Action)
    requires Sound(w)
    ensures Sound(Step(s, w, a))
    ensures w.memory.openedGrants <= Step(s, w, a).memory.openedGrants && w.sent <= Step(s, w, a).sent
  {
    hide Opens, AtActuator, GrantId, GrantOf;
    var r, id := Opens(s, w.memory, a), GrantId(GrantOf(a));
    if r.Pass? {
      OpeningIsFresh(s, w.memory, a);
      NoDupMore(w.memory.openedGrants, id);
      assert id !in Grants(w.sent);
      NoDupMore(Grants(w.sent), id);
    }
    if Step(s, w, a).sent != w.sent { SendOpens(s, w, a); }
  }

  /** A provider call follows an opening in the same action, and records its grant. */
  lemma SendOpens(s: Services, w: World, a: Action)
    requires Step(s, w, a).sent != w.sent
    ensures Opens(s, w.memory, a).Pass? && Grants(Step(s, w, a).sent) == Grants(w.sent) + [GrantId(GrantOf(a))]
  {
    hide BeforeBroker, OpenOutcome, AtActuator, GrantId;
  }

  /** Single use, over every history. */
  lemma {:induction false} RunSound(s: Services, w: World, actions: seq<Action>)
    requires Sound(w)
    ensures Sound(Run(s, w, actions))
    ensures w.memory.openedGrants <= Run(s, w, actions).memory.openedGrants && w.sent <= Run(s, w, actions).sent
    decreases |actions|
  {
    hide Sound, Step;
    if actions != [] {
      StepSound(s, w, actions[0]);
      RunSound(s, Step(s, w, actions[0]), actions[1..]);
    }
  }

  /** A failing gate, grant check or channel factory changes nothing; a publication refused after its channel
      was opened has used its grant and called no provider. */
  lemma RefusalKeeps(s: Services, w: World, a: Action)
    ensures Opens(s, w.memory, a).Fail? ==> Step(s, w, a) == w
    ensures a.Publish? && Publishes(s, w.memory, a.call, a.minted).Fail? ==> Step(s, w, a).sent == w.sent
    ensures Opens(s, w.memory, a).Pass? ==> Step(s, w, a).memory.used == w.memory.used + {GrantId(GrantOf(a))}
  {
    hide BeforeBroker, OpenOutcome, AtActuator, GrantId;
  }

  /** One action on the running system. */
  method Act(s: Services, broker: CredentialBroker, provider: Provider, a: Action)
    modifies broker, provider
    ensures World(broker.State(), provider.calls) == Step(s, old(World(broker.State(), provider.calls)), a)
  {
    match a
    case Open(grant, request, now, minted) => var _ := broker.OpenChannel(s, grant, request, now, minted);
    case Publish(c, minted) => var _ := PublishPullRequest(s, broker, provider, c, minted);
  }

  /** A broker and a provider from the start, through any actions. */
  method Serve(s: Services, actions: seq<Action>) returns (broker: CredentialBroker, provider: Provider)
    ensures fresh(broker) && fresh(provider)
    ensures World(broker.State(), provider.calls) == Run(s, World(Memory({}, []), []), actions)
    ensures Sound(World(broker.State(), provider.calls))
  {
    hide Step, Sound;
    broker := new CredentialBroker();
    provider := new Provider();
    ghost var start := World(Memory({}, []), []);
    assert Sound(start) by { StartSound(); }
    RunSound(s, start, actions);
    for i := 0 to |actions|
      invariant fresh(broker) && fresh(provider)
      invariant Run(s, World(broker.State(), provider.calls), actions[i..]) == Run(s, start, actions)
    {
      assert actions[i..][1..] == actions[i + 1..];
      Act(s, broker, provider, actions[i]);
    }
  }

  lemma StartSound()
    ensures Sound(World(Memory({}, []), []))
  {
  }

  // ---------------------------------------------------------------------------
  // What a provider call implies

  /** What is published: a staged change, on a branch over a base, under a key. */
  datatype Content = Content(branch: string, base: string, staged: string, key: string)

  function ContentOf(v: Json): Content {
    Content(TextOf(At(v, "branch_namespace")), TextOf(At(v, "base_branch")), TextOf(At(v, "staged_change_digest")),
            TextOf(At(v, "idempotency_key")))
  }

  /** The whole publication a document asks for, with the repository it goes to. */
  datatype Target = Target(repository: string, content: Content)

  function TargetOf(v: Json): Target {
    Target(TextOf(At(v, "repository_id")), ContentOf(v))
  }

  /** The request names the repository the intent names. None of the gates looks at this; a caller can. */
  predicate SameRepository(request: Json, intent: Json) {
    At(request, "repository_id") == At(intent, "repository_id")
  }

  /** The gates passed, one by one. */
  lemma PublishedPasses(s: Services, m: Memory, c: Call, minted: Minted)
    requires Publishes(s, m, c, minted).Pass?
    ensures c.approval.Some? && c.now.Some? && GrantId(c.grant) !in m.used
    ensures CheckUsable(s, c.decision, c.now).Pass? && CheckIntent(s, c.intent, c.approval.value).Pass?
    ensures Broker.Grants(s, c.grant, c.request, c.now.value)
    ensures CheckMatch(c).Pass? && CheckKey(s, c.request).Pass?
    ensures forall i | 0 <= i < |IDENTITY| :: IsText(At(c.request, IDENTITY[i]))
  {
    hide CheckUsable, CheckIntent, ValidateGrant, CheckMatch, CheckKey, Broker.Grants, GrantId, At, IsText, Need;
    ValidGrants(s, c.grant, c.request, c.now);
  }

  lemma SameText(v: Option<Json>, w: Option<Json>)
    requires SameField(v, w) && IsText(w) && v.Some?
    ensures v == w
  {
  }

  lemma RequestIsIntent(c: Call)
    requires CheckMatch(c).Pass?
    requires forall i | 0 <= i < |IDENTITY| :: IsText(At(c.request, IDENTITY[i]))
    ensures At(c.request, "branch_namespace") == At(c.intent, "branch_namespace")
    ensures At(c.request, "base_branch") == At(c.intent, "base_branch")
    ensures At(c.request, "idempotency_key") == At(c.intent, "idempotency_key")
    ensures At(c.request, "staged_change_digest") == At(c.decision, "staged_change_digest")
    ensures At(c.request, "repository_id") == At(c.decision, "repository_id")
  {
    hide At, SameField, IsText, Need;
    assert IsText(At(c.request, IDENTITY[2])) && IsText(At(c.request, IDENTITY[3])) &&
      IsText(At(c.request, IDENTITY[4]));
    assert IsText(At(c.request, IDENTITY[5])) && IsText(At(c.request, IDENTITY[6]));
    SameText(At(c.intent, "branch_namespace"), At(c.request, "branch_namespace"));
    SameText(At(c.intent, "base_branch"), At(c.request, "base_branch"));
    SameText(At(c.intent, "idempotency_key"), At(c.request, "idempotency_key"));
    SameText(At(c.decision, "staged_change_digest"), At(c.request, "staged_change_digest"));
    SameText(At(c.decision, "repository_id"), At(c.request, "repository_id"));
  }

  lemma KeyDerived(s: Services, request: Json)
    requires CheckKey(s, request).Pass?
    ensures ContentOf(request).key
         == s.o.idempotencyKey(ContentOf(request).branch, ContentOf(request).base, ContentOf(request).staged)
  {
    hide At, TextOf, Need;
  }

  lemma AuthorizedPins(s: Services, config: Config, q: Case, decided: int)
    requires Authorized(s, config, q, decided)
    ensures ContentOf(q.request).staged == ContentOf(q.intent).staged == DigestOf(s, q.staged)
    ensures TextOf(At(q.approval, "staged_change_digest")) == DigestOf(s, q.staged)
    ensures TextOf(At(q.approval, "approved_intent_digest")) == DigestOf(s, q.intent)
    ensures Instant(s, q.approval, "expires_at").Some? && decided < Instant(s, q.approval, "expires_at").value
    ensures Instant(s, q.intent, "expires_at").Some? && decided < Instant(s, q.intent, "expires_at").value
    ensures TargetOf(q.request).repository in config.repositories
    ensures IsText(At(q.request, "repository_id")) && IsText(At(q.approval, "repository_id"))
    ensures At(q.intent, "repository_id") == At(q.approval, "repository_id")
  {
    BindingsName(q.approval, q.intent);
    hide At, IsText, SameField, VerifySignature, Matching, DigestOf, Instant;
  }

  lemma BindingsName(approval: Json, intent: Json)
    ensures Matching(approval, intent) ==>
      IsText(At(approval, "repository_id")) && At(intent, "repository_id") == At(approval, "repository_id")
  {
    hide At, IsText;
    assert BINDINGS[1] == "repository_id";
  }

  lemma ContentsAgree(request: Json, intent: Json)
    requires At(request, "branch_namespace") == At(intent, "branch_namespace")
    requires At(request, "base_branch") == At(intent, "base_branch")
    requires At(request, "idempotency_key") == At(intent, "idempotency_key")
    requires ContentOf(request).staged == ContentOf(intent).staged
    ensures ContentOf(request) == ContentOf(intent)
  {
    hide At, TextOf;
  }

  /** One request, approval and intent through the policy and the actuator. */
  ghost predicate Passed(s: Services, config: Config, id: Json, q: Case, decided: int, m: Memory, c: Call,
                         minted: Minted)
    requires ConfigOk(config)
  {
    Decide(s, config, true, id, q, Some(decided)) == Ok(c.decision) &&
    c.request == q.request && c.intent == q.intent && c.approval == Some(q.approval) &&
    Publishes(s, m, c, minted).Pass?
  }

  lemma PassedParts(s: Services, config: Config, id: Json, q: Case, decided: int, m: Memory, c: Call, minted: Minted)
    requires ConfigOk(config) && Passed(s, config, id, q, decided, m, c, minted)
    ensures Decide(s, config, true, id, q, Some(decided)) == Ok(c.decision)
    ensures c.request == q.request && c.intent == q.intent && c.approval == Some(q.approval)
    ensures Publishes(s, m, c, minted).Pass?
  {
    hide Decide, Publishes;
  }

  /** A provider call means: the policy had authorized this very case (an allowlisted repository and actuator,
      an allowlisted approver's valid signature on an approval in force that names this intent's and this
      staged change's digest); the request, the intent and the approval agree on what is published; the key is
      derived from it; the grant is fresh, for this request and in force; and the time is before the earlier of
      the approval's and the intent's expiry plus the decision's time to live. */
  lemma PublicationAuthorized(s: Services, config: Config, id: Json, q: Case, decided: int, m: Memory, c: Call,
                              minted: Minted)
    requires ConfigOk(config) && TimeLaw(s) && Passed(s, config, id, q, decided, m, c, minted)
    ensures Authorized(s, config, q, decided) && TargetOf(c.request).repository in config.repositories
    ensures ContentOf(c.request) == ContentOf(c.intent)
    ensures ContentOf(c.request).staged == DigestOf(s, q.staged) == TextOf(At(q.approval, "staged_change_digest"))
    ensures TextOf(At(q.approval, "approved_intent_digest")) == DigestOf(s, c.intent)
    ensures ContentOf(c.request).key
         == s.o.idempotencyKey(ContentOf(c.request).branch, ContentOf(c.request).base, ContentOf(c.request).staged)
    ensures c.now.Some? && Broker.Grants(s, c.grant, c.request, c.now.value) && GrantId(c.grant) !in m.used
    ensures c.now.value < decided + config.ttl * 1000000
    ensures c.now.value < Instant(s, q.approval, "expires_at").value + config.ttl * 1000000
    ensures c.now.value < Instant(s, q.intent, "expires_at").value + config.ttl * 1000000
  {
    hide *;
    PassedParts(s, config, id, q, decided, m, c, minted);
    PublishedPasses(s, m, c, minted);
    RequestIsIntent(c);
    KeyDerived(s, c.request);
    UsableWhileFresh(s, config, id, q, decided, c.now.value);
    AuthorizedPins(s, config, q, decided);
    ContentsAgree(c.request, c.intent);
  }

  /** Equal objects hold equal texts. */
  lemma SameTexts(v: Json, w: Json, key: string)
    requires WellFormed(v) && WellFormed(w) && Same(v, w)
    ensures TextOf(At(v, key)) == TextOf(At(w, key))
  {
    if v.Obj? {
      SameByKeys(v, w);
      GetFinds(v.members, key);
      GetFinds(w.members, key);
      if Get(v.members, key).Some? { assert key in Keys(v.members); }
      if Get(w.members, key).Some? { assert key in Keys(w.members); }
    }
  }

  lemma SameContents(v: Json, w: Json)
    requires WellFormed(v) && WellFormed(w) && Same(v, w)
    ensures ContentOf(v) == ContentOf(w)
  {
    hide At, TextOf, Same;
    SameTexts(v, w, "branch_namespace");
    SameTexts(v, w, "base_branch");
    SameTexts(v, w, "staged_change_digest");
    SameTexts(v, w, "idempotency_key");
  }

  /** Approvals with one signing payload name one intent digest. */
  lemma SamePayloadSameDigest(a: Json, b: Json)
    requires WellFormed(a) && WellFormed(b) && Signable(a) && Signable(b) && SignaturePayload(a) == SignaturePayload(b)
    ensures TextOf(At(a, "approved_intent_digest")) == TextOf(At(b, "approved_intent_digest"))
  {
    hide Signable, SignaturePayload, WellFormed, AgreeOn, Get;
    SignableIsObject(a);
    SignableIsObject(b);
    PayloadBindsFields(a, b);
    AgreeAt(a.members, b.members, SIGNED_FIELDS, 7);
    assert SIGNED_FIELDS[7] == "approved_intent_digest";
  }

  lemma SignableIsObject(a: Json)
    requires Signable(a)
    ensures a.Obj?
  {
  }

  lemma AgreeAt(a: seq<Pair<Json>>, b: seq<Pair<Json>>, fields: seq<string>, i: nat)
    requires AgreeOn(a, b, fields) && i < |fields|
    ensures Get(a, fields[i]).Some? && Get(b, fields[i]).Some? && Same(Get(a, fields[i]).value, Get(b, fields[i]).value)
  {
  }

  /** The repository published to is the approved one exactly when the request names the intent's: a provider
      call made of a request with this property, and no other, publishes the approved target. */
  lemma RepositoryApproved(s: Services, config: Config, id: Json, q: Case, decided: int, m: Memory, c: Call,
                           minted: Minted)
    requires ConfigOk(config) && TimeLaw(s) && Passed(s, config, id, q, decided, m, c, minted)
    ensures TargetOf(c.request) == TargetOf(c.intent) <==> SameRepository(c.request, c.intent)
    ensures TextOf(At(c.request, "repository_id")) == TextOf(At(q.approval, "repository_id"))
            <==> SameRepository(c.request, c.intent)
  {
    hide *;
    PassedParts(s, config, id, q, decided, m, c, minted);
    PublicationAuthorized(s, config, id, q, decided, m, c, minted);
    AuthorizedPins(s, config, q, decided);
    RepositoryTexts(c.request, c.intent, q.approval);
  }

  lemma RepositoryTexts(request: Json, intent: Json, approval: Json)
    requires IsText(At(request, "repository_id")) && IsText(At(approval, "repository_id"))
    requires At(intent, "repository_id") == At(approval, "repository_id") && ContentOf(request) == ContentOf(intent)
    ensures TargetOf(request) == TargetOf(intent) <==> SameRepository(request, intent)
    ensures TextOf(At(request, "repository_id")) == TextOf(At(approval, "repository_id"))
            <==> SameRepository(request, intent)
  {
    hide At, ContentOf;
  }

  /** The chain validator makes that comparison: in an accepted chain the request goes where the intent says. */
  lemma ChainNamesRepository(o: Chain.Oracles, chain: Chain.Contracts, request: Json, intent: Json)
    requires Chain.ValidateChain(o, chain).Pass?
    requires Get(chain, "actuator_request") == Some(request) && Get(chain, "intent") == Some(intent)
    ensures SameRepository(request, intent)
  {
    hide Chain.ValidateChain, Chain.Members, Get, At;
    Chain.RequestRepository(o, chain);
    Chain.MemberAt(chain, "actuator_request", request, "repository_id");
    Chain.MemberAt(chain, "intent", intent, "repository_id");
  }

  /** So a call whose request and intent are those of an accepted chain publishes the approved target. */
  lemma ChainedPublication(s: Services, config: Config, id: Json, q: Case, decided: int, m: Memory, c: Call,
                           minted: Minted, o: Chain.Oracles, chain: Chain.Contracts)
    requires ConfigOk(config) && TimeLaw(s) && Passed(s, config, id, q, decided, m, c, minted)
    requires Chain.ValidateChain(o, chain).Pass?
    requires Get(chain, "actuator_request") == Some(c.request) && Get(chain, "intent") == Some(c.intent)
    ensures TargetOf(c.request) == TargetOf(c.intent)
    ensures TextOf(At(c.request, "repository_id")) == TextOf(At(q.approval, "repository_id"))
  {
    hide *;
    ChainNamesRepository(o, chain, c.request, c.intent);
    RepositoryApproved(s, config, id, q, decided, m, c, minted);
  }

  /** One signature approves one content, and one target where the request names the intent's repository:
      provided the digest does not collide on the two intents, any two provider calls made under approvals with
      the same signing payload publish the same staged change to the same branch, over the same base, with the
      same key; if both requests name their intents' repositories, to the same repository. */
  lemma OneApprovalOneTarget(s: Services, config: Config, id: Json, q: Case, t: int, m: Memory, c: Call, x: Minted,
                             jd: Json, r: Case, u: int, n: Memory, d: Call, y: Minted)
    requires ConfigOk(config) && TimeLaw(s)
    requires Passed(s, config, id, q, t, m, c, x) && Passed(s, config, jd, r, u, n, d, y)
    requires WellFormed(q.approval) && WellFormed(r.approval) && WellFormed(q.intent) && WellFormed(r.intent)
    requires Signable(q.approval) && Signable(r.approval) &&
      SignaturePayload(q.approval) == SignaturePayload(r.approval)
    requires Chain.NoCollision(s.o, q.intent, r.intent)
    ensures ContentOf(c.request) == ContentOf(d.request)
    ensures SameRepository(c.request, c.intent) && SameRepository(d.request, d.intent) ==>
      TargetOf(c.request) == TargetOf(d.request)
  {
    hide Passed, Authorized, Publishes, Signable, SignaturePayload, At, ContentOf, ConfigOk, TimeLaw, TextOf, Encode;
    hide SameRepository, TargetOf;
    PublicationAuthorized(s, config, id, q, t, m, c, x);
    PublicationAuthorized(s, config, jd, r, u, n, d, y);
    PassedParts(s, config, id, q, t, m, c, x);
    PassedParts(s, config, jd, r, u, n, d, y);
    SamePayloadSameDigest(q.approval, r.approval);
    EncodeCanonical(q.intent, r.intent);
    SameContents(q.intent, r.intent);
    SameTargets(q.intent, r.intent);
    RepositoryApproved(s, config, id, q, t, m, c, x);
    RepositoryApproved(s, config, jd, r, u, n, d, y);
  }

  lemma SameTargets(v: Json, w: Json)
    requires WellFormed(v) && WellFormed(w) && Same(v, w)
    ensures TargetOf(v) == TargetOf(w)
  {
    hide At, TextOf, Same, ContentOf;
    SameContents(v, w);
    SameTexts(v, w, "repository_id");
  }
}
