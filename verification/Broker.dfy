/** The credential broker: grants scoped to one request, and channels each opened once. */
module Broker {
  import opened Base
  import opened CanonicalJson
  import opened Authority
  import Chain

  const GRANT_FIELDS: seq<string> :=
    ["credential_grant_id", "actuator_id", "repository_id", "operation", "request_digest", "single_use"]
  const REQUEST_FIELDS: seq<string> := ["actuator_id", "repository_id", "operation", "base_branch"]

  predicate HasFields(v: Json, fields: seq<string>) {
    v.Obj? && forall i | 0 <= i < |fields| :: At(v, fields[i]).Some?
  }

  predicate Complete(grant: Json, request: Json) {
    HasFields(grant, GRANT_FIELDS) && HasFields(request, REQUEST_FIELDS)
  }

  function CheckFields(grant: Json, request: Json): (r: Outcome)
    ensures r.Pass? <==> Complete(grant, request)
  {
    var held := HasFields(grant, GRANT_FIELDS);
    :- Need(held, "broker: credential grant is malformed");
    Need(HasFields(request, REQUEST_FIELDS), "broker: actuator request is malformed")
  }

  function GrantId(grant: Json): string {
    TextOf(At(grant, "credential_grant_id"))
  }

  /** The fields the grant and the request share, each a text in both. */
  predicate SameScope(grant: Json, request: Json) {
    At(grant, "actuator_id") == At(request, "actuator_id") &&
    At(grant, "repository_id") == At(request, "repository_id") &&
    At(grant, "operation") == At(request, "operation")
  }

  function CheckWords(grant: Json, request: Json): Outcome {
    var id := At(grant, "credential_grant_id");
    :- Need(IsText(At(grant, "actuator_id")) && IsText(At(request, "actuator_id")) &&
            IsText(At(grant, "repository_id")) && IsText(At(request, "repository_id")) &&
            IsText(At(grant, "operation")) && IsText(At(request, "operation")), "broker: binding value is invalid");
    :- Need(IsText(At(request, "base_branch")), "broker: binding value is invalid");
    :- Need(IsText(id), "broker: binding value is invalid");
    Need(At(grant, "credential_class") == Some(Str("github-app-installation")), "broker: credential class mismatch")
  }

  function CheckSame(grant: Json, request: Json): Outcome {
    var actuator := At(request, "actuator_id");
    :- Need(At(grant, "actuator_id") == actuator, "broker: actuator identity mismatch");
    :- Need(At(grant, "repository_id") == At(request, "repository_id"), "broker: repository mismatch");
    Need(At(grant, "operation") == At(request, "operation"), "broker: operation mismatch")
  }

  function CheckTerms(s: Services, grant: Json, request: Json, now: int): Outcome {
    var expiry := Instant(s, grant, "expires_at");
    :- Need(At(grant, "request_digest") == Some(Str(DigestOf(s, request))), "broker: request digest mismatch");
    :- Need(At(grant, "single_use") == Some(Bool(true)), "broker: credential grant must be single-use");
    :- Need(expiry.Some?, "broker: credential grant expiry is invalid");
    Need(expiry.value > now, "broker: credential grant expired")
  }

  /** validate_credential_use_grant */
  function ValidateGrant(s: Services, grant: Json, request: Json, now: Option<int>): Outcome {
    var aware := Need(now.Some?, "broker: grant expiry check requires aware time");
    :- aware;
    :- CheckFields(grant, request);
    :- CheckWords(grant, request);
    :- CheckSame(grant, request);
    CheckTerms(s, grant, request, now.value)
  }

  /** The grant is for this request, single-use and still in force. */
  predicate InTerms(s: Services, grant: Json, request: Json, now: int) {
    At(grant, "request_digest") == Some(Str(DigestOf(s, request))) && At(grant, "single_use") == Some(Bool(true)) &&
    Instant(s, grant, "expires_at").Some? && now < Instant(s, grant, "expires_at").value
  }

  /** A named grant for exactly this request, still in force. */
  predicate Grants(s: Services, grant: Json, request: Json, now: int) {
    SameScope(grant, request) && InTerms(s, grant, request, now) && GrantId(grant) != ""
  }

  /** Texts where texts are due, and the known class. */
  predicate Worded(grant: Json, request: Json) {
    IsText(At(grant, "actuator_id")) && IsText(At(grant, "repository_id")) && IsText(At(grant, "operation")) &&
    IsText(At(request, "actuator_id")) && IsText(At(request, "repository_id")) && IsText(At(request, "operation")) &&
    IsText(At(request, "base_branch")) && IsText(At(grant, "credential_grant_id")) &&
    At(grant, "credential_class") == Some(Str("github-app-installation"))
  }

  lemma WordsChecked(grant: Json, request: Json)
    ensures CheckWords(grant, request).Pass? <==> Worded(grant, request)
  {
    hide At, Need, IsText;
  }

  lemma SameChecked(grant: Json, request: Json)
    ensures CheckSame(grant, request).Pass? <==> SameScope(grant, request)
  {
    hide At, Need;
  }

  lemma TermsChecked(s: Services, grant: Json, request: Json, now: int)
    ensures CheckTerms(s, grant, request, now).Pass? <==> InTerms(s, grant, request, now)
  {
    hide At, Need, Instant, DigestOf;
  }

  /** A grant validates exactly when both documents have their fields, properly worded, and it is for this very
      request, single-use and in force. */
  lemma ValidGrants(s: Services, grant: Json, request: Json, now: Option<int>)
    ensures ValidateGrant(s, grant, request, now).Pass? <==>
      now.Some? && Complete(grant, request) && Worded(grant, request) && Grants(s, grant, request, now.value)
  {
    hide At, Complete, CheckFields, Need, IsText, GrantId, CheckWords, CheckSame, CheckTerms, SameScope, Worded;
    hide InTerms;
    WordsChecked(grant, request);
    SameChecked(grant, request);
    if now.Some? { TermsChecked(s, grant, request, now.value); }
    NamedGrant(grant);
    if Worded(grant, request) { WordedNamed(grant, request); }
  }

  lemma WordedNamed(grant: Json, request: Json)
    requires Worded(grant, request)
    ensures IsText(At(grant, "credential_grant_id"))
  {
    hide At, IsText;
  }

  lemma NamedGrant(grant: Json)
    ensures IsText(At(grant, "credential_grant_id")) <==> GrantId(grant) != ""
  {
  }

  /** What the channel factory did. */
  datatype Minted = Channel | Unusable | Raised

  /** The broker's memory: the ids of used grants, and the order they were opened in. */
  datatype Memory = Memory(used: set<string>, openedGrants: seq<string>)

  /** What opening a channel comes to. */
  function OpenOutcome(s: Services, m: Memory, grant: Json, request: Json, now: Option<int>, minted: Minted): Outcome {
    var valid := ValidateGrant(s, grant, request, now);
    :- valid;
    :- Need(GrantId(grant) !in m.used, "broker: credential grant already used");
    :- Need(minted != Raised, "channel factory raised");
    Need(minted == Channel, "broker: channel factory result is invalid")
  }

  function Opened(m: Memory, grant: Json, r: Outcome): Memory {
    if r.Pass? then Memory(m.used + {GrantId(grant)}, m.openedGrants + [GrantId(grant)]) else m
  }

  /** InMemoryCredentialBroker */
  class CredentialBroker {
    var openedGrants: seq<string>
    var used: set<string>

    constructor ()
      ensures State() == Memory({}, [])
    {
      openedGrants, used := [], {};
    }

    function State(): Memory
      reads this
    {
      Memory(used, openedGrants)
    }

    method OpenChannel(s: Services, grant: Json, request: Json, now: Option<int>, minted: Minted) returns (r: Outcome)
      modifies this
      ensures r == OpenOutcome(s, old(State()), grant, request, now, minted)
      ensures State() == Opened(old(State()), grant, r)
    {
      r := ValidateGrant(s, grant, request, now);
      if r.Fail? { return; }
      var id := GrantId(grant);
      if id in used { return Fail("broker: credential grant already used"); }
      if minted == Raised { return Fail("channel factory raised"); }
      if minted != Channel { return Fail("broker: channel factory result is invalid"); }
      used := used + {id};
      openedGrants := openedGrants + [id];
    }
  }
}
