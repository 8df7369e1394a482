/** The signed part of an approval record and its Ed25519 check. */
module ApprovalSignature {
  import opened Base
  import opened CanonicalJson

  const SIGNED_FIELDS: seq<string> := [
    "schema_version", "approval_id", "approver_id", "process_id", "operation", "repository_id",
    "staged_change_digest", "approved_intent_digest", "policy_version", "approved_at", "expires_at"]

  const SIGNATURE_DOMAIN: string := "agent00x-approval-ed25519-v1\0"

  function FieldSet(): set<string> {
    set i | 0 <= i < |SIGNED_FIELDS| :: SIGNED_FIELDS[i]
  }

  /** The given fields of a dictionary, in the given order. */
  function Project(d: seq<Pair<Json>>, fields: seq<string>): seq<Pair<Json>>
    requires forall i :: 0 <= i < |fields| ==> Get(d, fields[i]).Some?
  {
    seq(|fields|, i requires 0 <= i < |fields| => Pair(fields[i], Get(d, fields[i]).value))
  }

  predicate Signable(approval: Json) {
    approval.Obj? &&
    (Keys(approval.members) == FieldSet() || Keys(approval.members) == FieldSet() + {"signature"})
  }

  lemma SignableFields(approval: Json)
    requires Signable(approval)
    ensures forall i :: 0 <= i < |SIGNED_FIELDS| ==> Get(approval.members, SIGNED_FIELDS[i]).Some?
  {
    forall i | 0 <= i < |SIGNED_FIELDS| ensures Get(approval.members, SIGNED_FIELDS[i]).Some? {
      assert SIGNED_FIELDS[i] in FieldSet();
      assert FieldSet() <= Keys(approval.members);
      GetFinds(approval.members, SIGNED_FIELDS[i]);
    }
  }

  /** approval_signature_payload; None is its ValueError. */
  function SignaturePayload(approval: Json): Option<bytes> {
    if Signable(approval) then
      SignableFields(approval);
      Some(Utf8All(SIGNATURE_DOMAIN) + Encode(Obj(Project(approval.members, SIGNED_FIELDS))))
    else None
  }

  lemma SignedFieldsDistinct()
    ensures forall i, j :: 0 <= i < j < |SIGNED_FIELDS| ==> SIGNED_FIELDS[i] != SIGNED_FIELDS[j]
  {
  }

  /** Both dictionaries hold every field, with equal values. */
  ghost predicate AgreeOn(a: seq<Pair<Json>>, b: seq<Pair<Json>>, fields: seq<string>) {
    forall i :: 0 <= i < |fields| ==>
      Get(a, fields[i]).Some? && Get(b, fields[i]).Some? &&
      Same(Get(a, fields[i]).value, Get(b, fields[i]).value)
  }

  lemma ProjectionsSame(a: seq<Pair<Json>>, b: seq<Pair<Json>>, fields: seq<string>)
    requires forall i :: 0 <= i < |fields| ==> Get(a, fields[i]).Some? && Get(b, fields[i]).Some?
    requires forall i, j :: 0 <= i < j < |fields| ==> fields[i] != fields[j]
    ensures Same(Obj(Project(a, fields)), Obj(Project(b, fields))) <==> AgreeOn(a, b, fields)
  {
    var p, q := Project(a, fields), Project(b, fields);
    forall i | 0 <= i < |fields|
      ensures SameMember(p[i], q) <==> Same(Get(a, fields[i]).value, Get(b, fields[i]).value)
    {
      assert p[i].key == fields[i] && q[i].key == fields[i];
      assert forall j :: 0 <= j < |q| && p[i].key == q[j].key ==> j == i;
    }
  }

  /** Equal encodings of the same distinct fields mean agreement field by field, and conversely. */
  lemma ProjectionsAgree(a: seq<Pair<Json>>, b: seq<Pair<Json>>, fields: seq<string>)
    requires WellFormed(Obj(a)) && WellFormed(Obj(b))
    requires forall i :: 0 <= i < |fields| ==> Get(a, fields[i]).Some? && Get(b, fields[i]).Some?
    requires forall i, j :: 0 <= i < j < |fields| ==> fields[i] != fields[j]
    ensures Encode(Obj(Project(a, fields))) == Encode(Obj(Project(b, fields))) <==> AgreeOn(a, b, fields)
  {
    var p, q := Project(a, fields), Project(b, fields);
    forall i | 0 <= i < |fields| ensures WellFormed(p[i].value) && WellFormed(q[i].value) {
      GetWellFormed(a, fields[i]);
      GetWellFormed(b, fields[i]);
    }
    EncodeCanonical(Obj(p), Obj(q));
    ProjectionsSame(a, b, fields);
  }

  /** Two approvals have the same signing payload exactly when they agree on all eleven signed fields. */
  lemma PayloadBindsFields(a: Json, b: Json)
    requires WellFormed(a) && WellFormed(b) && Signable(a) && Signable(b)
    ensures SignaturePayload(a) == SignaturePayload(b) <==> AgreeOn(a.members, b.members, SIGNED_FIELDS)
  {
    SignableFields(a);
    SignableFields(b);
    SignedFieldsDistinct();
    ProjectionsAgree(a.members, b.members, SIGNED_FIELDS);
    var domain := Utf8All(SIGNATURE_DOMAIN);
    var p, q := Encode(Obj(Project(a.members, SIGNED_FIELDS))), Encode(Obj(Project(b.members, SIGNED_FIELDS)));
    if domain + p == domain + q { Cancel(domain, domain, p, q); }
  }
}
