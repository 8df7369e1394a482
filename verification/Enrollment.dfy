/** Approver trust enrollments: records signed by an authority key, bound to one scope and a bounded window,
    each with one byte encoding. Signatures are Ed25519 (section 5.1 of RFC 8032). */
module Enrollment {
  import opened Base
  import opened CanonicalJson

  const SCHEMA: string := "approver-trust-enrollment/v1"
  const OPERATION: string := "publish_pull_request"
  const MAX_BYTES: int := 65536
  const SECOND: int := 1000000
  const MAX_WINDOW: int := 30 * 24 * 3600 * SECOND
  const MAX_SKEW: int := 30 * SECOND

  const PAYLOAD_FIELDS: seq<string> := [
    "schema", "enrollment_id", "authority_key_id", "approver_id", "approver_public_key", "trust_profile_digest",
    "provider_repository_id", "operation", "issued_at", "expires_at"]

  function PayloadKeys(): set<string> {
    set i | 0 <= i < |PAYLOAD_FIELDS| :: PAYLOAD_FIELDS[i]
  }

  /** What stays abstract: signing and verifying, the signed domain's bytes, the clock's text format, and the
      parsing of JSON text, which keeps the pairs of an object in order, with repeated keys. Times are in
      microseconds. */
  datatype Services = Services(
    sign: (bytes, bytes) -> bytes,
    verify: (bytes, bytes, bytes) -> bool,
    publicOf: bytes -> bytes,
    domain: bytes,
    format: int -> Option<string>,
    instant: string -> Option<int>,
    parse: bytes -> Option<Json>)

  /** A signature verifies under the public half of the key that made it. */
  ghost predicate SignLaw(s: Services) {
    forall k: bytes, m: bytes {:trigger s.sign(k, m)} ::
      |s.sign(k, m)| == 64 && |s.publicOf(k)| == 32 && s.verify(s.publicOf(k), s.sign(k, m), m)
  }

  /** A formatted instant reads back. */
  ghost predicate ClockLaw(s: Services) {
    forall t: int {:trigger s.format(t)} :: s.format(t).Some? ==> s.instant(s.format(t).value) == Some(t)
  }

  /** Canonical text parses to the value with its keys in order. */
  ghost predicate ParseLaw(s: Services) {
    forall v: Json {:trigger Encode(v)} :: WellFormed(v) ==> s.parse(Encode(v)) == Some(Canon(v))
  }

  // ---------------------------------------------------------------------------
  // Hexadecimal

  function Hex(b: bytes): (r: string)
    ensures |r| == 2 * |b| && forall i :: 0 <= i < |r| ==> IsHex(r[i])
  {
    if b == [] then "" else [HexDigit(b[0] / 16), HexDigit(b[0] % 16)] + Hex(b[1..])
  }

  function DigitValue(c: char): (n: nat)
    requires IsHex(c)
    ensures n < 16 && HexDigit(n) == c
  {
    if c <= '9' then c as int - '0' as int else c as int - 'a' as int + 10
  }

  function UnHex(s: string): (r: bytes)
    requires |s| % 2 == 0 && forall i | 0 <= i < |s| :: IsHex(s[i])
    ensures |r| == |s| / 2
  {
    if s == "" then [] else [DigitValue(s[0]) * 16 + DigitValue(s[1])] + UnHex(s[2..])
  }

  lemma DigitBack(n: nat)
    requires n < 16
    ensures IsHex(HexDigit(n)) && DigitValue(HexDigit(n)) == n
  {
  }

  lemma {:induction false} HexBack(b: bytes)
    ensures UnHex(Hex(b)) == b
  {
    if b != [] {
      DigitBack(b[0] / 16);
      DigitBack(b[0] % 16);
      assert Hex(b)[2..] == Hex(b[1..]);
      HexBack(b[1..]);
    }
  }

  // ---------------------------------------------------------------------------
  // Fields

  predicate Alnum(c: char) {
    'A' <= c <= 'Z' || 'a' <= c <= 'z' || '0' <= c <= '9'
  }

  /** An alphanumeric character, then up to `more` characters from those and the extra ones. */
  predicate Named(s: string, extra: string, more: nat) {
    1 <= |s| <= more + 1 && Alnum(s[0]) && forall i | 1 <= i < |s| :: Alnum(s[i]) || s[i] in extra
  }

  predicate HexText(s: string, n: nat) {
    |s| == n && forall i | 0 <= i < n :: IsHex(s[i])
  }

  function TextAt(v: Json, key: string): Option<string> {
    if v.Obj? && Get(v.members, key).Some? && Get(v.members, key).value.Str? then
      Some(Get(v.members, key).value.s)
    else None
  }

  predicate IdText(t: Option<string>) {
    t.Some? && Named(t.value, "._:-", 127)
  }

  predicate ApproverText(t: Option<string>) {
    t.Some? && Named(t.value, "._:@/-", 127)
  }

  predicate RepositoryText(t: Option<string>) {
    t.Some? && Named(t.value, "._:/-", 255)
  }

  predicate KeyText(t: Option<string>) {
    t.Some? && HexText(t.value, 64)
  }

  predicate DigestText(t: Option<string>) {
    t.Some? && IsDigest(t.value)
  }

  function TimeAt(s: Services, v: Json, key: string): Option<int> {
    if TextAt(v, key).Some? then s.instant(TextAt(v, key).value) else None
  }

  /** _validate_fields */
  predicate FieldsOk(s: Services, v: Json) {
    v.Obj? && Keys(v.members) == PayloadKeys() && TextAt(v, "schema") == Some(SCHEMA) &&
    IdText(TextAt(v, "enrollment_id")) && IdText(TextAt(v, "authority_key_id")) &&
    ApproverText(TextAt(v, "approver_id")) && KeyText(TextAt(v, "approver_public_key")) &&
    DigestText(TextAt(v, "trust_profile_digest")) && RepositoryText(TextAt(v, "provider_repository_id")) &&
    TextAt(v, "operation") == Some(OPERATION) && TimeAt(s, v, "issued_at").Some? && TimeAt(s, v, "expires_at").Some?
  }

  /** _validate_window */
  predicate InWindow(issued: int, expires: int, now: int) {
    issued < expires && expires - issued <= MAX_WINDOW && issued <= now + MAX_SKEW && now < expires
  }

  // ---------------------------------------------------------------------------
  // Building

  /** The arguments of a build: texts, the approver's key, and the two instants. A time that is naive or not
      in UTC is None. */
  datatype Request = Request(
    id: string, authority: string, approver: string, approverKey: bytes, profile: string, repository: string,
    issued: Option<int>, expires: Option<int>)

  function PayloadValues(r: Request, issued: string, expires: string): seq<Json> {
    [Str(SCHEMA), Str(r.id), Str(r.authority), Str(r.approver), Str(Hex(r.approverKey)), Str(r.profile),
     Str(r.repository), Str(OPERATION), Str(issued), Str(expires)]
  }

  function Payload(r: Request, issued: string, expires: string): Json {
    var values := PayloadValues(r, issued, expires);
    Obj(seq(|PAYLOAD_FIELDS|, i requires 0 <= i < |PAYLOAD_FIELDS| => Pair(PAYLOAD_FIELDS[i], values[i])))
  }

  function WithSignature(payload: seq<Pair<Json>>, signature: Json): Json {
    Obj(payload + [Pair("signature", signature)])
  }

  /** build_signed_approver_trust_enrollment; None is its rejection. */
  function Build(s: Services, r: Request, key: bytes): Option<bytes> {
    if r.issued.None? || r.expires.None? then None else
    var issued, expires := s.format(r.issued.value), s.format(r.expires.value);
    if issued.None? || expires.None? then None else
    var payload := Payload(r, issued.value, expires.value);
    if !FieldsOk(s, payload) ||
       !InWindow(TimeAt(s, payload, "issued_at").value, TimeAt(s, payload, "expires_at").value,
                 TimeAt(s, payload, "issued_at").value) then None else
    var signature := Hex(s.sign(key, s.domain + Encode(payload)));
    var encoded := Encode(WithSignature(payload.members, Str(signature)));
    if |encoded| > MAX_BYTES then None else Some(encoded)
  }

  // ---------------------------------------------------------------------------
  // Verifying

  datatype Scope = Scope(keys: map<string, bytes>, approver: string, profile: string, repository: string)

  predicate KeysOk(keys: map<string, bytes>) {
    1 <= |keys| <= 32 && forall k | k in keys :: Named(k, "._:-", 127) && |keys[k]| == 32
  }

  lemma {:induction false} PutNew(d: seq<Pair<Json>>, key: string, value: Json)
    requires !HasKey(d, key)
    ensures Base.Put(d, key, value) == d + [Pair(key, value)]
  {
    if d != [] {
      HasKeyUncons(d, key);
      assert d[0].key != key;
      PutNew(d[1..], key, value);
      assert d + [Pair(key, value)] == [d[0]] + (d[1..] + [Pair(key, value)]);
    }
  }

  lemma NoneDistinct()
    ensures DistinctKeys<Json>([])
  {
  }

  lemma RepeatedKey(pairs: seq<Pair<Json>>, i: nat)
    requires i < |pairs| && HasKey(pairs[..i], pairs[i].key)
    ensures !DistinctKeys(pairs)
  {
    var j :| 0 <= j < i && pairs[..i][j].key == pairs[i].key;
    assert pairs[j].key == pairs[i].key;
  }

  /** _reject_duplicate_pairs: an object's pairs become a dictionary exactly when no key repeats; a parsed
      value all of whose objects pass is well formed. */
  method RejectDuplicatePairs(pairs: seq<Pair<Json>>) returns (record: Option<seq<Pair<Json>>>)
    ensures record.Some? <==> DistinctKeys(pairs)
    ensures record.Some? ==> record.value == pairs
  {
    hide Base.Put, DistinctKeys, HasKey;
    var filled: seq<Pair<Json>> := [];
    assert DistinctKeys(filled) by { NoneDistinct(); }
    for i := 0 to |pairs|
      invariant filled == pairs[..i] && DistinctKeys(filled)
    {
      if HasKey(filled, pairs[i].key) {
        RepeatedKey(pairs, i);
        return None;
      }
      PutNew(filled, pairs[i].key, pairs[i].value);
      PutSpec(filled, pairs[i].key, pairs[i].value);
      filled := Base.Put(filled, pairs[i].key, pairs[i].value);
      assert pairs[..i + 1] == pairs[..i] + [Pair(pairs[i].key, pairs[i].value)];
    }
    assert pairs[..|pairs|] == pairs;
    return Some(filled);
  }

  /** The record of some bytes: its payload, and its signature. */
  function RecordOf(s: Services, b: bytes): Option<(seq<Pair<Json>>, Json)> {
    if b == [] || |b| > MAX_BYTES || s.parse(b).None? then None else
    var record := s.parse(b).value;
    if WellFormed(record) && record.Obj? && Keys(record.members) == PayloadKeys() + {"signature"} &&
       Get(record.members, "signature").Some?
    then Some((Without(record.members, "signature"), Get(record.members, "signature").value)) else None
  }

  predicate ScopeOk(payload: Json, scope: Scope) {
    TextAt(payload, "approver_id") == Some(scope.approver) &&
    TextAt(payload, "trust_profile_digest") == Some(scope.profile) &&
    TextAt(payload, "provider_repository_id") == Some(scope.repository) && KeysOk(scope.keys)
  }

  /** The trusted key the payload names signed it. */
  predicate SignatureOk(s: Services, payload: Json, signature: Json, keys: map<string, bytes>) {
    TextAt(payload, "authority_key_id").Some? && TextAt(payload, "authority_key_id").value in keys &&
    signature.Str? && HexText(signature.s, 128) &&
    s.verify(keys[TextAt(payload, "authority_key_id").value], UnHex(signature.s), s.domain + Encode(payload))
  }

  predicate Current(s: Services, payload: Json, now: Option<int>) {
    now.Some? && TimeAt(s, payload, "issued_at").Some? && TimeAt(s, payload, "expires_at").Some? &&
    InWindow(TimeAt(s, payload, "issued_at").value, TimeAt(s, payload, "expires_at").value, now.value)
  }

  /** verify_approver_trust_enrollment: the payload when the bytes verify. */
  function Verify(s: Services, b: bytes, scope: Scope, now: Option<int>): Option<Json> {
    var record := RecordOf(s, b);
    if record.None? then None else
    var payload, signature := Obj(record.value.0), record.value.1;
    if !FieldsOk(s, payload) || Encode(WithSignature(payload.members, signature)) != b then None
    else if !ScopeOk(payload, scope) then None
    else if !SignatureOk(s, payload, signature, scope.keys) then None
    else if !Current(s, payload, now) then None
    else Some(payload)
  }

  // ---------------------------------------------------------------------------
  // Dictionaries of texts

  predicate Flat(d: seq<Pair<Json>>) {
    DistinctKeys(d) && forall i | 0 <= i < |d| :: d[i].value.Str?
  }

  /** Two listings of one dictionary. */
  ghost predicate SameEntries(p: seq<Pair<Json>>, q: seq<Pair<Json>>) {
    forall x :: x in p <==> x in q
  }

  lemma FlatCanon(d: seq<Pair<Json>>)
    requires Flat(d)
    ensures WellFormed(Obj(d)) && Canon(Obj(d)) == Obj(SortByKey(d))
  {
    CanonMembersAt(d);
    assert CanonMembers(d) == d;
  }

  lemma SortedFlat(d: seq<Pair<Json>>)
    requires Flat(d)
    ensures Flat(SortByKey(d)) && SameEntries(d, SortByKey(d))
  {
    SortSpec(d);
    if d != [] { GetSorted(d, d[0].key); }
    forall i | 0 <= i < |SortByKey(d)| ensures SortByKey(d)[i].value.Str? {
      SortMember(d, SortByKey(d)[i]);
      var j :| 0 <= j < |d| && d[j] == SortByKey(d)[i];
    }
  }

  /** Listings of one dictionary of texts are encoded alike. */
  lemma EncodedAlike(p: seq<Pair<Json>>, q: seq<Pair<Json>>)
    requires Flat(p) && Flat(q) && SameEntries(p, q)
    ensures Encode(Obj(p)) == Encode(Obj(q))
  {
    FlatCanon(p);
    FlatCanon(q);
    SortOrders(p);
    SortOrders(q);
    forall x ensures x in SortByKey(p) <==> x in SortByKey(q) {
      SortMember(p, x);
      SortMember(q, x);
    }
    SortedUnique(SortByKey(p), SortByKey(q));
  }

  /** And look up alike. */
  lemma LookedUpAlike(p: seq<Pair<Json>>, q: seq<Pair<Json>>, key: string)
    requires Flat(p) && Flat(q) && SameEntries(p, q)
    ensures Get(p, key) == Get(q, key)
  {
    GetFinds(p, key);
    GetFinds(q, key);
    if Get(p, key).Some? { GetIffMember(q, key, Get(p, key).value); }
    if Get(q, key).Some? { GetIffMember(p, key, Get(q, key).value); }
  }

  lemma SameKeys(p: seq<Pair<Json>>, q: seq<Pair<Json>>)
    requires SameEntries(p, q)
    ensures Keys(p) == Keys(q)
  {
    forall k ensures k in Keys(p) <==> k in Keys(q) {
      if k in Keys(p) { var i :| 0 <= i < |p| && p[i].key == k; assert p[i] in q; }
      if k in Keys(q) { var i :| 0 <= i < |q| && q[i].key == k; assert q[i] in p; }
    }
  }

  lemma TextsAlike(p: seq<Pair<Json>>, q: seq<Pair<Json>>, key: string)
    requires Flat(p) && Flat(q) && SameEntries(p, q)
    ensures TextAt(Obj(p), key) == TextAt(Obj(q), key)
  {
    LookedUpAlike(p, q, key);
  }

  /** Listings of one payload read alike. */
  lemma ReadAlike(s: Services, p: seq<Pair<Json>>, q: seq<Pair<Json>>)
    requires Flat(p) && Flat(q) && SameEntries(p, q)
    ensures FieldsOk(s, Obj(p)) <==> FieldsOk(s, Obj(q))
    ensures forall k :: TextAt(Obj(p), k) == TextAt(Obj(q), k)
    ensures forall k :: TimeAt(s, Obj(p), k) == TimeAt(s, Obj(q), k)
  {
    hide TextAt, Flat, SameEntries, PayloadKeys, IdText, ApproverText, RepositoryText, KeyText, DigestText, Keys;
    SameKeys(p, q);
    forall k ensures TextAt(Obj(p), k) == TextAt(Obj(q), k) { TextsAlike(p, q, k); }
  }

  // ---------------------------------------------------------------------------
  // A built record reads back

  lemma PayloadFlat(r: Request, issued: string, expires: string)
    ensures Flat(Payload(r, issued, expires).members) && Keys(Payload(r, issued, expires).members) == PayloadKeys()
    ensures "signature" !in PayloadKeys()
  {
    FieldsDistinct();
    var d := Payload(r, issued, expires).members;
    forall k ensures k in Keys(d) <==> k in PayloadKeys() {
      if k in Keys(d) { var i :| 0 <= i < |d| && d[i].key == k; assert PAYLOAD_FIELDS[i] == k; }
      if k in PayloadKeys() { var i :| 0 <= i < |PAYLOAD_FIELDS| && PAYLOAD_FIELDS[i] == k; assert d[i].key == k; }
    }
  }

  lemma FieldsDistinct()
    ensures forall i, j :: 0 <= i < j < |PAYLOAD_FIELDS| ==> PAYLOAD_FIELDS[i] != PAYLOAD_FIELDS[j]
    ensures "signature" !in PayloadKeys()
  {
  }

  lemma PayloadReads(r: Request, issued: string, expires: string, i: nat)
    requires i < |PAYLOAD_FIELDS|
    ensures PayloadValues(r, issued, expires)[i].Str?
    ensures TextAt(Payload(r, issued, expires), PAYLOAD_FIELDS[i]) == Some(PayloadValues(r, issued, expires)[i].s)
  {
    PayloadFlat(r, issued, expires);
    GetAt(Payload(r, issued, expires).members, i);
  }

  /** A signed dictionary of texts, encoded, is read back as another listing of it. */
  lemma RecordReads(s: Services, p: seq<Pair<Json>>, signature: string, b: bytes)
    requires ParseLaw(s) && Flat(p) && Keys(p) == PayloadKeys() && "signature" !in PayloadKeys()
    requires b == Encode(WithSignature(p, Str(signature))) && |b| <= MAX_BYTES
    ensures RecordOf(s, b).Some?
    ensures RecordOf(s, b).value.1 == Str(signature)
    ensures Flat(RecordOf(s, b).value.0) && SameEntries(RecordOf(s, b).value.0, p)
    ensures Encode(WithSignature(RecordOf(s, b).value.0, Str(signature))) == b
  {
    hide Flat, Encode, SameEntries, SortByKey;
    var full := p + [Pair("signature", Str(signature))];
    NoSignatureKey(p);
    SignedFlat(p, signature);
    FlatCanon(full);
    SortedFlat(full);
    var sorted := SortByKey(full);
    FlatCanon(sorted);
    EncodeNonEmpty(full);
    assert s.parse(b) == Some(Obj(sorted));
    SignedKeys(p, signature);
    SameKeys(full, sorted);
    SignedGet(p, signature);
    LookedUpAlike(full, sorted, "signature");
    StripSignature(p, signature, sorted);
    var rest := Without(sorted, "signature");
    SameKeys(rest, p);
    NoSignatureKey(rest);
    SignedFlat(rest, signature);
    SignedAlike(rest, p, signature);
    EncodedAlike(rest + [Pair("signature", Str(signature))], full);
  }

  lemma NoSignatureKey(p: seq<Pair<Json>>)
    requires Keys(p) == PayloadKeys() && "signature" !in PayloadKeys()
    ensures forall i | 0 <= i < |p| :: p[i].key != "signature"
  {
    hide PayloadKeys;
    forall i | 0 <= i < |p| ensures p[i].key != "signature" { assert p[i].key in Keys(p); }
  }

  lemma SignedKeys(p: seq<Pair<Json>>, signature: string)
    ensures Keys(p + [Pair("signature", Str(signature))]) == Keys(p) + {"signature"}
  {
    var full := p + [Pair("signature", Str(signature))];
    forall k ensures k in Keys(full) <==> k in Keys(p) + {"signature"} {
      if k in Keys(full) { var i :| 0 <= i < |full| && full[i].key == k; assert i < |p| ==> p[i].key == k; }
      if k in Keys(p) { var i :| 0 <= i < |p| && p[i].key == k; assert full[i].key == k; }
      assert full[|p|].key == "signature";
    }
  }

  lemma SignedGet(p: seq<Pair<Json>>, signature: string)
    requires Flat(p) && forall i | 0 <= i < |p| :: p[i].key != "signature"
    ensures Get(p + [Pair("signature", Str(signature))], "signature") == Some(Str(signature))
  {
    SignedFlat(p, signature);
    GetAt(p + [Pair("signature", Str(signature))], |p|);
  }

  /** Dropping the signature from another listing of the signed record leaves a listing of the payload. */
  lemma StripSignature(p: seq<Pair<Json>>, signature: string, sorted: seq<Pair<Json>>)
    requires Flat(p) && Flat(sorted) && SameEntries(p + [Pair("signature", Str(signature))], sorted)
    requires forall i | 0 <= i < |p| :: p[i].key != "signature"
    ensures Flat(Without(sorted, "signature")) && SameEntries(Without(sorted, "signature"), p)
  {
    var full, rest := p + [Pair("signature", Str(signature))], Without(sorted, "signature");
    WithoutSpec(sorted, "signature");
    RestFlat(sorted, rest);
    forall x ensures x in rest <==> x in p {
      WithoutMember(sorted, "signature", x);
      assert x in full <==> x in sorted;
      assert x in full <==> x in p || x == Pair("signature", Str(signature));
    }
  }

  lemma SignedAlike(p: seq<Pair<Json>>, q: seq<Pair<Json>>, signature: string)
    requires SameEntries(p, q)
    ensures SameEntries(p + [Pair("signature", Str(signature))], q + [Pair("signature", Str(signature))])
  {
  }

  lemma RestFlat(d: seq<Pair<Json>>, rest: seq<Pair<Json>>)
    requires Flat(d) && DistinctKeys(rest) && forall x :: x in rest ==> x in d
    ensures Flat(rest)
  {
    forall i | 0 <= i < |rest| ensures rest[i].value.Str? {
      assert rest[i] in rest;
      var j :| 0 <= j < |d| && d[j] == rest[i];
    }
  }

  lemma SignedFlat(p: seq<Pair<Json>>, signature: string)
    requires Flat(p) && forall i | 0 <= i < |p| :: p[i].key != "signature"
    ensures Flat(p + [Pair("signature", Str(signature))])
  {
  }

  lemma EncodeNonEmpty(d: seq<Pair<Json>>)
    ensures Encode(Obj(d)) != []
  {
    var text := Text(Canon(Obj(d)));
    assert text[0] == '{';
  }

  // ---------------------------------------------------------------------------
  // Round trip and unique encoding

  predicate InScope(s: Services, r: Request, key: bytes, scope: Scope) {
    KeysOk(scope.keys) && r.authority in scope.keys && scope.keys[r.authority] == s.publicOf(key) &&
    scope.approver == r.approver && scope.profile == r.profile && scope.repository == r.repository
  }

  /** What a built record's payload says. */
  lemma BuiltSays(s: Services, r: Request, issued: string, expires: string)
    ensures TextAt(Payload(r, issued, expires), "authority_key_id") == Some(r.authority)
    ensures TextAt(Payload(r, issued, expires), "approver_id") == Some(r.approver)
    ensures TextAt(Payload(r, issued, expires), "trust_profile_digest") == Some(r.profile)
    ensures TextAt(Payload(r, issued, expires), "provider_repository_id") == Some(r.repository)
    ensures TextAt(Payload(r, issued, expires), "issued_at") == Some(issued)
    ensures TextAt(Payload(r, issued, expires), "expires_at") == Some(expires)
  {
    PayloadReads(r, issued, expires, 2);
    PayloadReads(r, issued, expires, 3);
    PayloadReads(r, issued, expires, 5);
    PayloadReads(r, issued, expires, 6);
    PayloadReads(r, issued, expires, 8);
    PayloadReads(r, issued, expires, 9);
    hide TextAt, Payload;
  }

  /** What a build rests on. */
  lemma BuildRests(s: Services, r: Request, key: bytes, b: bytes, issued: string, expires: string, signature: string)
    requires Build(s, r, key) == Some(b) && r.issued.Some? && r.expires.Some?
    requires s.format(r.issued.value) == Some(issued) && s.format(r.expires.value) == Some(expires)
    requires signature == Hex(s.sign(key, s.domain + Encode(Payload(r, issued, expires))))
    ensures FieldsOk(s, Payload(r, issued, expires))
    ensures b == Encode(WithSignature(Payload(r, issued, expires).members, Str(signature))) && |b| <= MAX_BYTES
    ensures TimeAt(s, Payload(r, issued, expires), "issued_at").Some? &&
      TimeAt(s, Payload(r, issued, expires), "expires_at").Some?
    ensures InWindow(TimeAt(s, Payload(r, issued, expires), "issued_at").value,
                     TimeAt(s, Payload(r, issued, expires), "expires_at").value,
                     TimeAt(s, Payload(r, issued, expires), "issued_at").value)
  {
    hide TextAt, InWindow, Encode, Hex, IdText, ApproverText, RepositoryText, KeyText, DigestText;
  }

  /** Verification of bytes whose record lists a given payload and carries its signature. */
  lemma VerifiesInWindow(s: Services, b: bytes, scope: Scope, now: int, p: seq<Pair<Json>>, q: seq<Pair<Json>>,
                         signature: string, key: bytes)
    requires SignLaw(s) && RecordOf(s, b) == Some((q, Str(signature))) && Encode(WithSignature(q, Str(signature))) == b
    requires Flat(p) && Flat(q) && SameEntries(q, p) && FieldsOk(s, Obj(p))
    requires signature == Hex(s.sign(key, s.domain + Encode(Obj(p)))) && KeysOk(scope.keys)
    requires TextAt(Obj(p), "approver_id") == Some(scope.approver)
    requires TextAt(Obj(p), "trust_profile_digest") == Some(scope.profile)
    requires TextAt(Obj(p), "provider_repository_id") == Some(scope.repository)
    requires TextAt(Obj(p), "authority_key_id").Some? && TextAt(Obj(p), "authority_key_id").value in scope.keys
    requires scope.keys[TextAt(Obj(p), "authority_key_id").value] == s.publicOf(key)
    ensures Verify(s, b, scope, Some(now)).Some? <==>
      InWindow(TimeAt(s, Obj(p), "issued_at").value, TimeAt(s, Obj(p), "expires_at").value, now)
    ensures Verify(s, b, scope, Some(now)).Some? ==> Verify(s, b, scope, Some(now)) == Some(Obj(q))
  {
    hide Encode, InWindow, RecordOf, FieldsOk, SignatureOk, TextAt, TimeAt, KeysOk, Flat, SameEntries, WithSignature;
    ReadAlike(s, q, p);
    EncodedAlike(q, p);
    SignatureFits(s, p, q, signature, key, scope.keys);
    FieldsTimed(s, p);
  }

  lemma FieldsTimed(s: Services, p: seq<Pair<Json>>)
    requires FieldsOk(s, Obj(p))
    ensures TimeAt(s, Obj(p), "issued_at").Some? && TimeAt(s, Obj(p), "expires_at").Some?
  {
    hide TextAt, TimeAt, IdText, ApproverText, RepositoryText, KeyText, DigestText, PayloadKeys;
  }

  lemma SignatureFits(s: Services, p: seq<Pair<Json>>, q: seq<Pair<Json>>, signature: string, key: bytes,
                      keys: map<string, bytes>)
    requires SignLaw(s) && Encode(Obj(q)) == Encode(Obj(p)) && forall k :: TextAt(Obj(p), k) == TextAt(Obj(q), k)
    requires signature == Hex(s.sign(key, s.domain + Encode(Obj(p))))
    requires TextAt(Obj(p), "authority_key_id").Some? && TextAt(Obj(p), "authority_key_id").value in keys
    requires keys[TextAt(Obj(p), "authority_key_id").value] == s.publicOf(key)
    ensures SignatureOk(s, Obj(q), Str(signature), keys)
  {
    hide TextAt, Encode;
    HexBack(s.sign(key, s.domain + Encode(Obj(p))));
  }

  /** A built record verifies under its authority's key and its exact scope precisely from 30 seconds before it
      was issued until it expires, and its window is at most 30 days. */
  lemma RoundTrip(s: Services, r: Request, key: bytes, b: bytes, scope: Scope, now: int)
    requires SignLaw(s) && ClockLaw(s) && ParseLaw(s)
    requires Build(s, r, key) == Some(b) && InScope(s, r, key, scope)
    ensures r.issued.Some? && r.expires.Some? && 0 < r.expires.value - r.issued.value <= MAX_WINDOW
    ensures Verify(s, b, scope, Some(now)).Some? <==> r.issued.value - MAX_SKEW <= now < r.expires.value
    ensures Verify(s, b, scope, Some(now)).Some? ==>
      exists issued, expires ::
        s.format(r.issued.value) == Some(issued) && s.format(r.expires.value) == Some(expires) &&
        Verify(s, b, scope, Some(now)).value.Obj? &&
        SameEntries(Verify(s, b, scope, Some(now)).value.members, Payload(r, issued, expires).members)
  {
    hide Encode, RecordOf, Flat, SameEntries, Hex, UnHex, FieldsOk, Payload, WithSignature, Verify;
    var issued, expires := s.format(r.issued.value).value, s.format(r.expires.value).value;
    var payload := Payload(r, issued, expires);
    var signature := Hex(s.sign(key, s.domain + Encode(payload)));
    BuildRests(s, r, key, b, issued, expires, signature);
    BuiltSays(s, r, issued, expires);
    PayloadFlat(r, issued, expires);
    RecordReads(s, payload.members, signature, b);
    VerifiesInWindow(s, b, scope, now, payload.members, RecordOf(s, b).value.0, signature, key);
  }

  /** The record a verified encoding stands for. */
  function Signed(s: Services, b: bytes): Json
    requires RecordOf(s, b).Some?
  {
    WithSignature(RecordOf(s, b).value.0, RecordOf(s, b).value.1)
  }

  lemma VerifiedIsCanonical(s: Services, b: bytes, scope: Scope, now: Option<int>)
    requires Verify(s, b, scope, now).Some?
    ensures RecordOf(s, b).Some? && b == Encode(Signed(s, b)) && WellFormed(Signed(s, b))
  {
    hide FieldsOk, ScopeOk, SignatureOk, Current, Encode;
    RecordWellFormed(s, b);
  }

  lemma RecordWellFormed(s: Services, b: bytes)
    requires RecordOf(s, b).Some?
    ensures WellFormed(Signed(s, b))
  {
    var record := s.parse(b).value.members;
    var rest := Without(record, "signature");
    WithoutSpec(record, "signature");
    forall i | 0 <= i < |rest| ensures WellFormed(rest[i].value) && rest[i].key != "signature" {
      WithoutMember(record, "signature", rest[i]);
      var j :| 0 <= j < |record| && record[j] == rest[i];
      assert WellFormed(record[j].value);
    }
    GetWellFormed(record, "signature");
  }

  /** Each payload and signature has exactly one accepted encoding. */
  lemma UniqueEncoding(s: Services, b: bytes, c: bytes, scope: Scope, other: Scope, now: Option<int>,
                       later: Option<int>)
    requires Verify(s, b, scope, now).Some? && Verify(s, c, other, later).Some?
    ensures RecordOf(s, b).Some? && RecordOf(s, c).Some?
    ensures b == c <==> Same(Signed(s, b), Signed(s, c))
  {
    VerifiedIsCanonical(s, b, scope, now);
    VerifiedIsCanonical(s, c, other, later);
    EncodeCanonical(Signed(s, b), Signed(s, c));
  }
}
