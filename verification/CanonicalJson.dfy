/** Canonical JSON text: sorted keys, no insignificant whitespace, UTF-8.
    The main result is that the encoding is injective up to dictionary equality
    and does not depend on the insertion order of object keys. */
module CanonicalJson {
  import opened Base

  /** A string-keyed JSON value; an object is a dictionary in insertion order. */
  datatype Json =
    | Null
    | Bool(b: bool)
    | Num(n: int)
    | Str(s: string)
    | Arr(items: seq<Json>)
    | Obj(members: seq<Pair<Json>>)

  /** Every object, at every depth, has distinct keys: what a parsed or built value has. */
  predicate WellFormed(v: Json) {
    match v
    case Arr(items) => forall i :: 0 <= i < |items| ==> WellFormed(items[i])
    case Obj(members) =>
      DistinctKeys(members) && forall i :: 0 <= i < |members| ==> WellFormed(members[i].value)
    case _ => true
  }

  /** Equality of values: arrays in order, objects as unordered dictionaries. */
  ghost predicate Same(v: Json, w: Json)
    decreases v
  {
    match v
    case Arr(items) =>
      w.Arr? && |items| == |w.items| &&
      forall i :: 0 <= i < |items| ==> Same(items[i], w.items[i])
    case Obj(members) =>
      w.Obj? && |members| == |w.members| &&
      forall i :: 0 <= i < |members| ==> SameMember(members[i], w.members)
    case _ => v == w
  }

  /** Some association has the same key and an equal value. */
  ghost predicate SameMember(m: Pair<Json>, members: seq<Pair<Json>>)
    decreases m
  {
    exists j :: 0 <= j < |members| && m.key == members[j].key && Same(m.value, members[j].value)
  }

  /** The member of an object; None when there is none, or the value is no object. */
  function At(v: Json, key: string): Option<Json> {
    if v.Obj? then Get(v.members, key) else None
  }

  // ---------------------------------------------------------------------------
  // Printing

  function HexDigit(n: nat): char
    requires n < 16
  {
    if n < 10 then '0' + n as char else 'a' + (n - 10) as char
  }

  function Escape(c: char): string {
    if c == '\"' then "\\\""
    else if c == '\\' then "\\\\"
    else if c == '\n' then "\\n"
    else if c == '\r' then "\\r"
    else if c == '\t' then "\\t"
    else if c as int == 12 then "\\f"
    else if c as int == 8 then "\\b"
    else if c as int < 32 then "\\u00" + [HexDigit(c as int / 16), HexDigit(c as int % 16)]
    else [c]
  }

  function EscapeAll(s: string): string {
    if s == "" then "" else Escape(s[0]) + EscapeAll(s[1..])
  }

  function Quote(s: string): string {
    "\"" + EscapeAll(s) + "\""
  }

  function NatText(n: nat): string {
    (if n < 10 then "" else NatText(n / 10)) + ['0' + (n % 10) as char]
  }

  function IntText(n: int): string {
    if n < 0 then "-" + NatText(-n) else NatText(n)
  }

  /** A comma separates what follows from an element that is not the last. */
  function Sep(count: nat): string {
    if count == 1 then "" else ","
  }

  /** The text of a value whose objects are printed in the order they hold. */
  function Text(v: Json): string {
    match v
    case Null => "null"
    case Bool(b) => if b then "true" else "false"
    case Num(n) => IntText(n)
    case Str(s) => Quote(s)
    case Arr(items) => "[" + ItemsText(items)
    case Obj(members) => "{" + MembersText(members)
  }

  /** The rest of an array after its bracket: items separated by commas, then "]". */
  function ItemsText(items: seq<Json>): string {
    if items == [] then "]"
    else Text(items[0]) + Sep(|items|) + ItemsText(items[1..])
  }

  function MembersText(members: seq<Pair<Json>>): string {
    if members == [] then "}"
    else Quote(members[0].key) + ":" + Text(members[0].value)
         + Sep(|members|) + MembersText(members[1..])
  }

  /** The value with every object's keys in order, which is what sort_keys prints. */
  function Canon(v: Json): Json {
    match v
    case Arr(items) => Arr(CanonItems(items))
    case Obj(members) => Obj(SortByKey(CanonMembers(members)))
    case _ => v
  }

  function CanonItems(items: seq<Json>): seq<Json> {
    if items == [] then [] else [Canon(items[0])] + CanonItems(items[1..])
  }

  function CanonMembers(members: seq<Pair<Json>>): seq<Pair<Json>> {
    if members == [] then []
    else [Pair(members[0].key, Canon(members[0].value))] + CanonMembers(members[1..])
  }

  function Utf8(c: char): bytes {
    var n := c as int;
    if n < 0x80 then [n]
    else if n < 0x800 then [0xC0 + n / 64, 0x80 + n % 64]
    else if n < 0x10000 then [0xE0 + n / 64 / 64, 0x80 + n / 64 % 64, 0x80 + n % 64]
    else [0xF0 + n / 64 / 64 / 64, 0x80 + n / 64 / 64 % 64, 0x80 + n / 64 % 64, 0x80 + n % 64]
  }

  function Utf8All(s: string): bytes {
    if s == "" then [] else Utf8(s[0]) + Utf8All(s[1..])
  }

  /** canonical_json */
  function Encode(v: Json): bytes {
    Utf8All(Text(Canon(v)))
  }

  // ---------------------------------------------------------------------------
  // Unique readability of each token

  lemma Cancel<T>(a: seq<T>, b: seq<T>, x: seq<T>, y: seq<T>)
    requires |a| == |b| && a + x == b + y
    ensures a == b && x == y
  {
    assert a == (a + x)[..|a|] && b == (b + y)[..|b|];
    assert x == (a + x)[|a|..] && y == (b + y)[|b|..];
  }

  lemma Regroup<T>(a: seq<T>, b: seq<T>, c: seq<T>)
    ensures a + b + c == a + (b + c)
  {
  }

  lemma HeadOf<T>(a: seq<T>, x: seq<T>)
    requires a != []
    ensures (a + x)[0] == a[0]
  {
  }

  /** Reads back one encoded character: the lead byte's payload, then six bits a byte. */
  function Utf8Value(b: seq<int>): int {
    if |b| == 1 then b[0]
    else if |b| == 2 then Continue(b[0] - 0xC0, b[1])
    else if |b| == 3 then Continue(Continue(b[0] - 0xE0, b[1]), b[2])
    else if |b| == 4 then Continue(Continue(Continue(b[0] - 0xF0, b[1]), b[2]), b[3])
    else 0
  }

  function Continue(high: int, next: int): int {
    high * 64 + (next - 0x80)
  }

  lemma Utf8ReadsBack(c: char)
    ensures Utf8Value(Utf8(c)) == c as int
  {
    var n := c as int;
    assert Continue(n / 64, 0x80 + n % 64) == n;
    assert Continue(n / 64 / 64, 0x80 + n / 64 % 64) == n / 64;
    assert Continue(n / 64 / 64 / 64, 0x80 + n / 64 / 64 % 64) == n / 64 / 64;
  }

  /** The length of a character's encoding, from its first byte. */
  function Utf8Length(lead: byte): nat {
    if lead < 0xC0 then 1 else if lead < 0xE0 then 2 else if lead < 0xF0 then 3 else 4
  }

  lemma Utf8Lead(c: char)
    ensures Utf8(c) != [] && |Utf8(c)| == Utf8Length(Utf8(c)[0])
  {
  }

  lemma Utf8Unique(c: char, d: char, x: bytes, y: bytes)
    requires Utf8(c) + x == Utf8(d) + y
    ensures c == d && x == y
  {
    Utf8Lead(c);
    Utf8Lead(d);
    HeadOf(Utf8(c), x);
    HeadOf(Utf8(d), y);
    Cancel(Utf8(c), Utf8(d), x, y);
    Utf8ReadsBack(c);
    Utf8ReadsBack(d);
  }

  lemma {:induction false} Utf8AllInjective(s: string, t: string)
    requires Utf8All(s) == Utf8All(t)
    ensures s == t
  {
    if s != "" && t != "" {
      Utf8Unique(s[0], t[0], Utf8All(s[1..]), Utf8All(t[1..]));
      Utf8AllInjective(s[1..], t[1..]);
      assert s == [s[0]] + s[1..] && t == [t[0]] + t[1..];
    }
  }

  lemma EscapeUnique(c: char, d: char, x: string, y: string)
    requires Escape(c) + x == Escape(d) + y
    ensures c == d && x == y
  {
    var l, r := Escape(c) + x, Escape(d) + y;
    HeadOf(Escape(c), x);
    HeadOf(Escape(d), y);
    assert |Escape(c)| > 1 ==> l[1] == Escape(c)[1];
    assert |Escape(d)| > 1 ==> r[1] == Escape(d)[1];
    Cancel(Escape(c), Escape(d), x, y);
    if |Escape(c)| == 6 {
      assert Escape(c)[4] == Escape(d)[4] && Escape(c)[5] == Escape(d)[5];
      assert c as int / 16 == d as int / 16 && c as int % 16 == d as int % 16;
    }
  }

  lemma {:induction false} QuotedUnique(s: string, t: string, x: string, y: string)
    requires EscapeAll(s) + ("\"" + x) == EscapeAll(t) + ("\"" + y)
    ensures s == t && x == y
  {
    var ls, rs := EscapeAll(s), EscapeAll(t);
    var lx, rx := "\"" + x, "\"" + y;
    if s != "" {
      Regroup(Escape(s[0]), EscapeAll(s[1..]), lx);
      HeadOf(Escape(s[0]), EscapeAll(s[1..]) + lx);
    }
    if t != "" {
      Regroup(Escape(t[0]), EscapeAll(t[1..]), rx);
      HeadOf(Escape(t[0]), EscapeAll(t[1..]) + rx);
    }
    assert (s == "") == ((ls + lx)[0] == '\"') && (t == "") == ((rs + rx)[0] == '\"');
    if s == "" {
      assert ls + lx == lx && rs + rx == rx;
      Cancel("\"", "\"", x, y);
    } else {
      EscapeUnique(s[0], t[0], EscapeAll(s[1..]) + lx, EscapeAll(t[1..]) + rx);
      QuotedUnique(s[1..], t[1..], x, y);
      assert s == [s[0]] + s[1..] && t == [t[0]] + t[1..];
    }
  }

  predicate IsDigit(c: char) { '0' <= c <= '9' }

  /** What may follow a value inside a document: nothing, or a separator. */
  predicate Ends(x: string) {
    x == "" || x[0] == ',' || x[0] == ']' || x[0] == '}'
  }

  lemma {:induction false} NatTextDigits(n: nat)
    ensures NatText(n) != "" && forall i :: 0 <= i < |NatText(n)| ==> IsDigit(NatText(n)[i])
  {
    if n >= 10 { NatTextDigits(n / 10); }
  }

  lemma {:induction false} NatTextInjective(m: nat, n: nat)
    requires NatText(m) == NatText(n)
    ensures m == n
  {
    NatTextDigits(m / 10);
    NatTextDigits(n / 10);
    var s, t := NatText(m), NatText(n);
    assert s[|s| - 1] == t[|t| - 1];
    assert m % 10 == n % 10;
    assert s[..|s| - 1] == t[..|t| - 1];
    if m >= 10 && n >= 10 {
      assert s[..|s| - 1] == NatText(m / 10) && t[..|t| - 1] == NatText(n / 10);
      NatTextInjective(m / 10, n / 10);
    }
  }

  /** Where one run of digits outlasts another, the other is followed by a digit. */
  lemma DigitFollows(a: string, b: string, x: string, y: string)
    requires forall i :: 0 <= i < |b| ==> IsDigit(b[i])
    requires |a| < |b| && a + x == b + y
    ensures !Ends(x)
  {
    assert (a + x)[|a|] == x[0] && (b + y)[|a|] == b[|a|];
  }

  lemma NatUnique(m: nat, n: nat, x: string, y: string)
    requires Ends(x) && Ends(y) && NatText(m) + x == NatText(n) + y
    ensures m == n && x == y
  {
    NatTextDigits(m);
    NatTextDigits(n);
    if |NatText(m)| < |NatText(n)| { DigitFollows(NatText(m), NatText(n), x, y); }
    if |NatText(n)| < |NatText(m)| { DigitFollows(NatText(n), NatText(m), y, x); }
    Cancel(NatText(m), NatText(n), x, y);
    NatTextInjective(m, n);
  }

  lemma IntTextStarts(n: int)
    ensures IntText(n) != "" && if n < 0 then IntText(n)[0] == '-' else IsDigit(IntText(n)[0])
  {
    if n >= 0 { NatTextDigits(n); }
  }

  lemma IntUnique(m: int, n: int, x: string, y: string)
    requires Ends(x) && Ends(y) && IntText(m) + x == IntText(n) + y
    ensures m == n && x == y
  {
    IntTextStarts(m);
    IntTextStarts(n);
    HeadOf(IntText(m), x);
    HeadOf(IntText(n), y);
    if m < 0 {
      Regroup("-", NatText(-m), x);
      Regroup("-", NatText(-n), y);
      Cancel("-", "-", NatText(-m) + x, NatText(-n) + y);
      NatUnique(-m, -n, x, y);
    } else {
      NatUnique(m, n, x, y);
    }
  }

  /** The first character of a value's text gives away its constructor. */
  function Kind(v: Json): char {
    match v
    case Null => 'n'
    case Bool(b) => if b then 't' else 'f'
    case Num(_) => '0'
    case Str(_) => '\"'
    case Arr(_) => '['
    case Obj(_) => '{'
  }

  lemma TextStarts(v: Json)
    ensures Text(v) != ""
    ensures if v.Num? then Text(v)[0] == '-' || IsDigit(Text(v)[0]) else Text(v)[0] == Kind(v)
  {
    if v.Num? { IntTextStarts(v.n); }
  }

  lemma SameKind(v: Json, w: Json, x: string, y: string)
    requires Text(v) + x == Text(w) + y
    ensures Kind(v) == Kind(w)
  {
    TextStarts(v);
    TextStarts(w);
    HeadOf(Text(v), x);
    HeadOf(Text(w), y);
  }

  // ---------------------------------------------------------------------------
  // Unique readability of values

  /** Two texts with remainders, which must be separators where the values are numbers, agree only if the values
      and the remainders agree. */
  lemma {:induction false} TextUnique(v: Json, w: Json, x: string, y: string)
    requires (v.Num? ==> Ends(x)) && (w.Num? ==> Ends(y)) && Text(v) + x == Text(w) + y
    ensures v == w && x == y
    decreases v, 0
  {
    SameKind(v, w, x, y);
    match v {
      case Null => Cancel(Text(v), Text(w), x, y);
      case Bool(_) => Cancel(Text(v), Text(w), x, y);
      case Num(n) => IntUnique(n, w.n, x, y);
      case Str(s) => StrUnique(s, w.s, x, y);
      case Arr(items) =>
        Regroup("[", ItemsText(items), x);
        Regroup("[", ItemsText(w.items), y);
        Cancel("[", "[", ItemsText(items) + x, ItemsText(w.items) + y);
        ItemsUnique(items, w.items, x, y);
      case Obj(members) =>
        Regroup("{", MembersText(members), x);
        Regroup("{", MembersText(w.members), y);
        Cancel("{", "{", MembersText(members) + x, MembersText(w.members) + y);
        MembersUnique(members, w.members, x, y);
    }
  }

  lemma StrUnique(s: string, t: string, x: string, y: string)
    requires Quote(s) + x == Quote(t) + y
    ensures s == t && x == y
  {
    Regroup("\"" + EscapeAll(s), "\"", x);
    Regroup("\"", EscapeAll(s), "\"" + x);
    Regroup("\"" + EscapeAll(t), "\"", y);
    Regroup("\"", EscapeAll(t), "\"" + y);
    Cancel("\"", "\"", EscapeAll(s) + ("\"" + x), EscapeAll(t) + ("\"" + y));
    QuotedUnique(s, t, x, y);
  }

  lemma SepUnique(m: nat, n: nat, l: string, r: string)
    requires Sep(m) + l == Sep(n) + r
    requires m == 1 ==> l != "" && l[0] != ','
    requires n == 1 ==> r != "" && r[0] != ','
    ensures (m == 1 <==> n == 1) && l == r
  {
    assert (Sep(m) + l)[0] == if m == 1 then l[0] else ',';
    assert (Sep(n) + r)[0] == if n == 1 then r[0] else ',';
    Cancel(Sep(m), Sep(n), l, r);
  }

  lemma ItemsHead(vs: seq<Json>, x: string)
    ensures ItemsText(vs) + x != "" && ((ItemsText(vs) + x)[0] == ']' <==> vs == [])
  {
    if vs != [] {
      TextStarts(vs[0]);
      HeadOf(Text(vs[0]), Sep(|vs|) + ItemsText(vs[1..]) + x);
    }
  }

  lemma ItemsSplit(vs: seq<Json>, x: string)
    requires vs != []
    ensures ItemsText(vs) + x == Text(vs[0]) + (Sep(|vs|) + (ItemsText(vs[1..]) + x))
    ensures Ends(Sep(|vs|) + (ItemsText(vs[1..]) + x))
  {
    ItemsHead(vs[1..], x);
    Regroup(Text(vs[0]) + Sep(|vs|), ItemsText(vs[1..]), x);
    Regroup(Text(vs[0]), Sep(|vs|), ItemsText(vs[1..]) + x);
  }

  lemma {:induction false} ItemsUnique(vs: seq<Json>, ws: seq<Json>, x: string, y: string)
    requires ItemsText(vs) + x == ItemsText(ws) + y
    ensures vs == ws && x == y
    decreases vs, 1
  {
    ItemsHead(vs, x);
    ItemsHead(ws, y);
    if vs == [] {
      Cancel("]", "]", x, y);
    } else {
      ItemsSplit(vs, x);
      ItemsSplit(ws, y);
      var l, r := ItemsText(vs[1..]) + x, ItemsText(ws[1..]) + y;
      TextUnique(vs[0], ws[0], Sep(|vs|) + l, Sep(|ws|) + r);
      ItemsHead(vs[1..], x);
      ItemsHead(ws[1..], y);
      SepUnique(|vs|, |ws|, l, r);
      ItemsUnique(vs[1..], ws[1..], x, y);
      assert vs == [vs[0]] + vs[1..] && ws == [ws[0]] + ws[1..];
    }
  }

  lemma MembersHead(vs: seq<Pair<Json>>, x: string)
    ensures MembersText(vs) + x != "" && (MembersText(vs) + x)[0] == if vs == [] then '}' else '\"'
  {
  }

  lemma MembersSplit(vs: seq<Pair<Json>>, x: string)
    requires vs != []
    ensures MembersText(vs) + x
         == Quote(vs[0].key) + (":" + (Text(vs[0].value) + (Sep(|vs|) + (MembersText(vs[1..]) + x))))
    ensures Ends(Sep(|vs|) + (MembersText(vs[1..]) + x))
  {
    MembersHead(vs[1..], x);
    var q, t, s, r := Quote(vs[0].key), Text(vs[0].value), Sep(|vs|), MembersText(vs[1..]);
    Regroup(q + ":" + t + s, r, x);
    Regroup(q + ":" + t, s, r + x);
    Regroup(q + ":", t, s + (r + x));
    Regroup(q, ":", t + (s + (r + x)));
  }

  lemma {:induction false} MembersUnique(vs: seq<Pair<Json>>, ws: seq<Pair<Json>>, x: string, y: string)
    requires MembersText(vs) + x == MembersText(ws) + y
    ensures vs == ws && x == y
    decreases vs, 1
  {
    MembersHead(vs, x);
    MembersHead(ws, y);
    if vs == [] {
      Cancel("}", "}", x, y);
    } else {
      MembersSplit(vs, x);
      MembersSplit(ws, y);
      var l, r := MembersText(vs[1..]) + x, MembersText(ws[1..]) + y;
      var lv, rv := Text(vs[0].value) + (Sep(|vs|) + l), Text(ws[0].value) + (Sep(|ws|) + r);
      StrUnique(vs[0].key, ws[0].key, ":" + lv, ":" + rv);
      Cancel(":", ":", lv, rv);
      TextUnique(vs[0].value, ws[0].value, Sep(|vs|) + l, Sep(|ws|) + r);
      MembersHead(vs[1..], x);
      MembersHead(ws[1..], y);
      SepUnique(|vs|, |ws|, l, r);
      MembersUnique(vs[1..], ws[1..], x, y);
      assert vs == [vs[0]] + vs[1..] && ws == [ws[0]] + ws[1..];
    }
  }

  // ---------------------------------------------------------------------------
  // The sorted form identifies exactly the equal dictionaries

  lemma {:induction false} CanonItemsAt(items: seq<Json>)
    ensures |CanonItems(items)| == |items|
    ensures forall i :: 0 <= i < |items| ==> CanonItems(items)[i] == Canon(items[i])
  {
    if items != [] { CanonItemsAt(items[1..]); }
  }

  lemma {:induction false} CanonMembersAt(ms: seq<Pair<Json>>)
    ensures |CanonMembers(ms)| == |ms|
    ensures forall i :: 0 <= i < |ms| ==> CanonMembers(ms)[i] == Pair(ms[i].key, Canon(ms[i].value))
  {
    if ms != [] { CanonMembersAt(ms[1..]); }
  }

  lemma {:induction false} CanonSame(v: Json, w: Json)
    requires WellFormed(v) && WellFormed(w)
    ensures Canon(v) == Canon(w) <==> Same(v, w)
    decreases v
  {
    if v.Arr? && w.Arr? && |v.items| == |w.items| {
      forall i | 0 <= i < |v.items| ensures Canon(v.items[i]) == Canon(w.items[i]) <==> Same(v.items[i], w.items[i]) {
        CanonSame(v.items[i], w.items[i]);
      }
      CanonItemsAt(v.items);
      CanonItemsAt(w.items);
    } else if v.Obj? && w.Obj? {
      CanonSameMembers(v, w);
    } else if v.Arr? && w.Arr? {
      CanonItemsAt(v.items);
      CanonItemsAt(w.items);
    }
  }

  lemma {:induction false} CanonSameMembers(v: Json, w: Json)
    requires v.Obj? && w.Obj? && WellFormed(v) && WellFormed(w)
    ensures Canon(v) == Canon(w) <==> Same(v, w)
    decreases v, 0
  {
    var p, q := CanonMembers(v.members), CanonMembers(w.members);
    CanonMembersAt(v.members);
    CanonMembersAt(w.members);
    SortsAgree(p, q);
    forall i | 0 <= i < |p| ensures p[i] in q <==> SameMember(v.members[i], w.members) {
      CanonMemberFound(v, w, i);
    }
  }

  lemma {:induction false} CanonMemberFound(v: Json, w: Json, i: nat)
    requires v.Obj? && w.Obj? && WellFormed(v) && WellFormed(w) && i < |v.members|
    ensures i < |CanonMembers(v.members)|
    ensures CanonMembers(v.members)[i] in CanonMembers(w.members) <==> SameMember(v.members[i], w.members)
    decreases v.members[i]
  {
    var a, b := v.members, w.members;
    var p, q := CanonMembers(a), CanonMembers(b);
    CanonMembersAt(a);
    CanonMembersAt(b);
    forall j | 0 <= j < |b| ensures Canon(a[i].value) == Canon(b[j].value) <==> Same(a[i].value, b[j].value) {
      CanonSame(a[i].value, b[j].value);
    }
    if p[i] in q {
      var j :| 0 <= j < |q| && q[j] == p[i];
      assert a[i].key == b[j].key;
    }
    if SameMember(a[i], b) {
      var j :| 0 <= j < |b| && a[i].key == b[j].key && Same(a[i].value, b[j].value);
      assert q[j] == p[i];
    }
  }

  /** Two dictionaries sort alike exactly when they hold the same associations. */
  lemma SortsAgree(p: seq<Pair<Json>>, q: seq<Pair<Json>>)
    requires DistinctKeys(p) && DistinctKeys(q)
    ensures SortByKey(p) == SortByKey(q) <==> |p| == |q| && forall i :: 0 <= i < |p| ==> p[i] in q
  {
    SortSpec(p);
    SortSpec(q);
    if SortByKey(p) == SortByKey(q) {
      forall i | 0 <= i < |p| ensures p[i] in q { assert p[i] in SortByKey(q); }
    }
    if |p| == |q| && forall i :: 0 <= i < |p| ==> p[i] in q {
      EqualSizeSubset(p, q);
      SortedUnique(SortByKey(p), SortByKey(q));
    }
  }

  /** Distinct associations included in as many others are all of them. */
  lemma EqualSizeSubset(p: seq<Pair<Json>>, q: seq<Pair<Json>>)
    requires DistinctKeys(p) && DistinctKeys(q) && |p| == |q|
    requires forall x :: x in p ==> x in q
    ensures forall x :: x in q ==> x in p
  {
    var sp, sq := set x | x in p, set x | x in q;
    DistinctCount(p);
    DistinctCount(q);
    assert sp <= sq;
    if sp != sq { SmallerSubset(sp, sq); }
    forall x | x in q ensures x in p { assert x in sq; }
  }

  lemma SmallerSubset<T>(s: set<T>, t: set<T>)
    requires s < t
    ensures |s| < |t|
  {
    assert t == s + (t - s);
    assert |t| == |s| + |t - s|;
    var x :| x in t - s;
  }

  lemma {:induction false} DistinctCount<V>(p: seq<Pair<V>>)
    requires DistinctKeys(p)
    ensures |set x | x in p| == |p|
  {
    if p != [] {
      DistinctCount(p[1..]);
      assert p[0] !in p[1..];
      assert (set x | x in p) == {p[0]} + (set x | x in p[1..]);
    }
  }

  /** canonical_json is injective up to dictionary equality, and blind to key order. */
  lemma EncodeCanonical(v: Json, w: Json)
    requires WellFormed(v) && WellFormed(w)
    ensures Encode(v) == Encode(w) <==> Same(v, w)
  {
    CanonSame(v, w);
    if Encode(v) == Encode(w) {
      Utf8AllInjective(Text(Canon(v)), Text(Canon(w)));
      assert Text(Canon(v)) + "" == Text(Canon(w)) + "";
      TextUnique(Canon(v), Canon(w), "", "");
    }
  }

  /** Both dictionaries hold equal values under every key of the first. */
  ghost predicate EqualAt(v: seq<Pair<Json>>, w: seq<Pair<Json>>) {
    forall k | k in Keys(v) :: Get(v, k).Some? && Get(w, k).Some? && Same(Get(v, k).value, Get(w, k).value)
  }

  lemma SameHasKeys(v: seq<Pair<Json>>, w: seq<Pair<Json>>)
    requires DistinctKeys(v) && DistinctKeys(w) && Same(Obj(v), Obj(w))
    ensures Keys(v) == Keys(w) && EqualAt(v, w)
  {
    hide Get;
    KeysCount(v);
    KeysCount(w);
    forall k | k in Keys(v)
      ensures k in Keys(w) && Get(v, k).Some? && Get(w, k).Some? && Same(Get(v, k).value, Get(w, k).value)
    {
      var i :| 0 <= i < |v| && v[i].key == k;
      assert SameMember(v[i], w);
      var j :| 0 <= j < |w| && k == w[j].key && Same(v[i].value, w[j].value);
      GetAt(v, i);
      GetAt(w, j);
    }
    assert Keys(v) <= Keys(w);
    if Keys(v) != Keys(w) { SmallerSubset(Keys(v), Keys(w)); }
  }

  /** Equal objects have the same keys, with equal values. */
  lemma SameByKeys(v: Json, w: Json)
    requires v.Obj? && w.Obj? && DistinctKeys(v.members) && DistinctKeys(w.members)
    ensures Same(v, w) <==> Keys(v.members) == Keys(w.members) && EqualAt(v.members, w.members)
  {
    hide Get;
    KeysCount(v.members);
    KeysCount(w.members);
    if Same(v, w) { SameHasKeys(v.members, w.members); }
    if Keys(v.members) == Keys(w.members) && EqualAt(v.members, w.members) {
      forall i | 0 <= i < |v.members| ensures SameMember(v.members[i], w.members) {
        var k := v.members[i].key;
        assert k in Keys(v.members);
        var j :| 0 <= j < |w.members| && w.members[j].key == k;
        GetAt(v.members, i);
        GetAt(w.members, j);
      }
    }
  }

  /** A well-formed dictionary holds well-formed values. */
  lemma GetWellFormed(d: seq<Pair<Json>>, key: string)
    requires WellFormed(Obj(d)) && Get(d, key).Some?
    ensures WellFormed(Get(d, key).value)
  {
    GetFinds(d, key);
    var i :| 0 <= i < |d| && d[i] == Pair(key, Get(d, key).value);
    assert WellFormed(d[i].value);
  }

  // ---------------------------------------------------------------------------
  // Dictionaries by their keys

  /** A dictionary, by its keys and its values. */
  function Table(names: seq<string>, values: seq<Json>): Json
    requires |names| == |values|
  {
    Obj(seq(|names|, i requires 0 <= i < |names| => Pair(names[i], values[i])))
  }

  lemma TableAt(names: seq<string>, values: seq<Json>, i: nat)
    requires |names| == |values| && i < |names| && forall j, k | 0 <= j < k < |names| :: names[j] != names[k]
    ensures At(Table(names, values), names[i]) == Some(values[i])
  {
    GetAt(Table(names, values).members, i);
  }

  lemma TableWellFormed(names: seq<string>, values: seq<Json>)
    requires |names| == |values| && forall j, k | 0 <= j < k < |names| :: names[j] != names[k]
    requires forall i | 0 <= i < |values| :: WellFormed(values[i])
    ensures WellFormed(Table(names, values))
  {
    var ms := Table(names, values).members;
    assert forall i | 0 <= i < |ms| :: ms[i].value == values[i];
  }
}
