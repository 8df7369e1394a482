/** Values every component shares: bytes, optional results, and dictionaries. */
module Base {

  type byte = x: int | 0 <= x < 256
  type bytes = seq<byte>

  datatype Option<+T> = None | Some(value: T)

  datatype Result<+T, +E> = Ok(value: T) | Err(error: E)

  /** The outcome of a check that rejects by raising: it passes, or fails with the message. */
  datatype Outcome = Pass | Fail(message: string) {
    predicate IsFailure() { Fail? }

    function PropagateFailure(): Outcome
      requires Fail?
    {
      this
    }
  }

  function Need(condition: bool, message: string): (r: Outcome)
    ensures r.Pass? <==> condition
  {
    if condition then Pass else Fail(message)
  }

  predicate IsHex(c: char) {
    '0' <= c <= '9' || 'a' <= c <= 'f'
  }

  /** sha256:[0-9a-f]{64} */
  predicate IsDigest(s: string) {
    |s| == 71 && s[..7] == "sha256:" && forall i | 7 <= i < 71 :: IsHex(s[i])
  }

  // ---------------------------------------------------------------------------
  // Dictionaries: insertion-ordered associations whose keys are distinct.

  datatype Pair<+V> = Pair(key: string, value: V)

  predicate DistinctKeys<V>(d: seq<Pair<V>>) {
    forall i, j :: 0 <= i < j < |d| ==> d[i].key != d[j].key
  }

  predicate HasKey<V>(d: seq<Pair<V>>, key: string) {
    exists i :: 0 <= i < |d| && d[i].key == key
  }

  function Keys<V>(d: seq<Pair<V>>): set<string> {
    set i | 0 <= i < |d| :: d[i].key
  }

  function Get<V>(d: seq<Pair<V>>, key: string): Option<V> {
    if d == [] then None
    else if d[0].key == key then Some(d[0].value)
    else Get(d[1..], key)
  }

  /** Dictionary assignment: an existing key keeps its place, a new one goes last. */
  function Put<V>(d: seq<Pair<V>>, key: string, value: V): seq<Pair<V>> {
    if d == [] then [Pair(key, value)]
    else if d[0].key == key then [Pair(key, value)] + d[1..]
    else [d[0]] + Put(d[1..], key, value)
  }

  lemma {:induction false} GetFinds<V>(d: seq<Pair<V>>, key: string)
    ensures Get(d, key).Some? <==> HasKey(d, key)
    ensures Get(d, key).Some? ==> Pair(key, Get(d, key).value) in d
  {
    if d != [] {
      GetFinds(d[1..], key);
      if d[0].key != key && HasKey(d, key) {
        var i :| 0 <= i < |d| && d[i].key == key;
        assert d[1..][i - 1].key == key;
      }
    }
  }

  lemma {:induction false} GetAt<V>(d: seq<Pair<V>>, i: nat)
    requires DistinctKeys(d) && i < |d|
    ensures Get(d, d[i].key) == Some(d[i].value)
  {
    if i > 0 {
      assert d[1..][i - 1] == d[i];
      GetAt(d[1..], i - 1);
    }
  }

  lemma {:induction false} PutSpec<V>(d: seq<Pair<V>>, key: string, value: V)
    ensures Get(Put(d, key, value), key) == Some(value)
    ensures forall k :: k != key ==> Get(Put(d, key, value), k) == Get(d, k)
    ensures forall k :: HasKey(Put(d, key, value), k) <==> k == key || HasKey(d, k)
    ensures DistinctKeys(d) ==> DistinctKeys(Put(d, key, value))
    ensures |d| <= |Put(d, key, value)| <= |d| + 1
  {
    var r := Put(d, key, value);
    if d == [] {
      assert r[0].key == key;
    } else if d[0].key == key {
      assert r[1..] == d[1..] && r[0].key == key;
      forall k ensures HasKey(r, k) <==> k == key || HasKey(d, k) {
        if HasKey(r, k) { var i :| 0 <= i < |r| && r[i].key == k; assert i > 0 ==> d[i].key == k; }
        if HasKey(d, k) { var i :| 0 <= i < |d| && d[i].key == k; assert r[i].key == k; }
      }
    } else {
      PutSpec(d[1..], key, value);
      assert r[1..] == Put(d[1..], key, value) && r[0] == d[0];
      forall k ensures HasKey(r, k) <==> k == key || HasKey(d, k) {
        HasKeyUncons(r, k);
        HasKeyUncons(d, k);
      }
      if DistinctKeys(d) {
        forall i, j | 0 <= i < j < |r| ensures r[i].key != r[j].key {
          if i == 0 {
            assert HasKey(r[1..], r[j].key) by { assert r[1..][j - 1] == r[j]; }
            assert forall m :: 0 <= m < |d[1..]| ==> d[1..][m] == d[m + 1];
          } else {
            assert r[1..][i - 1] == r[i] && r[1..][j - 1] == r[j];
          }
        }
      }
    }
  }

  lemma GetPut<V>(d: seq<Pair<V>>, key: string, value: V, k: string)
    ensures Get(Put(d, key, value), k) == if k == key then Some(value) else Get(d, k)
  {
    PutSpec(d, key, value);
  }

  lemma HasKeyUncons<V>(d: seq<Pair<V>>, key: string)
    requires d != []
    ensures HasKey(d, key) <==> d[0].key == key || HasKey(d[1..], key)
  {
    if HasKey(d[1..], key) {
      var i :| 0 <= i < |d[1..]| && d[1..][i].key == key;
      assert d[i + 1].key == key;
    }
    if HasKey(d, key) {
      var i :| 0 <= i < |d| && d[i].key == key;
      assert i > 0 ==> d[1..][i - 1].key == key;
    }
  }

  // ---------------------------------------------------------------------------
  // Sorting by key, as sorted() and sort_keys=True do: code point order.

  predicate KeyLess(a: string, b: string) {
    b != "" && (a == "" || a[0] < b[0] || (a[0] == b[0] && KeyLess(a[1..], b[1..])))
  }

  lemma {:induction false} KeyLessTotal(a: string, b: string)
    ensures KeyLess(a, b) || a == b || KeyLess(b, a)
    ensures !(KeyLess(a, b) && (a == b || KeyLess(b, a)))
  {
    if a != "" && b != "" && a[0] == b[0] {
      KeyLessTotal(a[1..], b[1..]);
      assert a == [a[0]] + a[1..] && b == [b[0]] + b[1..];
    }
  }

  lemma {:induction false} KeyLessTransitive(a: string, b: string, c: string)
    requires KeyLess(a, b) && KeyLess(b, c)
    ensures KeyLess(a, c)
  {
    if a != "" && a[0] == b[0] && b[0] == c[0] {
      KeyLessTransitive(a[1..], b[1..], c[1..]);
    }
  }

  predicate SortedByKey<V>(d: seq<Pair<V>>) {
    forall i, j :: 0 <= i < j < |d| ==> KeyLess(d[i].key, d[j].key)
  }

  function Insert<V>(p: Pair<V>, d: seq<Pair<V>>): seq<Pair<V>> {
    if d == [] || !KeyLess(d[0].key, p.key) then [p] + d
    else [d[0]] + Insert(p, d[1..])
  }

  function SortByKey<V>(d: seq<Pair<V>>): seq<Pair<V>> {
    if d == [] then [] else Insert(d[0], SortByKey(d[1..]))
  }

  lemma {:induction false} InsertPermutes<V>(p: Pair<V>, d: seq<Pair<V>>)
    ensures multiset(Insert(p, d)) == multiset{p} + multiset(d)
  {
    hide KeyLess;
    if d != [] && KeyLess(d[0].key, p.key) {
      InsertPermutes(p, d[1..]);
      assert d == [d[0]] + d[1..] && Insert(p, d) == [d[0]] + Insert(p, d[1..]);
    }
  }

  lemma InsertMember<V>(p: Pair<V>, d: seq<Pair<V>>, x: Pair<V>)
    ensures x in Insert(p, d) <==> x == p || x in d
  {
    InsertPermutes(p, d);
    assert x in Insert(p, d) <==> x in multiset(Insert(p, d));
  }

  lemma {:induction false} InsertOrders<V>(p: Pair<V>, d: seq<Pair<V>>)
    requires SortedByKey(d) && !HasKey(d, p.key)
    ensures SortedByKey(Insert(p, d))
  {
    hide KeyLess;
    var r := Insert(p, d);
    if d == [] {
    } else if !KeyLess(d[0].key, p.key) {
      assert r[1..] == d;
      KeyLessTotal(p.key, d[0].key);
      forall i, j | 0 <= i < j < |r| ensures KeyLess(r[i].key, r[j].key) {
        if i == 0 && j > 1 { KeyLessTransitive(p.key, d[0].key, d[j - 1].key); }
      }
    } else {
      var rest := Insert(p, d[1..]);
      HasKeyUncons(d, p.key);
      InsertOrders(p, d[1..]);
      forall i, j | 0 <= i < j < |r| ensures KeyLess(r[i].key, r[j].key) {
        assert r[j] == rest[j - 1];
        if i == 0 {
          InsertMember(p, d[1..], rest[j - 1]);
        } else {
          assert rest[i - 1] == r[i];
        }
      }
    }
  }

  lemma {:induction false} SortPermutes<V>(d: seq<Pair<V>>)
    ensures multiset(SortByKey(d)) == multiset(d)
  {
    if d != [] {
      SortPermutes(d[1..]);
      InsertPermutes(d[0], SortByKey(d[1..]));
      assert d == [d[0]] + d[1..];
    }
  }

  lemma SortMember<V>(d: seq<Pair<V>>, p: Pair<V>)
    ensures p in SortByKey(d) <==> p in d
  {
    SortPermutes(d);
    assert p in SortByKey(d) <==> p in multiset(SortByKey(d));
  }

  lemma {:induction false} SortOrders<V>(d: seq<Pair<V>>)
    requires DistinctKeys(d)
    ensures SortedByKey(SortByKey(d))
  {
    if d != [] {
      var rest := SortByKey(d[1..]);
      SortOrders(d[1..]);
      forall i | 0 <= i < |rest| ensures rest[i].key != d[0].key {
        SortMember(d[1..], rest[i]);
        var j :| 0 <= j < |d[1..]| && d[1..][j] == rest[i];
        assert d[j + 1] == rest[i];
      }
      InsertOrders(d[0], rest);
    }
  }

  /** Sorting permutes, and orders distinct keys strictly. */
  lemma SortSpec<V>(d: seq<Pair<V>>)
    ensures |SortByKey(d)| == |d|
    ensures forall p :: p in SortByKey(d) <==> p in d
    ensures DistinctKeys(d) ==> SortedByKey(SortByKey(d))
  {
    SortPermutes(d);
    assert |multiset(SortByKey(d))| == |SortByKey(d)|;
    forall p ensures p in SortByKey(d) <==> p in d { SortMember(d, p); }
    if DistinctKeys(d) { SortOrders(d); }
  }

  lemma GetIffMember<V>(d: seq<Pair<V>>, key: string, value: V)
    requires DistinctKeys(d)
    ensures Get(d, key) == Some(value) <==> Pair(key, value) in d
  {
    GetFinds(d, key);
    if Pair(key, value) in d {
      var i :| 0 <= i < |d| && d[i] == Pair(key, value);
      GetAt(d, i);
    }
  }

  /** Sorting a dictionary does not change what it maps. */
  lemma GetSorted<V>(d: seq<Pair<V>>, key: string)
    requires DistinctKeys(d)
    ensures DistinctKeys(SortByKey(d)) && Get(SortByKey(d), key) == Get(d, key)
  {
    var s := SortByKey(d);
    SortSpec(d);
    forall i, j | 0 <= i < j < |s| ensures s[i].key != s[j].key { KeyLessTotal(s[i].key, s[j].key); }
    if Get(d, key).Some? {
      GetIffMember(d, key, Get(d, key).value);
      GetIffMember(s, key, Get(d, key).value);
    } else if Get(s, key).Some? {
      GetIffMember(s, key, Get(s, key).value);
      GetIffMember(d, key, Get(s, key).value);
    }
  }

  /** A set of associations has one sorted listing. */
  lemma {:induction false} SortedUnique<V>(p: seq<Pair<V>>, q: seq<Pair<V>>)
    requires SortedByKey(p) && SortedByKey(q)
    requires forall x :: x in p <==> x in q
    ensures p == q
  {
    if p != [] { assert p[0] in q; }
    if q != [] { assert q[0] in p; }
    if p != [] {
      KeyLessTotal(p[0].key, q[0].key);
      assert p[0] == q[0];
      SortedDropsHead(p);
      SortedDropsHead(q);
      forall x ensures x in p[1..] <==> x in q[1..] {
        assert x in p <==> x == p[0] || x in p[1..];
        assert x in q <==> x == q[0] || x in q[1..];
      }
      SortedUnique(p[1..], q[1..]);
      assert p == [p[0]] + p[1..] && q == [q[0]] + q[1..];
    }
  }

  lemma SortedDropsHead<V>(p: seq<Pair<V>>)
    requires SortedByKey(p) && p != []
    ensures SortedByKey(p[1..]) && p[0] !in p[1..]
  {
    if p[0] in p[1..] {
      var i :| 0 <= i < |p[1..]| && p[1..][i] == p[0];
      assert KeyLess(p[0].key, p[i + 1].key);
      KeyLessTotal(p[0].key, p[0].key);
    }
  }

  /** Keys are distinct exactly when there are as many as entries. */
  lemma {:induction false} KeysCount<V>(d: seq<Pair<V>>)
    ensures DistinctKeys(d) <==> |Keys(d)| == |d|
    ensures |Keys(d)| <= |d|
  {
    if d == [] {
      assert Keys(d) == {};
    } else {
      var rest := d[1..];
      KeysCount(rest);
      assert Keys(d) == {d[0].key} + Keys(rest) by {
        forall k | k in Keys(d) ensures k == d[0].key || k in Keys(rest) {
          var i :| 0 <= i < |d| && d[i].key == k;
          if i > 0 { assert rest[i - 1].key == k; }
        }
        forall k | k in Keys(rest) ensures k in Keys(d) {
          var i :| 0 <= i < |rest| && rest[i].key == k;
          assert d[i + 1].key == k;
        }
      }
      if d[0].key in Keys(rest) {
        var i :| 0 <= i < |rest| && rest[i].key == d[0].key;
        assert d[i + 1].key == d[0].key;
        assert Keys(d) == Keys(rest);
      } else {
        assert |Keys(d)| == 1 + |Keys(rest)|;
        if DistinctKeys(rest) {
          forall i, j | 0 <= i < j < |d| ensures d[i].key != d[j].key {
            assert rest[j - 1] == d[j];
            if i > 0 { assert rest[i - 1] == d[i]; }
          }
        }
      }
    }
  }

  /** A dictionary holds a value under each of its keys. */
  lemma KeysGet<V>(d: seq<Pair<V>>, key: string)
    requires key in Keys(d)
    ensures Get(d, key).Some?
  {
    GetFinds(d, key);
  }

  /** The dictionary without one key. */
  function Without<V>(d: seq<Pair<V>>, key: string): seq<Pair<V>> {
    if d == [] then []
    else if d[0].key == key then Without(d[1..], key)
    else [d[0]] + Without(d[1..], key)
  }

  lemma {:induction false} WithoutMember<V>(d: seq<Pair<V>>, key: string, p: Pair<V>)
    ensures p in Without(d, key) <==> p in d && p.key != key
  {
    if d != [] {
      WithoutMember(d[1..], key, p);
      assert d == [d[0]] + d[1..];
    }
  }

  lemma {:induction false} WithoutSpec<V>(d: seq<Pair<V>>, key: string)
    ensures forall p :: p in Without(d, key) <==> p in d && p.key != key
    ensures DistinctKeys(d) ==> DistinctKeys(Without(d, key))
    ensures DistinctKeys(d) ==> |Without(d, key)| == |d| - (if HasKey(d, key) then 1 else 0)
  {
    if d != [] {
      WithoutSpec(d[1..], key);
      HasKeyUncons(d, key);
      forall p ensures p in Without(d, key) <==> p in d && p.key != key { WithoutMember(d, key, p); }
      assert forall i :: 0 <= i < |d[1..]| ==> d[1..][i] == d[i + 1];
      if DistinctKeys(d) && d[0].key != key {
        var r := Without(d[1..], key);
        forall i | 0 <= i < |r| ensures r[i].key != d[0].key {
          WithoutMember(d[1..], key, r[i]);
          var j :| 0 <= j < |d[1..]| && d[1..][j] == r[i];
          assert d[j + 1].key != d[0].key;
        }
      }
    }
  }

  lemma {:induction false} WithoutLast<V>(d: seq<Pair<V>>, key: string, value: V)
    requires !HasKey(d, key)
    ensures Without(d + [Pair(key, value)], key) == d
  {
    var e := d + [Pair(key, value)];
    if d == [] {
      assert e[1..] == [];
    } else {
      assert e[1..] == d[1..] + [Pair(key, value)];
      HasKeyUncons(d, key);
      WithoutLast(d[1..], key, value);
    }
  }
}
