/** Building the verifier-host bundle and checking it at the other end. */
module HostTransfer {
  import opened Base
  import opened CanonicalJson
  import opened HostBundle
  import opened ImageArchive
  import IC = ImportClosure

  /** A source tree: the import structure, each module's file, and what can be read of a file. A path with
      a NUL character, or a file over the limit, cannot be read. */
  datatype Tree = Tree(project: IC.Project, file: IC.Name -> string, content: string -> Option<bytes>)

  function ReadFile(t: Tree, name: string): Option<bytes> {
    if '\0' !in name && t.content(name).Some? && |t.content(name).value| <= MAX_MEMBER_BYTES
    then t.content(name) else None
  }

  /** A path below the root, none of whose components is empty, "." or "..". */
  predicate NormalName(name: string) {
    PosixName(name) && name != "."
  }

  /** What every source tree is like: the walk that finds the modules gives normal names, and what can be read as
      a file is not also a directory on the way to another. */
  ghost predicate TreeLaw(t: Tree) {
    (forall n | n in t.project.index :: NormalName(t.file(n))) &&
    forall a, b | a != b && NormalName(a) && NormalName(b) && ReadFile(t, a).Some? && ReadFile(t, b).Some? ::
      !(Split(a) <= Split(b))
  }

  /** What run_transfer passes on: the archive, its hash, and the two counts. */
  datatype Bundle = Bundle(archive: bytes, digest: string, count: nat, size: nat)

  // ---------------------------------------------------------------------------
  // What the builder is to produce

  const FIXED_FILES: seq<string> := [LAUNCHER, REQUIREMENTS, CHECKPOINT, OBSERVATION]

  /** The files of a bundle: the fixed ones and one for each needed module, as read. */
  ghost predicate Listing(t: Tree, needed: set<IC.Name>, members: seq<Pair<bytes>>) {
    IC.IsNeeded(IC.GraphOf(t.project), needed) && |members| == |FIXED_FILES| + |needed| &&
    (forall p | p in members :: ReadFile(t, p.key) == Some(p.value) && Owned(t, needed, p.key)) &&
    (forall k | k in FIXED_FILES :: HasKey(members, k)) &&
    (forall n | n in needed :: HasKey(members, t.file(n)))
  }

  ghost predicate Owned(t: Tree, needed: set<IC.Name>, key: string) {
    key in FIXED_FILES || exists n :: n in needed && t.file(n) == key
  }

  /** The same in order of name, each name once, and every needed module includable. */
  ghost predicate Sources(t: Tree, needed: set<IC.Name>, members: seq<Pair<bytes>>) {
    IC.Includable(IC.GraphOf(t.project)) && Listing(t, needed, members) && SortedByKey(members)
  }

  predicate Fits(members: seq<Pair<bytes>>) {
    |members| <= MAX_MEMBERS && Volume(members) <= MAX_SOURCE_BYTES &&
    forall i | 0 <= i < |members| :: |members[i].value| <= MAX_MEMBER_BYTES && BuilderAllows(members[i].key)
  }

  function BundleItems(h: Host, members: seq<Pair<bytes>>): seq<Item> {
    ItemsOf(members + [Pair(MANIFEST, ManifestBytes(h, members))])
  }

  predicate Emits(h: Host, members: seq<Pair<bytes>>, b: Bundle) {
    Fits(members) && |ManifestBytes(h, members)| <= MAX_MANIFEST_BYTES &&
    h.pack(BundleItems(h, members)) == Some(b.archive) && 0 < |b.archive| <= MAX_ARCHIVE_BYTES &&
    b.digest == h.sha(b.archive) && b.count == |members| && b.size == Volume(members)
  }

  ghost predicate Buildable(h: Host, t: Tree, needed: set<IC.Name>, members: seq<Pair<bytes>>, b: Bundle) {
    Sources(t, needed, members) && Emits(h, members, b)
  }

  /** One tree has one bundle. */
  lemma BundleUnique(h: Host, t: Tree, n: set<IC.Name>, m: set<IC.Name>,
                     p: seq<Pair<bytes>>, q: seq<Pair<bytes>>, b: Bundle, c: Bundle)
    requires Buildable(h, t, n, p, b) && Buildable(h, t, m, q, c)
    ensures p == q && b == c
  {
    SourcesUnique(t, n, m, p, q);
  }

  lemma SourcesUnique(t: Tree, n: set<IC.Name>, m: set<IC.Name>, p: seq<Pair<bytes>>, q: seq<Pair<bytes>>)
    requires Sources(t, n, p) && Sources(t, m, q)
    ensures p == q
  {
    IC.NeededUnique(IC.GraphOf(t.project), n, m);
    forall x ensures x in p <==> x in q {
      if x in p { SourceShared(t, n, p, q, x); }
      if x in q { SourceShared(t, n, q, p, x); }
    }
    SortedUnique(p, q);
  }

  lemma SourceShared(t: Tree, n: set<IC.Name>, p: seq<Pair<bytes>>, q: seq<Pair<bytes>>, x: Pair<bytes>)
    requires Sources(t, n, p) && Sources(t, n, q) && x in p
    ensures x in q
  {
    assert Owned(t, n, x.key);
    assert HasKey(q, x.key);
    var i :| 0 <= i < |q| && q[i].key == x.key;
    assert q[i] in q;
  }

  // ---------------------------------------------------------------------------
  // The builder

  /** The contents of the listed files; None when one cannot be read. */
  method ReadAll(t: Tree, names: seq<string>) returns (r: Option<seq<Pair<bytes>>>)
    ensures r.None? <==> exists i :: 0 <= i < |names| && ReadFile(t, names[i]).None?
    ensures r.Some? ==> |r.value| == |names|
    ensures r.Some? ==> forall i :: 0 <= i < |names| ==>
      r.value[i].key == names[i] && ReadFile(t, names[i]) == Some(r.value[i].value)
  {
    var files: seq<Pair<bytes>> := [];
    for i := 0 to |names|
      invariant |files| == i
      invariant forall j :: 0 <= j < i ==> files[j].key == names[j] && ReadFile(t, names[j]) == Some(files[j].value)
    {
      var data := ReadFile(t, names[i]);
      if data.None? { return None; }
      files := files + [Pair(names[i], data.value)];
    }
    return Some(files);
  }

  method AppFiles(t: Tree, modules: seq<IC.Name>) returns (names: seq<string>)
    ensures |names| == |modules| && forall i :: 0 <= i < |names| ==> names[i] == t.file(modules[i])
  {
    names := [];
    for i := 0 to |modules|
      invariant |names| == i && forall j :: 0 <= j < i ==> names[j] == t.file(modules[j])
    {
      names := names + [t.file(modules[i])];
    }
  }

  lemma ListingKeys(t: Tree, needed: set<IC.Name>, p: seq<Pair<bytes>>, q: seq<Pair<bytes>>)
    requires Listing(t, needed, p) && Listing(t, needed, q)
    ensures Keys(p) <= Keys(q)
  {
    forall k | k in Keys(p) ensures k in Keys(q) {
      var i :| 0 <= i < |p| && p[i].key == k;
      assert p[i] in p;
      assert Owned(t, needed, k);
      assert HasKey(q, k);
    }
  }

  lemma ListingSorted(t: Tree, needed: set<IC.Name>, d: seq<Pair<bytes>>)
    requires Listing(t, needed, d)
    ensures Listing(t, needed, SortByKey(d))
  {
    var s := SortByKey(d);
    SortSpec(d);
    forall k ensures HasKey(d, k) ==> HasKey(s, k) {
      if HasKey(d, k) {
        var i :| 0 <= i < |d| && d[i].key == k;
        assert d[i] in s;
      }
    }
  }

  /** A listing becomes the bundle's files when sorted, if its names are distinct; if they are not, there
      is no bundle. */
  lemma ListingDecides(t: Tree, needed: set<IC.Name>, d: seq<Pair<bytes>>, n: set<IC.Name>, m: seq<Pair<bytes>>)
    requires Listing(t, needed, d) && Sources(t, n, m)
    ensures DistinctKeys(d) && m == SortByKey(d)
  {
    IC.NeededUnique(IC.GraphOf(t.project), n, needed);
    ListingKeys(t, needed, d, m);
    ListingKeys(t, needed, m, d);
    SameKeysDistinct(d, m);
    ListingSorted(t, needed, d);
    SortOrders(d);
    SourcesUnique(t, n, needed, m, SortByKey(d));
  }

  lemma SameKeysDistinct(d: seq<Pair<bytes>>, m: seq<Pair<bytes>>)
    requires Keys(d) == Keys(m) && |d| == |m| && SortedByKey(m)
    ensures DistinctKeys(d)
  {
    SortedDistinct(m);
    KeysCount(m);
    KeysCount(d);
  }

  lemma SortedDistinct(m: seq<Pair<bytes>>)
    requires SortedByKey(m)
    ensures DistinctKeys(m)
  {
    forall i, j | 0 <= i < j < |m| ensures m[i].key != m[j].key { KeyLessTotal(m[i].key, m[j].key); }
  }

  lemma {:induction false} VolumeInsert(p: Pair<bytes>, d: seq<Pair<bytes>>)
    ensures Volume(Insert(p, d)) == |p.value| + Volume(d)
  {
    if d == [] || !KeyLess(d[0].key, p.key) {
      assert Insert(p, d)[1..] == d;
    } else {
      VolumeInsert(p, d[1..]);
      assert Insert(p, d)[1..] == Insert(p, d[1..]);
    }
  }

  lemma {:induction false} VolumeSorted(d: seq<Pair<bytes>>)
    ensures Volume(SortByKey(d)) == Volume(d)
  {
    if d != [] {
      VolumeSorted(d[1..]);
      VolumeInsert(d[0], SortByKey(d[1..]));
    }
  }

  lemma {:induction false} VolumeJoined(a: seq<Pair<bytes>>, b: seq<Pair<bytes>>)
    ensures Volume(a + b) == Volume(a) + Volume(b)
  {
    if a == [] {
      assert a + b == b;
    } else {
      assert (a + b)[1..] == a[1..] + b;
      VolumeJoined(a[1..], b);
    }
  }

  predicate FixedRead(t: Tree, fixed: seq<Pair<bytes>>) {
    |fixed| == |FIXED_FILES| &&
    forall i | 0 <= i < |fixed| ::
      fixed[i].key == FIXED_FILES[i] && ReadFile(t, FIXED_FILES[i]) == Some(fixed[i].value)
  }

  lemma JoinedListing(t: Tree, needed: set<IC.Name>, order: seq<IC.Name>, names: seq<string>,
                      fixed: seq<Pair<bytes>>, app: seq<Pair<bytes>>)
    requires IC.IsNeeded(IC.GraphOf(t.project), needed)
    requires |order| == |needed| && forall n :: n in order <==> n in needed
    requires |names| == |order| && forall i :: 0 <= i < |names| ==> names[i] == t.file(order[i])
    requires FixedRead(t, fixed) && |app| == |names|
    requires forall i :: 0 <= i < |app| ==> app[i].key == names[i] && ReadFile(t, names[i]) == Some(app[i].value)
    ensures Listing(t, needed, fixed + app)
  {
    var d := fixed + app;
    forall p | p in d ensures ReadFile(t, p.key) == Some(p.value) && Owned(t, needed, p.key) {
      var i :| 0 <= i < |d| && d[i] == p;
      if i < |fixed| {
        assert p.key == FIXED_FILES[i];
      } else {
        assert order[i - |fixed|] in needed && t.file(order[i - |fixed|]) == p.key;
      }
    }
    forall k | k in FIXED_FILES ensures HasKey(d, k) {
      var i :| 0 <= i < |FIXED_FILES| && FIXED_FILES[i] == k;
      assert d[i].key == k;
    }
    forall n | n in needed ensures HasKey(d, t.file(n)) {
      var i :| 0 <= i < |order| && order[i] == n;
      assert d[|fixed| + i].key == t.file(n);
    }
  }

  ghost predicate NoBundle(t: Tree) {
    forall n, m :: Sources(t, n, m) ==> !Fits(m)
  }

  lemma Unreadable(t: Tree, n: set<IC.Name>, m: seq<Pair<bytes>>, key: string)
    requires Sources(t, n, m) && Owned(t, n, key)
    ensures ReadFile(t, key).Some?
  {
    assert HasKey(m, key);
    var i :| 0 <= i < |m| && m[i].key == key;
    assert m[i] in m;
  }

  lemma MissingFile(t: Tree, key: string)
    requires ReadFile(t, key).None?
    requires key in FIXED_FILES || exists n :: IC.Needed(IC.GraphOf(t.project), n) && t.file(n) == key
    ensures NoBundle(t)
  {
    if !NoBundle(t) {
      var n, m :| Sources(t, n, m) && Fits(m);
      if key !in FIXED_FILES {
        var x :| IC.Needed(IC.GraphOf(t.project), x) && t.file(x) == key;
        assert x in n;
      }
      Unreadable(t, n, m, key);
      assert false;
    }
  }

  lemma MissingModule(t: Tree, needed: set<IC.Name>, name: IC.Name)
    requires IC.IsNeeded(IC.GraphOf(t.project), needed) && name in needed && ReadFile(t, t.file(name)).None?
    ensures NoBundle(t)
  {
    assert IC.Needed(IC.GraphOf(t.project), name);
    MissingFile(t, t.file(name));
  }

  lemma TooMany(t: Tree, needed: set<IC.Name>)
    requires IC.IsNeeded(IC.GraphOf(t.project), needed) && |needed| + |FIXED_FILES| > MAX_MEMBERS
    ensures NoBundle(t)
  {
    forall n, m | Sources(t, n, m) ensures !Fits(m) { IC.NeededUnique(IC.GraphOf(t.project), n, needed); }
  }

  lemma Rejected(t: Tree, needed: set<IC.Name>, d: seq<Pair<bytes>>)
    requires Listing(t, needed, d) && (!DistinctKeys(d) || !Fits(SortByKey(d)))
    ensures NoBundle(t)
  {
    forall n, m | Sources(t, n, m) ensures !Fits(m) { ListingDecides(t, needed, d, n, m); }
  }

  lemma ListingAccepted(t: Tree, needed: set<IC.Name>, d: seq<Pair<bytes>>)
    requires IC.Includable(IC.GraphOf(t.project)) && Listing(t, needed, d) && DistinctKeys(d)
    ensures Sources(t, needed, SortByKey(d))
  {
    ListingSorted(t, needed, d);
    SortOrders(d);
  }

  /** _collect_app_modules: the files of the needed modules. */
  method CollectApp(t: Tree, ghost fixed: seq<Pair<bytes>>)
    returns (r: Option<seq<Pair<bytes>>>, ghost needed: set<IC.Name>)
    requires FixedRead(t, fixed)
    ensures r.None? ==> NoBundle(t)
    ensures r.Some? ==> IC.Includable(IC.GraphOf(t.project)) && Listing(t, needed, fixed + r.value)
    ensures r.Some? ==> Volume(r.value) <= MAX_SOURCE_BYTES
  {
    needed := {};
    var closure := IC.Collect(t.project);
    if closure.None? { return None, needed; }
    needed := closure.value;
    if |closure.value| + |FIXED_FILES| > MAX_MEMBERS {
      TooMany(t, closure.value);
      return None, needed;
    }
    var order := IC.AnyOrder(closure.value);
    var names := AppFiles(t, order);
    var app := ReadAll(t, names);
    if app.None? {
      ghost var i :| 0 <= i < |names| && ReadFile(t, names[i]).None?;
      MissingModule(t, closure.value, order[i]);
      return None, needed;
    }
    JoinedListing(t, closure.value, order, names, fixed, app.value);
    if Volume(app.value) > MAX_SOURCE_BYTES {
      VolumeJoined(fixed, app.value);
      VolumeSorted(fixed + app.value);
      Rejected(t, closure.value, fixed + app.value);
      return None, needed;
    }
    return app, needed;
  }

  /** _collect_members: it succeeds when, and only when, the tree has files to bundle within the limits. */
  method CollectMembers(t: Tree) returns (r: Option<seq<Pair<bytes>>>, ghost needed: set<IC.Name>)
    ensures r.Some? ==> Sources(t, needed, r.value) && Fits(r.value)
    ensures r.None? ==> NoBundle(t)
  {
    needed := {};
    var fixed := ReadAll(t, FIXED_FILES);
    if fixed.None? {
      ghost var i :| 0 <= i < |FIXED_FILES| && ReadFile(t, FIXED_FILES[i]).None?;
      MissingFile(t, FIXED_FILES[i]);
      return None, needed;
    }
    var app;
    app, needed := CollectApp(t, fixed.value);
    if app.None? { return None, needed; }
    var listed := fixed.value + app.value;
    KeysCount(listed);
    var members := SortByKey(listed);
    if |Keys(listed)| != |listed| || !Fits(members) {
      Rejected(t, needed, listed);
      return None, needed;
    }
    ListingAccepted(t, needed, listed);
    return Some(members), needed;
  }

  /** build_bundle: it returns the tree's one bundle when there is one. */
  method BuildBundle(h: Host, t: Tree)
    returns (r: Option<Bundle>, ghost needed: set<IC.Name>, ghost members: seq<Pair<bytes>>)
    ensures r.Some? ==> Buildable(h, t, needed, members, r.value)
    ensures r.None? ==> forall n, m, b :: !Buildable(h, t, n, m, b)
  {
    var collected;
    collected, needed := CollectMembers(t);
    members := [];
    if collected.None? { return None, needed, members; }
    var files := collected.value;
    members := files;
    forall n, m, b | Buildable(h, t, n, m, b) ensures m == files { SourcesUnique(t, n, needed, m, files); }
    var manifest := ManifestBytes(h, files);
    if |manifest| > MAX_MANIFEST_BYTES { return None, needed, members; }
    var archive := h.pack(BundleItems(h, files));
    if archive.None? || archive.value == [] || |archive.value| > MAX_ARCHIVE_BYTES || HasKey(files, MANIFEST) {
      assert !HasKey(files, MANIFEST) by { ManifestNotAllowed(); }
      return None, needed, members;
    }
    return Some(Bundle(archive.value, h.sha(archive.value), |files|, Volume(files))), needed, members;
  }
}
