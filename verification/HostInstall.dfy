/** What the receiver does to the file system once a bundle is accepted: under any failing call it changes
    nothing that was there and writes only below the target, and when it reports success exactly the
    bundle's files are there. */
module HostInstall {
  import opened Base
  import opened HostBundle
  import opened HostReceiver
  import IA = ImageArchive

  /** An absolute path, by components; the root is []. */
  type Path = seq<string>

  datatype Node = Dir(mine: bool) | File(data: bytes) | Link

  type Tree = map<Path, Node>

  /** How one call goes wrong: before it has any effect, or, when writing, after some of the bytes. */
  datatype Fault = NoFault | Fails | Cut(k: nat)

  const ANCESTORS: Path := [".local", "share", "agent00x", "verifier-host"]
  const RELEASE: string := "exp-1491"

  /** Every entry but the root is in a directory. */
  ghost predicate TreeOk(fs: Tree) {
    [] in fs && fs[[]].Dir? &&
    forall p | p in fs && p != [] :: p[..|p| - 1] in fs && fs[p[..|p| - 1]].Dir?
  }

  lemma {:induction false} Inside(fs: Tree, p: Path, q: Path)
    requires TreeOk(fs) && q in fs && p <= q && p != q
    ensures p in fs && fs[p].Dir?
    decreases |q|
  {
    var up := q[..|q| - 1];
    assert p <= up;
    if p != up { Inside(fs, p, up); }
  }

  // ---------------------------------------------------------------------------
  // Where a name leads

  /** One component of a path: an empty one and "." stay, ".." goes up, and any other goes down. */
  function Enter(base: Path, component: string): Path {
    if component in {"", "."} then base
    else if component != ".." then base + [component]
    else if base == [] then [] else base[..|base| - 1]
  }

  /** Where a path leads, component by component. */
  function Walk(base: Path, components: seq<string>): Path
    decreases |components|
  {
    if components == [] then base else Walk(Enter(base, components[0]), components[1..])
  }

  /** target / name, as the system resolves it: an absolute name replaces the target. */
  function Place(target: Path, name: string): Path {
    Walk(if StartsWith(name, "/") then [] else target, IA.Split(name))
  }

  /** The names of an accepted archive. */
  predicate Admitted(name: string) {
    ReceiverAllows(name) || name == MANIFEST
  }

  lemma {:induction false} WalkDown(base: Path, components: seq<string>)
    requires ".." !in components
    ensures base <= Walk(base, components)
    ensures (exists i | 0 <= i < |components| :: components[i] !in {"", "."}) ==> base < Walk(base, components)
    decreases |components|
  {
    if components != [] {
      WalkDown(Enter(base, components[0]), components[1..]);
      if exists i | 0 <= i < |components| :: components[i] !in {"", "."} {
        var i :| 0 <= i < |components| && components[i] !in {"", "."};
        if i > 0 { assert components[1..][i - 1] == components[i]; }
      }
    }
  }

  lemma {:induction false} SplitHead(s: string)
    requires s != "" && s[0] != '/'
    ensures IA.Split(s)[0] != "" && IA.Split(s)[0][0] == s[0]
  {
  }

  lemma AdmittedHarmless(name: string)
    requires Admitted(name)
    ensures Harmless(name)
  {
    hide IA.Split;
    if name == MANIFEST {
      LeafHarmless(name);
    } else if StartsWith(name, APP_DIRECTORY) {
      assert name[0] == name[..|APP_DIRECTORY|][0] == APP_DIRECTORY[0] == 's';
    } else {
      FixedHarmless(name);
    }
  }

  /** An admitted name leads strictly below the target. */
  lemma AdmittedBelow(target: Path, name: string)
    requires Admitted(name)
    ensures target < Place(target, name)
  {
    hide Admitted, IA.Split, Walk;
    AdmittedHarmless(name);
    SplitHead(name);
    var components := IA.Split(name);
    assert components[0][0] != '.' && components[0] !in {"", "."};
    WalkDown(target, components);
  }

  /** Names the receiver refuses would lead out of the target. */
  lemma RefusedNamesEscape(target: Path, leaf: string)
    requires target != [] && '/' !in leaf && leaf !in {"", ".", ".."}
    ensures Place(target, "../" + leaf) == target[..|target| - 1] + [leaf] && !ReceiverAllows("../" + leaf)
    ensures Place(target, "/" + leaf) == [leaf] && !ReceiverAllows("/" + leaf)
    ensures !(target < Place(target, "../" + leaf)) && !(target < Place(target, "/" + leaf))
  {
    var up, top := "../" + leaf, "/" + leaf;
    IA.SplitFirst("..", leaf);
    IA.SplitFirst("", leaf);
    IA.SplitWhole(leaf);
    assert up == ".." + "/" + leaf && top == "" + "/" + leaf;
    assert IA.Split(up) == ["..", leaf] && IA.Split(top) == ["", leaf];
    assert !StartsWith(up, "/") && StartsWith(top, "/");
    WalkTwo(target, "..", leaf);
    WalkTwo([], "", leaf);
  }

  lemma WalkTwo(base: Path, a: string, b: string)
    ensures Walk(base, [a, b]) == Enter(Enter(base, a), b)
  {
    hide Enter;
    assert [a, b][1..] == [b] && [b][1..] == [];
    assert Walk(Enter(base, a), [b]) == Walk(Enter(Enter(base, a), b), []);
  }

  /** Nothing present before is gone or changed; what is new is a directory on the way to the target, or
      the target, or below it. */
  ghost predicate Confined(before: Tree, after: Tree, target: Path) {
    (forall p | p in before :: p in after && after[p] == before[p]) &&
    forall p | p in after && p !in before :: target <= p || (p <= target && after[p] == Dir(true))
  }

  ghost predicate Quiet(faults: nat -> Fault) {
    forall n :: faults(n) == NoFault
  }

  // ---------------------------------------------------------------------------
  // Directories

  lemma ChildAdded(fs: Tree, p: Path, node: Node)
    requires TreeOk(fs) && p != [] && p !in fs && p[..|p| - 1] in fs && fs[p[..|p| - 1]].Dir?
    ensures TreeOk(fs[p := node])
  {
    var after := fs[p := node];
    forall q | q in after && q != [] ensures q[..|q| - 1] in after && after[q[..|q| - 1]].Dir? {
      if q != p { assert q in fs; }
    }
  }

  /** The first k components of the way are directories, and nothing else has changed. */
  ghost predicate Paved(fs: Tree, after: Tree, way: Path, k: nat) {
    k <= |way| && TreeOk(after) && (forall p | p in fs :: p in after && after[p] == fs[p]) &&
    (forall p | p in after && p !in fs :: p <= way && |p| <= k && after[p] == Dir(true)) &&
    way[..k] in after && after[way[..k]].Dir?
  }

  lemma PaveOver(fs: Tree, after: Tree, way: Path, k: nat)
    requires Paved(fs, after, way, k) && k < |way| && way[..k + 1] in after && after[way[..k + 1]].Dir?
    ensures Paved(fs, after, way, k + 1)
  {
  }

  lemma PaveNew(fs: Tree, after: Tree, way: Path, k: nat)
    requires Paved(fs, after, way, k) && k < |way| && way[..k + 1] !in after
    ensures Paved(fs, after[way[..k + 1] := Dir(true)], way, k + 1)
  {
    var p := way[..k + 1];
    assert p[..|p| - 1] == way[..k];
    ChildAdded(after, p, Dir(true));
  }

  lemma PaveFound(fs: Tree, after: Tree, way: Path, k: nat)
    requires Paved(fs, after, way, k) && k < |way| && way[..k + 1] in after
    ensures way[..k + 1] in fs && after[way[..k + 1]] == fs[way[..k + 1]]
  {
  }

  /** mkdir(parents=True, exist_ok=True) on the parent of a path. */
  method MakeParents(fs: Tree, from: nat, path: Path, faults: nat -> Fault, start: nat)
    returns (ok: bool, after: Tree, ghost depth: nat, steps: nat)
    requires from < |path| && TreeOk(fs) && path[..from] in fs && fs[path[..from]].Dir?
    ensures from <= depth < |path| && Paved(fs, after, path, depth)
    ensures ok ==> depth == |path| - 1
    ensures !ok && Quiet(faults) ==> path[..depth + 1] in fs && !fs[path[..depth + 1]].Dir?
  {
    hide Paved, TreeOk;
    after, steps, depth := fs, start, from;
    PaveStart(fs, path, from);
    for k := from to |path| - 1
      invariant depth == k && Paved(fs, after, path, k)
    {
      var p := path[..k + 1];
      if p in after {
        PaveFound(fs, after, path, k);
        if !after[p].Dir? { return false, after, depth, steps; }
        PaveOver(fs, after, path, k);
      } else {
        if faults(steps) != NoFault { return false, after, depth, steps + 1; }
        steps := steps + 1;
        PaveNew(fs, after, path, k);
        after := after[p := Dir(true)];
      }
      depth := k + 1;
    }
    return true, after, depth, steps;
  }

  lemma PaveStart(fs: Tree, way: Path, k: nat)
    requires TreeOk(fs) && k <= |way| && way[..k] in fs && fs[way[..k]].Dir?
    ensures Paved(fs, fs, way, k)
  {
  }

  /** The first k + 1 components are missing, or a directory of the user. */
  predicate FineAt(fs: Tree, way: Path, k: nat)
    requires k < |way|
  {
    way[..k + 1] in fs ==> fs[way[..k + 1]] == Dir(true)
  }

  /** The home directory exists, and what exists on the way from it is the user's. */
  predicate AncestorsFine(fs: Tree, home: Path, way: Path) {
    home in fs && fs[home].Dir? && forall k | |home| <= k < |way| :: FineAt(fs, way, k)
  }

  /** One directory above the target: made, or found to be the user's. */
  method MakeAncestor(fs: Tree, before: Tree, way: Path, k: nat, fault: Fault) returns (ok: bool, after: Tree)
    requires k < |way| && Paved(fs, before, way, k)
    ensures ok ==> Paved(fs, after, way, k + 1) && FineAt(fs, way, k)
    ensures !ok ==> after == before
    ensures fault == NoFault && FineAt(fs, way, k) ==> ok
  {
    hide Paved, FineAt;
    if fault != NoFault { return false, before; }
    var p := way[..k + 1];
    if p in before {
      PaveFound(fs, before, way, k);
      FineFound(fs, way, k);
      if before[p] != Dir(true) { return false, before; }
      PaveOver(fs, before, way, k);
      return true, before;
    }
    PaveKept(fs, before, way, k);
    FineMissing(fs, way, k);
    PaveNew(fs, before, way, k);
    return true, before[p := Dir(true)];
  }

  /** The loop over the directories from the home directory to the target. */
  method MakeAncestors(fs: Tree, home: Path, way: Path, faults: nat -> Fault)
    returns (ok: bool, after: Tree, ghost depth: nat, steps: nat)
    requires TreeOk(fs) && home < way
    ensures after == fs || Paved(fs, after, way, depth)
    ensures ok ==> Paved(fs, after, way, |way|) && AncestorsFine(fs, home, way)
    ensures Quiet(faults) && AncestorsFine(fs, home, way) ==> ok
  {
    hide Paved, TreeOk, FineAt;
    after, steps, depth := fs, 0, |home|;
    if home !in fs || !fs[home].Dir? { return false, after, depth, steps; }
    assert way[..|home|] == home;
    PaveStart(fs, way, |home|);
    for k := |home| to |way|
      invariant depth == k && Paved(fs, after, way, k)
      invariant forall j | |home| <= j < k :: FineAt(fs, way, j)
    {
      ok, after := MakeAncestor(fs, after, way, k, faults(steps));
      steps := steps + 1;
      if !ok { return; }
      depth := k + 1;
    }
    return true, after, depth, steps;
  }

  lemma PaveKept(fs: Tree, after: Tree, way: Path, k: nat)
    requires Paved(fs, after, way, k)
    ensures forall p :: p in fs ==> p in after
  {
  }

  lemma FineFound(fs: Tree, way: Path, k: nat)
    requires k < |way| && way[..k + 1] in fs
    ensures FineAt(fs, way, k) <==> fs[way[..k + 1]] == Dir(true)
  {
  }

  lemma FineMissing(fs: Tree, way: Path, k: nat)
    requires k < |way| && way[..k + 1] !in fs
    ensures FineAt(fs, way, k)
  {
  }

  // ---------------------------------------------------------------------------
  // Files

  function At(target: Path, files: seq<Pair<bytes>>, i: nat): Path
    requires i < |files|
  {
    Place(target, files[i].key)
  }

  predicate AllAdmitted(files: seq<Pair<bytes>>) {
    forall i | 0 <= i < |files| :: Admitted(files[i].key)
  }

  /** No file is on the way to another, or in its place. */
  ghost predicate Compatible(target: Path, files: seq<Pair<bytes>>) {
    forall i, j | 0 <= i < |files| && 0 <= j < |files| && i != j :: !(At(target, files, i) <= At(target, files, j))
  }

  /** A place of the first n files, or a directory on the way to one. */
  ghost predicate Expected(after: Tree, target: Path, files: seq<Pair<bytes>>, n: nat, p: Path)
    requires n <= |files| && p in after
  {
    exists j :: 0 <= j < n && (p == At(target, files, j) || (p < At(target, files, j) && after[p] == Dir(true)))
  }

  /** The first n files are in place, and nothing else has changed but for directories on the way. */
  ghost predicate Placed(base: Tree, after: Tree, target: Path, files: seq<Pair<bytes>>, n: nat) {
    n <= |files| && TreeOk(after) && (forall p | p in base :: p in after && after[p] == base[p]) &&
    (forall j | 0 <= j < n :: At(target, files, j) in after && after[At(target, files, j)] == File(files[j].value)) &&
    (forall p | p in after && p !in base :: target < p && Expected(after, target, files, n, p)) &&
    (forall j, k | 0 <= j < k < n :: At(target, files, j) != At(target, files, k))
  }

  /** The tree below the target is the bundle: each file with its content, and the directories on the way. */
  ghost predicate Installed(after: Tree, target: Path, files: seq<Pair<bytes>>) {
    target in after && after[target] == Dir(true) &&
    (forall j | 0 <= j < |files| ::
      At(target, files, j) in after && after[At(target, files, j)] == File(files[j].value)) &&
    forall p | p in after && target < p :: Expected(after, target, files, |files|, p)
  }

  /** A tree with the target just made has nothing below it. */
  ghost predicate Bare(base: Tree, target: Path) {
    TreeOk(base) && target in base && base[target] == Dir(true) && forall p | p in base :: !(target < p)
  }

  /** The situation of placing the next file: its parents are there and its place is free. */
  ghost predicate Ready(base: Tree, before: Tree, mid: Tree, target: Path, files: seq<Pair<bytes>>, n: nat) {
    n < |files| && Placed(base, before, target, files, n) && Bare(base, target) && target < At(target, files, n) &&
    Paved(before, mid, At(target, files, n), |At(target, files, n)| - 1) && At(target, files, n) !in mid
  }

  lemma PlaceOld(base: Tree, before: Tree, mid: Tree, target: Path, files: seq<Pair<bytes>>, n: nat, p: Path)
    requires Ready(base, before, mid, target, files, n) && p in before && p !in base
    ensures p in mid && target < p &&
      Expected(mid[At(target, files, n) := File(files[n].value)], target, files, n + 1, p)
  {
    var after := mid[At(target, files, n) := File(files[n].value)];
    assert Expected(before, target, files, n, p);
    var j :| 0 <= j < n && (p == At(target, files, j) || (p < At(target, files, j) && before[p] == Dir(true)));
    assert after[p] == before[p];
  }

  lemma PlaceParent(base: Tree, before: Tree, mid: Tree, target: Path, files: seq<Pair<bytes>>, n: nat, p: Path)
    requires Ready(base, before, mid, target, files, n) && p in mid && p !in before
    ensures target < p && Expected(mid[At(target, files, n) := File(files[n].value)], target, files, n + 1, p)
  {
    var path := At(target, files, n);
    assert p < path && mid[p] == Dir(true);
    PrefixesCompare(target, p, path);
    assert p !in base;
    if p <= target && p != target { Inside(base, p, target); }
  }

  lemma PlaceTree(base: Tree, before: Tree, mid: Tree, target: Path, files: seq<Pair<bytes>>, n: nat, node: Node)
    requires Ready(base, before, mid, target, files, n)
    ensures TreeOk(mid[At(target, files, n) := node])
  {
    hide At, Placed, Bare;
    ChildAdded(mid, At(target, files, n), node);
  }

  lemma PlaceOne(base: Tree, before: Tree, mid: Tree, target: Path, files: seq<Pair<bytes>>, n: nat)
    requires Ready(base, before, mid, target, files, n)
    ensures Placed(base, mid[At(target, files, n) := File(files[n].value)], target, files, n + 1)
  {
    hide At, Paved, TreeOk, Expected;
    var path := At(target, files, n);
    var after := mid[path := File(files[n].value)];
    PlaceTree(base, before, mid, target, files, n, File(files[n].value));
    forall p | p in after && p !in base ensures target < p && Expected(after, target, files, n + 1, p) {
      if p == path {
        PlaceSelf(after, target, files, n);
      } else if p in before {
        PlaceOld(base, before, mid, target, files, n, p);
      } else {
        PlaceParent(base, before, mid, target, files, n, p);
      }
    }
    PlaceKept(base, before, mid, target, files, n);
  }

  lemma PlaceSelf(after: Tree, target: Path, files: seq<Pair<bytes>>, n: nat)
    requires n < |files| && At(target, files, n) in after
    ensures Expected(after, target, files, n + 1, At(target, files, n))
  {
  }

  lemma PlaceKept(base: Tree, before: Tree, mid: Tree, target: Path, files: seq<Pair<bytes>>, n: nat)
    requires Ready(base, before, mid, target, files, n)
    ensures forall p :: p in base ==> p in mid && mid[p] == base[p] && p != At(target, files, n)
    ensures forall j :: 0 <= j < n ==>
      At(target, files, j) in mid && mid[At(target, files, j)] == File(files[j].value) &&
      At(target, files, j) != At(target, files, n)
    ensures forall j, k | 0 <= j < k < n :: At(target, files, j) != At(target, files, k)
  {
  }

  lemma PrefixesCompare(p: Path, q: Path, r: Path)
    requires p <= r && q <= r
    ensures p <= q || q <= p
  {
  }

  /** A file in the way of another, or in its place. */
  lemma Clashes(base: Tree, before: Tree, target: Path, files: seq<Pair<bytes>>, n: nat, q: Path)
    requires n < |files| && Placed(base, before, target, files, n) && Bare(base, target)
    requires target < q <= At(target, files, n) && q in before
    requires q == At(target, files, n) || !before[q].Dir?
    ensures !Compatible(target, files)
  {
    assert q !in base;
    assert Expected(before, target, files, n, q);
    var j :| 0 <= j < n && (q == At(target, files, j) || (q < At(target, files, j) && before[q] == Dir(true)));
    if q == At(target, files, j) {
      assert At(target, files, j) <= At(target, files, n);
    } else {
      assert At(target, files, n) <= At(target, files, j);
    }
  }

  lemma PlacedCompatible(base: Tree, after: Tree, target: Path, files: seq<Pair<bytes>>)
    requires Placed(base, after, target, files, |files|) && Bare(base, target)
    ensures Compatible(target, files) && Installed(after, target, files)
  {
    forall i, j | 0 <= i < |files| && 0 <= j < |files| && i != j
      ensures !(At(target, files, i) <= At(target, files, j))
    {
      if At(target, files, i) <= At(target, files, j) {
        assert At(target, files, i) != At(target, files, j);
        Inside(after, At(target, files, i), At(target, files, j));
      }
    }
  }

  lemma PlaceBelow(target: Path, files: seq<Pair<bytes>>, i: nat)
    requires i < |files| && AllAdmitted(files)
    ensures target < At(target, files, i) && At(target, files, i)[..|target|] == target
  {
    AdmittedBelow(target, files[i].key);
    hide Place, Admitted;
  }

  // ---------------------------------------------------------------------------
  // The installer

  ghost predicate Below(base: Tree, after: Tree, target: Path) {
    (forall p | p in base :: p in after && after[p] == base[p]) &&
    forall p | p in after && p !in base :: target < p
  }

  lemma PlacedBelow(base: Tree, after: Tree, target: Path, files: seq<Pair<bytes>>, n: nat)
    requires Placed(base, after, target, files, n)
    ensures Below(base, after, target)
  {
  }

  lemma PavedBelow(base: Tree, before: Tree, mid: Tree, target: Path, way: Path, depth: nat)
    requires Below(base, before, target) && Bare(base, target) && target < way && Paved(before, mid, way, depth)
    ensures Below(base, mid, target)
  {
    forall p | p in mid && p !in base ensures target < p {
      if p !in before {
        assert p <= way;
        PrefixesCompare(p, target, way);
        if p <= target && p != target { Inside(base, p, target); }
      }
    }
  }

  lemma NothingPlaced(base: Tree, target: Path, files: seq<Pair<bytes>>)
    requires Bare(base, target)
    ensures Placed(base, base, target, files, 0)
  {
  }

  lemma BelowMore(base: Tree, after: Tree, target: Path, path: Path, node: Node)
    requires Below(base, after, target) && target < path && path !in after
    ensures Below(base, after[path := node], target)
  {
  }

  lemma TargetStands(base: Tree, before: Tree, target: Path, files: seq<Pair<bytes>>, n: nat)
    requires Placed(base, before, target, files, n) && Bare(base, target)
    ensures TreeOk(before) && target in before && before[target].Dir?
  {
  }

  /** A parent that exists and is no directory shows the files to be incompatible. */
  lemma ParentClash(base: Tree, before: Tree, target: Path, files: seq<Pair<bytes>>, n: nat, depth: nat)
    requires n < |files| && Placed(base, before, target, files, n) && Bare(base, target) && AllAdmitted(files)
    requires |target| <= depth < |At(target, files, n)|
    requires At(target, files, n)[..depth + 1] in before && !before[At(target, files, n)[..depth + 1]].Dir?
    ensures !Compatible(target, files)
  {
    hide Place;
    var q := At(target, files, n)[..depth + 1];
    PlaceBelow(target, files, n);
    assert target < q;
    Clashes(base, before, target, files, n, q);
  }

  /** So does a place already taken. */
  lemma PlaceClash(base: Tree, before: Tree, mid: Tree, target: Path, files: seq<Pair<bytes>>, n: nat)
    requires n < |files| && Placed(base, before, target, files, n) && Bare(base, target)
    requires target < At(target, files, n) && At(target, files, n) in mid
    requires Paved(before, mid, At(target, files, n), |At(target, files, n)| - 1)
    ensures !Compatible(target, files)
  {
    hide Place;
    Clashes(base, before, target, files, n, At(target, files, n));
  }

  lemma ReadyNow(base: Tree, before: Tree, mid: Tree, target: Path, files: seq<Pair<bytes>>, n: nat)
    requires n < |files| && Placed(base, before, target, files, n) && Bare(base, target) &&
      target < At(target, files, n)
    requires Paved(before, mid, At(target, files, n), |At(target, files, n)| - 1) && At(target, files, n) !in mid
    ensures Ready(base, before, mid, target, files, n)
  {
  }

  /** open with O_CREAT and O_EXCL, then write: what the call leaves, and whether it returned. */
  function Create(fault: Fault, data: bytes): (r: (bool, Option<Node>))
    ensures r.0 <==> fault == NoFault
    ensures r.0 ==> r.1 == Some(File(data))
  {
    match fault
    case NoFault => (true, Some(File(data)))
    case Fails => (false, None)
    case Cut(k) => (false, Some(File(if k <= |data| then data[..k] else data)))
  }

  /** One turn of the loop over the files. */
  method InstallFile(ghost base: Tree, before: Tree, target: Path, files: seq<Pair<bytes>>, n: nat,
                     faults: nat -> Fault, start: nat)
    returns (ok: bool, after: Tree, steps: nat)
    requires n < |files| && Placed(base, before, target, files, n) && Bare(base, target) && AllAdmitted(files)
    ensures Below(base, after, target)
    ensures ok ==> Placed(base, after, target, files, n + 1)
    ensures Quiet(faults) && Compatible(target, files) ==> ok
  {
    hide Placed, Paved, Bare, At, TreeOk, Below, Create, Compatible, Ready, AllAdmitted;
    PlacedBelow(base, before, target, files, n);
    PlaceBelow(target, files, n);
    TargetStands(base, before, target, files, n);
    after, steps := before, start;
    var path := At(target, files, n);
    var made;
    ghost var depth;
    made, after, depth, steps := MakeParents(before, |target|, path, faults, start);
    PavedBelow(base, before, after, target, path, depth);
    if !made {
      if Quiet(faults) { ParentClash(base, before, target, files, n, depth); }
      return false, after, steps;
    }
    if path in after {
      PlaceClash(base, before, after, target, files, n);
      return false, after, steps;
    }
    ReadyNow(base, before, after, target, files, n);
    PlaceOne(base, before, after, target, files, n);
    var created := Create(faults(steps), files[n].value);
    if created.1.Some? {
      BelowMore(base, after, target, path, created.1.value);
      after := after[path := created.1.value];
    }
    return created.0, after, steps + 1;
  }

  /** The loop over the files, from a target just made. */
  method InstallFiles(base: Tree, target: Path, files: seq<Pair<bytes>>, faults: nat -> Fault, start: nat)
    returns (ok: bool, after: Tree)
    requires Bare(base, target) && AllAdmitted(files)
    ensures Below(base, after, target)
    ensures ok ==> Installed(after, target, files) && Compatible(target, files)
    ensures Quiet(faults) && Compatible(target, files) ==> ok
  {
    NothingPlaced(base, target, files);
    hide Placed, Bare, Below, Compatible, Installed, AllAdmitted;
    after := base;
    var steps := start;
    for n := 0 to |files|
      invariant Placed(base, after, target, files, n)
    {
      ok, after, steps := InstallFile(base, after, target, files, n, faults, steps);
      if !ok { return; }
    }
    PlacedBelow(base, after, target, files, |files|);
    PlacedCompatible(base, after, target, files);
    return true, after;
  }

  lemma TargetMade(fs: Tree, after: Tree, way: Path, leaf: string)
    requires TreeOk(fs) && Paved(fs, after, way, |way|)
    ensures way + [leaf] in after <==> way + [leaf] in fs
    ensures way + [leaf] !in fs ==> Bare(after[way + [leaf] := Dir(true)], way + [leaf])
  {
    var target := way + [leaf];
    if target !in fs {
      assert target[..|target| - 1] == way && way[..|way|] == way;
      ChildAdded(after, target, Dir(true));
      forall p | p in after ensures !(target < p) {
        if target < p { Inside(after, target, p); }
      }
    }
  }

  lemma PavedConfined(fs: Tree, after: Tree, way: Path, leaf: string, depth: nat)
    requires Paved(fs, after, way, depth)
    ensures Confined(fs, after, way + [leaf])
  {
    forall p | p in after && p !in fs ensures p <= way + [leaf] { assert p <= way; }
  }

  lemma BelowConfined(fs: Tree, mid: Tree, after: Tree, target: Path)
    requires Confined(fs, mid, target) && target !in mid && Below(mid[target := Dir(true)], after, target)
    ensures Confined(fs, after, target)
  {
  }

  /** The receiver from its first change on. */
  method Install(fs: Tree, home: Path, way: Path, leaf: string, files: seq<Pair<bytes>>, faults: nat -> Fault)
    returns (ok: bool, after: Tree)
    requires TreeOk(fs) && home < way && AllAdmitted(files)
    ensures Confined(fs, after, way + [leaf])
    ensures ok ==> way + [leaf] !in fs && Installed(after, way + [leaf], files)
    ensures Quiet(faults) ==>
      (ok <==> AncestorsFine(fs, home, way) && way + [leaf] !in fs && Compatible(way + [leaf], files))
  {
    var target := way + [leaf];
    var made, steps;
    ghost var depth;
    made, after, depth, steps := MakeAncestors(fs, home, way, faults);
    if after != fs { PavedConfined(fs, after, way, leaf, depth); }
    if !made { return false, after; }
    TargetMade(fs, after, way, leaf);
    PavedConfined(fs, after, way, leaf, |way|);
    hide Paved, Confined, Below, Bare, Installed, Compatible, AncestorsFine, AllAdmitted;
    if target in after { return false, after; }
    if faults(steps) != NoFault { return false, after; }
    ghost var mid := after;
    ok, after := InstallFiles(after[target := Dir(true)], target, files, faults, steps + 1);
    BelowConfined(fs, mid, after, target);
  }

  /** An accepted archive has only admitted names. */
  lemma AcceptedAdmitted(h: Host, pins: Pins, input: bytes)
    requires Accepted(h, pins, input)
    ensures AllAdmitted(Files(h.unpack(input).value))
  {
    hide ReceiverAllows;
    var items := h.unpack(input).value;
    var files := Files(items);
    forall i | 0 <= i < |files| ensures Admitted(files[i].key) {
      if files[i].key != MANIFEST {
        WithoutMember(files, MANIFEST, files[i]);
        var j :| 0 <= j < |SourceFiles(items)| && SourceFiles(items)[j] == files[i];
      }
    }
  }

  /** The whole receiver: it rejects without a change, or installs what it accepted. Nothing is assumed of the
      names: that all is written below the target follows from what the receiver accepts. */
  method Receive(h: Host, pins: Pins, input: bytes, target: Path, home: Path, fs: Tree, faults: nat -> Fault)
    returns (ok: bool, after: Tree)
    requires PrintLaw(h) && TreeOk(fs)
    ensures Confined(fs, after, home + ANCESTORS + [RELEASE])
    ensures !Accepted(h, pins, input) || target != home + ANCESTORS + [RELEASE] ==> !ok && after == fs
    ensures ok ==> target !in fs && Installed(after, target, Files(h.unpack(input).value))
    ensures Quiet(faults) && Accepted(h, pins, input) && target == home + ANCESTORS + [RELEASE] ==>
      (ok <==> AncestorsFine(fs, home, home + ANCESTORS) && target !in fs &&
               Compatible(target, Files(h.unpack(input).value)))
  {
    hide Accepted, TreeOk, Installed, Compatible, AncestorsFine, AllAdmitted;
    var way := home + ANCESTORS;
    var files := Validate(h, pins, input);
    if files.None? || target != way + [RELEASE] { return false, fs; }
    AcceptedAdmitted(h, pins, input);
    ok, after := Install(fs, home, way, RELEASE, files.value, faults);
  }
}
