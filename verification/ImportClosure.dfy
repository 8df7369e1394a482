/** The import closure of the verifier host: which package modules the bundle must carry. */
module ImportClosure {
  import opened Base

  /** A dotted module name, by components. */
  type Name = seq<string>

  /** The import statements of a module; other syntax imports nothing. */
  datatype Import =
    | Plain(modules: seq<Name>)                                      // import a.b, c
    | From(base: Option<Name>, level: nat, names: seq<string>)       // from ..a import b, c

  /** A package module: whether it is a package's __init__, and its imports. None stands for a file
      that cannot be read or parsed. */
  datatype Module = Module(isPackage: bool, imports: Option<seq<Import>>)

  /** The project: its package modules, and the launcher's imports. */
  datatype Project = Project(index: map<Name, Module>, launcher: Option<seq<Import>>)

  const APP: string := "app_contracts"

  function Roots(): set<Name> {
    {[APP], [APP, "signed_verifier_http_service"], [APP, "signed_verifier_service"]}
  }

  predicate Local(name: Name) {
    name != [] && name[0] == APP
  }

  // ---------------------------------------------------------------------------
  // What one module imports

  /** The absolute base of a from-import; None when a relative one leaves its package. */
  function Resolve(base: Option<Name>, level: nat, package: Name): Option<Name> {
    var name := if base.Some? then base.value else [];
    if level == 0 then Some(name)
    else if |package| < level then None
    else Some(package[..|package| - level + 1] + name)
  }

  /** The targets of one statement; None when it names a missing local module. */
  function TargetsOf(p: Project, package: Name, s: Import): Option<set<Name>> {
    match s
    case Plain(modules) =>
      if forall i | 0 <= i < |modules| :: Local(modules[i]) ==> modules[i] in p.index
      then Some(set i | 0 <= i < |modules| && Local(modules[i]) :: modules[i]) else None
    case From(base, level, names) =>
      var resolved := Resolve(base, level, package);
      if resolved.None? then None
      else if !Local(resolved.value) then Some({})
      else if resolved.value !in p.index then None
      else Some({resolved.value} +
                if base.None? || resolved.value == [APP]
                then set i | 0 <= i < |names| && resolved.value + [names[i]] in p.index :: resolved.value + [names[i]]
                else {})
  }

  /** Every statement resolves. */
  predicate Resolves(p: Project, package: Name, imports: seq<Import>) {
    forall i | 0 <= i < |imports| :: TargetsOf(p, package, imports[i]).Some?
  }

  function Targets(p: Project, package: Name, imports: seq<Import>): set<Name>
    requires Resolves(p, package, imports)
  {
    set i, n | 0 <= i < |imports| && n in TargetsOf(p, package, imports[i]).value :: n
  }

  /** _local_import_targets */
  method LocalImportTargets(p: Project, package: Name, imports: seq<Import>) returns (r: Option<set<Name>>)
    ensures r.Some? <==> Resolves(p, package, imports)
    ensures r.Some? ==> r.value == Targets(p, package, imports)
  {
    var targets: set<Name> := {};
    for i := 0 to |imports|
      invariant Resolves(p, package, imports[..i])
      invariant targets == Targets(p, package, imports[..i])
    {
      var more := TargetsOf(p, package, imports[i]);
      if more.None? { return None; }
      assert imports[..i + 1] == imports[..i] + [imports[i]];
      targets := targets + more.value;
      assert targets == Targets(p, package, imports[..i + 1]) by {
        forall n | n in Targets(p, package, imports[..i + 1]) ensures n in targets {
          var k :| 0 <= k <= i && n in TargetsOf(p, package, imports[..i + 1][k]).value;
          if k < i { assert imports[..i][k] == imports[..i + 1][k]; }
        }
        forall n | n in targets ensures n in Targets(p, package, imports[..i + 1]) {
          if n in Targets(p, package, imports[..i]) {
            var k :| 0 <= k < i && n in TargetsOf(p, package, imports[..i][k]).value;
            assert imports[..i + 1][k] == imports[..i][k];
          } else {
            assert imports[..i + 1][i] == imports[i];
          }
        }
      }
    }
    assert imports[..|imports|] == imports;
    return Some(targets);
  }

  /** _module_parents: the name and its enclosing packages that the project has. */
  function Parents(p: Project, name: Name): set<Name> {
    set k | 1 <= k <= |name| && name[..k] in p.index :: name[..k]
  }

  function ParentsOfAll(p: Project, names: set<Name>): set<Name> {
    set m, n | m in names && n in Parents(p, m) :: n
  }

  function PackageOf(p: Project, name: Name): Name
    requires name in p.index && name != []
  {
    if p.index[name].isPackage then name else name[..|name| - 1]
  }

  // ---------------------------------------------------------------------------
  // The graph the worklist explores

  /** What including a module makes pending; None when the module is missing, unreadable, or imports
      a missing one. */
  function Needs(p: Project, name: Name): Option<set<Name>> {
    if name == [] || name !in p.index || p.index[name].imports.None?
       || !Resolves(p, PackageOf(p, name), p.index[name].imports.value)
    then None
    else Some(ParentsOfAll(p, Targets(p, PackageOf(p, name), p.index[name].imports.value)))
  }

  /** Where the worklist starts; None when the launcher itself cannot be used. */
  function Start(p: Project): Option<set<Name>> {
    if p.launcher.None? || !Resolves(p, [], p.launcher.value) then None
    else Some(Roots() + ParentsOfAll(p, Targets(p, [], p.launcher.value)))
  }

  /** The same as a graph: where it starts, and what each name needs if it can be included. */
  datatype Graph = Graph(start: Option<set<Name>>, needs: Name -> Option<set<Name>>)

  function GraphOf(p: Project): Graph {
    Graph(Start(p), name => Needs(p, name))
  }

  /** A chain of needs from the start to a module. */
  ghost predicate Path(g: Graph, path: seq<Name>) {
    path != [] && g.start.Some? && path[0] in g.start.value &&
    forall i | 0 <= i < |path| - 1 :: g.needs(path[i]).Some? && path[i + 1] in g.needs(path[i]).value
  }

  ghost predicate Needed(g: Graph, name: Name) {
    exists path :: Path(g, path) && path[|path| - 1] == name
  }

  /** A set with the start that holds everything its members need. */
  ghost predicate Closed(g: Graph, s: set<Name>) {
    g.start.Some? && g.start.value <= s &&
    forall n | n in s && g.needs(n).Some? :: g.needs(n).value <= s
  }

  lemma NeededStart(g: Graph, name: Name)
    requires g.start.Some? && name in g.start.value
    ensures Needed(g, name)
  {
    assert Path(g, [name]) && [name][|[name]| - 1] == name;
  }

  lemma NeededStep(g: Graph, name: Name, next: Name)
    requires Needed(g, name) && g.needs(name).Some? && next in g.needs(name).value
    ensures Needed(g, next)
  {
    var path :| Path(g, path) && path[|path| - 1] == name;
    var longer := path + [next];
    assert Path(g, longer) && longer[|longer| - 1] == next;
  }

  lemma {:induction false} PathInClosed(g: Graph, path: seq<Name>, s: set<Name>)
    requires Path(g, path) && Closed(g, s)
    ensures path[|path| - 1] in s
  {
    if |path| > 1 {
      var front := path[..|path| - 1];
      assert Path(g, front);
      PathInClosed(g, front, s);
      assert front[|front| - 1] == path[|path| - 2];
    }
  }

  /** What is needed lies in every closed set: the needed modules are the least one. */
  lemma NeededInClosed(g: Graph, name: Name, s: set<Name>)
    requires Needed(g, name) && Closed(g, s)
    ensures name in s
  {
    var path :| Path(g, path) && path[|path| - 1] == name;
    PathInClosed(g, path, s);
  }

  // ---------------------------------------------------------------------------
  // The worklist

  /** Some order of a set's elements; a set iterates in any order. */
  method AnyOrder(s: set<Name>) returns (order: seq<Name>)
    ensures |order| == |s| && forall n :: n in order <==> n in s
  {
    order := [];
    var rest := s;
    while rest != {}
      invariant rest <= s && |order| == |s| - |rest| && forall n :: n in order <==> n in s - rest
      decreases rest
    {
      var n :| n in rest;
      order := order + [n];
      rest := rest - {n};
    }
  }

  /** list.extend with the parents of every imported module, in any order, without those excluded. */
  method ExtendPending(p: Project, pending: seq<Name>, imported: set<Name>, excluded: set<Name>)
    returns (more: seq<Name>)
    ensures forall n :: n in more <==> n in pending || (n in ParentsOfAll(p, imported) && n !in excluded)
  {
    more := pending;
    var order := AnyOrder(imported);
    for i := 0 to |order|
      invariant forall n :: n in more <==>
        n in pending || exists k :: 0 <= k < i && n in Parents(p, order[k]) && n !in excluded
    {
      var parents := AnyOrder(Parents(p, order[i]) - excluded);
      more := more + parents;
    }
    forall n ensures n in more <==> n in pending || (n in ParentsOfAll(p, imported) && n !in excluded) {
      if n in ParentsOfAll(p, imported) && n !in excluded {
        var m :| m in imported && n in Parents(p, m);
        var k :| 0 <= k < |order| && order[k] == m;
        assert n in Parents(p, order[k]);
      }
    }
  }

  /** Every module the closure reaches can be included. */
  ghost predicate Includable(g: Graph) {
    g.start.Some? && forall n :: Needed(g, n) ==> g.needs(n).Some?
  }

  ghost predicate IsNeeded(g: Graph, s: set<Name>) {
    forall n :: n in s <==> Needed(g, n)
  }

  ghost predicate LeastClosed(g: Graph, s: set<Name>) {
    Closed(g, s) && forall t :: Closed(g, t) ==> s <= t
  }

  /** Done is what was included, pending what is yet to be looked at. */
  ghost predicate Working(g: Graph, pending: seq<Name>, included: set<Name>) {
    g.start.Some? &&
    (forall n | n in included :: Needed(g, n) && g.needs(n).Some?) &&
    (forall n | n in pending :: Needed(g, n)) &&
    (forall n | n in g.start.value :: n in included || n in pending) &&
    (forall n, m | n in included && m in g.needs(n).value :: m in included || m in pending)
  }

  lemma WorkStarts(g: Graph, pending: seq<Name>)
    requires g.start.Some? && forall n :: n in pending <==> n in g.start.value
    ensures Working(g, pending, {})
  {
    forall n | n in pending ensures Needed(g, n) { NeededStart(g, n); }
  }

  lemma WorkSkips(g: Graph, pending: seq<Name>, rest: seq<Name>, name: Name, included: set<Name>)
    requires Working(g, pending, included) && name in included
    requires forall n :: n in pending <==> n in rest || n == name
    ensures Working(g, rest, included)
  {
  }

  lemma WorkIncludes(g: Graph, pending: seq<Name>, rest: seq<Name>, name: Name, more: seq<Name>, included: set<Name>)
    requires Working(g, pending, included) && g.needs(name).Some?
    requires name in pending && forall n :: n in pending <==> n in rest || n == name
    requires forall n :: n in more <==> n in rest || (n in g.needs(name).value && n !in included + {name})
    ensures Working(g, more, included + {name})
  {
    forall n | n in more ensures Needed(g, n) {
      if n !in rest { NeededStep(g, name, n); }
    }
  }

  lemma WorkDone(g: Graph, included: set<Name>)
    requires Working(g, [], included)
    ensures Includable(g) && IsNeeded(g, included) && LeastClosed(g, included)
  {
    assert Closed(g, included);
    forall n ensures n in included <==> Needed(g, n) {
      if Needed(g, n) { NeededInClosed(g, n, included); }
    }
    forall t | Closed(g, t) ensures included <= t {
      forall n | n in included ensures n in t { NeededInClosed(g, n, t); }
    }
  }

  lemma WorkStuck(g: Graph, pending: seq<Name>, name: Name, included: set<Name>)
    requires Working(g, pending, included) && name in pending && g.needs(name).None?
    ensures !Includable(g)
  {
  }

  lemma NeededUnique(g: Graph, a: set<Name>, b: set<Name>)
    requires IsNeeded(g, a) && IsNeeded(g, b)
    ensures a == b
  {
    forall n ensures n in a <==> n in b { assert n in a <==> Needed(g, n); }
  }

  /** The part of _collect_app_modules before the loop. */
  method Begin(p: Project) returns (r: Option<seq<Name>>)
    ensures r.Some? <==> Start(p).Some?
    ensures r.Some? ==> Working(GraphOf(p), r.value, {})
  {
    if p.launcher.None? { return None; }
    var launched := LocalImportTargets(p, [], p.launcher.value);
    if launched.None? { return None; }
    var roots := AnyOrder(Roots());
    var pending := ExtendPending(p, roots, launched.value, {});
    WorkStarts(GraphOf(p), pending);
    return Some(pending);
  }

  /** The needs of one module, as the loop body works them out. */
  method Inspect(p: Project, name: Name) returns (imported: Option<set<Name>>)
    ensures imported.Some? <==> Needs(p, name).Some?
    ensures imported.Some? ==> Needs(p, name).value == ParentsOfAll(p, imported.value) && name in p.index
  {
    if name == [] || name !in p.index || p.index[name].imports.None? { return None; }
    imported := LocalImportTargets(p, PackageOf(p, name), p.index[name].imports.value);
  }

  /** list.pop, at any position. */
  method Pop(pending: seq<Name>) returns (name: Name, rest: seq<Name>)
    requires pending != []
    ensures name in pending && |rest| == |pending| - 1
    ensures forall n :: n in pending <==> n in rest || n == name
  {
    var k :| 0 <= k < |pending|;
    name, rest := pending[k], pending[..k] + pending[k + 1..];
    assert pending == pending[..k] + [name] + pending[k + 1..];
  }

  /** One turn of the worklist: None when the popped module cannot be included. */
  method Turn(p: Project, ghost g: Graph, pending: seq<Name>, included: set<Name>)
    returns (r: Option<(seq<Name>, set<Name>)>)
    requires g == GraphOf(p) && pending != []
    requires Working(g, pending, included)
    ensures r.None? ==> !Includable(g)
    ensures r.Some? ==> Working(g, r.value.0, r.value.1)
    ensures r.Some? ==> (r.value.1 == included && |r.value.0| < |pending|)
                        || exists n :: n in p.index && n !in included && r.value.1 == included + {n}
  {
    var name, rest := Pop(pending);
    if name in included {
      WorkSkips(g, pending, rest, name, included);
      return Some((rest, included));
    }
    var imported := Inspect(p, name);
    if imported.None? {
      WorkStuck(g, pending, name, included);
      return None;
    }
    var more := ExtendPending(p, rest, imported.value, included + {name});
    WorkIncludes(g, pending, rest, name, more, included);
    return Some((more, included + {name}));
  }

  /** The worklist of _collect_app_modules. The pending list is popped at any position, and every set
      is iterated in any order. */
  method Collect(p: Project) returns (r: Option<set<Name>>)
    ensures r.Some? <==> Includable(GraphOf(p))
    ensures r.Some? ==> IsNeeded(GraphOf(p), r.value) && LeastClosed(GraphOf(p), r.value)
  {
    ghost var g := GraphOf(p);
    var begun := Begin(p);
    if begun.None? { return None; }
    var pending := begun.value;
    var included: set<Name> := {};
    while pending != []
      invariant included <= p.index.Keys
      invariant Working(g, pending, included)
      decreases p.index.Keys - included, |pending|
    {
      var turn := Turn(p, g, pending, included);
      if turn.None? { return None; }
      pending, included := turn.value.0, turn.value.1;
    }
    WorkDone(g, included);
    return Some(included);
  }

  /** Any two runs of the worklist agree, whatever order each popped and iterated in: both fail, or
      both return the same modules. */
  method CollectTwice(p: Project) returns (a: Option<set<Name>>, b: Option<set<Name>>)
    ensures a == b
  {
    a := Collect(p);
    b := Collect(p);
    if a.Some? { NeededUnique(GraphOf(p), a.value, b.value); }
  }
}
