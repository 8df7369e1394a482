/** From the source tree to the installed release: whatever the builder builds, the receiver accepts and can
    install, and without faults it does. */
module HostDelivery {
  import opened Base
  import opened HostBundle
  import opened HostTransfer
  import opened HostReceiver
  import HI = HostInstall
  import IA = ImageArchive
  import IC = ImportClosure

  /** The files of a bundle's archive. */
  function Shipped(h: Host, members: seq<Pair<bytes>>): seq<Pair<bytes>> {
    members + [Pair(MANIFEST, ManifestBytes(h, members))]
  }

  // ---------------------------------------------------------------------------
  // Where normal names lead

  predicate Clean(components: seq<string>) {
    forall i | 0 <= i < |components| :: components[i] !in {"", ".", ".."}
  }

  lemma {:induction false} WalkClean(base: HI.Path, components: seq<string>)
    requires Clean(components)
    ensures HI.Walk(base, components) == base + components
    decreases |components|
  {
    if components == [] {
      assert base + [] == base;
    } else {
      WalkClean(base + [components[0]], components[1..]);
      assert base + [components[0]] + components[1..] == base + components;
    }
  }

  /** A normal name leads below the target by its own components. */
  lemma PlaceNormal(target: HI.Path, name: string)
    requires NormalName(name)
    ensures HI.Place(target, name) == target + IA.Split(name)
  {
    assert Clean(IA.Split(name));
    WalkClean(target, IA.Split(name));
  }

  lemma LeafNormal(name: string)
    requires Leaf(name)
    ensures NormalName(name) && IA.Split(name) == [name]
  {
    IA.SplitWhole(name);
  }

  lemma WithinNormal(directory: string, leaf: string)
    requires Leaf(directory) && Leaf(leaf)
    ensures NormalName(Within(directory, leaf))
  {
    IA.SplitFirst(directory, leaf);
    IA.SplitWhole(leaf);
  }

  lemma FixedNormal(name: string)
    requires name in FIXED_FILES
    ensures NormalName(name)
  {
    hide Within, NormalName, Leaf;
    FixedLeaves();
    LauncherLeaf();
    WithinNormal("scripts", "serve_ephemeral_signed_verifier_https.py");
    WithinNormal("schemas", "checkpoint.schema.json");
    WithinNormal("schemas", "observation-event.schema.json");
    LeafNormal(REQUIREMENTS);
  }

  lemma ManifestLeaf()
    ensures Leaf(MANIFEST)
  {
  }

  // ---------------------------------------------------------------------------
  // The files of a bundle do not get in each other's way

  lemma NeededIndexed(p: IC.Project, needed: set<IC.Name>, n: IC.Name)
    requires IC.Includable(IC.GraphOf(p)) && IC.IsNeeded(IC.GraphOf(p), needed) && n in needed
    ensures n in p.index
  {
    assert IC.Needed(IC.GraphOf(p), n);
    assert IC.GraphOf(p).needs(n).Some?;
  }

  /** Every file of a bundle has a normal name and was read under it. */
  lemma MemberNormal(t: Tree, needed: set<IC.Name>, members: seq<Pair<bytes>>, i: nat)
    requires TreeLaw(t) && Sources(t, needed, members) && i < |members|
    ensures NormalName(members[i].key) && ReadFile(t, members[i].key).Some?
  {
    hide NormalName, IC.Includable, IC.IsNeeded;
    assert members[i] in members;
    assert Owned(t, needed, members[i].key);
    if members[i].key in FIXED_FILES {
      FixedNormal(members[i].key);
    } else {
      var n :| n in needed && t.file(n) == members[i].key;
      NeededIndexed(t.project, needed, n);
    }
  }

  /** No path of a bundle's file begins another's. */
  lemma MembersApart(t: Tree, needed: set<IC.Name>, members: seq<Pair<bytes>>, i: nat, j: nat)
    requires TreeLaw(t) && Sources(t, needed, members) && i < |members| && j < |members| && i != j
    ensures !(IA.Split(members[i].key) <= IA.Split(members[j].key))
  {
    hide NormalName;
    SortedDistinct(members);
    MemberNormal(t, needed, members, i);
    MemberNormal(t, needed, members, j);
  }

  /** The manifest is beside them. */
  lemma ManifestApart(name: string)
    requires BuilderAllows(name)
    ensures !(IA.Split(name) <= IA.Split(MANIFEST)) && !(IA.Split(MANIFEST) <= IA.Split(name))
  {
    hide IA.Split;
    ManifestLeaf();
    LeafNormal(MANIFEST);
    AllowedStarts(name);
    HI.SplitHead(name);
  }

  lemma AllowedStarts(name: string)
    requires BuilderAllows(name)
    ensures name != "" && name[0] in {'s', 'r'}
  {
    hide IA.Split;
    if StartsWith(name, APP_DIRECTORY) {
      assert name[0] == name[..|APP_DIRECTORY|][0] == APP_DIRECTORY[0] == 's';
    } else {
      FixedStarts();
    }
  }

  lemma FixedStarts()
    ensures LAUNCHER[0] == 's' && REQUIREMENTS[0] == 'r' && CHECKPOINT[0] == 's' && OBSERVATION[0] == 's'
  {
  }

  lemma SamePrefix(base: HI.Path, p: HI.Path, q: HI.Path)
    requires base + p <= base + q
    ensures p <= q
  {
    assert p == (base + p)[|base|..] && q == (base + q)[|base|..];
  }

  lemma PlacesApart(target: HI.Path, a: string, b: string)
    requires NormalName(a) && NormalName(b) && !(IA.Split(a) <= IA.Split(b))
    ensures !(HI.Place(target, a) <= HI.Place(target, b))
  {
    hide NormalName, IA.Split;
    PlaceNormal(target, a);
    PlaceNormal(target, b);
    if HI.Place(target, a) <= HI.Place(target, b) { SamePrefix(target, IA.Split(a), IA.Split(b)); }
  }

  /** The i-th file of a bundle's archive has a normal name, and no other file is on its way. */
  lemma ShippedApart(h: Host, t: Tree, needed: set<IC.Name>, members: seq<Pair<bytes>>, i: nat, j: nat)
    requires TreeLaw(t) && Sources(t, needed, members) && Fits(members)
    requires i <= |members| && j <= |members| && i != j
    ensures
      var files := Shipped(h, members);
      NormalName(files[i].key) && NormalName(files[j].key) &&
      !(IA.Split(files[i].key) <= IA.Split(files[j].key))
  {
    hide NormalName, IA.Split, Sources, TreeLaw, BuilderAllows, ManifestBytes;
    if i < |members| { MemberNormal(t, needed, members, i); }
    if j < |members| { MemberNormal(t, needed, members, j); }
    ManifestLeaf();
    LeafNormal(MANIFEST);
    if i == |members| {
      ManifestApart(members[j].key);
    } else if j == |members| {
      ManifestApart(members[i].key);
    } else {
      MembersApart(t, needed, members, i, j);
    }
  }

  /** Whatever the builder builds can be installed below any target. */
  lemma BuiltIsCompatible(h: Host, t: Tree, needed: set<IC.Name>, members: seq<Pair<bytes>>, b: Bundle,
                          target: HI.Path)
    requires TreeLaw(t) && Buildable(h, t, needed, members, b)
    ensures HI.Compatible(target, Shipped(h, members))
  {
    hide TreeLaw, Sources, HI.Place, NormalName, IA.Split, Shipped, Fits;
    var files := Shipped(h, members);
    assert |files| == |members| + 1 by { ShippedSize(h, members); }
    forall i, j | 0 <= i < |files| && 0 <= j < |files| && i != j
      ensures !(HI.At(target, files, i) <= HI.At(target, files, j))
    {
      ShippedApart(h, t, needed, members, i, j);
      PlacesApart(target, files[i].key, files[j].key);
    }
  }

  lemma ShippedSize(h: Host, members: seq<Pair<bytes>>)
    ensures |Shipped(h, members)| == |members| + 1
  {
  }

  // ---------------------------------------------------------------------------
  // The whole way

  /** The connection delivers what it is given. */
  ghost predicate Faithful(carry: bytes -> bytes) {
    forall x {:trigger carry(x)} :: carry(x) == x
  }

  /** The hash tells what was sent from what arrived. */
  predicate Distinguished(h: Host, carry: bytes -> bytes, sent: bytes) {
    h.sha(carry(sent)) == h.sha(sent) ==> carry(sent) == sent
  }

  /** The operator builds, sends the bundle if it is the pinned one, and the host receives what arrives, under any
      connection and any faults. Success means that the pinned bundle was built and, if the hash tells it from what
      arrived, that exactly its members and their manifest are installed. Without faults, over a faithful
      connection, with fit ancestors and a new target, it succeeds exactly when there is such a bundle. */
  method Deliver(h: Host, t: Tree, pins: Pins, carry: bytes -> bytes, target: HI.Path, home: HI.Path, fs: HI.Tree,
                 faults: nat -> HI.Fault)
    returns (ok: bool, after: HI.Tree, ghost needed: set<IC.Name>, ghost members: seq<Pair<bytes>>, ghost b: Bundle)
    requires PackLaw(h) && PrintLaw(h) && TreeLaw(t) && HI.TreeOk(fs)
    ensures HI.Confined(fs, after, home + HI.ANCESTORS + [HI.RELEASE])
    ensures (forall n, m, c :: Buildable(h, t, n, m, c) ==> PinsOf(c) != pins) ==> !ok && after == fs
    ensures ok ==> Buildable(h, t, needed, members, b) && PinsOf(b) == pins && target !in fs
    ensures ok && Distinguished(h, carry, b.archive) ==> HI.Installed(after, target, Shipped(h, members))
    ensures HI.Quiet(faults) && Faithful(carry) && target == home + HI.ANCESTORS + [HI.RELEASE] && target !in fs &&
            HI.AncestorsFine(fs, home, home + HI.ANCESTORS) ==>
      (ok <==> exists n, m, c :: Buildable(h, t, n, m, c) && PinsOf(c) == pins)
  {
    hide Buildable, TreeLaw, HI.TreeOk, HI.Confined, HI.Installed, HI.Compatible, HI.AncestorsFine, Accepted, PackLaw;
    hide PrintLaw, Shipped;
    NothingConfined(fs, home + HI.ANCESTORS + [HI.RELEASE]);
    var built;
    built, needed, members := BuildBundle(h, t);
    b := Bundle([], "", 0, 0);
    if built.None? { return false, fs, needed, members, b; }
    b := built.value;
    var sent := built.value;
    if PinsOf(sent) != pins {
      forall n, m, c | Buildable(h, t, n, m, c) ensures PinsOf(c) != pins {
        BundleUnique(h, t, needed, n, members, m, b, c);
      }
      return false, fs, needed, members, b;
    }
    BuiltIsAccepted(h, t, needed, members, b);
    BuiltIsCompatible(h, t, needed, members, b, target);
    ok, after := HI.Receive(h, pins, carry(sent.archive), target, home, fs, faults);
    if ok { AcceptedHash(h, pins, carry(sent.archive)); BuiltHash(h, t, needed, members, b); }
    ShippedFiles(h, members);
  }

  lemma NothingConfined(fs: HI.Tree, target: HI.Path)
    ensures HI.Confined(fs, fs, target)
  {
  }

  lemma AcceptedHash(h: Host, pins: Pins, input: bytes)
    requires Accepted(h, pins, input)
    ensures h.sha(input) == pins.digest
  {
  }

  lemma BuiltHash(h: Host, t: Tree, needed: set<IC.Name>, members: seq<Pair<bytes>>, b: Bundle)
    requires Buildable(h, t, needed, members, b)
    ensures b.digest == h.sha(b.archive)
  {
    hide Sources, Fits;
  }

  lemma ShippedFiles(h: Host, members: seq<Pair<bytes>>)
    ensures Shipped(h, members) == members + [Pair(MANIFEST, ManifestBytes(h, members))]
  {
  }
}
