/** The laws assumed of the abstract formats can be met together: formats that keep them exist. */
module Consistency {
  import opened Base
  import opened CanonicalJson
  import opened ImageArchive
  import HB = HostBundle
  import HD = HostDelivery
  import HI = HostInstall
  import HT = HostTransfer
  import IC = ImportClosure

  function Dump(v: Json): bytes {
    Utf8All(Text(v))
  }

  lemma DumpInjective(v: Json, w: Json)
    requires Dump(v) == Dump(w)
    ensures v == w
  {
    Utf8AllInjective(Text(v), Text(w));
    assert Text(v) + "" == Text(w) + "";
    TextUnique(v, w, "", "");
  }

  ghost function Load(b: bytes): Option<Json> {
    if exists v :: WellFormed(v) && Dump(v) == b then
      var v :| WellFormed(v) && Dump(v) == b;
      Some(v)
    else None
  }

  /** Bytes as text, one character each. */
  function Chars(b: bytes): string {
    seq(|b|, i requires 0 <= i < |b| => b[i] as char)
  }

  lemma CharsInjective(a: bytes, b: bytes)
    requires Chars(a) == Chars(b)
    ensures a == b
  {
    forall i | 0 <= i < |a| ensures a[i] == b[i] { assert Chars(a)[i] == Chars(b)[i]; }
  }

  function AsJson(files: seq<Pair<bytes>>): seq<Pair<Json>> {
    seq(|files|, i requires 0 <= i < |files| => Pair(files[i].key, Str(Chars(files[i].value))))
  }

  function Pack(files: seq<Pair<bytes>>): bytes {
    Dump(Obj(AsJson(files)))
  }

  lemma PackInjective(a: seq<Pair<bytes>>, b: seq<Pair<bytes>>)
    requires Pack(a) == Pack(b)
    ensures a == b
  {
    DumpInjective(Obj(AsJson(a)), Obj(AsJson(b)));
    forall i | 0 <= i < |a| ensures a[i] == b[i] {
      assert AsJson(a)[i] == AsJson(b)[i];
      CharsInjective(a[i].value, b[i].value);
    }
  }

  ghost function Unpack(b: bytes): Option<seq<Entry>> {
    if exists files :: Pack(files) == b then
      var files :| Pack(files) == b;
      Some(Written(files))
    else None
  }

  lemma {:induction false} EscapeLonger(s: string)
    ensures |s| <= |EscapeAll(s)|
  {
    if s != "" { EscapeLonger(s[1..]); }
  }

  lemma {:induction false} Utf8Longer(s: string)
    ensures |s| <= |Utf8All(s)|
  {
    if s != "" { Utf8Longer(s[1..]); }
  }

  lemma {:induction false} MembersLonger(ms: seq<Pair<Json>>, i: nat)
    requires i < |ms|
    ensures |Text(ms[i].value)| <= |MembersText(ms)|
  {
    if i > 0 {
      MembersLonger(ms[1..], i - 1);
      assert ms[1..][i - 1] == ms[i];
    }
  }

  lemma PackLonger(files: seq<Pair<bytes>>, i: nat)
    requires i < |files|
    ensures |files[i].value| <= |Pack(files)|
  {
    var ms := AsJson(files);
    EscapeLonger(Chars(files[i].value));
    MembersLonger(ms, i);
    Utf8Longer(Text(Obj(ms)));
  }

  function Zero(): (d: string)
    ensures IsDigest(d)
  {
    "sha256:" + seq(64, i => '0')
  }

  lemma UnpackBack(files: seq<Pair<bytes>>)
    ensures Unpack(Pack(files)) == Some(Written(files)) && Pack(files) != []
  {
    var g :| Pack(g) == Pack(files) && Unpack(Pack(files)) == Some(Written(g));
    PackInjective(g, files);
    Utf8Longer(Text(Obj(AsJson(files))));
  }

  lemma LoadBack(v: Json)
    requires WellFormed(v)
    ensures Load(Dump(v)) == Some(v)
  {
    var w :| Dump(w) == Dump(v) && Load(Dump(v)) == Some(w);
    DumpInjective(v, w);
  }

  /** Bytes that begin like a text's begin with a prefix of the text. */
  lemma {:induction false} Utf8Prefix(s: string, t: string, x: bytes) returns (r: string)
    requires Utf8All(s) + x == Utf8All(t)
    ensures t == s + r
  {
    if s == "" {
      r := t;
    } else {
      Utf8Lead(s[0]);
      Regroup(Utf8(s[0]), Utf8All(s[1..]), x);
      assert t != "";
      Utf8Unique(s[0], t[0], Utf8All(s[1..]) + x, Utf8All(t[1..]));
      r := Utf8Prefix(s[1..], t[1..], x);
      assert s == [s[0]] + s[1..] && t == [t[0]] + t[1..];
    }
  }

  lemma DumpPrefix(v: Json, w: Json, x: bytes)
    requires v.Obj? && Dump(v) + x == Dump(w)
    ensures v == w
  {
    var r := Utf8Prefix(Text(v), Text(w), x);
    assert Text(w) + "" == Text(v) + r;
    TextUnique(v, w, r, "");
  }

  lemma LoadPrefix(b: bytes, n: nat)
    requires n <= |b| && Load(b).Some? && Load(b[..n]).Some? && Load(b[..n]).value.Obj?
    ensures Load(b) == Load(b[..n])
  {
    var w :| Dump(w) == b && Load(b) == Some(w);
    var v :| Dump(v) == b[..n] && Load(b[..n]) == Some(v);
    assert b[..n] + b[n..] == b;
    DumpPrefix(v, w, b[n..]);
  }

  /** Archive and document formats that keep every law exist. */
  lemma LawfulCodecExists()
    ensures exists c: Codec :: Lawful(c) && PrefixLaw(c)
  {
    hide Pack, Unpack, Dump, Load, WellFormed, IsDigest, TarName;
    var c := Codec(b => Zero(), b => None, b => Unpack(b), files => Pack(files), b => Load(b), v => Dump(v));
    forall files: seq<Pair<bytes>> ensures c.untar(c.tar(files)) == Some(Written(files)) && c.tar(files) != [] {
      UnpackBack(files);
    }
    forall files: seq<Pair<bytes>>, i: nat | i < |files| ensures |files[i].value| <= |c.tar(files)| {
      PackLonger(files, i);
    }
    forall v: Json | WellFormed(v) ensures c.loads(c.dumps(v)) == Some(v) { LoadBack(v); }
    forall b: bytes | c.loads(b).Some? ensures WellFormed(c.loads(b).value) { LoadWellFormed(b); }
    forall b: bytes, n: nat | n <= |b| && c.loads(b).Some? && c.loads(b[..n]).Some? && c.loads(b[..n]).value.Obj?
      ensures c.loads(b) == c.loads(b[..n])
    {
      LoadPrefix(b, n);
    }
    assert Lawful(c) && PrefixLaw(c);
  }

  lemma LoadWellFormed(b: bytes)
    requires Load(b).Some?
    ensures WellFormed(Load(b).value)
  {
  }

  // ---------------------------------------------------------------------------
  // The bundle's printer

  ghost function LoadLine(b: bytes): Option<Json> {
    if exists v :: WellFormed(v) && Encode(v) + [10] == b then
      var v :| WellFormed(v) && Encode(v) + [10] == b;
      Some(v)
    else None
  }

  predicate Plain(items: seq<HB.Item>) {
    forall i | 0 <= i < |items| :: items[i] == HB.Packed(items[i].name, items[i].data) && '\0' !in items[i].name
  }

  function ItemFiles(items: seq<HB.Item>): seq<Pair<bytes>> {
    seq(|items|, i requires 0 <= i < |items| => Pair(items[i].name, items[i].data))
  }

  function FileItems(files: seq<Pair<bytes>>): seq<HB.Item> {
    seq(|files|, i requires 0 <= i < |files| => HB.Packed(files[i].key, files[i].value))
  }

  ghost function UnpackItems(b: bytes): Option<seq<HB.Item>> {
    if exists files :: Pack(files) == b then
      var files :| Pack(files) == b;
      Some(FileItems(files))
    else None
  }

  lemma UnpackItemsBack(items: seq<HB.Item>)
    requires Plain(items)
    ensures UnpackItems(Pack(ItemFiles(items))) == Some(items)
  {
    var files := ItemFiles(items);
    var g :| Pack(g) == Pack(files) && UnpackItems(Pack(files)) == Some(FileItems(g));
    PackInjective(g, files);
    assert FileItems(files) == items;
  }

  /** So do a printer of manifests and a writer that takes every plain listing. */
  lemma LawfulHostExists()
    ensures exists h: HB.Host ::
      HB.PrintLaw(h) && HB.PackLaw(h) && forall items {:trigger h.pack(items)} :: Plain(items) ==> h.pack(items).Some?
  {
    hide Pack, UnpackItems, LoadLine, WellFormed, Canon, Encode, Plain;
    var h := HB.Host(b => "", v => Encode(v), b => LoadLine(b),
                     items => if Plain(items) then Some(Pack(ItemFiles(items))) else None, b => UnpackItems(b));
    forall v: Json | WellFormed(v)
      ensures h.parse(h.render(v) + [10]).Some? && Canon(h.parse(h.render(v) + [10]).value) == Canon(v)
    {
      LineBack(v);
    }
    forall v: Json, w: Json | Canon(v) == Canon(w) ensures h.render(v) == h.render(w) { CanonPrints(v, w); }
    forall b: bytes | h.parse(b).Some? ensures WellFormed(h.parse(b).value) { LineWellFormed(b); }
    assert HB.PrintLaw(h);
    forall items: seq<HB.Item> | h.pack(items).Some? ensures h.unpack(h.pack(items).value) == Some(items) {
      UnpackItemsBack(items);
    }
    assert HB.PackLaw(h);
  }

  lemma CanonPrints(v: Json, w: Json)
    requires Canon(v) == Canon(w)
    ensures Encode(v) == Encode(w)
  {
  }

  lemma LineWellFormed(b: bytes)
    requires LoadLine(b).Some?
    ensures WellFormed(LoadLine(b).value)
  {
  }

  lemma LineBack(v: Json)
    requires WellFormed(v)
    ensures LoadLine(Encode(v) + [10]).Some? && Canon(LoadLine(Encode(v) + [10]).value) == Canon(v)
  {
    var line := Encode(v) + [10];
    var w :| WellFormed(w) && Encode(w) + [10] == line && LoadLine(line) == Some(w);
    assert Encode(w) == line[..|line| - 1] == Encode(v);
    EncodeCanonical(v, w);
    CanonSame(v, w);
  }

  // ---------------------------------------------------------------------------
  // Source trees

  /** What a file system holds under a name, from a root. */
  function FileAt(fs: HI.Tree, root: HI.Path, name: string): Option<bytes> {
    var path := HI.Place(root, name);
    if path in fs && fs[path].File? then Some(fs[path].data) else None
  }

  lemma {:induction false} SplitInjective(a: string, b: string)
    requires Split(a) == Split(b)
    ensures a == b
  {
    if a != "" && b != "" {
      var ra, rb := Split(a[1..]), Split(b[1..]);
      assert Split(a)[1..] == if a[0] == '/' then ra else ra[1..];
      assert Split(b)[1..] == if b[0] == '/' then rb else rb[1..];
      assert (a[0] == '/') == (Split(a)[0] == "") && (b[0] == '/') == (Split(b)[0] == "");
      if a[0] != '/' {
        assert Split(a)[0][0] == a[0] && Split(a)[0][1..] == ra[0];
        assert Split(b)[0][0] == b[0] && Split(b)[0][1..] == rb[0];
        assert ra == [ra[0]] + ra[1..] && rb == [rb[0]] + rb[1..];
      }
      SplitInjective(a[1..], b[1..]);
      assert a == [a[0]] + a[1..] && b == [b[0]] + b[1..];
    }
  }

  lemma FilesApart(fs: HI.Tree, root: HI.Path, a: string, b: string)
    requires HI.TreeOk(fs) && a != b && HT.NormalName(a) && HT.NormalName(b)
    requires FileAt(fs, root, a).Some? && FileAt(fs, root, b).Some?
    ensures !(Split(a) <= Split(b))
  {
    hide HT.NormalName, Split, HI.Place, HI.TreeOk;
    HD.PlaceNormal(root, a);
    HD.PlaceNormal(root, b);
    if Split(a) <= Split(b) {
      assert HI.Place(root, a) <= HI.Place(root, b);
      if Split(a) == Split(b) {
        SplitInjective(a, b);
      } else {
        HI.Inside(fs, HI.Place(root, a), HI.Place(root, b));
      }
    }
  }

  /** Whatever a file system holds, read under normal module names, is a tree that keeps its law. */
  lemma FileSystemsLawful(fs: HI.Tree, root: HI.Path, project: IC.Project, file: IC.Name -> string)
    requires HI.TreeOk(fs) && forall n | n in project.index :: HT.NormalName(file(n))
    ensures HT.TreeLaw(HT.Tree(project, file, name => FileAt(fs, root, name)))
  {
    hide HT.NormalName, Split, FileAt, HI.TreeOk;
    var t := HT.Tree(project, file, name => FileAt(fs, root, name));
    forall a, b | a != b && HT.NormalName(a) && HT.NormalName(b) && HT.ReadFile(t, a).Some? && HT.ReadFile(t, b).Some?
      ensures !(Split(a) <= Split(b))
    {
      FilesApart(fs, root, a, b);
    }
  }
}
