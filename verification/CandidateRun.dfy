/** One build, load and save of a candidate image, with its temporary container and tag cleaned up whatever
    the Docker commands do. */
module CandidateRun {
  import opened Base
  import opened CanonicalJson
  import opened ImageArchive
  import opened PortableParser
  import CA = CandidateArchive

  datatype Command =
    | ListTag | InspectTarget | InspectBase | Create | Copy(id: string) | Remove(id: string)
    | Build | Inspect | Save | RemoveTag

  datatype Trouble = OutputLimit | DiagnosticLimit | Timeout | OtherError

  /** What the runner did: it returned, or raised. */
  datatype Reply = Returned(code: int, out: bytes, err: bytes) | Raised(why: Trouble)

  datatype Event = Event(cmd: Command, reply: Reply)

  predicate Fine(r: Reply) {
    r.Returned? && r.code == 0
  }

  /** The runner: an environment that may answer anything, each answer depending on all that went before. */
  class Runner {
    const respond: (seq<Event>, Command) -> Reply
    var log: seq<Event>

    constructor (respond: (seq<Event>, Command) -> Reply)
      ensures log == [] && this.respond == respond
    {
      this.respond := respond;
      log := [];
    }

    method Issue(cmd: Command) returns (r: Reply)
      modifies this
      ensures r == respond(old(log), cmd)
      ensures log == old(log) + [Event(cmd, r)]
    {
      r := respond(log, cmd);
      log := log + [Event(cmd, r)];
    }
  }

  /** The arguments and the environment of a run. `prepared` is the context's digest, or None when preparing
      it raised; `pins` are the built-in layer digests. */
  datatype Settings = Settings(
    tag: string, allowedTags: set<string>, optedIn: bool, prepared: Option<string>, target: string,
    retain: bool, dynamic: bool, portable: bool, pins: seq<string>)

  datatype Marker =
    | TagNotAllowlisted | OptInRequired | PreflightFailed | CreateFailed | CopyFailed | Incomplete
    | BuildFailed(code: int, errBytes: nat) | FactsMismatch | SaveFailed | ArchiveInvalid(fault: CA.Fault)
    | Confirmed(facts: Facts, size: int, layers: nat, archiveBytes: nat, source: string)
    | Failed(why: Trouble)
    | CleanupFailed(containerOk: bool, tagOk: bool, container: Option<string>)

  function ExitCode(m: Marker): int {
    match m
    case TagNotAllowlisted => 23
    case OptInRequired => 10
    case PreflightFailed => 11
    case Incomplete => 11
    case CreateFailed => 12
    case CopyFailed => 13
    case BuildFailed(_, _) => 14
    case FactsMismatch => 15
    case SaveFailed => 16
    case ArchiveInvalid(_) => 17
    case Confirmed(_, _, _, _, _) => 0
    case Failed(OutputLimit) => 18
    case Failed(DiagnosticLimit) => 19
    case Failed(Timeout) => 20
    case Failed(OtherError) => 21
    case CleanupFailed(_, _, _) => 22
  }

  // ---------------------------------------------------------------------------
  // What the replies say

  function Ascii(b: bytes): string {
    seq(|b|, i requires 0 <= i < |b| => b[i] as char)
  }

  /** [0-9a-f]{64}, with at most one newline after it. */
  function ContainerId(out: bytes): Option<string> {
    if (|out| == 64 || (|out| == 65 && out[64] == 10)) && forall i | 0 <= i < 64 :: IsHex(out[i] as char)
    then Some(Ascii(out[..64])) else None
  }

  function DropNewlines(b: bytes): bytes {
    if b != [] && b[|b| - 1] == 10 then DropNewlines(b[..|b| - 1]) else b
  }

  /** The part before the first bar and the part after it. */
  function Cut(b: bytes): Option<(bytes, bytes)> {
    if b == [] then None
    else if b[0] == 124 then Some(([], b[1..]))
    else
      var rest := Cut(b[1..]);
      if rest.None? then None else Some(([b[0]] + rest.value.0, rest.value.1))
  }

  datatype Inspected = Inspected(id: string, size: nat, layers: seq<string>)

  predicate Decimal(b: bytes) {
    b != [] && forall i | 0 <= i < |b| :: 48 <= b[i] <= 57
  }

  function Number(b: bytes): nat
    requires forall i | 0 <= i < |b| :: 48 <= b[i] <= 57
  {
    if b == [] then 0 else Number(b[..|b| - 1]) * 10 + (b[|b| - 1] - 48)
  }

  function Texts(v: Json): Option<seq<string>> {
    if v.Arr? && forall i | 0 <= i < |v.items| :: v.items[i].Str?
    then Some(seq(|v.items|, i requires 0 <= i < |v.items| => v.items[i].s)) else None
  }

  /** _inspect_tuple: id, system, architecture, size and layers, with bars between. */
  function InspectTuple(c: Codec, out: bytes): Option<Inspected> {
    if exists i | 0 <= i < |out| :: out[i] >= 128 then None else
    var id := Cut(DropNewlines(out));
    if id.None? then None else
    var os := Cut(id.value.1);
    if os.None? then None else
    var arch := Cut(os.value.1);
    if arch.None? then None else
    var size := Cut(arch.value.1);
    if size.None? || c.loads(size.value.1).None? then None else
    var layers := Texts(c.loads(size.value.1).value);
    if IsDigest(Ascii(id.value.0)) && Ascii(os.value.0) == "linux" && Ascii(arch.value.0) == "amd64" &&
       Decimal(size.value.0) && layers.Some? && forall i | 0 <= i < |layers.value| :: IsDigest(layers.value[i])
    then Some(Inspected(Ascii(id.value.0), Number(size.value.0), layers.value)) else None
  }

  function IsSpace(b: byte): bool {
    b == 32 || 9 <= b <= 13 || 28 <= b <= 31
  }

  function TrimLeft(b: bytes): bytes {
    if b != [] && IsSpace(b[0]) then TrimLeft(b[1..]) else b
  }

  function TrimRight(b: bytes): bytes {
    if b != [] && IsSpace(b[|b| - 1]) then TrimRight(b[..|b| - 1]) else b
  }

  function OnlyAscii(b: bytes): bytes {
    if b == [] then [] else (if b[0] < 128 then [b[0]] else []) + OnlyAscii(b[1..])
  }

  function TagLine(s: Settings): bytes {
    Utf8All(s.tag) + [10]
  }

  // ---------------------------------------------------------------------------
  // A monitor of the commands

  /** What is known of the tag: nothing was built; it may be there; a listing showed exactly it; a listing
      showed nothing, or it was removed. */
  datatype TagFact = NotBuilt | Maybe | Seen | Gone

  /** `clear`: the last listing before the build was empty. `wrong`: a second container was accepted, something
      else than the accepted container was removed, a build began before the removal had succeeded or without
      a clear listing, or a tag was removed that no listing had just shown. */
  datatype Monitor = Monitor(
    container: Option<string>, removals: nat, removed: bool, clear: bool, builds: nat, tag: TagFact, wrong: bool)

  function Next(s: Settings, m: Monitor, e: Event): Monitor {
    match e.cmd
    case Create =>
      var id := if Fine(e.reply) then ContainerId(e.reply.out) else None;
      if id.None? then m else m.(container := id, wrong := m.wrong || m.container.Some?)
    case Remove(id) =>
      m.(removals := m.removals + 1, removed := m.removed || Fine(e.reply),
         wrong := m.wrong || m.container != Some(id))
    case Build => m.(builds := m.builds + 1, tag := Maybe, wrong := m.wrong || !m.removed || !m.clear)
    case ListTag =>
      if m.builds == 0 then m.(clear := Fine(e.reply) && e.reply.out == [])
      else m.(tag := if Fine(e.reply) && e.reply.out == [] then Gone
                     else if Fine(e.reply) && e.reply.out == TagLine(s) then Seen else Maybe)
    case RemoveTag => m.(tag := if Fine(e.reply) then Gone else Maybe, wrong := m.wrong || m.tag != Seen)
    case _ => m
  }

  function Watch(s: Settings, log: seq<Event>): Monitor {
    if log == [] then Monitor(None, 0, false, false, 0, NotBuilt, false)
    else Next(s, Watch(s, log[..|log| - 1]), log[|log| - 1])
  }

  lemma WatchMore(s: Settings, log: seq<Event>, e: Event)
    ensures Watch(s, log + [e]) == Next(s, Watch(s, log), e)
  {
    assert (log + [e])[..|log|] == log;
  }

  /** The command was issued and returned this output with code 0. */
  predicate Said(log: seq<Event>, cmd: Command, out: bytes) {
    exists i | 0 <= i < |log| :: log[i].cmd == cmd && Fine(log[i].reply) && log[i].reply.out == out
  }

  /** What a success rests on: the image's inspection, and its saved archive, accepted for it. */
  datatype Evidence = Evidence(inspection: bytes, archive: bytes)

  predicate Proven(c: Codec, s: Settings, log: seq<Event>, e: Evidence) {
    Said(log, Inspect, e.inspection) && Said(log, Save, e.archive) && InspectTuple(c, e.inspection).Some? &&
    var x := InspectTuple(c, e.inspection).value;
    1 <= |x.layers| <= 32 && (!s.dynamic ==> x.layers == s.pins) &&
    CA.CandidateOk(c, e.archive, x.id, s.tag, x.layers, s.portable)
  }

  lemma SaidMore(log: seq<Event>, e: Event, cmd: Command, out: bytes)
    requires Said(log, cmd, out) || (e.cmd == cmd && Fine(e.reply) && e.reply.out == out)
    ensures Said(log + [e], cmd, out)
  {
    if Said(log, cmd, out) {
      var i :| 0 <= i < |log| && log[i].cmd == cmd && Fine(log[i].reply) && log[i].reply.out == out;
      assert (log + [e])[i] == log[i];
    } else {
      assert (log + [e])[|log|] == e;
    }
  }

  // ---------------------------------------------------------------------------
  // The run

  /** A command, with the monitor's view of it. */
  method Ask(s: Settings, docker: Runner, cmd: Command) returns (r: Reply)
    modifies docker
    ensures docker.log == old(docker.log) + [Event(cmd, r)]
    ensures Watch(s, docker.log) == Next(s, Watch(s, old(docker.log)), Event(cmd, r))
  {
    r := docker.Issue(cmd);
    WatchMore(s, old(docker.log), Event(cmd, r));
  }

  predicate Untouched(m: Monitor) {
    m.container.None? && m.removals == 0 && !m.removed && m.builds == 0 && m.tag == NotBuilt && !m.wrong
  }

  /** The three checks before anything is created. */
  method Preflight(s: Settings, docker: Runner) returns (ok: bool)
    requires docker.log == []
    modifies docker
    ensures Untouched(Watch(s, docker.log)) && (ok ==> Watch(s, docker.log).clear)
  {
    var tags := Ask(s, docker, ListTag);
    if tags.Raised? { return false; }
    var target := Ask(s, docker, InspectTarget);
    if target.Raised? { return false; }
    var base := Ask(s, docker, InspectBase);
    if base.Raised? { return false; }
    return tags.code == 0 && tags.out == [] && target.code == 0 && target.out == Utf8All(s.target) + [10] &&
           base.code == 0 && IsDigest(Ascii(TrimLeft(TrimRight(OnlyAscii(base.out)))));
  }

  /** The result's facts are those of the saved archive. */
  predicate Reports(c: Codec, s: Settings, m: Marker, e: Evidence) {
    m.Confirmed? && InspectTuple(c, e.inspection).Some? &&
    var x := InspectTuple(c, e.inspection).value;
    m.size == x.size && m.layers == |x.layers| && m.archiveBytes == |e.archive| && s.prepared == Some(m.source) &&
    CA.Identified(m.facts, x.id) && m.facts.diffIds == x.layers && (s.portable ==> m.facts.manifestDigest.Some?)
  }

  /** Inspecting and saving the built image, and accepting the archive. */
  method Collect(c: Codec, s: Settings, docker: Runner, source: string) returns (m: Marker, ghost e: Evidence)
    requires s.prepared == Some(source)
    modifies docker
    ensures Watch(s, docker.log) == Watch(s, old(docker.log))
    ensures !m.CleanupFailed?
    ensures m.Confirmed? ==> Proven(c, s, docker.log, e) && Reports(c, s, m, e)
  {
    hide InspectTuple, CA.CandidateOk, Next;
    e := Evidence([], []);
    var inspection := Ask(s, docker, Inspect);
    NextIgnores(s, Watch(s, old(docker.log)), Event(Inspect, inspection));
    if inspection.Raised? { return Failed(inspection.why), e; }
    var x := if inspection.code == 0 then InspectTuple(c, inspection.out) else None;
    if x.None? || (!s.dynamic && x.value.layers != s.pins) || !(1 <= |x.value.layers| <= 32) {
      return FactsMismatch, e;
    }
    SaidMore(old(docker.log), Event(Inspect, inspection), Inspect, inspection.out);
    ghost var between := docker.log;
    var saved := Ask(s, docker, Save);
    NextIgnores(s, Watch(s, between), Event(Save, saved));
    if saved.Raised? { return Failed(saved.why), e; }
    if saved.code != 0 { return SaveFailed, e; }
    SaidMore(between, Event(Save, saved), Inspect, inspection.out);
    SaidMore(between, Event(Save, saved), Save, saved.out);
    var pins := if s.dynamic then x.value.layers else s.pins;
    var valid := CA.ValidateArchive(c, saved.out, x.value.id, s.tag, pins, s.portable);
    if valid.Err? { return ArchiveInvalid(valid.error), e; }
    e := Evidence(inspection.out, saved.out);
    return Confirmed(valid.value, x.value.size, |x.value.layers|, |saved.out|, source), e;
  }

  lemma NextIgnores(s: Settings, m: Monitor, e: Event)
    requires e.cmd.Inspect? || e.cmd.Save? || e.cmd.Copy? || e.cmd.InspectTarget? || e.cmd.InspectBase?
    ensures Next(s, m, e) == m
  {
  }

  /** The build and what follows it. */
  method Produce(c: Codec, s: Settings, docker: Runner, source: string) returns (m: Marker, ghost e: Evidence)
    requires s.prepared == Some(source)
    modifies docker
    ensures Watch(s, docker.log) == Next(s, Watch(s, old(docker.log)), Event(Build, Raised(OtherError)))
    ensures !m.CleanupFailed?
    ensures m.Confirmed? ==> Proven(c, s, docker.log, e) && Reports(c, s, m, e)
  {
    hide Proven, Reports, Watch;
    e := Evidence([], []);
    var built := Ask(s, docker, Build);
    if built.Raised? { return Failed(built.why), e; }
    if built.code != 0 { return BuildFailed(built.code, |built.err|), e; }
    m, e := Collect(c, s, docker, source);
  }

  /** The flags the cleanup goes by. */
  datatype Flags = Flags(container: Option<string>, attempted: bool, containerOk: bool, tagPossible: bool)

  /** The flags say what the monitor saw. */
  predicate Tracks(f: Flags, m: Monitor) {
    !m.wrong && m.removals == (if f.attempted then 1 else 0) && (f.attempted ==> m.container.Some?) &&
    f.container == (if m.removed then None else m.container) && (m.removed ==> f.attempted) &&
    (f.containerOk <==> !f.attempted || m.removed) && m.builds == (if f.tagPossible then 1 else 0) &&
    (f.tagPossible ==> m.removed)
  }

  /** The try block: create, copy, remove, then build. */
  method Attempt(c: Codec, s: Settings, docker: Runner, source: string) returns (m: Marker, f: Flags, ghost e: Evidence)
    requires s.prepared == Some(source) && Untouched(Watch(s, docker.log)) && Watch(s, docker.log).clear
    modifies docker
    ensures Tracks(f, Watch(s, docker.log)) && !m.CleanupFailed?
    ensures m.Confirmed? ==> f.tagPossible && Proven(c, s, docker.log, e) && Reports(c, s, m, e)
  {
    hide Proven, Reports, Watch, ContainerId;
    e, f := Evidence([], []), Flags(None, false, true, false);
    var created := Ask(s, docker, Create);
    if created.Raised? { return Failed(created.why), f, e; }
    var id := if created.code == 0 then ContainerId(created.out) else None;
    if id.None? { return CreateFailed, f, e; }
    f := f.(container := id);
    var copied := Ask(s, docker, Copy(id.value));
    if copied.Raised? { return Failed(copied.why), f, e; }
    if copied.code != 0 { return CopyFailed, f, e; }
    f := f.(attempted := true);
    var removed := Ask(s, docker, Remove(id.value));
    if removed.Raised? || removed.code != 0 { return Incomplete, f.(containerOk := false), e; }
    f := f.(container := None, tagPossible := true);
    m, e := Produce(c, s, docker, source);
  }

  /** The finally block. */
  method CleanUp(s: Settings, docker: Runner, f: Flags) returns (g: Flags, tagOk: bool)
    requires Tracks(f, Watch(s, docker.log))
    modifies docker
    ensures old(docker.log) <= docker.log
    ensures Tracks(g, Watch(s, docker.log)) && g.tagPossible == f.tagPossible
    ensures Watch(s, docker.log).container == Watch(s, old(docker.log)).container
    ensures g.attempted <==> Watch(s, docker.log).container.Some?
    ensures tagOk <==> f.tagPossible && !s.retain ==> Watch(s, docker.log).tag == Gone
  {
    hide Watch, TagLine;
    g, tagOk := f, true;
    if g.container.Some? && !g.attempted {
      g := g.(attempted := true);
      var removed := Ask(s, docker, Remove(g.container.value));
      g := g.(containerOk := Fine(removed), container := if Fine(removed) then None else g.container);
    }
    if g.tagPossible && !s.retain {
      var state := Ask(s, docker, ListTag);
      if state.Raised? || state.code != 0 {
        tagOk := false;
      } else if state.out == [] {
        tagOk := true;
      } else if state.out == TagLine(s) {
        var untagged := Ask(s, docker, RemoveTag);
        tagOk := Fine(untagged);
      } else {
        tagOk := false;
      }
    }
  }

  lemma SaidLonger(log: seq<Event>, longer: seq<Event>, cmd: Command, out: bytes)
    requires log <= longer && Said(log, cmd, out)
    ensures Said(longer, cmd, out)
  {
    var i :| 0 <= i < |log| && log[i].cmd == cmd && Fine(log[i].reply) && log[i].reply.out == out;
    assert longer[i] == log[i];
  }

  lemma ProvenLonger(c: Codec, s: Settings, log: seq<Event>, longer: seq<Event>, e: Evidence)
    requires log <= longer && Proven(c, s, log, e)
    ensures Proven(c, s, longer, e)
  {
    SaidLonger(log, longer, Inspect, e.inspection);
    SaidLonger(log, longer, Save, e.archive);
  }

  /** The container was not removed, or a tag that may be there was to go and was not seen gone. */
  predicate LeftBehind(s: Settings, m: Monitor) {
    (m.container.Some? && !m.removed) || (m.builds > 0 && !s.retain && m.tag != Gone)
  }

  /** run_once, for every behaviour of the runner: an accepted container is removed exactly once, no build
      starts before that has succeeded, only a tag just listed is removed, the exit code is 22 exactly when
      something may be left behind, and 0 only with a built image whose saved archive is a valid candidate for
      the id inspected. */
  method RunOnce(c: Codec, s: Settings, docker: Runner) returns (m: Marker, ghost e: Evidence)
    requires docker.log == []
    modifies docker
    ensures !Watch(s, docker.log).wrong
    ensures Watch(s, docker.log).removals == if Watch(s, docker.log).container.Some? then 1 else 0
    ensures Watch(s, docker.log).builds <= 1
    ensures ExitCode(m) == 22 <==> LeftBehind(s, Watch(s, docker.log))
    ensures ExitCode(m) == 0 ==>
      Watch(s, docker.log).removed && Watch(s, docker.log).builds == 1 &&
      (s.retain || Watch(s, docker.log).tag == Gone) &&
      Proven(c, s, docker.log, e) && Reports(c, s, m, e)
    ensures s.tag !in s.allowedTags || !s.optedIn || s.prepared.None? ==> docker.log == []
  {
    hide Proven, Reports, Next;
    e := Evidence([], []);
    if s.tag !in s.allowedTags { return TagNotAllowlisted, e; }
    if !s.optedIn { return OptInRequired, e; }
    if s.prepared.None? { return PreflightFailed, e; }
    var clear := Preflight(s, docker);
    if !clear { return PreflightFailed, e; }
    var f, tagOk;
    m, f, e := Attempt(c, s, docker, s.prepared.value);
    ghost var log := docker.log;
    f, tagOk := CleanUp(s, docker, f);
    if !tagOk || !f.containerOk { return CleanupFailed(f.containerOk, tagOk, f.container), e; }
    if m.Confirmed? { ProvenLonger(c, s, log, docker.log, e); }
  }
}
