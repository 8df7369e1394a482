/** Capturing a child's output incrementally and never far beyond a limit, for every way the child may write
    it and the system may deliver it. */
module BoundedCapture {
  import opened Base

  /** What a child writes to one pipe: so many bytes, or endlessly many. */
  datatype Stream = Stream(at: nat -> byte, length: Option<nat>)

  function Prefix(s: Stream, n: nat): bytes {
    seq<byte>(n, i requires 0 <= i < n => s.at(i))
  }

  predicate Within(s: Stream, limit: nat) {
    s.length.Some? && s.length.value <= limit
  }

  /** The whole of a finite stream. */
  function Whole(s: Stream): bytes
    requires s.length.Some?
  {
    Prefix(s, s.length.value)
  }

  function Min(a: int, b: int): int {
    if a < b then a else b
  }

  /** How many bytes os.read returns: at the end, or when asked for none, 0; otherwise at least one and at most
      what is asked and left, as the system pleases. */
  function Delivered(s: Stream, position: nat, request: nat, pleases: nat): (n: nat)
    ensures n <= request && (s.length.Some? && position <= s.length.value ==> position + n <= s.length.value)
    ensures request >= 1 ==> (n == 0 <==> s.length.Some? && position >= s.length.value)
  {
    if request == 0 || (s.length.Some? && position >= s.length.value) then 0
    else
      var most := if s.length.Some? then Min(request, s.length.value - position) else request;
      if 1 <= pleases <= most then pleases else most
  }

  function Chunk(s: Stream, position: nat, n: nat): bytes {
    seq<byte>(n, i requires 0 <= i < n => s.at(position + i))
  }

  lemma PrefixMore(s: Stream, position: nat, n: nat)
    ensures Prefix(s, position) + Chunk(s, position, n) == Prefix(s, position + n)
  {
  }

  /** One call of os.read: how much it asked for, and how much was then held. */
  datatype Call = Call(request: int, held: nat)

  /** Every read asks for at least a byte, and at most one byte past the limit is ever held. */
  predicate Modest(calls: seq<Call>, limit: nat) {
    forall i | 0 <= i < |calls| :: calls[i].request >= 1 && calls[i].held <= limit + 1
  }

  /** What is held of a stream is its beginning, within the limit, and all of it once it has ended. */
  predicate Holds(s: Stream, limit: nat, held: bytes, open: bool) {
    held == Prefix(s, |held|) && |held| <= limit && (s.length.Some? ==> |held| <= s.length.value) &&
    (!open ==> s.length == Some(|held|))
  }

  /** One read into what is held: the stream ended, or the limit is passed, or more is held. */
  method ReadMore(s: Stream, limit: nat, held: bytes, most: nat, pleases: nat)
    returns (after: bytes, ended: bool, ghost call: Call)
    requires Holds(s, limit, held, true) && most >= 1
    ensures call.request >= 1 && call.held == |after| <= limit + 1
    ensures ended ==> after == held && Holds(s, limit, after, false)
    ensures !ended ==>
      |held| < |after| && (|after| <= limit ==> Holds(s, limit, after, true)) && (|after| > limit ==> !Within(s, limit))
  {
    var request := Min(most, limit + 1 - |held|);
    var chunk := Chunk(s, |held|, Delivered(s, |held|, request, pleases));
    call := Call(request, |held| + |chunk|);
    PrefixMore(s, |held|, |chunk|);
    after, ended := held + chunk, chunk == [];
  }

  // ---------------------------------------------------------------------------
  // One stream

  /** The surroundings of a capture, turn by turn: whether time is left when the loop looks, whether select
      reports a stream before the time runs out, and how much a read delivers; and at the end whether time is
      left and what waiting gives. */
  datatype Surroundings = Surroundings(
    timeLeft: nat -> bool, wakes: nat -> bool, pleases: nat -> nat, timeAtEnd: bool, exit: Option<int>)

  datatype Capture = Captured(out: bytes, code: int) | OverLimit | TimedOut

  ghost predicate Patient(e: Surroundings) {
    (forall n: nat :: e.timeLeft(n)) && (forall n: nat :: e.wakes(n)) && e.timeAtEnd && e.exit.Some?
  }

  /** _bounded_process_output: it returns only the whole stream; left to finish, exactly when that is within
      the limit, however the stream arrives and even if it never ends. */
  method BoundedProcessOutput(s: Stream, limit: nat, e: Surroundings) returns (r: Capture, ghost calls: seq<Call>)
    ensures Modest(calls, limit)
    ensures r.Captured? ==> Within(s, limit) && r.out == Whole(s) && e.exit == Some(r.code)
    ensures r.OverLimit? ==> !Within(s, limit)
    ensures Patient(e) ==> (r.Captured? <==> Within(s, limit)) && (r.OverLimit? <==> !Within(s, limit))
  {
    calls := [];
    var captured: bytes := [];
    var turn := 0;
    while true
      invariant Holds(s, limit, captured, true) && Modest(calls, limit)
      invariant |captured| <= limit
      decreases limit + 1 - |captured|
    {
      if !e.timeLeft(turn) || !e.wakes(turn) { return TimedOut, calls; }
      var ended;
      ghost var call;
      captured, ended, call := ReadMore(s, limit, captured, 1048576, e.pleases(turn));
      turn := turn + 1;
      calls := calls + [call];
      if ended { break; }
      if |captured| > limit { return OverLimit, calls; }
    }
    if !e.timeAtEnd || e.exit.None? { return TimedOut, calls; }
    return Captured(captured, e.exit.value), calls;
  }

  // ---------------------------------------------------------------------------
  // Two streams

  datatype Kind = Stdout | Stderr

  /** Which streams select reports, and in what order. */
  datatype Report = Nothing | One(kind: Kind) | Both(first: Kind)

  function Other(k: Kind): Kind {
    if k == Stdout then Stderr else Stdout
  }

  /** The events of a report: only registered streams are reported, and some stream is unless time ran out. */
  function Events(report: Report, streams: set<Kind>): (r: seq<Kind>)
    requires streams != {}
    ensures forall i :: 0 <= i < |r| ==> r[i] in streams
    ensures |r| == 2 ==> r[0] != r[1]
    ensures r == [] <==> report.Nothing?
  {
    match report
    case Nothing => []
    case One(k) => if k in streams then [k] else [Left(streams)]
    case Both(k) => if k in streams && Other(k) in streams then [k, Other(k)] else [Left(streams)]
  }

  function Left(streams: set<Kind>): (k: Kind)
    requires streams != {}
    ensures k in streams
  {
    if Stdout in streams then Stdout
    else
      Someone(streams);
      Stderr
  }

  lemma Someone(streams: set<Kind>)
    requires streams != {} && Stdout !in streams
    ensures Stderr in streams
  {
    var k :| k in streams;
    assert k.Stdout? || k.Stderr?;
  }

  datatype Scene = Scene(
    timeLeft: nat -> bool, reports: nat -> Report, pleases: nat -> Kind -> nat, timeAtEnd: bool, exit: Option<int>)

  datatype Export = Exported(out: bytes, err: bytes, code: int) | OutputLimit | DiagnosticLimit | ExportTimedOut

  ghost predicate Unhurried(e: Scene) {
    (forall n: nat :: e.timeLeft(n)) && (forall n: nat :: !e.reports(n).Nothing?) && e.timeAtEnd && e.exit.Some?
  }

  ghost predicate AllHold(s: Kind -> Stream, limit: Kind -> nat, captured: map<Kind, bytes>, streams: set<Kind>) {
    forall k: Kind :: k in captured && Holds(s(k), limit(k), captured[k], k in streams)
  }

  ghost predicate AllModest(calls: map<Kind, seq<Call>>, limit: Kind -> nat) {
    forall k: Kind :: k in calls && Modest(calls[k], limit(k))
  }

  /** How much there is yet to read at most. */
  ghost function Room(limit: Kind -> nat, captured: map<Kind, bytes>): int
    requires Stdout in captured && Stderr in captured
  {
    limit(Stdout) + limit(Stderr) + 2 - |captured[Stdout]| - |captured[Stderr]|
  }

  /** One event: a read from its stream, which is unregistered when it has ended. */
  method TakeEvent(s: Kind -> Stream, limit: Kind -> nat, captured: map<Kind, bytes>, streams: set<Kind>, kind: Kind,
                   pleases: nat)
    returns (after: map<Kind, bytes>, left: set<Kind>, over: bool, ghost call: Call)
    requires AllHold(s, limit, captured, streams) && kind in streams
    ensures call.request >= 1 && call.held <= limit(kind) + 1
    ensures over <==> kind in after && |after[kind]| > limit(kind)
    ensures over ==> !Within(s(kind), limit(kind))
    ensures !over ==> AllHold(s, limit, after, left)
    ensures !over ==> Room(limit, after) + |left| < Room(limit, captured) + |streams|
    ensures left == streams || left == streams - {kind}
  {
    var held, ended;
    held, ended, call := ReadMore(s(kind), limit(kind), captured[kind], 65536, pleases);
    after, left := captured[kind := held], if ended then streams - {kind} else streams;
    over := |held| > limit(kind);
    if !over {
      forall k: Kind ensures k in after && Holds(s(k), limit(k), after[k], k in left) {
        if k != kind { assert Holds(s(k), limit(k), captured[k], k in streams); }
      }
    }
  }

  lemma ModestMore(calls: map<Kind, seq<Call>>, limit: Kind -> nat, kind: Kind, call: Call)
    requires AllModest(calls, limit) && call.request >= 1 && call.held <= limit(kind) + 1
    ensures kind in calls && AllModest(calls[kind := calls[kind] + [call]], limit)
  {
    forall k: Kind ensures k in calls && Modest(calls[kind := calls[kind] + [call]][k], limit(k)) {
      assert Modest(calls[k], limit(k));
    }
  }

  lemma AllEnded(s: Kind -> Stream, limit: Kind -> nat, captured: map<Kind, bytes>)
    requires AllHold(s, limit, captured, {})
    ensures forall k: Kind :: k in captured && Within(s(k), limit(k)) && captured[k] == Whole(s(k))
  {
    forall k: Kind ensures k in captured && Within(s(k), limit(k)) && captured[k] == Whole(s(k)) {
      assert Holds(s(k), limit(k), captured[k], false);
    }
  }

  /** _bounded_build_export, over the streams still registered and what is captured of each: as for one
      stream, for every interleaving. */
  method BoundedBuildExport(s: Kind -> Stream, limit: Kind -> nat, e: Scene)
    returns (r: Export, ghost calls: map<Kind, seq<Call>>)
    ensures AllModest(calls, limit)
    ensures r.Exported? ==>
      (forall k: Kind :: Within(s(k), limit(k))) && r.out == Whole(s(Stdout)) && r.err == Whole(s(Stderr)) &&
      e.exit == Some(r.code)
    ensures r.OutputLimit? ==> !Within(s(Stdout), limit(Stdout))
    ensures r.DiagnosticLimit? ==> !Within(s(Stderr), limit(Stderr))
    ensures Unhurried(e) ==> (r.Exported? <==> forall k: Kind :: Within(s(k), limit(k)))
  {
    hide AllHold, AllModest, Whole, Within;
    calls := map[Stdout := [], Stderr := []];
    var captured: map<Kind, bytes> := map[Stdout := [], Stderr := []];
    var streams := {Stdout, Stderr};
    CaptureStarts(s, limit);
    RoomLeft(s, limit, captured, streams);
    var turn := 0;
    while streams != {}
      invariant Stdout in captured && Stderr in captured && Room(limit, captured) >= 0
      invariant AllHold(s, limit, captured, streams) && AllModest(calls, limit)
      decreases Room(limit, captured) + |streams|
    {
      if !e.timeLeft(turn) { return ExportTimedOut, calls; }
      var events := Events(e.reports(turn), streams);
      if events == [] { return ExportTimedOut, calls; }
      ghost var room := Room(limit, captured) + |streams|;
      for i := 0 to |events|
        invariant Stdout in captured && Stderr in captured && Room(limit, captured) >= 0
        invariant AllHold(s, limit, captured, streams) && AllModest(calls, limit)
        invariant forall j :: i <= j < |events| ==> events[j] in streams
        invariant Room(limit, captured) + |streams| <= room - i
      {
        var kind := events[i];
        var over;
        ghost var call;
        captured, streams, over, call := TakeEvent(s, limit, captured, streams, kind, e.pleases(turn)(kind));
        ModestMore(calls, limit, kind, call);
        if !over { RoomLeft(s, limit, captured, streams); }
        calls := calls[kind := calls[kind] + [call]];
        if over { return if kind == Stderr then DiagnosticLimit else OutputLimit, calls; }
      }
      turn := turn + 1;
    }
    AllEnded(s, limit, captured);
    if !e.timeAtEnd || e.exit.None? { return ExportTimedOut, calls; }
    return Exported(captured[Stdout], captured[Stderr], e.exit.value), calls;
  }

  lemma CaptureStarts(s: Kind -> Stream, limit: Kind -> nat)
    ensures AllHold(s, limit, map[Stdout := [], Stderr := []], {Stdout, Stderr})
    ensures AllModest(map[Stdout := [], Stderr := []], limit)
  {
    var empty: map<Kind, bytes> := map[Stdout := [], Stderr := []];
    var none: map<Kind, seq<Call>> := map[Stdout := [], Stderr := []];
    forall k: Kind ensures k in empty && k in none { assert k.Stdout? || k.Stderr?; }
  }

  /** Room is left while all is within the limits. */
  lemma RoomLeft(s: Kind -> Stream, limit: Kind -> nat, captured: map<Kind, bytes>, streams: set<Kind>)
    requires AllHold(s, limit, captured, streams)
    ensures Stdout in captured && Stderr in captured && Room(limit, captured) >= 0
  {
    assert Holds(s(Stdout), limit(Stdout), captured[Stdout], Stdout in streams);
    assert Holds(s(Stderr), limit(Stderr), captured[Stderr], Stderr in streams);
  }
}
