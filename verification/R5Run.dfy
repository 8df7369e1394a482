/** run_first_five_r5_attempts over a ledger that any number of other runners use at the same time: they may act
    before each of its calls. Whatever they do, the whole is a history, and its theorems apply. */
module R5Run {
  import opened Base
  import opened CanonicalJson
  import opened R5Ledger
  import opened R5History
  import opened R5Batch

  /** Everything the run cannot control, by position in the selection: the worker each factory call makes (None
      when it raises or makes no worker), the executor's responses and database faults; and, by moment, what the
      other runners attempt. */
  datatype Env = Env(
    hash: bytes -> string,
    workers: nat -> Option<int>,
    executor: nat -> Response,
    guardFault: bool, recordsFault: bool,
    claimFault: nat -> Fault, completeFault: nat -> Fault, unknownFault: nat -> Fault,
    getFault: nat -> Fault, rereadFault: nat -> Fault,
    moves: nat -> seq<Step>)

  ghost predicate HashLaw(env: Env) {
    forall b: bytes {:trigger env.hash(b)} :: IsDigest(env.hash(b))
  }

  /** No one else moves. */
  ghost predicate Quiet(env: Env) {
    forall t: nat {:trigger env.moves(t)} :: env.moves(t) == []
  }

  // ---------------------------------------------------------------------------
  // One runner's part of a history

  /** What one runner did. */
  function Mine(steps: seq<Step>, me: nat): seq<Act> {
    if steps == [] then []
    else
      var last := steps[|steps| - 1];
      Mine(steps[..|steps| - 1], me) + if last.Do? && last.runner == me then [last.act] else []
  }

  lemma MineAppend(steps: seq<Step>, step: Step, me: nat)
    ensures Mine(steps + [step], me)
         == Mine(steps, me) + if step.Do? && step.runner == me then [step.act] else []
  {
    assert (steps + [step])[..|steps|] == steps;
  }

  function Replay(pc: Pc, acts: seq<Act>): Option<Pc> {
    if acts == [] then Some(pc)
    else
      var before := Replay(pc, acts[..|acts| - 1]);
      if before.None? then None else RunnerStep(before.value, acts[|acts| - 1])
  }

  lemma ReplayAppend(pc: Pc, acts: seq<Act>, act: Act)
    ensures Replay(pc, acts + [act])
         == if Replay(pc, acts).None? then None else RunnerStep(Replay(pc, acts).value, act)
  {
    assert (acts + [act])[..|acts|] == acts;
  }

  lemma HistorySize(v: Vocabulary, states: seq<Sys>, steps: seq<Step>)
    requires History(v, states, steps)
    ensures |states| == |steps| + 1
  {
  }

  lemma HistoryFront(v: Vocabulary, states: seq<Sys>, steps: seq<Step>)
    requires History(v, states, steps) && steps != []
    ensures History(v, states[..|steps|], steps[..|steps| - 1])
    ensures Enabled(v, states[|steps| - 1], steps[|steps| - 1])
    ensures states[|steps|] == Apply(v, states[|steps| - 1], steps[|steps| - 1])
  {
    hide Enabled, Apply;
  }

  lemma HistoryAppend(v: Vocabulary, states: seq<Sys>, steps: seq<Step>, step: Step)
    requires History(v, states, steps) && Enabled(v, states[|steps|], step)
    ensures History(v, states + [Apply(v, states[|steps|], step)], steps + [step])
  {
    hide Enabled, Apply;
  }

  /** A runner that has not started has done nothing. */
  lemma {:induction false} NothingYet(v: Vocabulary, states: seq<Sys>, steps: seq<Step>, me: nat)
    requires History(v, states, steps) && me >= |states[|steps|].runners|
    ensures Mine(steps, me) == []
  {
    if steps != [] {
      HistoryFront(v, states, steps);
      NothingYet(v, states[..|steps|], steps[..|steps| - 1], me);
    }
  }

  /** In every history, whoever moves in between, what a runner did is a path of the runner's program from its
      selection to where it stands. */
  lemma {:induction false} RunnerReplays(v: Vocabulary, states: seq<Sys>, steps: seq<Step>, begin: nat,
                                         selected: seq<Item>)
    requires History(v, states, steps) && begin < |steps| && steps[begin] == Start(selected)
    ensures
      var me := |states[begin].runners|;
      me < |states[|steps|].runners| &&
      Replay(Between(selected), Mine(steps, me)) == Some(states[|steps|].runners[me])
  {
    hide History;
    HistorySize(v, states, steps);
    var me := |states[begin].runners|;
    var front, last := steps[..|steps| - 1], steps[|steps| - 1];
    HistoryFront(v, states, steps);
    assert steps == front + [last];
    MineAppend(front, last, me);
    var before := states[..|steps|];
    assert before[begin] == states[begin] && before[|front|] == states[|front|];
    if |front| == begin {
      NothingYet(v, before, front, me);
      assert states[|steps|].runners == states[begin].runners + [Between(selected)];
    } else {
      RunnerReplays(v, before, front, begin, selected);
      if last.Do? && last.runner == me {
        ReplayAppend(Between(selected), Mine(front, me), last.act);
      } else {
        assert Mine(front, me) + [] == Mine(front, me);
      }
    }
  }

  /** An outcome after which the run must not claim again. */
  predicate Final(act: Act, continueAfterFailed: bool) {
    act.Ended? && (act.event.state == UNKNOWN || (act.event.outcome == Some("failed") && !continueAfterFailed))
  }

  /** No claim follows a final outcome. */
  predicate Disciplined(acts: seq<Act>, continueAfterFailed: bool) {
    forall i, j | 0 <= i < j < |acts| :: Final(acts[i], continueAfterFailed) ==> !acts[j].Claimed?
  }

  predicate NoneFinal(acts: seq<Act>, continueAfterFailed: bool) {
    forall i | 0 <= i < |acts| :: !Final(acts[i], continueAfterFailed)
  }

  // ---------------------------------------------------------------------------
  // What was read stays true

  ghost predicate ReadAt(states: seq<Sys>, k: nat, r: Record)
    requires k < |states|
  {
    r == RecordOf(states[k].events, r.attempt)
  }

  /** Each record was what the ledger held at some moment since. */
  ghost predicate ReadAlong(states: seq<Sys>, since: nat, existing: map<string, Record>) {
    forall a | a in existing ::
      existing[a].attempt == a && exists k: nat | since <= k < |states| :: ReadAt(states, k, existing[a])
  }

  lemma ReadAlongLater(states: seq<Sys>, more: seq<Sys>, since: nat, existing: map<string, Record>)
    requires ReadAlong(states, since, existing) && states <= more
    ensures ReadAlong(more, since, existing)
  {
    forall a | a in existing ensures exists k: nat | since <= k < |more| :: ReadAt(more, k, existing[a]) {
      var k: nat :| since <= k < |states| && ReadAt(states, k, existing[a]);
      assert ReadAt(more, k, existing[a]);
    }
  }

  lemma ReadAlongOk(v: Vocabulary, states: seq<Sys>, steps: seq<Step>, since: nat, existing: map<string, Record>)
    requires History(v, states, steps) && ReadAlong(states, since, existing)
    ensures ReadOk(v, existing)
    ensures forall a | a in existing :: existing[a].state == UNKNOWN ==> existing[a].result.None?
  {
    forall a | a in existing
      ensures RecordOk(v, existing[a]) && (existing[a].state == UNKNOWN ==> existing[a].result.None?)
    {
      var k: nat :| since <= k < |states| && ReadAt(states, k, existing[a]);
      SafeAlong(v, states, steps, k);
      ReadsOk(v, states[k].events, a);
      NoUnknownRead(v, states[k].events, a);
    }
  }

  lemma NoUnknownRead(v: Vocabulary, events: seq<Event>, attempt: string)
    requires ValidEvents(v, events) && NoUnknownResult(events)
    ensures RecordOf(events, attempt).state == UNKNOWN ==> RecordOf(events, attempt).result.None?
  {
    if Last(events, attempt).Some? { LastShaped(v, events, attempt); }
  }

  /** A record that says an attempt has ended is what the ledger holds. */
  predicate AgreesWith(events: seq<Event>, r: BatchRecord) {
    r.state in {COMPLETED, UNKNOWN} ==> FromRecord(RecordOf(events, r.attempt)) == Some(r)
  }

  predicate AllAgree(events: seq<Event>, records: seq<BatchRecord>) {
    forall k | 0 <= k < |records| :: AgreesWith(events, records[k])
  }

  lemma AgreesStays(v: Vocabulary, states: seq<Sys>, steps: seq<Step>, i: nat, j: nat, r: BatchRecord)
    requires History(v, states, steps) && i <= j < |states| && AgreesWith(states[i].events, r)
    ensures AgreesWith(states[j].events, r)
  {
    hide History, RecordOf;
    if r.state in {COMPLETED, UNKNOWN} { NeverPendingAgain(v, states, steps, i, j, r.attempt); }
  }

  lemma AllAgreeStay(v: Vocabulary, states: seq<Sys>, steps: seq<Step>, i: nat, records: seq<BatchRecord>)
    requires History(v, states, steps) && i < |states| && AllAgree(states[i].events, records)
    ensures AllAgree(states[|steps|].events, records)
  {
    hide History, AgreesWith;
    HistorySize(v, states, steps);
    forall k | 0 <= k < |records| ensures AgreesWith(states[|steps|].events, records[k]) {
      AgreesStays(v, states, steps, i, |steps|, records[k]);
    }
  }

  /** A record made of what was read agrees with the ledger at every later moment. */
  lemma SeenAgrees(v: Vocabulary, states: seq<Sys>, steps: seq<Step>, since: nat, existing: map<string, Record>,
                   r: BatchRecord)
    requires History(v, states, steps) && ReadAlong(states, since, existing) && r.attempt in existing
    requires FromRecord(existing[r.attempt]) == Some(r)
    ensures AgreesWith(states[|steps|].events, r)
  {
    hide RecordOf;
    var k: nat :| since <= k < |states| && ReadAt(states, k, existing[r.attempt]);
    AgreesStays(v, states, steps, k, |steps|, r);
  }

  // ---------------------------------------------------------------------------
  // Moments of a history

  /** The system at a moment, and the history that led to it. */
  datatype Snap = Snap(sys: Sys, states: seq<Sys>, steps: seq<Step>)

  /** The same history, continued. */
  ghost predicate Onward(a: Snap, b: Snap) {
    a.states <= b.states && a.steps <= b.steps && a.sys.attempts <= b.sys.attempts &&
    |a.sys.runners| <= |b.sys.runners|
  }

  /** A runner stands where it stood, and has done nothing since. */
  ghost predicate Unmoved(a: Snap, b: Snap, me: nat) {
    me < |a.sys.runners| && me < |b.sys.runners| && b.sys.runners[me] == a.sys.runners[me] &&
    Mine(b.steps, me) == Mine(a.steps, me)
  }

  /** A runner has come to this point, by these acts. */
  ghost predicate Came(a: Snap, b: Snap, me: nat, pc: Pc, acts: seq<Act>) {
    Onward(a, b) && me < |b.sys.runners| && b.sys.runners[me] == pc && Mine(b.steps, me) == Mine(a.steps, me) + acts
  }

  ghost predicate WellSnapped(v: Vocabulary, a: Snap) {
    History(v, a.states, a.steps) && a.states[|a.steps|] == a.sys
  }

  /** What a runner owns stays claimed by it, whatever the others do. */
  lemma OwnedStays(v: Vocabulary, a: Snap, b: Snap, me: nat)
    requires WellSnapped(v, a) && WellSnapped(v, b) && Onward(a, b) && Unmoved(a, b, me)
    ensures var pc := a.sys.runners[me];
      Owns(pc) ==>
        Last(a.sys.events, pc.item.attempt) == Some(ClaimEvent(pc.item.attempt, pc.item.input)) &&
        Last(b.sys.events, pc.item.attempt) == Some(ClaimEvent(pc.item.attempt, pc.item.input))
  {
    hide History, Last;
    HistorySize(v, a.states, a.steps);
    HistorySize(v, b.states, b.steps);
    SafeAlong(v, a.states, a.steps, |a.steps|);
    SafeAlong(v, b.states, b.steps, |b.steps|);
    assert OwnsWell(a.sys, a.sys.runners[me]) && OwnsWell(b.sys, b.sys.runners[me]);
  }

  /** An attempt that has ended keeps its record. */
  lemma FinalStays(v: Vocabulary, a: Snap, b: Snap, attempt: string)
    requires WellSnapped(v, a) && WellSnapped(v, b) && Onward(a, b)
    ensures RecordOf(a.sys.events, attempt).state in {COMPLETED, UNKNOWN} ==>
      RecordOf(b.sys.events, attempt) == RecordOf(a.sys.events, attempt) &&
      Last(b.sys.events, attempt) == Last(a.sys.events, attempt)
  {
    hide History, RecordOf, Last;
    HistorySize(v, a.states, a.steps);
    HistorySize(v, b.states, b.steps);
    assert b.states[|a.steps|] == a.sys;
    if RecordOf(a.sys.events, attempt).state in {COMPLETED, UNKNOWN} {
      NeverPendingAgain(v, b.states, b.steps, |a.steps|, |b.steps|, attempt);
      SafeAlong(v, a.states, a.steps, |a.steps|);
      SafeAlong(v, b.states, b.steps, |b.steps|);
      SameRecordSameLast(v, a.sys.events, b.sys.events, attempt);
    }
  }

  lemma SameRecordSameLast(v: Vocabulary, x: seq<Event>, y: seq<Event>, attempt: string)
    requires ValidEvents(v, x) && ValidEvents(v, y) && RecordOf(x, attempt) == RecordOf(y, attempt)
    ensures Last(x, attempt) == Last(y, attempt)
  {
    hide Last, ValidEvents;
    if Last(x, attempt).Some? { LastShaped(v, x, attempt); }
    if Last(y, attempt).Some? { LastShaped(v, y, attempt); }
  }

  lemma CameTwice(a: Snap, b: Snap, c: Snap, me: nat, p: Pc, x: seq<Act>, q: Pc, y: seq<Act>)
    requires Came(a, b, me, p, x) && Came(b, c, me, q, y)
    ensures Came(a, c, me, q, x + y)
  {
    hide Mine;
    assert Mine(a.steps, me) + (x + y) == Mine(a.steps, me) + x + y;
  }

  lemma UnmovedCame(a: Snap, b: Snap, me: nat)
    requires Onward(a, b) && Unmoved(a, b, me)
    ensures Came(a, b, me, a.sys.runners[me], [])
  {
    hide Mine;
    assert Mine(a.steps, me) + [] == Mine(a.steps, me);
  }

  lemma OnwardTwice(a: Snap, b: Snap, c: Snap)
    requires Onward(a, b) && Onward(b, c)
    ensures Onward(a, c)
  {
  }

  lemma UnmovedTwice(a: Snap, b: Snap, c: Snap, me: nat)
    requires Unmoved(a, b, me) && Unmoved(b, c, me)
    ensures Unmoved(a, c, me)
  {
  }

  // ---------------------------------------------------------------------------
  // The ledger and everyone who uses it

  class Floor {
    const ledger: Ledger
    var runners: seq<Pc>
    var executions: seq<Item>
    var moment: nat
    ghost var states: seq<Sys>
    ghost var steps: seq<Step>

    function System(): Sys
      reads this, ledger
    {
      Sys(ledger.attempts, ledger.events, runners, executions)
    }

    ghost function Now(): Snap
      reads this, ledger
    {
      Snap(System(), states, steps)
    }

    /** Everything since the ledger was made is a history. */
    ghost predicate Valid()
      reads this, ledger
    {
      ledger.Valid() && History(ledger.vocabulary, states, steps) && states[|steps|] == System()
    }

    constructor (vocabulary: Vocabulary, attempts: set<string>)
      ensures Valid() && fresh(ledger) && ledger.vocabulary == vocabulary
      ensures System() == Sys(attempts, [], [], []) && steps == []
    {
      ledger := new Ledger(vocabulary, attempts);
      runners, executions, moment := [], [], 0;
      new;
      states, steps := [System()], [];
    }

    /** What a step does beside its row: runners and executions follow, and the history grows. */
    method Moved(step: Step)
      requires ledger.Valid() && History(ledger.vocabulary, states, steps)
      requires Enabled(ledger.vocabulary, states[|steps|], step)
      requires var after := Apply(ledger.vocabulary, states[|steps|], step);
               ledger.attempts == after.attempts && ledger.events == after.events
      requires runners == states[|steps|].runners && executions == states[|steps|].executions
      modifies `runners, `executions, `states, `steps
      ensures Valid() && System() == Apply(ledger.vocabulary, old(states[|steps|]), step)
      ensures states == old(states) + [System()] && steps == old(steps) + [step]
    {
      HistoryAppend(ledger.vocabulary, states, steps, step);
      match step {
        case Start(selected) => runners := runners + [Between(selected)];
        case Extend(_) =>
        case Do(r, act) =>
          if act.Executed? { executions := executions + [runners[r].item]; }
          runners := runners[r := RunnerStep(runners[r], act).value];
      }
      states, steps := states + [System()], steps + [step];
    }

    /** Another runner's step. */
    method Foreign(step: Step)
      requires Valid() && Enabled(ledger.vocabulary, System(), step)
      modifies `runners, `executions, `states, `steps, ledger
      ensures Valid() && System() == Apply(ledger.vocabulary, old(System()), step)
      ensures states == old(states) + [System()] && steps == old(steps) + [step]
    {
      match step {
        case Start(_) =>
        case Extend(more) => ledger.Extend(more);
        case Do(r, act) =>
          var row := Commits(runners[r], act);
          if row.Some? { var _ := ledger.Append(row.value, NoFault); }
      }
      Moved(step);
    }

    /** Before each of a run's calls the others take what steps they can; the runner `me`, if any, is not theirs. */
    method Others(env: Env, me: Option<nat>)
      requires Valid() && (me.Some? ==> me.value < |runners|)
      modifies this, ledger
      ensures Valid() && Onward(old(Now()), Now()) && (me.Some? ==> Unmoved(old(Now()), Now(), me.value))
      ensures Quiet(env) ==> Now() == old(Now())
    {
      hide Enabled, Mine, ValidEvents, History;
      var moves := env.moves(moment);
      moment := moment + 1;
      for i := 0 to |moves|
        invariant Valid() && Onward(old(Now()), Now()) && (me.Some? ==> Unmoved(old(Now()), Now(), me.value))
        invariant i == 0 ==> Now() == old(Now())
      {
        if !(moves[i].Do? && Some(moves[i].runner) == me) && Enabled(ledger.vocabulary, System(), moves[i]) {
          if me.Some? {
            MineAppend(steps, moves[i], me.value);
            assert Mine(old(steps), me.value) + [] == Mine(old(steps), me.value);
          }
          EnabledRunner(ledger.vocabulary, System(), moves[i]);
          Foreign(moves[i]);
        }
      }
    }

    /** A new runner. */
    method Begin(selected: seq<Item>) returns (me: nat)
      requires Valid()
      modifies this, ledger
      ensures Valid() && me == |old(runners)| < |runners| && runners[me] == Between(selected)
      ensures Onward(old(Now()), Now()) && |steps| == |old(steps)| + 1 && steps[|old(steps)|] == Start(selected)
      ensures ledger.events == old(ledger.events) && ledger.attempts == old(ledger.attempts)
      ensures Mine(steps, me) == []
    {
      me := |runners|;
      NothingYet(ledger.vocabulary, states, steps, me);
      MineAppend(steps, Start(selected), me);
      Foreign(Start(selected));
    }

    /** A step of this runner that commits nothing. */
    method Take(me: nat, act: Act)
      requires Valid() && me < |runners| && act in {Skipped, Executed, Halted} && RunnerStep(runners[me], act).Some?
      modifies this, ledger
      ensures Valid() && Came(old(Now()), Now(), me, RunnerStep(old(runners[me]), act).value, [act])
      ensures ledger.events == old(ledger.events) && ledger.attempts == old(ledger.attempts)
    {
      hide Mine, ValidEvents, History;
      MineAppend(steps, Do(me, act), me);
      Foreign(Do(me, act));
    }

    /** claim, after the others' moves: it fails if one of them was faster. A claim that raises may have been
        committed. */
    method Claim(me: nat, env: Env, fault: Fault) returns (ok: bool)
      requires Valid() && me < |runners| && runners[me].Between? && runners[me].rest != []
      requires runners[me].rest[0].attempt in ledger.attempts
      modifies this, ledger
      ensures Valid()
      ensures
        var rest := old(runners[me]).rest;
        var claimed := Came(old(Now()), Now(), me, Holding(rest[0], rest[1..]), [Claimed]);
        if ok then claimed else claimed || Came(old(Now()), Now(), me, Between(rest), [])
    {
      hide Mine, ValidEvents, History, Last;
      Others(env, Some(me));
      var item := runners[me].rest[0];
      var before := ledger.events;
      PendingUntouched(ledger.vocabulary, before, item.attempt);
      ok := ledger.Claim(item.attempt, item.input, fault);
      if ledger.events != before {
        MineAppend(steps, Do(me, Claimed), me);
        Moved(Do(me, Claimed));
      }
    }

    /** The executor is called with what the runner holds, after the others' moves. */
    method Execute(me: nat, env: Env)
      requires Valid() && me < |runners| && runners[me].Holding?
      modifies this, ledger
      ensures Valid()
      ensures Came(old(Now()), Now(), me, Ran(old(runners[me]).item, old(runners[me]).rest), [Executed])
    {
      hide Mine, ValidEvents, History;
      Others(env, Some(me));
      Take(me, Executed);
    }

    /** complete or mark_unknown, after the others' moves: of the attempt the runner has executed, or again of one
        that has ended. An end that raises may have been committed. */
    method End(me: nat, env: Env, item: Item, state: State, result: Option<string>, outcome: Option<string>,
               reason: string, fault: Fault)
      returns (ok: bool)
      requires Valid() && me < |runners| && item.attempt in ledger.attempts
      requires state == COMPLETED || (state == UNKNOWN && result.None?)
      requires Shaped(ledger.vocabulary, Event(item.attempt, state, item.input, result, outcome, Some(reason)))
      requires if runners[me].Ran? then runners[me].item == item
               else RecordOf(ledger.events, item.attempt).state in {COMPLETED, UNKNOWN}
      modifies this, ledger
      ensures Valid()
      ensures
        var e := Event(item.attempt, state, item.input, result, outcome, Some(reason));
        if old(runners[me]).Ran? && fault != Before then
          ok == (fault == NoFault) && Last(ledger.events, item.attempt) == Some(e) &&
          Came(old(Now()), Now(), me, Between(old(runners[me]).rest), [Ended(e)])
        else
          !ok && Last(ledger.events, item.attempt) == old(Last(ledger.events, item.attempt)) &&
          Came(old(Now()), Now(), me, old(runners[me]), [])
    {
      hide Mine, ValidEvents, History, Last, Shaped;
      ghost var start := Now();
      Others(env, Some(me));
      ghost var before := ledger.events;
      OwnedStays(ledger.vocabulary, start, Now(), me);
      FinalStays(ledger.vocabulary, start, Now(), item.attempt);
      var size := |ledger.events|;
      ok := ledger.Transition(item.attempt, state, result, outcome, reason, fault);
      if |ledger.events| != size {
        var e := Event(item.attempt, state, item.input, result, outcome, Some(reason));
        LastAppend(before, e, item.attempt);
        MineAppend(steps, Do(me, Ended(e)), me);
        Moved(Do(me, Ended(e)));
      }
    }

    /** get, after the others' moves. */
    method Get(me: nat, env: Env, attempt: string, fault: Fault) returns (r: Option<Record>)
      requires Valid() && me < |runners|
      modifies this, ledger
      ensures Valid() && Onward(old(Now()), Now()) && Unmoved(old(Now()), Now(), me)
      ensures r == if fault == NoFault && attempt in ledger.attempts
                   then Some(RecordOf(ledger.events, attempt)) else None
    {
      hide Mine, ValidEvents, History, Last;
      Others(env, Some(me));
      r := ledger.Get(attempt, fault);
    }

    /** The next record, after the others' moves. */
    method ReadOne(me: Option<nat>, env: Env, attempt: string, existing: map<string, Record>, ghost since: nat)
      returns (r: map<string, Record>)
      requires Valid() && (me.Some? ==> me.value < |runners|) && since <= |steps| && ReadAlong(states, since, existing)
      modifies this, ledger
      ensures Valid() && Onward(old(Now()), Now()) && (me.Some? ==> Unmoved(old(Now()), Now(), me.value))
      ensures ReadAlong(states, since, r) && r == existing[attempt := RecordOf(ledger.events, attempt)]
      ensures Quiet(env) ==> Now() == old(Now())
    {
      hide Mine, ValidEvents, Last, ReadAlong;
      ghost var before := states;
      Others(env, me);
      ReadAlongLater(before, states, since, existing);
      ReadsOk(ledger.vocabulary, ledger.events, attempt);
      HistorySize(ledger.vocabulary, states, steps);
      ReadNow(states, since, existing, RecordOf(ledger.events, attempt));
      r := existing[attempt := RecordOf(ledger.events, attempt)];
    }

    /** records: the attempts known at one moment, each read at a moment of its own. */
    method Records(me: Option<nat>, env: Env) returns (r: map<string, Record>)
      requires Valid() && (me.Some? ==> me.value < |runners|)
      modifies this, ledger
      ensures Valid() && Onward(old(Now()), Now()) && (me.Some? ==> Unmoved(old(Now()), Now(), me.value))
      ensures r.Keys <= ledger.attempts && ReadAlong(states, |old(steps)|, r)
      ensures Quiet(env) ==> Now() == old(Now()) && r.Keys == ledger.attempts && AsHeld(r, ledger.events)
    {
      hide Mine, ReadAlong, RecordOf, Valid, Onward, Unmoved, AsHeld;
      Others(env, me);
      ghost var first := Now();
      OnwardSizes(old(Now()), first);
      OnwardSame(first);
      var todo := ledger.attempts;
      r := map[];
      ReadNothing(states, |old(steps)|, ledger.events);
      while todo != {}
        invariant Valid() && Onward(old(Now()), Now()) && (me.Some? ==> Unmoved(old(Now()), Now(), me.value))
        invariant Onward(first, Now()) && r.Keys + todo == first.sys.attempts && ReadAlong(states, |old(steps)|, r)
        invariant Quiet(env) ==> Now() == old(Now()) && AsHeld(r, ledger.events)
        decreases |todo|
      {
        ghost var before := Now();
        OnwardSizes(old(Now()), before);
        if me.Some? { UnmovedThere(old(Now()), before, me.value); }
        var a :| a in todo;
        todo := todo - {a};
        AsHeldMore(r, ledger.events, a);
        r := ReadOne(me, env, a, r, |old(steps)|);
        OnwardTwice(old(Now()), before, Now());
        OnwardTwice(first, before, Now());
        if me.Some? { UnmovedTwice(old(Now()), before, Now(), me.value); }
      }
      OnwardSizes(first, Now());
    }
  }

  /** Every record is what the ledger holds. */
  predicate AsHeld(existing: map<string, Record>, events: seq<Event>) {
    forall a | a in existing :: existing[a] == RecordOf(events, a)
  }

  lemma AsHeldMore(existing: map<string, Record>, events: seq<Event>, attempt: string)
    ensures AsHeld(existing, events) ==> AsHeld(existing[attempt := RecordOf(events, attempt)], events)
  {
    hide RecordOf;
  }

  lemma OnwardSame(a: Snap)
    ensures Onward(a, a)
  {
  }

  lemma OnwardSizes(a: Snap, b: Snap)
    requires Onward(a, b)
    ensures |a.steps| <= |b.steps| && |a.sys.runners| <= |b.sys.runners| && a.sys.attempts <= b.sys.attempts
  {
  }

  lemma UnmovedThere(a: Snap, b: Snap, me: nat)
    requires Unmoved(a, b, me)
    ensures me < |b.sys.runners|
  {
  }

  lemma ReadNothing(states: seq<Sys>, since: nat, events: seq<Event>)
    ensures ReadAlong(states, since, map[]) && AsHeld(map[], events)
  {
  }

  /** Reading the ledger as it stands. */
  lemma ReadNow(states: seq<Sys>, since: nat, existing: map<string, Record>, r: Record)
    requires ReadAlong(states, since, existing) && since < |states| && ReadAt(states, |states| - 1, r)
    ensures ReadAlong(states, since, existing[r.attempt := r])
  {
    var more := existing[r.attempt := r];
    forall a | a in more ensures exists k: nat | since <= k < |states| :: ReadAt(states, k, more[a]) {
      if a != r.attempt {
        var k: nat :| since <= k < |states| && ReadAt(states, k, existing[a]);
      } else {
        assert ReadAt(states, |states| - 1, more[a]);
      }
    }
  }

  lemma EnabledRunner(v: Vocabulary, s: Sys, step: Step)
    requires Enabled(v, s, step)
    ensures step.Do? ==> step.runner < |s.runners|
  {
  }

  // ---------------------------------------------------------------------------
  // One claimed attempt

  function CompletedRow(item: Item, done: (string, string, string)): Event {
    Event(item.attempt, COMPLETED, item.input, Some(done.0), Some(done.1), Some(done.2))
  }

  function UnknownRow(v: Vocabulary, item: Item, response: Response): Event {
    Event(item.attempt, UNKNOWN, item.input, None, None, Some(UnknownReason(v, response)))
  }

  /** The row that ends a claimed attempt: its completion, or else its unknown outcome, unless the database
      refuses both. */
  function EndRow(v: Vocabulary, env: Env, item: Item, i: nat): Option<Event> {
    var done := Completion(v, env.hash, item, env.executor(i));
    if done.Some? && env.completeFault(i) != Before then Some(CompletedRow(item, done.value))
    else if env.unknownFault(i) != Before then Some(UnknownRow(v, item, env.executor(i)))
    else None
  }

  lemma RowsShaped(v: Vocabulary, env: Env, item: Item, i: nat)
    requires HashLaw(env) && IsDigest(item.input)
    ensures
      var done := Completion(v, env.hash, item, env.executor(i));
      (done.Some? ==> Shaped(v, CompletedRow(item, done.value))) && Shaped(v, UnknownRow(v, item, env.executor(i)))
  {
    hide IsDigest, Encode, Classify;
    var response := env.executor(i);
    if Completion(v, env.hash, item, response).Some? { ClassifyShaped(v, response.record.value.result); }
  }

  lemma OwnedDigest(v: Vocabulary, a: Snap, me: nat)
    requires WellSnapped(v, a) && me < |a.sys.runners| && Owns(a.sys.runners[me])
    ensures IsDigest(a.sys.runners[me].item.input)
  {
    hide Last, IsDigest;
    HistorySize(v, a.states, a.steps);
    SafeAlong(v, a.states, a.steps, |a.steps|);
    assert OwnsWell(a.sys, a.sys.runners[me]);
    LastShaped(v, a.sys.events, a.sys.runners[me].item.attempt);
  }

  /** The attempt is marked unknown, if it has not ended, and its record is read back; failing that, the record is
      the bare claim. */
  method MarkUnknown(floor: Floor, me: nat, item: Item, env: Env, i: nat) returns (record: BatchRecord)
    requires floor.Valid() && me < |floor.runners| && item.attempt in floor.ledger.attempts && IsDigest(item.input)
    requires Shaped(floor.ledger.vocabulary, UnknownRow(floor.ledger.vocabulary, item, env.executor(i)))
    requires if floor.runners[me].Ran? then floor.runners[me].item == item
             else RecordOf(floor.ledger.events, item.attempt).state == COMPLETED
    modifies floor, floor.ledger
    ensures floor.Valid()
    ensures
      var pc, row := old(floor.runners[me]), UnknownRow(floor.ledger.vocabulary, item, env.executor(i));
      if pc.Ran? && env.unknownFault(i) != Before then
        Last(floor.ledger.events, item.attempt) == Some(row) &&
        Came(old(floor.Now()), floor.Now(), me, Between(pc.rest), [Ended(row)])
      else
        Last(floor.ledger.events, item.attempt) == old(Last(floor.ledger.events, item.attempt)) &&
        Came(old(floor.Now()), floor.Now(), me, pc, [])
    ensures record.attempt == item.attempt && RecordShaped(floor.ledger.vocabulary, record) && record.result.None?
    ensures record.state == UNKNOWN ==> FromRecord(RecordOf(floor.ledger.events, item.attempt)) == Some(record)
    ensures record.state != UNKNOWN ==>
      record == BatchRecord(item.attempt, CLAIMED, item.input, None, None, None) &&
      (!old(floor.runners[me]).Ran? || env.unknownFault(i) != NoFault || env.getFault(i) != NoFault)
  {
    hide Mine, ValidEvents, History, Last, Shaped, IsDigest, Came, Onward, UnknownReason, RecordShaped;
    ghost var v, start := floor.ledger.vocabulary, floor.Now();
    ghost var pc, row := floor.runners[me], UnknownRow(floor.ledger.vocabulary, item, env.executor(i));
    var reason := UnknownReason(floor.ledger.vocabulary, env.executor(i));
    var marked := floor.End(me, env, item, UNKNOWN, None, None, reason, env.unknownFault(i));
    ghost var ended := floor.Now();
    record := BatchRecord(item.attempt, CLAIMED, item.input, None, None, None);
    BareClaim(v, item);
    if marked {
      CameThere(start, ended, me, Between(pc.rest), [Ended(row)]);
      RowRecorded(v, row);
      var unknown := floor.Get(me, env, item.attempt, env.getFault(i));
      FinalStays(v, ended, floor.Now(), item.attempt);
      OnwardSizes(ended, floor.Now());
      UnmovedCame(ended, floor.Now(), me);
      CameTwice(start, ended, floor.Now(), me, Between(pc.rest), [Ended(row)], Between(pc.rest), []);
      assert [Ended(row)] + [] == [Ended(row)];
      if unknown.Some? && FromRecord(unknown.value).Some? { record := FromRecord(unknown.value).value; }
    }
  }

  lemma BareClaim(v: Vocabulary, item: Item)
    requires IsDigest(item.input)
    ensures RecordShaped(v, BatchRecord(item.attempt, CLAIMED, item.input, None, None, None))
  {
  }

  /** An attempt the runner holds is executed once; its end is in the ledger unless the database refused it; the
      record returned is what the ledger holds if it says the attempt has ended, and the bare claim only after a
      fault. */
  method RunClaimed(floor: Floor, me: nat, item: Item, ghost rest: seq<Item>, env: Env, i: nat)
    returns (record: BatchRecord)
    requires floor.Valid() && HashLaw(env) && me < |floor.runners| && floor.runners[me] == Holding(item, rest)
    requires item.attempt in floor.ledger.attempts
    modifies floor, floor.ledger
    ensures floor.Valid()
    ensures
      var row := EndRow(floor.ledger.vocabulary, env, item, i);
      Last(floor.ledger.events, item.attempt)
      == (if row.Some? then row else Some(ClaimEvent(item.attempt, item.input))) &&
      if row.Some? then Came(old(floor.Now()), floor.Now(), me, Between(rest), [Executed, Ended(row.value)])
      else Came(old(floor.Now()), floor.Now(), me, Ran(item, rest), [Executed])
    ensures record.attempt == item.attempt && RecordShaped(floor.ledger.vocabulary, record)
    ensures record.state == COMPLETED <==>
      Completion(floor.ledger.vocabulary, env.hash, item, env.executor(i)).Some? && env.completeFault(i) == NoFault
    ensures record.state in {COMPLETED, UNKNOWN} ==>
      FromRecord(RecordOf(floor.ledger.events, item.attempt)) == Some(record)
    ensures record.state !in {COMPLETED, UNKNOWN} ==>
      record == BatchRecord(item.attempt, CLAIMED, item.input, None, None, None) &&
      (env.completeFault(i) == After || env.unknownFault(i) != NoFault || env.getFault(i) != NoFault)
    ensures record.state != COMPLETED ==> record.result.None?
  {
    hide Mine, ValidEvents, History, Last, Shaped, Completion, IsDigest, Came, Onward, UnknownReason, Reasons;
    hide UnknownReasons, HashLaw, RecordShaped;
    ghost var v, start := floor.ledger.vocabulary, floor.Now();
    OwnedDigest(v, start, me);
    RowsShaped(v, env, item, i);
    floor.Execute(me, env);
    ghost var executed := floor.Now();
    CameThere(start, executed, me, Ran(item, rest), [Executed]);
    OwnedNow(v, executed, me);
    var done := Completion(floor.ledger.vocabulary, env.hash, item, env.executor(i));
    ghost var pc, acts := Ran(item, rest), [];
    if done.Some? {
      var ok := floor.End(me, env, item, COMPLETED, Some(done.value.0), Some(done.value.1), done.value.2,
                          env.completeFault(i));
      ghost var row := CompletedRow(item, done.value);
      if env.completeFault(i) != Before { pc, acts := Between(rest), [Ended(row)]; }
      CameTwice(start, executed, floor.Now(), me, Ran(item, rest), [Executed], pc, acts);
      assert [Executed] + [Ended(row)] == [Executed, Ended(row)];
      if ok {
        RowRecorded(v, row);
        record := BatchRecord(item.attempt, COMPLETED, item.input, Some(done.value.0), Some(done.value.1),
                              Some(done.value.2));
        return;
      }
    } else {
      OnwardSame(executed);
      UnmovedCame(executed, executed, me);
      CameTwice(start, executed, executed, me, Ran(item, rest), [Executed], pc, []);
    }
    ghost var tried := floor.Now();
    CameThere(start, tried, me, pc, [Executed] + acts);
    record := MarkUnknown(floor, me, item, env, i);
    ghost var marks := pc.Ran? && env.unknownFault(i) != Before;
    ghost var row := UnknownRow(v, item, env.executor(i));
    CameTwice(start, tried, floor.Now(), me, pc, [Executed] + acts, if marks then Between(rest) else pc,
              if marks then [Ended(row)] else []);
    assert [Executed] + [] + [Ended(row)] == [Executed, Ended(row)] && [Executed] + acts + [] == [Executed] + acts;
    assert [Executed] + [] == [Executed] && [Executed] + [] + [] == [Executed];
  }

  lemma OwnedNow(v: Vocabulary, a: Snap, me: nat)
    requires WellSnapped(v, a) && me < |a.sys.runners| && Owns(a.sys.runners[me])
    ensures var item := a.sys.runners[me].item;
            Last(a.sys.events, item.attempt) == Some(ClaimEvent(item.attempt, item.input))
  {
    OwnedStays(v, a, a, me);
  }

  lemma CameThere(a: Snap, b: Snap, me: nat, pc: Pc, acts: seq<Act>)
    requires Came(a, b, me, pc, acts)
    ensures me < |b.sys.runners| && b.sys.runners[me] == pc && a.sys.attempts <= b.sys.attempts && Onward(a, b)
  {
  }

  /** What a record of such a row says. */
  lemma RowRecorded(v: Vocabulary, e: Event)
    requires Shaped(v, e) && e.state in {COMPLETED, UNKNOWN} && (e.state == UNKNOWN ==> e.result.None?)
    ensures RecordShaped(v, BatchRecord(e.attempt, e.state, e.input, e.result, e.outcome, e.reason))
  {
  }

  // ---------------------------------------------------------------------------
  // The state of a run between attempts

  /** The first i attempts are completed, and reported as the ledger holds them. */
  predicate Reported(v: Vocabulary, selected: seq<Item>, events: seq<Event>, i: nat, output: seq<BatchRecord>) {
    i <= |selected| && |output| == i && AllCompleted(output) && Prefix(selected, output) && AllAgree(events, output) &&
    forall k | 0 <= k < i :: RecordShaped(v, output[k])
  }

  /** The failures seen before the i-th attempt, and those read of it and later ones. */
  predicate Failures(selected: seq<Item>, existing: map<string, Record>, continueAfterFailed: bool, i: nat,
                     output: seq<BatchRecord>, sawFailure: bool)
  {
    (sawFailure <==> SomeFailed(output) || FailedFrom(selected, existing, i)) && (sawFailure ==> continueAfterFailed)
  }

  /** A run before its i-th attempt, at some moment. */
  ghost predicate Running(v: Vocabulary, selected: seq<Item>, existing: map<string, Record>, continueAfterFailed: bool,
                          now: Snap, me: nat, i: nat, output: seq<BatchRecord>, sawFailure: bool)
  {
    i <= |selected| && me < |now.sys.runners| && now.sys.runners[me] == Between(selected[i..]) &&
    NoneFinal(Mine(now.steps, me), continueAfterFailed) && Reported(v, selected, now.sys.events, i, output) &&
    Failures(selected, existing, continueAfterFailed, i, output, sawFailure)
  }

  /** Reports stay true. */
  lemma ReportedLater(v: Vocabulary, selected: seq<Item>, a: Snap, b: Snap, i: nat, output: seq<BatchRecord>)
    requires WellSnapped(v, a) && WellSnapped(v, b) && Onward(a, b) && Reported(v, selected, a.sys.events, i, output)
    ensures Reported(v, selected, b.sys.events, i, output)
  {
    hide History, AllAgree, AllCompleted, Prefix, RecordShaped;
    HistorySize(v, a.states, a.steps);
    HistorySize(v, b.states, b.steps);
    assert b.states[|a.steps|] == a.sys;
    AllAgreeStay(v, b.states, b.steps, |a.steps|, output);
  }

  lemma ReportedMore(v: Vocabulary, selected: seq<Item>, events: seq<Event>, i: nat, output: seq<BatchRecord>,
                     record: BatchRecord)
    requires Reported(v, selected, events, i, output) && i < |selected|
    requires record.attempt == selected[i].attempt && record.state == COMPLETED
    requires RecordShaped(v, record) && AgreesWith(events, record)
    ensures Reported(v, selected, events, i + 1, output + [record])
  {
    hide AgreesWith, RecordShaped;
  }

  lemma FailuresMore(selected: seq<Item>, existing: map<string, Record>, continueAfterFailed: bool, i: nat,
                     output: seq<BatchRecord>, sawFailure: bool, record: BatchRecord)
    requires Failures(selected, existing, continueAfterFailed, i, output, sawFailure) && i < |selected|
    requires record.outcome == Some("failed") ==> continueAfterFailed
    requires Seen(existing, selected[i].attempt).outcome == Some("failed") ==> record.outcome == Some("failed")
    ensures Failures(selected, existing, continueAfterFailed, i + 1, output + [record],
                     sawFailure || record.outcome == Some("failed"))
  {
    hide SomeFailed, FailedFrom, Seen;
    FailedStep(output, record);
    FailedFromStep(selected, existing, i);
  }

  /** A completed attempt is passed over. */
  lemma RunningSkips(v: Vocabulary, selected: seq<Item>, existing: map<string, Record>, continueAfterFailed: bool,
                     a: Snap, b: Snap, me: nat, i: nat, output: seq<BatchRecord>, sawFailure: bool, record: BatchRecord)
    requires WellSnapped(v, a) && WellSnapped(v, b)
    requires Running(v, selected, existing, continueAfterFailed, a, me, i, output, sawFailure) && i < |selected|
    requires Came(a, b, me, Between(selected[i + 1..]), [Skipped])
    requires record.attempt == selected[i].attempt && record.state == COMPLETED && RecordShaped(v, record)
    requires AgreesWith(b.sys.events, record) && Seen(existing, selected[i].attempt).outcome == record.outcome
    ensures Running(v, selected, existing, continueAfterFailed, b, me, i + 1, output + [record], sawFailure)
  {
    hide WellSnapped, Reported, RecordShaped, AgreesWith, Mine;
    ReportedLater(v, selected, a, b, i, output);
    ReportedMore(v, selected, b.sys.events, i, output, record);
    FailedStep(output, record);
    FailedFromStep(selected, existing, i);
  }

  /** A pending attempt is claimed, executed and completed. */
  lemma RunningCompletes(v: Vocabulary, selected: seq<Item>, existing: map<string, Record>, continueAfterFailed: bool,
                         a: Snap, b: Snap, me: nat, e: Event, i: nat, output: seq<BatchRecord>, sawFailure: bool,
                         record: BatchRecord)
    requires WellSnapped(v, a) && WellSnapped(v, b)
    requires Running(v, selected, existing, continueAfterFailed, a, me, i, output, sawFailure) && i < |selected|
    requires Came(a, b, me, Between(selected[i + 1..]), [Claimed, Executed, Ended(e)])
    requires e.state == COMPLETED && e.outcome == record.outcome
    requires record.attempt == selected[i].attempt && record.state == COMPLETED && RecordShaped(v, record)
    requires AgreesWith(b.sys.events, record) && (record.outcome == Some("failed") ==> continueAfterFailed)
    requires Seen(existing, selected[i].attempt).outcome == Some("failed") ==> record.outcome == Some("failed")
    ensures Running(v, selected, existing, continueAfterFailed, b, me, i + 1, output + [record],
                    sawFailure || record.outcome == Some("failed"))
  {
    hide WellSnapped, Reported, RecordShaped, AgreesWith, Mine, Failures, Seen;
    ReportedLater(v, selected, a, b, i, output);
    ReportedMore(v, selected, b.sys.events, i, output, record);
    FailuresMore(selected, existing, continueAfterFailed, i, output, sawFailure, record);
  }

  /** The others' moves leave a run where it was. */
  lemma RunningWaits(v: Vocabulary, selected: seq<Item>, existing: map<string, Record>, continueAfterFailed: bool,
                     a: Snap, b: Snap, me: nat, i: nat, output: seq<BatchRecord>, sawFailure: bool)
    requires WellSnapped(v, a) && WellSnapped(v, b) && Onward(a, b) && Unmoved(a, b, me)
    requires Running(v, selected, existing, continueAfterFailed, a, me, i, output, sawFailure)
    ensures Running(v, selected, existing, continueAfterFailed, b, me, i, output, sawFailure)
  {
    hide WellSnapped, Reported, Mine, Failures, NoneFinal;
    ReportedLater(v, selected, a, b, i, output);
  }

  /** What a run that gets past its prior records returns. */
  predicate LateResult(v: Vocabulary, selected: seq<Item>, continueAfterFailed: bool, events: seq<Event>,
                       r: BatchResult)
  {
    StatusExact(selected, continueAfterFailed, r) && Prefix(selected, r.records) && AllAgree(events, r.records) &&
    forall k | 0 <= k < |r.records| ::
      RecordShaped(v, r.records[k]) && (r.records[k].state != COMPLETED ==> r.records[k].result.None?)
  }

  /** A run that stops at its i-th attempt reports that attempt's record last. */
  lemma StopsLate(v: Vocabulary, selected: seq<Item>, existing: map<string, Record>, continueAfterFailed: bool,
                  events: seq<Event>, i: nat, output: seq<BatchRecord>, sawFailure: bool, record: BatchRecord)
    requires Reported(v, selected, events, i, output) && i < |selected|
    requires Failures(selected, existing, continueAfterFailed, i, output, sawFailure)
    requires record.attempt == selected[i].attempt && RecordShaped(v, record) && AgreesWith(events, record)
    requires record.state == COMPLETED ==> record.outcome == Some("failed") && !continueAfterFailed
    requires record.state != COMPLETED ==> record.result.None?
    ensures LateResult(v, selected, continueAfterFailed, events,
      BatchResult(if record.state == COMPLETED then StoppedFailed else StoppedUnknown, output + [record]))
  {
    hide RecordShaped, AgreesWith, FailedFrom;
    assert (output + [record])[..i] == output;
  }

  /** A run that stops before an attempt, or after the last one, reports the completed ones. */
  lemma RestsLate(v: Vocabulary, selected: seq<Item>, existing: map<string, Record>, continueAfterFailed: bool,
                  events: seq<Event>, i: nat, output: seq<BatchRecord>, sawFailure: bool)
    requires Reported(v, selected, events, i, output)
    requires Failures(selected, existing, continueAfterFailed, i, output, sawFailure)
    ensures i < |selected| ==>
      LateResult(v, selected, continueAfterFailed, events, BatchResult(StoppedPreflight, output))
    ensures i == |selected| ==> LateResult(v, selected, continueAfterFailed, events,
      BatchResult(if sawFailure then CompleteWithFailures else Complete, output))
  {
    hide RecordShaped, AgreesWith;
  }

  lemma DisciplinedMore(a: seq<Act>, b: seq<Act>, continueAfterFailed: bool)
    requires NoneFinal(a, continueAfterFailed) && Disciplined(b, continueAfterFailed)
    ensures Disciplined(a + b, continueAfterFailed)
  {
  }

  // ---------------------------------------------------------------------------
  // The run

  /** How one attempt ends: the run raises or returns, or goes on with its record. */
  datatype AttemptEnd = Over(r: RunResult) | Next(record: BatchRecord)

  /** One pending attempt: claim it, run it, and stop or go on. */
  method RunAttempt(floor: Floor, me: nat, selected: seq<Item>, ghost existing: map<string, Record>, i: nat,
                    continueAfterFailed: bool, env: Env, output: seq<BatchRecord>, ghost sawFailure: bool)
    returns (end: AttemptEnd)
    requires floor.Valid() && HashLaw(env) && i < |selected| && selected[i].attempt in floor.ledger.attempts
    requires Running(floor.ledger.vocabulary, selected, existing, continueAfterFailed, floor.Now(), me, i, output,
                     sawFailure)
    requires Seen(existing, selected[i].attempt).outcome != Some("failed")
    modifies floor, floor.ledger
    ensures floor.Valid() && Onward(old(floor.Now()), floor.Now()) && me < |floor.runners|
    ensures Disciplined(Mine(floor.steps, me), continueAfterFailed)
    ensures end.Over? && end.r.Finished? ==>
      LateResult(floor.ledger.vocabulary, selected, continueAfterFailed, floor.ledger.events, end.r.result)
    ensures end.Next? ==>
      Running(floor.ledger.vocabulary, selected, existing, continueAfterFailed, floor.Now(), me, i + 1,
              output + [end.record], sawFailure || end.record.outcome == Some("failed"))
  {
    hide Mine, ValidEvents, History, Last, RecordOf, Completion, EndRow, Onward, Reported, Failures, LateResult;
    hide RecordShaped, HashLaw, Seen, NoneFinal, Disciplined;
    ghost var v, start := floor.ledger.vocabulary, floor.Now();
    assert selected[i..][0] == selected[i] && selected[i..][1..] == selected[i + 1..];
    var claimed := floor.Claim(me, env, env.claimFault(i));
    if !claimed {
      ClaimsDisciplined(Mine(start.steps, me), continueAfterFailed);
      return Over(Rejected);
    }
    ghost var held := floor.Now();
    OnwardSizes(start, held);
    var record := RunClaimed(floor, me, selected[i], selected[i + 1..], env, i);
    ghost var row := EndRow(v, env, selected[i], i);
    ghost var acts := if row.Some? then [Executed, Ended(row.value)] else [Executed];
    CameTwice(start, held, floor.Now(), me, Holding(selected[i], selected[i + 1..]), [Claimed],
              if row.Some? then Between(selected[i + 1..]) else Ran(selected[i], selected[i + 1..]), acts);
    EndsDisciplined(Mine(start.steps, me), continueAfterFailed, acts);
    ReportedLater(v, selected, start, floor.Now(), i, output);
    if record.state != COMPLETED || (record.outcome == Some("failed") && !continueAfterFailed) {
      StopsLate(v, selected, existing, continueAfterFailed, floor.ledger.events, i, output, sawFailure, record);
      return Over(Finished(BatchResult(if record.state == COMPLETED then StoppedFailed else StoppedUnknown,
                                       output + [record])));
    }
    CompletedEnds(v, env, selected[i], i, floor.ledger.events, record);
    assert [Claimed] + acts == [Claimed, Executed, Ended(row.value)];
    RunningCompletes(v, selected, existing, continueAfterFailed, start, floor.Now(), me, row.value, i, output,
                     sawFailure, record);
    return Next(record);
  }

  lemma ClaimsDisciplined(acts: seq<Act>, continueAfterFailed: bool)
    requires NoneFinal(acts, continueAfterFailed)
    ensures Disciplined(acts + [Claimed], continueAfterFailed) && Disciplined(acts + [], continueAfterFailed)
  {
  }

  lemma EndsDisciplined(acts: seq<Act>, continueAfterFailed: bool, more: seq<Act>)
    requires NoneFinal(acts, continueAfterFailed)
    requires more == [Executed] || (|more| == 2 && more[0] == Executed && more[1].Ended?)
    ensures Disciplined(acts + ([Claimed] + more), continueAfterFailed)
  {
    DisciplinedMore(acts, [Claimed] + more, continueAfterFailed);
  }

  /** A completed record is of the row that ended the attempt. */
  lemma CompletedEnds(v: Vocabulary, env: Env, item: Item, i: nat, events: seq<Event>, record: BatchRecord)
    requires Completion(v, env.hash, item, env.executor(i)).Some? && env.completeFault(i) == NoFault
    requires EndRow(v, env, item, i).Some? ==> Last(events, item.attempt) == EndRow(v, env, item, i)
    requires FromRecord(RecordOf(events, item.attempt)) == Some(record)
    ensures EndRow(v, env, item, i).Some? && EndRow(v, env, item, i).value.state == COMPLETED
    ensures EndRow(v, env, item, i).value.outcome == record.outcome
  {
    hide Completion, Last;
  }

  lemma OkShaped(v: Vocabulary, r: Record, record: BatchRecord)
    requires RecordOk(v, r) && FromRecord(r) == Some(record)
    ensures RecordShaped(v, record)
  {
  }

  lemma SeenReported(v: Vocabulary, now: Snap, since: nat, existing: map<string, Record>, attempt: string,
                     record: BatchRecord)
    requires WellSnapped(v, now) && ReadAlong(now.states, since, existing) && attempt in existing
    requires FromRecord(existing[attempt]) == Some(record)
    ensures record.attempt == attempt && RecordShaped(v, record) && AgreesWith(now.sys.events, record)
  {
    hide History, RecordShaped, RecordOk;
    ReadAlongOk(v, now.states, now.steps, since, existing);
    OkShaped(v, existing[attempt], record);
    SeenAgrees(v, now.states, now.steps, since, existing, record);
  }

  /** With no stop ahead, what was read of the next attempt is a completion or nothing. */
  lemma UpNext(v: Vocabulary, selected: seq<Item>, existing: map<string, Record>, since: nat, continueAfterFailed: bool,
               now: Snap, i: nat)
    requires WellSnapped(v, now) && ReadAlong(now.states, since, existing)
    requires FirstStop(selected, existing, continueAfterFailed) == |selected| && i < |selected|
    requires selected[i].attempt in existing
    ensures existing[selected[i].attempt].state == COMPLETED ==> FromRecord(existing[selected[i].attempt]).Some?
    ensures existing[selected[i].attempt].state != COMPLETED ==>
      Seen(existing, selected[i].attempt).outcome != Some("failed")
  {
    hide History, ReadAlong, FirstStop, Shaped;
    ReadAlongOk(v, now.states, now.steps, since, existing);
    NextUp(v, selected, existing, continueAfterFailed, i);
    SeenOk(v, existing, selected[i].attempt);
  }

  lemma SkipsOver(v: Vocabulary, selected: seq<Item>, existing: map<string, Record>, since: nat,
                  continueAfterFailed: bool, start: Snap, a: Snap, b: Snap, me: nat, i: nat, output: seq<BatchRecord>,
                  sawFailure: bool, record: BatchRecord)
    requires WellSnapped(v, a) && WellSnapped(v, b) && Onward(start, a) && ReadAlong(start.states, since, existing)
    requires Running(v, selected, existing, continueAfterFailed, a, me, i, output, sawFailure) && i < |selected|
    requires selected[i].attempt in existing && existing[selected[i].attempt].state == COMPLETED
    requires FromRecord(existing[selected[i].attempt]) == Some(record)
    requires Came(a, b, me, Between(selected[i + 1..]), [Skipped])
    ensures Running(v, selected, existing, continueAfterFailed, b, me, i + 1, output + [record], sawFailure)
  {
    hide WellSnapped, ReadAlong, Running, Mine, RecordShaped, AgreesWith;
    ReadAlongLater(start.states, b.states, since, existing);
    SeenReported(v, b, since, existing, selected[i].attempt, record);
    RunningSkips(v, selected, existing, continueAfterFailed, a, b, me, i, output, sawFailure, record);
  }

  lemma Begins(v: Vocabulary, selected: seq<Item>, existing: map<string, Record>, continueAfterFailed: bool, now: Snap,
               me: nat, priorFailure: bool)
    requires me < |now.sys.runners| && now.sys.runners[me] == Between(selected) && Mine(now.steps, me) == []
    requires (priorFailure <==> PriorFailed(selected, existing, |selected|)) && (priorFailure ==> continueAfterFailed)
    ensures Running(v, selected, existing, continueAfterFailed, now, me, 0, [], priorFailure)
  {
    assert selected[0..] == selected;
  }

  lemma RunningDisciplined(v: Vocabulary, selected: seq<Item>, existing: map<string, Record>, continueAfterFailed: bool,
                           now: Snap, me: nat, i: nat, output: seq<BatchRecord>, sawFailure: bool)
    requires Running(v, selected, existing, continueAfterFailed, now, me, i, output, sawFailure)
    ensures Disciplined(Mine(now.steps, me), continueAfterFailed)
  {
    hide Reported, Failures, Mine;
  }

  lemma RunningRests(v: Vocabulary, selected: seq<Item>, existing: map<string, Record>, continueAfterFailed: bool,
                     now: Snap, me: nat, i: nat, output: seq<BatchRecord>, sawFailure: bool)
    requires Running(v, selected, existing, continueAfterFailed, now, me, i, output, sawFailure)
    ensures i < |selected| ==>
      LateResult(v, selected, continueAfterFailed, now.sys.events, BatchResult(StoppedPreflight, output))
    ensures i == |selected| ==> LateResult(v, selected, continueAfterFailed, now.sys.events,
      BatchResult(if sawFailure then CompleteWithFailures else Complete, output))
  {
    hide Reported, Failures, Mine, LateResult;
    RestsLate(v, selected, existing, continueAfterFailed, now.sys.events, i, output, sawFailure);
  }

  /** The loop that claims and executes what is pending. */
  method RunPending(floor: Floor, me: nat, selected: seq<Item>, existing: map<string, Record>, ghost since: nat,
                    priorFailure: bool, continueAfterFailed: bool, env: Env)
    returns (r: RunResult)
    requires floor.Valid() && HashLaw(env) && me < |floor.runners| && floor.runners[me] == Between(selected)
    requires Mine(floor.steps, me) == []
    requires ReadAlong(floor.states, since, existing) && existing.Keys <= floor.ledger.attempts
    requires forall k | 0 <= k < |selected| :: selected[k].attempt in existing
    requires FirstStop(selected, existing, continueAfterFailed) == |selected|
    requires (priorFailure <==> PriorFailed(selected, existing, |selected|)) && (priorFailure ==> continueAfterFailed)
    modifies floor, floor.ledger
    ensures floor.Valid() && Onward(old(floor.Now()), floor.Now()) && me < |floor.runners|
    ensures Disciplined(Mine(floor.steps, me), continueAfterFailed)
    ensures r.Finished? ==>
      LateResult(floor.ledger.vocabulary, selected, continueAfterFailed, floor.ledger.events, r.result)
  {
    hide Mine, ValidEvents, History, Last, RecordOf, Onward, LateResult, HashLaw, Seen, Disciplined, ReadAlong;
    hide FirstStop;
    hide PriorFailed, FromRecord, Unmoved, Came, Running;
    ghost var v, start := floor.ledger.vocabulary, floor.Now();
    Begins(v, selected, existing, continueAfterFailed, start, me, priorFailure);
    OnwardSame(start);
    var output: seq<BatchRecord> := [];
    var sawFailure := priorFailure;
    var seenWorkers: set<int> := {};
    for i := 0 to |selected|
      invariant floor.Valid() && Onward(start, floor.Now())
      invariant Running(v, selected, existing, continueAfterFailed, floor.Now(), me, i, output, sawFailure)
    {
      ghost var now := floor.Now();
      OnwardSizes(start, now);
      RunningThere(v, selected, existing, continueAfterFailed, now, me, i, output, sawFailure);
      RunningDisciplined(v, selected, existing, continueAfterFailed, now, me, i, output, sawFailure);
      RunningRests(v, selected, existing, continueAfterFailed, now, me, i, output, sawFailure);
      UpNext(v, selected, existing, since, continueAfterFailed, start, i);
      var prior := existing[selected[i].attempt];
      if prior.state == COMPLETED {
        var done := FromRecord(prior).value;
        assert selected[i..][1..] == selected[i + 1..];
        floor.Take(me, Skipped);
        SkipsOver(v, selected, existing, since, continueAfterFailed, start, now, floor.Now(), me, i, output,
                  sawFailure, done);
        CameThere(now, floor.Now(), me, Between(selected[i + 1..]), [Skipped]);
        OnwardTwice(start, now, floor.Now());
        output := output + [done];
      } else {
        var worker := env.workers(i);
        if worker.None? || worker.value in seenWorkers { return Finished(BatchResult(StoppedPreflight, output)); }
        seenWorkers := seenWorkers + {worker.value};
        var end := RunAttempt(floor, me, selected, existing, i, continueAfterFailed, env, output, sawFailure);
        OnwardTwice(start, now, floor.Now());
        if end.Over? { return end.r; }
        ghost var after := floor.Now();
        output := output + [end.record];
        sawFailure := sawFailure || end.record.outcome == Some("failed");
        var reread := floor.Get(me, env, selected[i].attempt, env.rereadFault(i));
        OnwardTwice(start, after, floor.Now());
        RunningWaits(v, selected, existing, continueAfterFailed, after, floor.Now(), me, i + 1, output, sawFailure);
        RunningThere(v, selected, existing, continueAfterFailed, floor.Now(), me, i + 1, output, sawFailure);
        RunningDisciplined(v, selected, existing, continueAfterFailed, floor.Now(), me, i + 1, output, sawFailure);
        if reread.None? { return Rejected; }
      }
    }
    RunningThere(v, selected, existing, continueAfterFailed, floor.Now(), me, |selected|, output, sawFailure);
    RunningDisciplined(v, selected, existing, continueAfterFailed, floor.Now(), me, |selected|, output, sawFailure);
    RunningRests(v, selected, existing, continueAfterFailed, floor.Now(), me, |selected|, output, sawFailure);
    r := Finished(BatchResult(if sawFailure then CompleteWithFailures else Complete, output));
  }

  lemma RunningThere(v: Vocabulary, selected: seq<Item>, existing: map<string, Record>, continueAfterFailed: bool,
                     now: Snap, me: nat, i: nat, output: seq<BatchRecord>, sawFailure: bool)
    requires Running(v, selected, existing, continueAfterFailed, now, me, i, output, sawFailure)
    ensures i <= |selected| && me < |now.sys.runners| && now.sys.runners[me] == Between(selected[i..])
  {
    hide Reported, Failures, Mine, NoneFinal;
  }

  // ---------------------------------------------------------------------------
  // What the caller can rely on

  /** The status is exact, the records are well shaped and, where they say an attempt has ended, what the ledger
      holds; they are a prefix of the selection, and the renderer accepts them, exactly when what was read does not
      stop the run behind a pending attempt. */
  predicate Reliable(v: Vocabulary, selected: seq<Item>, continueAfterFailed: bool, existing: map<string, Record>,
                     events: seq<Event>, r: BatchResult)
  {
    StatusExact(selected, continueAfterFailed, r) && AllAgree(events, r.records) &&
    (forall k | 0 <= k < |r.records| :: RecordShaped(v, r.records[k])) &&
    (Prefix(selected, r.records) <==> !StopsPastPending(selected, existing, continueAfterFailed)) &&
    (Renderable(v, selected, r) <==> !StopsPastPending(selected, existing, continueAfterFailed))
  }

  lemma EarlyReliable(v: Vocabulary, selected: seq<Item>, continueAfterFailed: bool, now: Snap, since: nat,
                      existing: map<string, Record>, r: BatchResult)
    requires WellSnapped(v, now) && ReadAlong(now.states, since, existing) && DistinctItems(selected)
    requires forall k | 0 <= k < |selected| :: selected[k].attempt in existing
    requires EarlyStop(selected, existing, continueAfterFailed, r)
    ensures Reliable(v, selected, continueAfterFailed, existing, now.sys.events, r)
  {
    hide RecordShaped, AgreesWith, Renderable, Prefix, StopsPastPending, PriorRecords, History, ReadAlong, ReadOk;
    hide FirstStop, RecordOf, StatusExact;
    ReadAlongOk(v, now.states, now.steps, since, existing);
    EarlyPrefix(v, selected, existing, continueAfterFailed, r);
    EarlyShaped(v, selected, existing, continueAfterFailed, r);
    RenderDecides(v, selected, continueAfterFailed, r);
    EarlyAgrees(v, selected, continueAfterFailed, now, since, existing, r);
  }

  lemma EarlyAgrees(v: Vocabulary, selected: seq<Item>, continueAfterFailed: bool, now: Snap, since: nat,
                    existing: map<string, Record>, r: BatchResult)
    requires WellSnapped(v, now) && ReadAlong(now.states, since, existing) && ReadOk(v, existing)
    requires forall k | 0 <= k < |selected| :: selected[k].attempt in existing
    requires EarlyStop(selected, existing, continueAfterFailed, r)
    ensures AllAgree(now.sys.events, r.records)
  {
    hide AgreesWith, History, ReadAlong, StatusExact, RecordOf, FirstStop, Seen;
    var n := FirstStop(selected, existing, continueAfterFailed) + 1;
    forall j | 0 <= j < |r.records| ensures AgreesWith(now.sys.events, r.records[j]) {
      var q := PriorSource(selected, existing, 0, n, j);
      assert FromRecord(PriorRecords(selected, existing, n)[j]) == Some(r.records[j]);
      SeenThere(existing, selected[q].attempt);
      SeenReported(v, now, since, existing, selected[q].attempt, r.records[j]);
    }
  }

  lemma SeenThere(existing: map<string, Record>, attempt: string)
    requires attempt in existing
    ensures Seen(existing, attempt) == existing[attempt]
  {
  }

  lemma LateReliable(v: Vocabulary, selected: seq<Item>, continueAfterFailed: bool, existing: map<string, Record>,
                     events: seq<Event>, r: BatchResult)
    requires DistinctItems(selected) && FirstStop(selected, existing, continueAfterFailed) == |selected|
    requires LateResult(v, selected, continueAfterFailed, events, r)
    ensures Reliable(v, selected, continueAfterFailed, existing, events, r)
  {
    hide RecordShaped, AgreesWith, Renderable, Prefix, StatusExact;
    RenderDecides(v, selected, continueAfterFailed, r);
  }

  /** run_first_five_r5_attempts, on a ledger others use. `explicit` says that the caller named its attempts; `seen`
      is what the run read of the ledger. */
  method RunBatch(floor: Floor, schedule: map<string, string>, selected: seq<Item>, explicit: bool,
                  continueAfterFailed: bool, env: Env)
    returns (r: RunResult, me: nat, ghost seen: map<string, Record>)
    requires floor.Valid() && HashLaw(env)
    modifies floor, floor.ledger
    // the run and the others' moves continue one history, in which the run is one more runner
    ensures floor.Valid() && Onward(old(floor.Now()), floor.Now())
    ensures |old(floor.steps)| < |floor.steps| && floor.steps[|old(floor.steps)|] == Start(selected)
    ensures me == |old(floor.runners)| < |floor.runners|
    ensures Replay(Between(selected), Mine(floor.steps, me)) == Some(Stopped)
    ensures Disciplined(Mine(floor.steps, me), continueAfterFailed)
    // nothing was executed twice, by whomever
    ensures forall i, j | 0 <= i < j < |floor.executions| :: floor.executions[i].attempt != floor.executions[j].attempt
    // the result can be relied on
    ensures r.Finished? ==>
      DistinctItems(selected) && ReadAlong(floor.states, |old(floor.steps)| + 1, seen) &&
      Reliable(floor.ledger.vocabulary, selected, continueAfterFailed, seen, floor.ledger.events, r.result)
    // a run that stops at a prior record does nothing else
    ensures r.Finished? && FirstStop(selected, seen, continueAfterFailed) < |selected| ==>
      Mine(floor.steps, me) == [Halted] && EarlyStop(selected, seen, continueAfterFailed, r.result)
    // what is read with no one else moving is what was there
    ensures r.Finished? && Quiet(env) ==> AsHeld(seen, old(floor.ledger.events))
  {
    hide Mine, ValidEvents, Last, RecordOf, Onward, LateResult, HashLaw, Seen, Disciplined, ReadAlong, FirstStop;
    hide Replay;
    hide PriorFailed, InputsAgree, Reliable, EarlyStop, History, Unmoved, AsHeld, Came, StatusExact;
    ghost var v, start := floor.ledger.vocabulary, floor.Now();
    me := floor.Begin(selected);
    ghost var begun := floor.Now();
    r, seen := RunBegun(floor, me, schedule, selected, explicit, continueAfterFailed, env);
    ghost var done := floor.Now();
    floor.Take(me, Halted);
    CameThere(done, floor.Now(), me, Stopped, [Halted]);
    OnwardTwice(begun, done, floor.Now());
    OnwardTwice(start, begun, floor.Now());
    HaltDisciplined(done, floor.Now(), me, continueAfterFailed);
    Finishes(v, start, floor.Now(), selected);
    if r.Finished? { ReadAlongOnward(done, floor.Now(), |start.steps| + 1, seen); }
  }

  /** The run, as the runner that has just started. */
  method RunBegun(floor: Floor, me: nat, schedule: map<string, string>, selected: seq<Item>, explicit: bool,
                  continueAfterFailed: bool, env: Env)
    returns (r: RunResult, ghost seen: map<string, Record>)
    requires floor.Valid() && HashLaw(env) && me < |floor.runners| && floor.runners[me] == Between(selected)
    requires Mine(floor.steps, me) == []
    modifies floor, floor.ledger
    ensures floor.Valid() && Onward(old(floor.Now()), floor.Now()) && me < |floor.runners|
    ensures Disciplined(Mine(floor.steps, me), continueAfterFailed)
    ensures r.Finished? ==>
      DistinctItems(selected) && ReadAlong(floor.states, |old(floor.steps)|, seen) &&
      Reliable(floor.ledger.vocabulary, selected, continueAfterFailed, seen, floor.ledger.events, r.result)
    ensures r.Finished? && FirstStop(selected, seen, continueAfterFailed) < |selected| ==>
      Mine(floor.steps, me) == [] && EarlyStop(selected, seen, continueAfterFailed, r.result)
    ensures r.Finished? && Quiet(env) ==> AsHeld(seen, old(floor.ledger.events))
  {
    hide Mine, ValidEvents, Last, RecordOf, Onward, LateResult, HashLaw, Seen, Disciplined, ReadAlong, FirstStop;
    hide PriorFailed, InputsAgree, Reliable, EarlyStop, History, AsHeld, Came, StatusExact, ReadOk;
    ghost var v, start, since := floor.ledger.vocabulary, floor.Now(), |floor.steps|;
    seen := map[];
    NothingDisciplined(continueAfterFailed);
    OnwardSame(start);
    if (continueAfterFailed && !explicit) || !IsSelection(schedule, selected) || env.recordsFault {
      return Rejected, seen;
    }
    var existing := floor.Records(Some(me), env);
    seen := existing;
    ghost var now := floor.Now();
    if exists k | 0 <= k < |selected| :: selected[k].attempt !in existing { return Rejected, seen; }
    ReadAlongOk(v, now.states, now.steps, since, existing);
    var stop, sawFailure := Preflight(floor.ledger.vocabulary, selected, existing, continueAfterFailed);
    if stop.Some? {
      if stop.value.Finished? {
        EarlyReliable(v, selected, continueAfterFailed, now, since, existing, stop.value.result);
      }
      return stop.value, seen;
    }
    r := RunPending(floor, me, selected, existing, since, sawFailure, continueAfterFailed, env);
    OnwardTwice(start, now, floor.Now());
    ReadAlongOnward(now, floor.Now(), since, existing);
    if r.Finished? { LateReliable(v, selected, continueAfterFailed, existing, floor.ledger.events, r.result); }
  }

  lemma NothingDisciplined(continueAfterFailed: bool)
    ensures Disciplined([], continueAfterFailed)
  {
  }

  lemma HaltDisciplined(a: Snap, b: Snap, me: nat, continueAfterFailed: bool)
    requires Came(a, b, me, Stopped, [Halted]) && Disciplined(Mine(a.steps, me), continueAfterFailed)
    ensures Disciplined(Mine(b.steps, me), continueAfterFailed)
    ensures Mine(a.steps, me) == [] ==> Mine(b.steps, me) == [Halted]
  {
    hide Mine;
  }

  lemma ReadAlongOnward(a: Snap, b: Snap, since: nat, existing: map<string, Record>)
    requires ReadAlong(a.states, since, existing) && Onward(a, b)
    ensures ReadAlong(b.states, since, existing)
  {
    ReadAlongLater(a.states, b.states, since, existing);
  }

  /** A stopped run has followed the runner's program, and in its history nothing was executed twice. */
  lemma Finishes(v: Vocabulary, a: Snap, b: Snap, selected: seq<Item>)
    requires WellSnapped(v, a) && WellSnapped(v, b) && Onward(a, b)
    requires |a.steps| < |b.steps| && b.steps[|a.steps|] == Start(selected)
    requires |a.sys.runners| < |b.sys.runners| && b.sys.runners[|a.sys.runners|] == Stopped
    ensures Replay(Between(selected), Mine(b.steps, |a.sys.runners|)) == Some(Stopped)
    ensures forall i, j | 0 <= i < j < |b.sys.executions| :: b.sys.executions[i].attempt != b.sys.executions[j].attempt
  {
    hide History, Mine, Replay;
    HistorySize(v, a.states, a.steps);
    HistorySize(v, b.states, b.steps);
    assert b.states[|a.steps|] == a.sys;
    RunnerReplays(v, b.states, b.steps, |a.steps|, selected);
    SafeAlong(v, b.states, b.steps, |b.steps|);
  }

  // ---------------------------------------------------------------------------
  // The command line

  lemma PendingReliable(v: Vocabulary, selected: seq<Item>, continueAfterFailed: bool, existing: map<string, Record>,
                        events: seq<Event>, r: BatchResult)
    requires forall k | 0 <= k < |selected| :: Seen(existing, selected[k].attempt).state == PENDING
    requires Reliable(v, selected, continueAfterFailed, existing, events, r)
    ensures Prefix(selected, r.records) && Renderable(v, selected, r)
  {
    hide Prefix, Renderable, StatusExact, AllAgree, StopsPastPending;
    PendingNeverStops(selected, existing, continueAfterFailed);
  }

  /** The guard's condition: each selected attempt was read, and is pending. */
  predicate AllPending(selected: seq<Item>, existing: map<string, Record>) {
    forall k | 0 <= k < |selected| ::
      selected[k].attempt in existing && existing[selected[k].attempt].state == PENDING
  }

  /** With no one else moving, what the guard found pending the run reads as pending. */
  lemma StillPending(selected: seq<Item>, events: seq<Event>, first: map<string, Record>, seen: map<string, Record>)
    requires AsHeld(first, events) && AsHeld(seen, events)
    requires AllPending(selected, first)
    ensures forall k | 0 <= k < |selected| :: Seen(seen, selected[k].attempt).state == PENDING
  {
    hide RecordOf;
  }

  /** The command line's run of a resumed ledger: it goes on only if the guard reads every selected attempt as
      pending. The result is printed exactly when what the run itself then reads does not stop it behind a pending
      attempt, which only another runner in between can bring about. */
  method RunPendingOnly(floor: Floor, schedule: map<string, string>, selected: seq<Item>, explicit: bool,
                        continueAfterFailed: bool, env: Env)
    returns (r: RunResult, printed: bool, ghost first: map<string, Record>, ghost seen: map<string, Record>)
    requires floor.Valid() && HashLaw(env)
    modifies floor, floor.ledger
    ensures floor.Valid() && Onward(old(floor.Now()), floor.Now())
    ensures !env.guardFault ==> ReadAlong(floor.states, |old(floor.steps)|, first)
    ensures !AllPending(selected, first) ==> r == Rejected && (Quiet(env) ==> floor.Now() == old(floor.Now()))
    ensures r.Finished? ==>
      DistinctItems(selected) && ReadAlong(floor.states, |old(floor.steps)|, seen) &&
      Reliable(floor.ledger.vocabulary, selected, continueAfterFailed, seen, floor.ledger.events, r.result)
    ensures printed <==> r.Finished? && !StopsPastPending(selected, seen, continueAfterFailed)
    ensures r.Finished? && (forall k | 0 <= k < |selected| :: Seen(seen, selected[k].attempt).state == PENDING) ==>
      printed && Prefix(selected, r.result.records)
    ensures r.Finished? && Quiet(env) ==> printed && Prefix(selected, r.result.records)
  {
    hide Mine, ValidEvents, Last, RecordOf, Onward, HashLaw, Seen, Disciplined, ReadAlong, FirstStop, Replay, History;
    hide AsHeld, StopsPastPending, Renderable, Prefix, StatusExact, AllAgree, RecordShaped, EarlyStop;
    ghost var start := floor.Now();
    first, seen := map[], map[];
    OnwardSame(start);
    if env.guardFault { return Rejected, false, first, seen; }
    var records := floor.Records(None, env);
    first := records;
    ghost var guarded := floor.Now();
    if !AllPending(selected, records) { return Rejected, false, first, seen; }
    var me;
    r, me, seen := RunBatch(floor, schedule, selected, explicit, continueAfterFailed, env);
    OnwardTwice(start, guarded, floor.Now());
    ReadAlongOnward(guarded, floor.Now(), |start.steps|, first);
    printed := false;
    if r.Finished? {
      ReadAlongSooner(floor.states, |guarded.steps| + 1, |start.steps|, seen) by { OnwardSizes(start, guarded); }
      printed := PrintResult(floor.ledger.vocabulary, selected, r.result);
      if Quiet(env) { StillPending(selected, guarded.sys.events, first, seen); }
      if forall k | 0 <= k < |selected| :: Seen(seen, selected[k].attempt).state == PENDING {
        PendingReliable(floor.ledger.vocabulary, selected, continueAfterFailed, seen, floor.ledger.events, r.result);
      }
    }
  }

  lemma ReadAlongSooner(states: seq<Sys>, since: nat, sooner: nat, existing: map<string, Record>)
    requires ReadAlong(states, since, existing) && sooner <= since
    ensures ReadAlong(states, sooner, existing)
  {
    forall a | a in existing ensures exists k: nat | sooner <= k < |states| :: ReadAt(states, k, existing[a]) {
      var k: nat :| since <= k < |states| && ReadAt(states, k, existing[a]);
    }
  }

  /** The guard is no lock: a history in which both attempts are pending at first, and another runner's failure of
      the second then makes the run stop behind the first. */
  lemma GuardRaceExample(v: Vocabulary, a: string, b: string, d: string) returns (states: seq<Sys>, steps: seq<Step>)
    requires a != b && IsDigest(d)
    ensures History(v, states, steps) && steps != []
    ensures
      var selected := [Item(a, d), Item(b, d)];
      (forall k | 0 <= k < 2 :: RecordOf(states[0].events, selected[k].attempt).state == PENDING) &&
      StopsPastPending(selected, ReadAll(states[|steps|].events, selected), false)
  {
    hide History, StopsPastPending, IsDigest, ReadAll;
    var claim := ClaimEvent(b, d);
    var end := Event(b, COMPLETED, d, Some(d), Some("failed"), Some("execution-failed"));
    RaceRows(v, claim, end);
    states, steps := [Sys({a, b}, [], [], [])], [];
    NoHistory(v, states[0]);
    HistoryAppend(v, states, steps, Start([Item(b, d)]));
    states, steps := states + [Apply(v, states[0], Start([Item(b, d)]))], steps + [Start([Item(b, d)])];
    HistoryAppend(v, states, steps, Do(0, Claimed));
    states, steps := states + [Apply(v, states[1], Do(0, Claimed))], steps + [Do(0, Claimed)];
    HistoryAppend(v, states, steps, Do(0, Executed));
    states, steps := states + [Apply(v, states[2], Do(0, Executed))], steps + [Do(0, Executed)];
    HistoryAppend(v, states, steps, Do(0, Ended(end)));
    states, steps := states + [Apply(v, states[3], Do(0, Ended(end)))], steps + [Do(0, Ended(end))];
    assert states[4].events == [] + [claim] + [end] == [claim, end];
    SkippedPendingExample(v, a, b, d);
  }

  lemma NoHistory(v: Vocabulary, s: Sys)
    requires Initial(s)
    ensures History(v, [s], [])
  {
  }

  lemma RaceRows(v: Vocabulary, claim: Event, end: Event)
    requires IsDigest(claim.input) && claim == ClaimEvent(claim.attempt, claim.input)
    requires end == Event(claim.attempt, COMPLETED, claim.input, Some(claim.input), Some("failed"),
                          Some("execution-failed"))
    ensures Admits(v, [], claim) && Admits(v, [claim], end)
  {
    hide IsDigest;
  }
}
