/** Every history of batch runners over one ledger: any number of runners, started with any
    selections at any time, interleaved in any order and stopped at any step. */
module R5History {
  import opened Base
  import opened R5Ledger

  /** A selected attempt with the digest of its input. */
  datatype Item = Item(attempt: string, input: string)

  /** Where a runner is: before its next attempt, holding a claim, past its executor call, or gone. */
  datatype Pc =
    | Between(rest: seq<Item>)
    | Holding(item: Item, rest: seq<Item>)
    | Ran(item: Item, rest: seq<Item>)
    | Stopped

  /** What a runner does that another party can see. */
  datatype Act =
    | Skipped              // the attempt was already completed
    | Claimed              // its claim was committed
    | Executed             // the executor was called with the claimed attempt
    | Ended(event: Event)  // a result or an unknown outcome was committed
    | Halted               // it returned, raised or crashed

  /** The runner's program: a claim before each execution, an execution before each end. The code that ends an
      attempt as unknown never records a result with it. */
  function RunnerStep(pc: Pc, act: Act): Option<Pc> {
    match act
    case Skipped => if pc.Between? && pc.rest != [] then Some(Between(pc.rest[1..])) else None
    case Claimed => if pc.Between? && pc.rest != [] then Some(Holding(pc.rest[0], pc.rest[1..])) else None
    case Executed => if pc.Holding? then Some(Ran(pc.item, pc.rest)) else None
    case Ended(e) =>
      if pc.Ran? && e.attempt == pc.item.attempt && (e.state == COMPLETED || (e.state == UNKNOWN && e.result.None?))
      then Some(Between(pc.rest)) else None
    case Halted => Some(Stopped)
  }

  /** The row an act commits. */
  function Commits(pc: Pc, act: Act): Option<Event> {
    match act
    case Claimed =>
      if pc.Between? && pc.rest != [] then Some(ClaimEvent(pc.rest[0].attempt, pc.rest[0].input)) else None
    case Ended(e) => Some(e)
    case _ => None
  }

  /** The system: the ledger, the runners, and every executor call so far. */
  datatype Sys = Sys(attempts: set<string>, events: seq<Event>, runners: seq<Pc>, executions: seq<Item>)

  datatype Step =
    | Start(selected: seq<Item>)          // a new or resumed run
    | Extend(more: set<string>)           // the ledger is extended by later attempts
    | Do(runner: nat, act: Act)

  predicate Enabled(v: Vocabulary, s: Sys, step: Step) {
    match step
    case Start(_) => true
    case Extend(_) => true
    case Do(r, act) =>
      r < |s.runners| && RunnerStep(s.runners[r], act).Some? &&
      (Commits(s.runners[r], act).Some? ==>
        var e := Commits(s.runners[r], act).value;
        e.attempt in s.attempts && Admits(v, s.events, e))
  }

  function Apply(v: Vocabulary, s: Sys, step: Step): Sys
    requires Enabled(v, s, step)
  {
    match step
    case Start(selected) => s.(runners := s.runners + [Between(selected)])
    case Extend(more) => s.(attempts := s.attempts + more)
    case Do(r, act) =>
      var pc := s.runners[r];
      var row := Commits(pc, act);
      Sys(s.attempts,
          if row.Some? then s.events + [row.value] else s.events,
          s.runners[r := RunnerStep(pc, act).value],
          if act.Executed? then s.executions + [pc.item] else s.executions)
  }

  predicate Initial(s: Sys) {
    s.events == [] && s.runners == [] && s.executions == []
  }

  /** The states a history goes through. */
  ghost predicate History(v: Vocabulary, states: seq<Sys>, steps: seq<Step>) {
    |states| == |steps| + 1 && Initial(states[0]) &&
    forall i :: 0 <= i < |steps| ==> Enabled(v, states[i], steps[i]) && states[i + 1] == Apply(v, states[i], steps[i])
  }

  // ---------------------------------------------------------------------------
  // Safety

  /** The claim recorded for an attempt has this input. */
  predicate ClaimedWith(events: seq<Event>, item: Item) {
    Last(events, item.attempt).Some? && Last(events, item.attempt).value.input == item.input
  }

  /** From its claim to its end an attempt belongs to one runner. */
  predicate Owns(pc: Pc) {
    pc.Holding? || pc.Ran?
  }

  /** What a runner owns is claimed in the ledger, with no end yet; what it has not yet executed, no one has. */
  predicate OwnsWell(s: Sys, pc: Pc) {
    (Owns(pc) ==> Last(s.events, pc.item.attempt) == Some(ClaimEvent(pc.item.attempt, pc.item.input))) &&
    (pc.Holding? ==> forall i | 0 <= i < |s.executions| :: s.executions[i].attempt != pc.item.attempt)
  }

  /** No two runners own one attempt. */
  predicate Apart(runners: seq<Pc>) {
    forall r, q | 0 <= r < q < |runners| && Owns(runners[r]) && Owns(runners[q]) ::
      runners[r].item.attempt != runners[q].item.attempt
  }

  /** Executions are of distinct attempts, each claimed with the executed input. */
  predicate ExecutedOnce(s: Sys) {
    (forall i, j | 0 <= i < j < |s.executions| :: s.executions[i].attempt != s.executions[j].attempt) &&
    forall i | 0 <= i < |s.executions| :: ClaimedWith(s.events, s.executions[i])
  }

  /** An unknown outcome has no result. */
  predicate NoUnknownResult(events: seq<Event>) {
    forall i | 0 <= i < |events| :: events[i].state == UNKNOWN ==> events[i].result.None?
  }

  ghost predicate Safe(v: Vocabulary, s: Sys) {
    ValidEvents(v, s.events) && ExecutedOnce(s) && Apart(s.runners) && NoUnknownResult(s.events) &&
    forall r | 0 <= r < |s.runners| :: OwnsWell(s, s.runners[r])
  }

  lemma ClaimKept(v: Vocabulary, events: seq<Event>, e: Event, item: Item)
    requires Admits(v, events, e) && ClaimedWith(events, item)
    ensures ClaimedWith(events + [e], item)
    ensures e.state == CLAIMED ==> e.attempt != item.attempt
  {
    LastAppend(events, e, item.attempt);
  }

  /** A claim is of an attempt no runner owns and no one has executed. */
  lemma SafeClaim(v: Vocabulary, s: Sys, r: nat)
    requires Safe(v, s) && Enabled(v, s, Do(r, Claimed))
    ensures Safe(v, Apply(v, s, Do(r, Claimed)))
  {
    hide Last, ValidEvents, Shaped;
    var t, row := Apply(v, s, Do(r, Claimed)), Commits(s.runners[r], Claimed).value;
    ValidAppend(v, s.events, row);
    LastAppend(s.events, row, row.attempt);
    forall i | 0 <= i < |s.executions|
      ensures ClaimedWith(t.events, s.executions[i]) && s.executions[i].attempt != row.attempt
    {
      ClaimKept(v, s.events, row, s.executions[i]);
    }
    forall q | 0 <= q < |s.runners| && q != r && Owns(s.runners[q])
      ensures OwnsWell(t, t.runners[q]) && s.runners[q].item.attempt != row.attempt
    {
      assert OwnsWell(s, s.runners[q]);
      LastAppend(s.events, row, s.runners[q].item.attempt);
    }
  }

  /** An end is of an attempt its runner owns, and leaves what the others own alone. */
  lemma SafeEnd(v: Vocabulary, s: Sys, r: nat, e: Event)
    requires Safe(v, s) && Enabled(v, s, Do(r, Ended(e)))
    ensures Safe(v, Apply(v, s, Do(r, Ended(e))))
  {
    hide Last, ValidEvents, Shaped;
    var t := Apply(v, s, Do(r, Ended(e)));
    ValidAppend(v, s.events, e);
    forall i | 0 <= i < |s.executions| ensures ClaimedWith(t.events, s.executions[i]) {
      ClaimKept(v, s.events, e, s.executions[i]);
    }
    forall q | 0 <= q < |s.runners| && q != r && Owns(s.runners[q]) ensures OwnsWell(t, t.runners[q]) {
      assert OwnsWell(s, s.runners[q]);
      LastAppend(s.events, e, s.runners[q].item.attempt);
    }
  }

  lemma SafeExecute(v: Vocabulary, s: Sys, r: nat)
    requires Safe(v, s) && Enabled(v, s, Do(r, Executed))
    ensures Safe(v, Apply(v, s, Do(r, Executed)))
  {
    hide Last, ValidEvents, Shaped;
    var t := Apply(v, s, Do(r, Executed));
    assert OwnsWell(s, s.runners[r]);
    forall q | 0 <= q < |s.runners| && q != r ensures OwnsWell(t, t.runners[q]) {
      assert OwnsWell(s, s.runners[q]);
    }
  }

  lemma SafeDo(v: Vocabulary, s: Sys, r: nat, act: Act)
    requires Safe(v, s) && Enabled(v, s, Do(r, act))
    ensures Safe(v, Apply(v, s, Do(r, act)))
  {
    hide Last, ValidEvents, Shaped;
    match act
    case Claimed => SafeClaim(v, s, r);
    case Ended(e) => SafeEnd(v, s, r, e);
    case Executed => SafeExecute(v, s, r);
    case _ =>
      var t := Apply(v, s, Do(r, act));
      forall q | 0 <= q < |s.runners| && q != r ensures OwnsWell(t, t.runners[q]) {
        assert OwnsWell(s, s.runners[q]);
      }
  }

  lemma SafeGrows(v: Vocabulary, s: Sys, step: Step)
    requires Safe(v, s) && !step.Do?
    ensures Safe(v, Apply(v, s, step))
  {
    hide Last, ValidEvents;
    var t := Apply(v, s, step);
    forall q | 0 <= q < |s.runners| ensures OwnsWell(t, t.runners[q]) { assert OwnsWell(s, s.runners[q]); }
  }

  lemma {:induction false} SafeAlong(v: Vocabulary, states: seq<Sys>, steps: seq<Step>, k: nat)
    requires History(v, states, steps) && k < |states|
    ensures Safe(v, states[k])
  {
    if k > 0 {
      SafeAlong(v, states, steps, k - 1);
      assert Enabled(v, states[k - 1], steps[k - 1]) && states[k] == Apply(v, states[k - 1], steps[k - 1]);
      if steps[k - 1].Do? {
        SafeDo(v, states[k - 1], steps[k - 1].runner, steps[k - 1].act);
      } else {
        SafeGrows(v, states[k - 1], steps[k - 1]);
      }
    }
  }

  lemma {:induction false} ExecutionsGrow(v: Vocabulary, states: seq<Sys>, steps: seq<Step>, i: nat, j: nat)
    requires History(v, states, steps) && i <= j < |states|
    ensures |states[i].executions| <= |states[j].executions|
    ensures states[j].executions[..|states[i].executions|] == states[i].executions
    ensures |states[i].events| <= |states[j].events| && states[j].events[..|states[i].events|] == states[i].events
    decreases j - i
  {
    if i < j {
      ExecutionsGrow(v, states, steps, i, j - 1);
      assert Enabled(v, states[j - 1], steps[j - 1]) && states[j] == Apply(v, states[j - 1], steps[j - 1]);
    }
  }

  /** Step k hands this attempt to the executor. */
  predicate ExecutesAt(states: seq<Sys>, steps: seq<Step>, k: nat, item: Item)
    requires |states| == |steps| + 1 && k < |steps|
  {
    steps[k].Do? && steps[k].act.Executed? && steps[k].runner < |states[k].runners| &&
    states[k].runners[steps[k].runner].Holding? && states[k].runners[steps[k].runner].item == item
  }

  /** Over every history an attempt reaches the executor at most once. */
  lemma AtMostOneExecution(v: Vocabulary, states: seq<Sys>, steps: seq<Step>, i: nat, j: nat, a: Item, b: Item)
    requires History(v, states, steps) && i < j < |steps|
    requires ExecutesAt(states, steps, i, a) && ExecutesAt(states, steps, j, b)
    ensures a.attempt != b.attempt
  {
    assert Enabled(v, states[i], steps[i]) && states[i + 1] == Apply(v, states[i], steps[i]);
    assert states[i + 1].executions[|states[i].executions|] == a;
    ExecutionsGrow(v, states, steps, i + 1, j);
    assert states[j].executions[|states[i].executions|] == a;
    SafeAlong(v, states, steps, j);
  }

  /** An execution comes strictly after a claim of that attempt with that input, by the same runner:
      the row is in the ledger when the executor is called and stays there. */
  lemma ExecutionAfterClaim(v: Vocabulary, states: seq<Sys>, steps: seq<Step>, k: nat, item: Item, later: nat)
    requires History(v, states, steps) && k < |steps| && ExecutesAt(states, steps, k, item) && k <= later < |states|
    ensures exists i :: 0 <= i < |states[k].events| && states[k].events[i] == ClaimEvent(item.attempt, item.input)
    ensures exists i ::
      0 <= i < |states[later].events| && states[later].events[i] == ClaimEvent(item.attempt, item.input)
  {
    SafeAlong(v, states, steps, k);
    ClaimRowExists(v, states[k].events, item);
    var i :| 0 <= i < |states[k].events| && states[k].events[i] == ClaimEvent(item.attempt, item.input);
    ExecutionsGrow(v, states, steps, k, later);
    assert states[later].events[i] == states[later].events[..|states[k].events|][i];
  }

  lemma {:induction false} ClaimRowExists(v: Vocabulary, events: seq<Event>, item: Item)
    requires ValidEvents(v, events) && ClaimedWith(events, item)
    ensures exists i :: 0 <= i < |events| && events[i] == ClaimEvent(item.attempt, item.input)
  {
    var last := events[|events| - 1];
    var front := events[..|events| - 1];
    if last.attempt == item.attempt && last.state == CLAIMED {
      assert last == ClaimEvent(item.attempt, item.input);
    } else {
      ClaimRowExists(v, front, item);
      var i :| 0 <= i < |front| && front[i] == ClaimEvent(item.attempt, item.input);
      assert events[i] == front[i];
    }
  }

  /** An attempt that left PENDING never returns to it, and its recorded input never changes. */
  lemma {:induction false} NeverPendingAgain(v: Vocabulary, states: seq<Sys>, steps: seq<Step>, i: nat, j: nat,
                                             attempt: string)
    requires History(v, states, steps) && i <= j < |states|
    requires RecordOf(states[i].events, attempt).state != PENDING
    ensures RecordOf(states[j].events, attempt).state != PENDING
    ensures RecordOf(states[j].events, attempt).input == RecordOf(states[i].events, attempt).input
    ensures RecordOf(states[i].events, attempt).state in {COMPLETED, UNKNOWN} ==>
            RecordOf(states[j].events, attempt) == RecordOf(states[i].events, attempt)
    decreases j - i
  {
    if i < j {
      NeverPendingAgain(v, states, steps, i, j - 1, attempt);
      SafeAlong(v, states, steps, j - 1);
      assert Enabled(v, states[j - 1], steps[j - 1]) && states[j] == Apply(v, states[j - 1], steps[j - 1]);
      if steps[j - 1].Do? {
        var row := Commits(states[j - 1].runners[steps[j - 1].runner], steps[j - 1].act);
        if row.Some? { LastAppend(states[j - 1].events, row.value, attempt); }
      }
    }
  }
}
