/** The append-only attempt ledger: at most one claim per attempt, at most one result per claim. */
module R5Ledger {
  import opened Base

  datatype State = PENDING | CLAIMED | COMPLETED | UNKNOWN

  /** The reason codes of failed executions and of phases that ended without a result. */
  datatype Vocabulary = Vocabulary(failures: set<string>, phases: set<string>)

  const OUTCOMES: set<string> := {"verified", "failed", "needs_input", "blocked", "denied"}

  function Reasons(v: Vocabulary): set<string> {
    {"none", "execution-failed", "worker-clarification", "worker-blocked", "worker-denied", "worker-error",
     "pipeline-error", "interrupted", "result-unavailable"} + v.failures + v.phases
  }

  function UnknownReasons(v: Vocabulary): set<string> {
    {"interrupted", "result-unavailable", "pipeline-error"} + v.phases
  }

  /** A row of attempt_events. */
  datatype Event = Event(
    attempt: string, state: State, input: string,
    result: Option<string>, outcome: Option<string>, reason: Option<string>)

  /** What the ledger reports of one attempt. */
  datatype Record = Record(
    attempt: string, state: State, input: Option<string>,
    result: Option<string>, outcome: Option<string>, reason: Option<string>)

  function ClaimEvent(attempt: string, input: string): Event {
    Event(attempt, CLAIMED, input, None, None, None)
  }

  /** The latest event of an attempt. */
  function Last(events: seq<Event>, attempt: string): Option<Event> {
    if events == [] then None
    else if events[|events| - 1].attempt == attempt then Some(events[|events| - 1])
    else Last(events[..|events| - 1], attempt)
  }

  function RecordOf(events: seq<Event>, attempt: string): Record {
    var last := Last(events, attempt);
    if last.None? then Record(attempt, PENDING, None, None, None, None)
    else Record(attempt, last.value.state, Some(last.value.input), last.value.result, last.value.outcome,
                last.value.reason)
  }

  /** The values an event of its state carries. */
  predicate Shaped(v: Vocabulary, e: Event) {
    IsDigest(e.input) &&
    match e.state
    case PENDING => false
    case CLAIMED => e.result.None? && e.outcome.None? && e.reason.None?
    case COMPLETED => e.result.Some? && IsDigest(e.result.value) && e.outcome.Some? && e.outcome.value in OUTCOMES &&
                      e.reason.Some? && e.reason.value in Reasons(v)
    case UNKNOWN => (e.result.Some? ==> IsDigest(e.result.value)) && e.outcome.None? &&
                    e.reason.Some? && e.reason.value in UnknownReasons(v)
  }

  /** An event the ledger appends: a claim of an untouched attempt, or the end of a claimed one. */
  predicate Admits(v: Vocabulary, events: seq<Event>, e: Event) {
    Shaped(v, e) &&
    var last := Last(events, e.attempt);
    if e.state == CLAIMED then last.None?
    else last.Some? && last.value.state == CLAIMED && last.value.input == e.input
  }

  predicate ValidEvents(v: Vocabulary, events: seq<Event>) {
    events == [] || (ValidEvents(v, events[..|events| - 1]) && Admits(v, events[..|events| - 1], events[|events| - 1]))
  }

  lemma ValidAppend(v: Vocabulary, events: seq<Event>, e: Event)
    requires ValidEvents(v, events) && Admits(v, events, e)
    ensures ValidEvents(v, events + [e])
  {
    assert (events + [e])[..|events|] == events;
  }

  lemma LastAppend(events: seq<Event>, e: Event, attempt: string)
    ensures Last(events + [e], attempt) == if attempt == e.attempt then Some(e) else Last(events, attempt)
  {
    assert (events + [e])[..|events|] == events;
  }

  lemma {:induction false} LastShaped(v: Vocabulary, events: seq<Event>, attempt: string)
    requires ValidEvents(v, events) && Last(events, attempt).Some?
    ensures Shaped(v, Last(events, attempt).value) && Last(events, attempt).value.attempt == attempt
    ensures Last(events, attempt).value in events
  {
    if events[|events| - 1].attempt != attempt { LastShaped(v, events[..|events| - 1], attempt); }
  }

  /** Which rows are an attempt's, in order. */
  function EventsOf(events: seq<Event>, attempt: string): seq<Event> {
    if events == [] then []
    else
      var front := EventsOf(events[..|events| - 1], attempt);
      if events[|events| - 1].attempt == attempt then front + [events[|events| - 1]] else front
  }

  /** The whole life of an attempt: nothing, a claim, or a claim and one end with the claim's input. */
  lemma {:induction false} AttemptLife(v: Vocabulary, events: seq<Event>, attempt: string)
    requires ValidEvents(v, events)
    ensures
      var own := EventsOf(events, attempt);
      |own| <= 2 && (|own| >= 1 ==> own[0] == ClaimEvent(attempt, own[0].input)) &&
      (|own| == 2 ==> own[1].state in {COMPLETED, UNKNOWN} && own[1].input == own[0].input)
    ensures Last(events, attempt)
         == var own := EventsOf(events, attempt); if own == [] then None else Some(own[|own| - 1])
  {
    if events != [] {
      AttemptLife(v, events[..|events| - 1], attempt);
    }
  }

  /** How a database call fails: before its effect, or after it was committed. */
  datatype Fault = NoFault | Before | After

  class Ledger {
    const vocabulary: Vocabulary
    var attempts: set<string>
    var events: seq<Event>

    ghost predicate Valid()
      reads this
    {
      ValidEvents(vocabulary, events)
    }

    constructor (vocabulary: Vocabulary, attempts: set<string>)
      ensures Valid() && this.vocabulary == vocabulary && this.attempts == attempts && events == []
    {
      this.vocabulary := vocabulary;
      this.attempts := attempts;
      events := [];
    }

    /** The common transaction: append the event if the rows so far admit it. */
    method Append(e: Event, fault: Fault) returns (ok: bool)
      requires Valid()
      modifies this`events
      ensures Valid()
      ensures var admitted := e.attempt in attempts && Admits(vocabulary, old(events), e);
              events == (if admitted && fault != Before then old(events) + [e] else old(events)) &&
              ok == (admitted && fault == NoFault)
    {
      ok := false;
      if fault == Before { return; }
      if e.attempt !in attempts || !Admits(vocabulary, events, e) { return; }
      ValidAppend(vocabulary, events, e);
      events := events + [e];
      ok := fault == NoFault;
    }

    /** claim */
    method Claim(attempt: string, input: string, fault: Fault) returns (ok: bool)
      requires Valid()
      modifies this`events
      ensures Valid()
      ensures var admitted := attempt in attempts && IsDigest(input) && RecordOf(old(events), attempt).state == PENDING;
              events == (if admitted && fault != Before then old(events) + [ClaimEvent(attempt, input)]
                         else old(events)) &&
              ok == (admitted && fault == NoFault)
    {
      PendingUntouched(vocabulary, events, attempt);
      ok := Append(ClaimEvent(attempt, input), fault);
    }

    /** complete and mark_unknown: the end carries the input recorded by the claim. */
    method Transition(attempt: string, state: State, result: Option<string>, outcome: Option<string>, reason: string,
                      fault: Fault)
      returns (ok: bool)
      requires Valid() && state in {COMPLETED, UNKNOWN}
      modifies this`events
      ensures Valid()
      ensures
        var last := Last(old(events), attempt);
        var e := Event(attempt, state, if last.Some? then last.value.input else "", result, outcome, Some(reason));
        var admitted := attempt in attempts && last.Some? && last.value.state == CLAIMED && Shaped(vocabulary, e);
        events == (if admitted && fault != Before then old(events) + [e] else old(events)) &&
        ok == (admitted && fault == NoFault)
    {
      var last := Last(events, attempt);
      if last.None? { return false; }
      ok := Append(Event(attempt, state, last.value.input, result, outcome, Some(reason)), fault);
    }

    /** get: None when the read raises. */
    method Get(attempt: string, fault: Fault) returns (r: Option<Record>)
      requires Valid()
      ensures r == if fault == NoFault && attempt in attempts then Some(RecordOf(events, attempt)) else None
    {
      if fault != NoFault || attempt !in attempts { return None; }
      return Some(RecordOf(events, attempt));
    }

    /** extend_allowed_attempt_ids, once its arguments are accepted. */
    method Extend(more: set<string>)
      requires Valid()
      modifies this`attempts
      ensures Valid() && attempts == old(attempts) + more
    {
      attempts := attempts + more;
    }
  }

  lemma PendingUntouched(v: Vocabulary, events: seq<Event>, attempt: string)
    requires ValidEvents(v, events)
    ensures RecordOf(events, attempt).state == PENDING <==> Last(events, attempt).None?
  {
    if Last(events, attempt).Some? { LastShaped(v, events, attempt); }
  }
}
