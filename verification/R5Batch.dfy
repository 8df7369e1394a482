/** What a batch run decides and reports: the selection, how results are classified, the records read before
    anything is claimed, and the renderer of the outcome. */
module R5Batch {
  import opened Base
  import opened CanonicalJson
  import opened R5Ledger
  import opened R5History

  // ---------------------------------------------------------------------------
  // Selections and results

  /** select_r5_attempts over the frozen schedule (attempt to input digest): one to five distinct
      scheduled attempts, in the caller's order, with their scheduled inputs. */
  method SelectAttempts(schedule: map<string, string>, ids: seq<string>) returns (r: Option<seq<Item>>)
    ensures r.Some? <==> 1 <= |ids| <= 5 && (forall i | 0 <= i < |ids| :: ids[i] in schedule) &&
                         forall i, j | 0 <= i < j < |ids| :: ids[i] != ids[j]
    ensures r.Some? ==> IsSelection(schedule, r.value) &&
                        |r.value| == |ids| && forall i | 0 <= i < |ids| :: r.value[i].attempt == ids[i]
  {
    if !(1 <= |ids| <= 5) { return None; }
    var seen: set<string> := {};
    var result: seq<Item> := [];
    for i := 0 to |ids|
      invariant seen == set k | 0 <= k < i :: ids[k]
      invariant forall k | 0 <= k < i :: ids[k] in schedule
      invariant forall k, l | 0 <= k < l < i :: ids[k] != ids[l]
      invariant |result| == i && forall k | 0 <= k < i :: result[k] == Item(ids[k], schedule[ids[k]])
    {
      if ids[i] in seen {
        var k :| 0 <= k < i && ids[k] == ids[i];
        return None;
      }
      if ids[i] !in schedule { return None; }
      seen := seen + {ids[i]};
      result := result + [Item(ids[i], schedule[ids[i]])];
    }
    return Some(result);
  }

  predicate IsSelection(schedule: map<string, string>, selected: seq<Item>) {
    1 <= |selected| <= 5 &&
    (forall i | 0 <= i < |selected| ::
      selected[i].attempt in schedule && schedule[selected[i].attempt] == selected[i].input) &&
    forall i, j | 0 <= i < j < |selected| :: selected[i].attempt != selected[j].attempt
  }

  datatype Status = VERIFIED | PREPARED | FAILED

  /** An execution result. `status` is None for a value that is no execution status; the digests are
      those of patch, verified contents, verification and staged change. */
  datatype ExecutionResult = ExecutionResult(
    status: Option<Status>, terminalOutcome: Option<string>, terminalReason: Option<string>,
    failureCode: Option<string>, digests: seq<Option<string>>)

  datatype ExecutionRecord = ExecutionRecord(attempt: string, input: string, result: ExecutionResult)

  /** What a call of the executor does: it raises, with a phase code if the error carries one, or returns. */
  datatype Response = Raised(phase: Option<string>) | Returned(record: Option<ExecutionRecord>)

  datatype BatchRecord = BatchRecord(
    attempt: string, state: State, input: string,
    result: Option<string>, outcome: Option<string>, reason: Option<string>)

  /** "complete", "complete-with-failures", "stopped-failed", "stopped-unknown", "stopped-preflight" */
  datatype BatchStatus = Complete | CompleteWithFailures | StoppedFailed | StoppedUnknown | StoppedPreflight

  datatype BatchResult = BatchResult(status: BatchStatus, records: seq<BatchRecord>)

  /** A run raises its one redacted error, or returns. */
  datatype RunResult = Rejected | Finished(result: BatchResult)

  /** _TERMINAL_OUTCOMES: outcome label, reason code and the reason the worker must give. */
  function Terminal(outcome: string): Option<(string, string, string)> {
    if outcome == "clarification_required" then
      Some(("needs_input", "worker-clarification", "conflicting_requirements"))
    else if outcome == "blocked" then Some(("blocked", "worker-blocked", "target_test_outcome_unknown"))
    else if outcome == "denied" then Some(("denied", "worker-denied", "publication_not_authorized"))
    else None
  }

  /** _classify_result; None when it raises. */
  function Classify(v: Vocabulary, r: ExecutionResult): Option<(string, string)> {
    if r.status.None? then None
    else if r.status.value == VERIFIED then
      if r.terminalOutcome.Some? then None else Some(("verified", "none"))
    else if r.terminalOutcome.Some? then
      var terminal := Terminal(r.terminalOutcome.value);
      if terminal.Some? && r.terminalReason == Some(terminal.value.2)
      then Some((terminal.value.0, terminal.value.1)) else None
    else if r.failureCode.Some? && r.failureCode.value in v.failures then Some(("failed", r.failureCode.value))
    else Some(("failed", "execution-failed"))
  }

  function OptText(s: Option<string>): Json {
    if s.Some? then Str(s.value) else Null
  }

  function StatusText(s: Option<Status>): Json {
    match s
    case Some(VERIFIED) => Str("verified")
    case Some(PREPARED) => Str("prepared")
    case Some(FAILED) => Str("failed")
    case None => Null
  }

  /** _result_digest; None when it raises. Its checks of the reason code and of the terminal outcome
      hold of everything Classify returns. */
  function ResultDigest(hash: bytes -> string, record: ExecutionRecord, reason: string): Option<string> {
    var r := record.result;
    if |r.digests| != 4 || exists i | 0 <= i < 4 :: r.digests[i].Some? && !IsDigest(r.digests[i].value) then None
    else Some(hash(Encode(Obj([
      Pair("attempt_id", Str(record.attempt)), Pair("input_digest", Str(record.input)),
      Pair("status", StatusText(r.status)), Pair("reason_code", Str(reason)),
      Pair("patch_digest", OptText(r.digests[0])), Pair("verified_contents_digest", OptText(r.digests[1])),
      Pair("verification_digest", OptText(r.digests[2])), Pair("staged_change_digest", OptText(r.digests[3])),
      Pair("worker_terminal_outcome", OptText(r.terminalOutcome)),
      Pair("worker_terminal_reason_code", OptText(r.terminalReason))]))))
  }

  lemma ClassifyShaped(v: Vocabulary, r: ExecutionResult)
    requires Classify(v, r).Some?
    ensures Classify(v, r).value.0 in OUTCOMES && Classify(v, r).value.1 in Reasons(v)
  {
  }

  /** _batch_record; None when the ledger record has no input digest. */
  function FromRecord(r: Record): Option<BatchRecord> {
    if r.input.None? then None
    else Some(BatchRecord(r.attempt, r.state, r.input.value, r.result, r.outcome, r.reason))
  }

  // ---------------------------------------------------------------------------
  // What a run read before it claimed anything

  /** The record read of an attempt; nothing is known of one that was not read. */
  function Seen(existing: map<string, Record>, attempt: string): Record {
    if attempt in existing then existing[attempt] else Record(attempt, PENDING, None, None, None, None)
  }

  /** What _read_record returns: no values before a claim, and later those of the latest event. */
  predicate RecordOk(v: Vocabulary, r: Record) {
    if r.state == PENDING then r == Record(r.attempt, PENDING, None, None, None, None)
    else r.input.Some? && Shaped(v, Event(r.attempt, r.state, r.input.value, r.result, r.outcome, r.reason))
  }

  predicate ReadOk(v: Vocabulary, existing: map<string, Record>) {
    forall a | a in existing :: existing[a].attempt == a && RecordOk(v, existing[a])
  }

  lemma SeenOk(v: Vocabulary, existing: map<string, Record>, attempt: string)
    requires ReadOk(v, existing)
    ensures Seen(existing, attempt).attempt == attempt && RecordOk(v, Seen(existing, attempt))
  {
  }

  lemma ReadsOk(v: Vocabulary, events: seq<Event>, attempt: string)
    requires ValidEvents(v, events)
    ensures RecordOf(events, attempt).attempt == attempt && RecordOk(v, RecordOf(events, attempt))
  {
    if Last(events, attempt).Some? { LastShaped(v, events, attempt); }
  }

  // ---------------------------------------------------------------------------
  // What a result says

  predicate AllCompleted(records: seq<BatchRecord>) {
    forall k | 0 <= k < |records| :: records[k].state == COMPLETED
  }

  predicate SomeFailed(records: seq<BatchRecord>) {
    exists k | 0 <= k < |records| :: records[k].outcome == Some("failed")
  }

  /** The records are of the selection's first attempts, in order. */
  predicate Prefix(selected: seq<Item>, records: seq<BatchRecord>) {
    |records| <= |selected| && forall k | 0 <= k < |records| :: records[k].attempt == selected[k].attempt
  }

  /** The status says exactly how the run ended. */
  predicate StatusExact(selected: seq<Item>, continueAfterFailed: bool, r: BatchResult) {
    var n := |r.records|;
    n <= |selected| &&
    match r.status
    case Complete => n == |selected| && AllCompleted(r.records) && !SomeFailed(r.records)
    case CompleteWithFailures =>
      n == |selected| && AllCompleted(r.records) && SomeFailed(r.records) && continueAfterFailed
    case StoppedFailed =>
      n > 0 && AllCompleted(r.records) && r.records[n - 1].outcome == Some("failed") &&
      !SomeFailed(r.records[..n - 1]) && !continueAfterFailed
    case StoppedUnknown =>
      n > 0 && AllCompleted(r.records[..n - 1]) && r.records[n - 1].state != COMPLETED &&
      (SomeFailed(r.records[..n - 1]) ==> continueAfterFailed)
    case StoppedPreflight =>
      n < |selected| && AllCompleted(r.records) && (SomeFailed(r.records) ==> continueAfterFailed)
  }

  /** A prior record at which a run stops before claiming anything. */
  predicate Stops(prior: Record, continueAfterFailed: bool) {
    prior.state in {CLAIMED, UNKNOWN} ||
    (prior.state == COMPLETED && prior.outcome == Some("failed") && !continueAfterFailed)
  }

  /** The first attempt at which a run stops; |selected| when there is none. */
  function FirstStop(selected: seq<Item>, existing: map<string, Record>, continueAfterFailed: bool): (k: nat)
    ensures k <= |selected|
    ensures k < |selected| ==> Stops(Seen(existing, selected[k].attempt), continueAfterFailed)
    ensures forall m | 0 <= m < k :: !Stops(Seen(existing, selected[m].attempt), continueAfterFailed)
  {
    if selected == [] || Stops(Seen(existing, selected[0].attempt), continueAfterFailed) then 0
    else 1 + FirstStop(selected[1..], existing, continueAfterFailed)
  }

  predicate Pending(existing: map<string, Record>, item: Item) {
    Seen(existing, item.attempt).state == PENDING
  }

  /** The run stops at a prior record behind an attempt that is still pending. */
  predicate StopsPastPending(selected: seq<Item>, existing: map<string, Record>, continueAfterFailed: bool) {
    var k := FirstStop(selected, existing, continueAfterFailed);
    k < |selected| && exists m | 0 <= m < k :: Pending(existing, selected[m])
  }

  /** The records of the first n attempts that are not pending: what an early stop reports. */
  function PriorRecords(selected: seq<Item>, existing: map<string, Record>, n: nat): seq<Record>
    requires n <= |selected|
  {
    if n == 0 then []
    else PriorRecords(selected, existing, n - 1) +
         if Pending(existing, selected[n - 1]) then [] else [Seen(existing, selected[n - 1].attempt)]
  }

  /** The values a record of its state carries. */
  predicate RecordShaped(v: Vocabulary, r: BatchRecord) {
    IsDigest(r.input) && (r.result.Some? ==> IsDigest(r.result.value)) &&
    (r.outcome.Some? ==> r.outcome.value in OUTCOMES) && (r.reason.Some? ==> r.reason.value in Reasons(v)) &&
    (r.state == COMPLETED ==> r.result.Some? && r.outcome.Some? && r.reason.Some?) &&
    (r.state != COMPLETED ==> r.outcome.None?)
  }

  /** The outcome of a response: what complete would be called with, or None when the attempt's
      try block raises before it. */
  function Completion(v: Vocabulary, hash: bytes -> string, item: Item,
                      response: Response): Option<(string, string, string)>
  {
    if response.Returned? && response.record.Some? && response.record.value.attempt == item.attempt
       && response.record.value.input == item.input && Classify(v, response.record.value.result).Some?
    then
      var c := Classify(v, response.record.value.result).value;
      var digest := ResultDigest(hash, response.record.value, c.1);
      if digest.Some? then Some((digest.value, c.0, c.1)) else None
    else None
  }

  /** The reason an uncompleted attempt is marked with. */
  function UnknownReason(v: Vocabulary, response: Response): string {
    if response.Raised? && response.phase.Some? && response.phase.value in v.phases
    then response.phase.value else "pipeline-error"
  }

  /** Completed attempts among the first n recorded the selected input. */
  predicate InputsAgree(selected: seq<Item>, existing: map<string, Record>, n: nat)
    requires n <= |selected|
  {
    forall k | 0 <= k < n && Seen(existing, selected[k].attempt).state == COMPLETED ::
      Seen(existing, selected[k].attempt).input == Some(selected[k].input)
  }

  /** The state of the scan over prior records after i attempts. */
  ghost predicate Scanned(selected: seq<Item>, existing: map<string, Record>, continueAfterFailed: bool, i: nat,
                          output: seq<BatchRecord>, sawFailure: bool)
  {
    i <= FirstStop(selected, existing, continueAfterFailed) && |output| <= i && AllCompleted(output) &&
    MatchesRecords(PriorRecords(selected, existing, i), output) && InputsAgree(selected, existing, i) &&
    (sawFailure <==> SomeFailed(output)) && (sawFailure ==> continueAfterFailed)
  }

  lemma ScanPending(selected: seq<Item>, existing: map<string, Record>, continueAfterFailed: bool, i: nat,
                    output: seq<BatchRecord>, sawFailure: bool)
    requires Scanned(selected, existing, continueAfterFailed, i, output, sawFailure)
    requires i < |selected| && Pending(existing, selected[i])
    ensures Scanned(selected, existing, continueAfterFailed, i + 1, output, sawFailure)
  {
  }

  lemma ScanCompleted(selected: seq<Item>, existing: map<string, Record>, continueAfterFailed: bool, i: nat,
                      output: seq<BatchRecord>, sawFailure: bool, record: BatchRecord)
    requires Scanned(selected, existing, continueAfterFailed, i, output, sawFailure)
    requires i < |selected| && !Pending(existing, selected[i]) && record.state == COMPLETED
    requires FromRecord(Seen(existing, selected[i].attempt)) == Some(record) && record.input == selected[i].input
    requires record.outcome == Some("failed") ==> continueAfterFailed
    ensures Scanned(selected, existing, continueAfterFailed, i + 1, output + [record],
                    sawFailure || record.outcome == Some("failed"))
  {
    FailedStep(output, record);
  }

  /** What a run that stops before claiming returns. */
  predicate EarlyStop(selected: seq<Item>, existing: map<string, Record>, continueAfterFailed: bool, r: BatchResult) {
    var k := FirstStop(selected, existing, continueAfterFailed);
    k < |selected| && StatusExact(selected, continueAfterFailed, r) &&
    MatchesRecords(PriorRecords(selected, existing, k + 1), r.records)
  }

  lemma ScanStops(selected: seq<Item>, existing: map<string, Record>, continueAfterFailed: bool, i: nat,
                  output: seq<BatchRecord>, sawFailure: bool, record: BatchRecord)
    requires Scanned(selected, existing, continueAfterFailed, i, output, sawFailure)
    requires i < |selected| && !Pending(existing, selected[i])
    requires FromRecord(Seen(existing, selected[i].attempt)) == Some(record)
    requires Stops(Seen(existing, selected[i].attempt), continueAfterFailed)
    ensures EarlyStop(selected, existing, continueAfterFailed,
      BatchResult(if record.state == COMPLETED then StoppedFailed else StoppedUnknown, output + [record]))
  {
    assert (output + [record])[..|output|] == output;
  }

  /** The loop over prior records: a run stops at once at the first unfinished or stopping one. */
  method Preflight(v: Vocabulary, selected: seq<Item>, existing: map<string, Record>, continueAfterFailed: bool)
    returns (stop: Option<RunResult>, sawFailure: bool)
    requires ReadOk(v, existing) && forall k | 0 <= k < |selected| :: selected[k].attempt in existing
    ensures stop.Some? && stop.value.Finished? ==> EarlyStop(selected, existing, continueAfterFailed, stop.value.result)
    ensures stop.None? ==>
      FirstStop(selected, existing, continueAfterFailed) == |selected| && InputsAgree(selected, existing, |selected|) &&
      (sawFailure <==> PriorFailed(selected, existing, |selected|)) && (sawFailure ==> continueAfterFailed)
  {
    hide Last, FirstStop, Stops;
    var output: seq<BatchRecord> := [];
    sawFailure := false;
    for i := 0 to |selected|
      invariant Scanned(selected, existing, continueAfterFailed, i, output, sawFailure)
    {
      var prior := existing[selected[i].attempt];
      if prior.state == PENDING {
        ScanPending(selected, existing, continueAfterFailed, i, output, sawFailure);
        continue;
      }
      var record := FromRecord(prior).value;
      if prior.state != COMPLETED {
        ScanStops(selected, existing, continueAfterFailed, i, output, sawFailure, record);
        return Some(Finished(BatchResult(StoppedUnknown, output + [record]))), sawFailure;
      }
      if prior.input != Some(selected[i].input) { return Some(Rejected), sawFailure; }
      if prior.outcome == Some("failed") && !continueAfterFailed {
        ScanStops(selected, existing, continueAfterFailed, i, output, sawFailure, record);
        return Some(Finished(BatchResult(StoppedFailed, output + [record]))), sawFailure;
      }
      ScanCompleted(selected, existing, continueAfterFailed, i, output, sawFailure, record);
      sawFailure := sawFailure || prior.outcome == Some("failed");
      output := output + [record];
    }
    PriorFailedMatches(v, selected, existing, |selected|, output);
    return None, sawFailure;
  }

  lemma FailedStep(output: seq<BatchRecord>, record: BatchRecord)
    ensures SomeFailed(output + [record]) <==> SomeFailed(output) || record.outcome == Some("failed")
  {
    if SomeFailed(output) {
      var k :| 0 <= k < |output| && output[k].outcome == Some("failed");
      assert (output + [record])[k] == output[k];
    }
    assert (output + [record])[|output|] == record;
  }

  /** Some of the first n attempts already failed. */
  predicate PriorFailed(selected: seq<Item>, existing: map<string, Record>, n: nat)
    requires n <= |selected|
  {
    exists k | 0 <= k < n :: Seen(existing, selected[k].attempt).outcome == Some("failed")
  }

  lemma PriorFailedStep(selected: seq<Item>, existing: map<string, Record>, n: nat)
    requires 0 < n <= |selected|
    ensures PriorFailed(selected, existing, n) <==>
      PriorFailed(selected, existing, n - 1) || Seen(existing, selected[n - 1].attempt).outcome == Some("failed")
  {
    hide Seen;
  }

  lemma PendingNoOutcome(v: Vocabulary, existing: map<string, Record>, item: Item)
    requires ReadOk(v, existing) && Pending(existing, item)
    ensures Seen(existing, item.attempt).outcome.None?
  {
    SeenOk(v, existing, item.attempt);
  }

  lemma {:induction false} PriorFailedMatches(v: Vocabulary, selected: seq<Item>, existing: map<string, Record>, n: nat,
                                              records: seq<BatchRecord>)
    requires ReadOk(v, existing)
    requires n <= |selected| && MatchesRecords(PriorRecords(selected, existing, n), records)
    ensures SomeFailed(records) <==> PriorFailed(selected, existing, n)
  {
    hide ReadOk, Seen, PriorFailed, SomeFailed, Pending;
    if n == 0 {
      NoneFailed(selected, existing);
    } else {
      PriorFailedStep(selected, existing, n);
      if Pending(existing, selected[n - 1]) {
        PriorFailedMatches(v, selected, existing, n - 1, records);
        PendingNoOutcome(v, existing, selected[n - 1]);
      } else {
        var front, last := records[..|records| - 1], records[|records| - 1];
        PriorFailedMatches(v, selected, existing, n - 1, front);
        assert records == front + [last];
        FailedStep(front, last);
        assert FromRecord(PriorRecords(selected, existing, n)[|front|]) == Some(last);
      }
    }
  }

  lemma NoneFailed(selected: seq<Item>, existing: map<string, Record>)
    ensures !SomeFailed([]) && !PriorFailed(selected, existing, 0)
  {
  }

  /** The batch records are these ledger records. */
  predicate MatchesRecords(priors: seq<Record>, records: seq<BatchRecord>) {
    |priors| == |records| && forall k | 0 <= k < |priors| :: FromRecord(priors[k]) == Some(records[k])
  }

  predicate DistinctItems(selected: seq<Item>) {
    forall i, j | 0 <= i < j < |selected| :: selected[i].attempt != selected[j].attempt
  }

  /** Some attempt from the i-th on had failed before the run. */
  predicate FailedFrom(selected: seq<Item>, existing: map<string, Record>, i: nat) {
    exists k | i <= k < |selected| :: Seen(existing, selected[k].attempt).outcome == Some("failed")
  }

  lemma FailedFromStep(selected: seq<Item>, existing: map<string, Record>, i: nat)
    requires i < |selected|
    ensures FailedFrom(selected, existing, i) <==>
      Seen(existing, selected[i].attempt).outcome == Some("failed") || FailedFrom(selected, existing, i + 1)
  {
  }

  // ---------------------------------------------------------------------------
  // The renderer's acceptance

  predicate RecordRenderable(v: Vocabulary, r: BatchRecord) {
    RecordShaped(v, r) && (r.state != COMPLETED ==> r.result.None?)
  }

  predicate Renderable(v: Vocabulary, selected: seq<Item>, r: BatchResult) {
    Prefix(selected, r.records) && (forall k | 0 <= k < |r.records| :: RecordRenderable(v, r.records[k])) &&
    (forall i, j | 0 <= i < j < |r.records| :: r.records[i].attempt != r.records[j].attempt) &&
    (r.status in {Complete, CompleteWithFailures} ==>
      |r.records| == |selected| && (r.status == CompleteWithFailures <==> SomeFailed(r.records)))
  }

  /** _print_result: whether the result is printed rather than rejected. */
  method PrintResult(v: Vocabulary, selected: seq<Item>, r: BatchResult) returns (ok: bool)
    ensures ok <==> Renderable(v, selected, r)
  {
    hide RecordShaped;
    var complete := r.status in {Complete, CompleteWithFailures};
    if |r.records| > |selected| || (complete && |r.records| != |selected|) { return false; }
    var seen: set<string> := {};
    var containsFailure := false;
    for i := 0 to |r.records|
      invariant seen == set k | 0 <= k < i :: r.records[k].attempt
      invariant forall k | 0 <= k < i ::
        r.records[k].attempt == selected[k].attempt && RecordRenderable(v, r.records[k])
      invariant forall k, l | 0 <= k < l < i :: r.records[k].attempt != r.records[l].attempt
      invariant containsFailure <==> SomeFailed(r.records[..i])
    {
      var record := r.records[i];
      if record.attempt != selected[i].attempt { return false; }
      if record.attempt in seen {
        var k :| 0 <= k < i && r.records[k].attempt == record.attempt;
        return false;
      }
      if !RecordRenderable(v, record) { return false; }
      seen := seen + {record.attempt};
      FailedStep(r.records[..i], record);
      assert r.records[..i + 1] == r.records[..i] + [record];
      containsFailure := containsFailure || record.outcome == Some("failed");
    }
    assert r.records[..|r.records|] == r.records;
    return complete ==> ((r.status == CompleteWithFailures) == containsFailure);
  }

  lemma {:induction false} PriorSize(selected: seq<Item>, existing: map<string, Record>, m: nat, n: nat)
    requires m <= n <= |selected|
    ensures 0 <= |PriorRecords(selected, existing, n)| - |PriorRecords(selected, existing, m)| <= n - m
    decreases n - m
  {
    if m < n { PriorSize(selected, existing, m, n - 1); }
  }

  /** A record past those of the first m attempts is of a later attempt. */
  lemma {:induction false} PriorSource(selected: seq<Item>, existing: map<string, Record>, m: nat, n: nat, j: nat)
    returns (q: nat)
    requires m <= n <= |selected|
    requires |PriorRecords(selected, existing, m)| <= j < |PriorRecords(selected, existing, n)|
    ensures m <= q < n && !Pending(existing, selected[q])
    ensures PriorRecords(selected, existing, n)[j] == Seen(existing, selected[q].attempt)
    decreases n - m
  {
    PriorSize(selected, existing, m, n - 1);
    if j < |PriorRecords(selected, existing, n - 1)| {
      q := PriorSource(selected, existing, m, n - 1, j);
    } else {
      q := n - 1;
    }
  }

  lemma {:induction false} PriorPlain(selected: seq<Item>, existing: map<string, Record>, n: nat)
    requires n <= |selected| && forall m | 0 <= m < n :: !Pending(existing, selected[m])
    ensures |PriorRecords(selected, existing, n)| == n
    ensures forall m | 0 <= m < n :: PriorRecords(selected, existing, n)[m] == Seen(existing, selected[m].attempt)
  {
    if n > 0 { PriorPlain(selected, existing, n - 1); }
  }

  lemma PlainPrefix(v: Vocabulary, selected: seq<Item>, existing: map<string, Record>, n: nat,
                    records: seq<BatchRecord>)
    requires ReadOk(v, existing) && n <= |selected| && MatchesRecords(PriorRecords(selected, existing, n), records)
    requires forall m | 0 <= m < n :: !Pending(existing, selected[m])
    ensures Prefix(selected, records)
  {
    PriorPlain(selected, existing, n);
    forall m | 0 <= m < n ensures records[m].attempt == selected[m].attempt {
      SeenOk(v, existing, selected[m].attempt);
      assert FromRecord(PriorRecords(selected, existing, n)[m]) == Some(records[m]);
    }
  }

  /** Behind a first pending attempt, the m-th record is of a later attempt. */
  lemma GapRecord(v: Vocabulary, selected: seq<Item>, existing: map<string, Record>, m: nat, k: nat,
                  records: seq<BatchRecord>)
    returns (q: nat)
    requires ReadOk(v, existing) && m < k < |selected|
    requires MatchesRecords(PriorRecords(selected, existing, k + 1), records)
    requires Pending(existing, selected[m]) && !Pending(existing, selected[k])
    requires forall l | 0 <= l < m :: !Pending(existing, selected[l])
    ensures m < q <= k && m < |records| && records[m].attempt == selected[q].attempt
  {
    hide ReadOk, RecordOk, Seen, Shaped, Pending, DistinctItems;
    PriorPlain(selected, existing, m);
    PriorSize(selected, existing, m + 1, k);
    q := PriorSource(selected, existing, m + 1, k + 1, m);
    assert FromRecord(PriorRecords(selected, existing, k + 1)[m]) == Some(records[m]);
    SeenOk(v, existing, selected[q].attempt);
  }

  /** Behind a pending attempt the records are out of place. */
  lemma GapNoPrefix(v: Vocabulary, selected: seq<Item>, existing: map<string, Record>, m: nat, k: nat,
                    records: seq<BatchRecord>)
    requires ReadOk(v, existing) && m < k < |selected| && DistinctItems(selected)
    requires MatchesRecords(PriorRecords(selected, existing, k + 1), records)
    requires Pending(existing, selected[m]) && !Pending(existing, selected[k])
    requires forall l | 0 <= l < m :: !Pending(existing, selected[l])
    ensures !Prefix(selected, records)
  {
    hide ReadOk, RecordOk, Seen, Shaped, MatchesRecords, PriorRecords;
    var q := GapRecord(v, selected, existing, m, k, records);
  }

  /** An early stop reports a prefix of the selection exactly when no pending attempt comes before it. */
  lemma EarlyPrefix(v: Vocabulary, selected: seq<Item>, existing: map<string, Record>, continueAfterFailed: bool,
                    r: BatchResult)
    requires ReadOk(v, existing) && DistinctItems(selected) && EarlyStop(selected, existing, continueAfterFailed, r)
    ensures Prefix(selected, r.records) <==> !StopsPastPending(selected, existing, continueAfterFailed)
  {
    var k := FirstStop(selected, existing, continueAfterFailed);
    if StopsPastPending(selected, existing, continueAfterFailed) {
      var m := FirstPending(selected, existing, k);
      GapNoPrefix(v, selected, existing, m, k, r.records);
    } else {
      PlainPrefix(v, selected, existing, k + 1, r.records);
    }
  }

  lemma {:induction false} FirstPending(selected: seq<Item>, existing: map<string, Record>, k: nat) returns (m: nat)
    requires k <= |selected| && exists m | 0 <= m < k :: Pending(existing, selected[m])
    ensures m < k && Pending(existing, selected[m]) && forall l | 0 <= l < m :: !Pending(existing, selected[l])
  {
    m := 0;
    while !Pending(existing, selected[m])
      invariant m < k && forall l | 0 <= l < m :: !Pending(existing, selected[l])
      decreases k - m
    {
      m := m + 1;
    }
  }

  /** The attempt a run stops at is an unknown one whose row carries a result digest. */
  predicate StopsAtUnknownResult(selected: seq<Item>, existing: map<string, Record>, continueAfterFailed: bool) {
    var k := FirstStop(selected, existing, continueAfterFailed);
    k < |selected| && Seen(existing, selected[k].attempt).state == UNKNOWN &&
    Seen(existing, selected[k].attempt).result.Some?
  }

  /** A well-shaped result of a run is rendered exactly when it is a prefix and its last record,
      if uncompleted, carries no result digest. */
  lemma RenderDecides(v: Vocabulary, selected: seq<Item>, continueAfterFailed: bool, r: BatchResult)
    requires DistinctItems(selected) && StatusExact(selected, continueAfterFailed, r)
    requires forall k | 0 <= k < |r.records| :: RecordShaped(v, r.records[k])
    ensures Renderable(v, selected, r) <==>
      Prefix(selected, r.records) &&
      (r.records != [] && r.records[|r.records| - 1].state != COMPLETED ==> r.records[|r.records| - 1].result.None?)
  {
    var n := |r.records|;
    forall k | 0 <= k < n
      ensures RecordRenderable(v, r.records[k]) <==> r.records[k].state == COMPLETED || r.records[k].result.None?
    {
    }
    if r.status == StoppedUnknown {
      assert forall k | 0 <= k < n - 1 :: r.records[..n - 1][k] == r.records[k];
    }
  }

  lemma EarlyRecord(v: Vocabulary, selected: seq<Item>, existing: map<string, Record>, n: nat,
                    records: seq<BatchRecord>, j: nat)
    requires ReadOk(v, existing) && n <= |selected| && j < |records|
    requires MatchesRecords(PriorRecords(selected, existing, n), records)
    ensures RecordShaped(v, records[j]) && FromRecord(Seen(existing, records[j].attempt)) == Some(records[j])
  {
    var q := PriorSource(selected, existing, 0, n, j);
    assert FromRecord(PriorRecords(selected, existing, n)[j]) == Some(records[j]);
  }

  lemma EarlyShaped(v: Vocabulary, selected: seq<Item>, existing: map<string, Record>, continueAfterFailed: bool,
                    r: BatchResult)
    requires ReadOk(v, existing) && EarlyStop(selected, existing, continueAfterFailed, r)
    ensures forall k | 0 <= k < |r.records| ::
      RecordShaped(v, r.records[k]) && FromRecord(Seen(existing, r.records[k].attempt)) == Some(r.records[k])
    ensures (r.records != [] && r.records[|r.records| - 1].state != COMPLETED &&
             r.records[|r.records| - 1].result.Some?)
            <==> StopsAtUnknownResult(selected, existing, continueAfterFailed)
  {
    var k := FirstStop(selected, existing, continueAfterFailed);
    forall j | 0 <= j < |r.records|
      ensures RecordShaped(v, r.records[j]) && FromRecord(Seen(existing, r.records[j].attempt)) == Some(r.records[j])
    {
      EarlyRecord(v, selected, existing, k + 1, r.records, j);
    }
    var priors := PriorRecords(selected, existing, k + 1);
    assert priors[|priors| - 1] == Seen(existing, selected[k].attempt);
    assert FromRecord(priors[|priors| - 1]) == Some(r.records[|r.records| - 1]);
  }

  /** With no stop ahead, the next attempt is completed or untouched. */
  lemma NextUp(v: Vocabulary, selected: seq<Item>, existing: map<string, Record>, continueAfterFailed: bool, i: nat)
    requires FirstStop(selected, existing, continueAfterFailed) == |selected| && i < |selected| && ReadOk(v, existing)
    ensures Seen(existing, selected[i].attempt).state == COMPLETED ==>
      FromRecord(Seen(existing, selected[i].attempt)).Some?
    ensures Seen(existing, selected[i].attempt).state != COMPLETED ==> Pending(existing, selected[i])
  {
    assert !Stops(Seen(existing, selected[i].attempt), continueAfterFailed);
  }

  lemma PendingNeverStops(selected: seq<Item>, existing: map<string, Record>, continueAfterFailed: bool)
    requires forall k | 0 <= k < |selected| :: Seen(existing, selected[k].attempt).state == PENDING
    ensures FirstStop(selected, existing, continueAfterFailed) == |selected|
    ensures !StopsPastPending(selected, existing, continueAfterFailed)
    ensures !StopsAtUnknownResult(selected, existing, continueAfterFailed)
  {
    hide RecordOf;
  }

  // ---------------------------------------------------------------------------
  // Two resumed runs whose results the renderer rejects

  /** What a run reads when nothing moves meanwhile. */
  function ReadAll(events: seq<Event>, selected: seq<Item>): map<string, Record> {
    map a | a in (set i | 0 <= i < |selected| :: selected[i].attempt) :: RecordOf(events, a)
  }

  /** A failed attempt behind a pending one: the run stops with the failed record alone, out of place. */
  lemma SkippedPendingExample(v: Vocabulary, a: string, b: string, d: string)
    requires a != b && IsDigest(d)
    ensures
      var events := [ClaimEvent(b, d), Event(b, COMPLETED, d, Some(d), Some("failed"), Some("execution-failed"))];
      var selected := [Item(a, d), Item(b, d)];
      var existing := ReadAll(events, selected);
      var failed := BatchRecord(b, COMPLETED, d, Some(d), Some("failed"), Some("execution-failed"));
      var stopped := BatchResult(StoppedFailed, [failed]);
      ValidEvents(v, events) && StopsPastPending(selected, existing, false) &&
      EarlyStop(selected, existing, false, stopped) && !Renderable(v, selected, stopped)
  {
    var claim := ClaimEvent(b, d);
    var end := Event(b, COMPLETED, d, Some(d), Some("failed"), Some("execution-failed"));
    EndedRows(v, claim, end);
    LastAppend([claim], end, a);
    LastAppend([], claim, a);
    assert [] + [claim] == [claim] && [claim] + [end] == [claim, end];
    var selected := [Item(a, d), Item(b, d)];
    var existing := ReadAll([claim, end], selected);
    assert selected[0].attempt in existing && selected[1].attempt in existing;
    assert selected[1..] == [Item(b, d)];
    assert Pending(existing, selected[0]) && !Pending(existing, selected[1]);
    assert PriorRecords(selected, existing, 1) == [];
    assert PriorRecords(selected, existing, 2) == [RecordOf([claim, end], b)];
  }

  lemma EndedRows(v: Vocabulary, claim: Event, end: Event)
    requires Admits(v, [], claim) && Admits(v, [claim], end)
    ensures ValidEvents(v, [claim, end]) && Last([claim, end], end.attempt) == Some(end)
  {
    ValidAppend(v, [], claim);
    ValidAppend(v, [claim], end);
    assert [] + [claim] == [claim] && [claim] + [end] == [claim, end];
  }

  /** An unknown attempt whose row carries a result digest: reported as it is, and rejected. The ledger admits
      such a row; no runner writes one. */
  lemma UnknownResultExample(v: Vocabulary, a: string, d: string)
    requires IsDigest(d)
    ensures
      var events := [ClaimEvent(a, d), Event(a, UNKNOWN, d, Some(d), None, Some("interrupted"))];
      var existing := ReadAll(events, [Item(a, d)]);
      var stopped := BatchResult(StoppedUnknown, [BatchRecord(a, UNKNOWN, d, Some(d), None, Some("interrupted"))]);
      ValidEvents(v, events) && StopsAtUnknownResult([Item(a, d)], existing, false) &&
      EarlyStop([Item(a, d)], existing, false, stopped) && !Renderable(v, [Item(a, d)], stopped)
  {
    var claim, end := ClaimEvent(a, d), Event(a, UNKNOWN, d, Some(d), None, Some("interrupted"));
    EndedRows(v, claim, end);
    var selected := [Item(a, d)];
    var existing := ReadAll([claim, end], selected);
    assert selected[0].attempt in existing;
    assert !Pending(existing, selected[0]);
    assert PriorRecords(selected, existing, 1) == [RecordOf([claim, end], a)];
  }
}
