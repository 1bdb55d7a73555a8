/** What events do to packets, in terms of states and event names alone: how each state is entered in
    any history of any run, what may lead out of it, and what one event makes of one packet. */
module LifecycleLaws {
  import opened Wrappers
  import opened Lifecycle
  import opened LifecycleWorld

  /** The row leaves its packet where it was. */
  predicate Stays(from: State, row: Row) {
    row.to == from && !row.via.On?
  }

  predicate Moves(from: State, row: Row, state: State, name: Name) {
    from == state && row.via == On(name)
  }

  /** How a state is entered: the events that lead into it, and from where. */
  predicate Entered(from: State, row: Row) {
    || Stays(from, row)
    || match row.to
       case NONE => false
       case PLANNED => Moves(from, row, NONE, Planned) || Moves(from, row, SOL_ADJUDICATE, SolReplan)
       case DISPATCHABLE =>
         || Moves(from, row, PLANNED, DagAssertPass)
         || Moves(from, row, FAILED, RetryDispatch) || Moves(from, row, TIMED_OUT, RetryDispatch)
       case RUNNING =>
         || Moves(from, row, DISPATCHABLE, Dispatched)
         || Moves(from, row, DUTY_REVIEW, DutyRetryable) || Moves(from, row, DUTY_REVIEW, DutyFixable)
       case REPORTED => from == RUNNING && (row.via == On(SubagentStop) || row.via == ReportFallback)
       case TIMED_OUT => Moves(from, row, RUNNING, Timeout)
       case FAILED => Moves(from, row, RUNNING, ExecFailed) || Moves(from, row, REPORTED, AcceptanceFail)
       case ACCEPTED => Moves(from, row, REPORTED, AcceptancePass)
       case DUTY_REVIEW => Moves(from, row, FAILED, DutyReview) || Moves(from, row, TIMED_OUT, DutyReview)
       case DEAD_LETTER =>
         || row.via.Dead? || Moves(from, row, DUTY_REVIEW, DutyTerminal)
         || Moves(from, row, FAILED, BudgetExhausted) || Moves(from, row, TIMED_OUT, BudgetExhausted)
       case MERGED => Moves(from, row, ACCEPTED, Merged)
       case MERGE_CONFLICT => Moves(from, row, ACCEPTED, MergeConflict)
       case WAVE_DONE => Moves(from, row, MERGED, WaveComplete)
       case SOL_ADJUDICATE =>
         || Moves(from, row, DEAD_LETTER, DeadLetterSummary) || Moves(from, row, MERGE_CONFLICT, ConflictPointer)
         || Moves(from, row, WAVE_DONE, WaveSummary) || Moves(from, row, RUNNING, ExecFailed)
         || Moves(from, row, REPORTED, ReviewVerdictPass) || Moves(from, row, REPORTED, ReviewVerdictFail)
       case DONE => Moves(from, row, SOL_ADJUDICATE, ReleaseMerge)
  }

  lemma AuthorizedIsEntered(from: State, row: Row)
    requires Authorized(from, row)
    ensures Entered(from, row)
  {}

  /** The state before a row of a history that was seeded so. */
  function Before(seed: State, rows: seq<Row>, i: nat): State
    requires i < |rows|
  {
    if i == 0 then seed else rows[i - 1].to
  }

  /** The seed of a packet of the committed ledger, and the law of all its rows. */
  ghost predicate Lawful(p: Packet, seed: State) {
    && seed in {NONE, DISPATCHABLE, FAILED}
    && p.state == (if p.history == [] then seed else p.history[|p.history| - 1].to)
    && (forall i :: 0 <= i < |p.history| ==> Entered(Before(seed, p.history, i), p.history[i]))
  }

  lemma SeededIsLawful(p: Packet, seed: State)
    requires Seeded(p, seed)
    ensures Lawful(p, seed)
  {
    forall i | 0 <= i < |p.history| ensures Entered(Before(seed, p.history, i), p.history[i]) {
      PathAt(seed, p.history, i);
      AuthorizedIsEntered(Before(seed, p.history, i), p.history[i]);
    }
  }

  /** In every run every packet's history enters each state only as it may be entered. */
  lemma HistoriesAreLawful(steps: seq<Step>, limit: nat, pid: string) returns (seed: State)
    requires IsRun(INITIAL, steps, limit) && pid in After(INITIAL, steps, limit).ledger.packets
    ensures Lawful(After(INITIAL, steps, limit).ledger.packets[pid], seed)
  {
    InitialInv(limit, pid);
    RunKeepsInv(INITIAL, steps, limit, pid);
    var p := After(INITIAL, steps, limit).ledger.packets[pid];
    assert HistoryOk(p);
    seed :| Seeded(p, seed);
    SeededIsLawful(p, seed);
  }

  /** The history of a packet in the committed ledger of a run. */
  function HistoryOf(w: World, pid: string): seq<Row> {
    EntryOf(w.ledger.packets, pid).history
  }

  /** A packet is released only out of adjudication, by a release; and what is released leaves that
      state only for a dead letter. */
  lemma DoneMeansReleased(steps: seq<Step>, limit: nat, pid: string, i: nat)
    requires IsRun(INITIAL, steps, limit) && pid in After(INITIAL, steps, limit).ledger.packets
    requires i < |HistoryOf(After(INITIAL, steps, limit), pid)|
    ensures var rows := HistoryOf(After(INITIAL, steps, limit), pid);
      && (rows[i].to == DONE ==>
            i > 0 && (rows[i - 1].to == DONE || (rows[i - 1].to == SOL_ADJUDICATE && rows[i].via == On(ReleaseMerge))))
      && (i > 0 && rows[i - 1].to == DONE ==>
            rows[i].to == DONE || (rows[i].to == DEAD_LETTER && rows[i].via.Dead?))
  {
    var seed := HistoriesAreLawful(steps, limit, pid);
    var rows := HistoryOf(After(INITIAL, steps, limit), pid);
    assert Entered(Before(seed, rows, i), rows[i]);
  }

  predicate Fails(row: Row) {
    && (row.via == On(BudgetExhausted) || row.via == On(DutyTerminal) || row.via.Dead? ==> row.to == DEAD_LETTER)
    && (row.via == On(AcceptanceFail) ==> row.to == FAILED)
    && (row.via == On(ExecFailed) ==> row.to == FAILED || row.to == SOL_ADJUDICATE)
    && (row.via == On(Timeout) ==> row.to == TIMED_OUT)
    && (row.via == On(MergeConflict) ==> row.to == MERGE_CONFLICT)
    && (row.via == On(ReviewVerdictFail) ==> row.to == SOL_ADJUDICATE)
  }

  lemma AuthorizedFails(from: State, row: Row)
    requires Authorized(from, row)
    ensures Fails(row)
  {}

  /** Failing events fail their packet: a spent budget and a terminal ruling are dead letters, a failed
      acceptance and a failed run are failures, the run of a release review goes to adjudication. */
  lemma FailuresFail(steps: seq<Step>, limit: nat, pid: string, i: nat)
    requires IsRun(INITIAL, steps, limit) && pid in After(INITIAL, steps, limit).ledger.packets
    requires i < |HistoryOf(After(INITIAL, steps, limit), pid)|
    ensures Fails(HistoryOf(After(INITIAL, steps, limit), pid)[i])
  {
    InitialInv(limit, pid);
    RunKeepsInv(INITIAL, steps, limit, pid);
    var p := After(INITIAL, steps, limit).ledger.packets[pid];
    assert HistoryOk(p);
    var seed :| Seeded(p, seed);
    PathAt(seed, p.history, i);
    AuthorizedFails(Before(seed, p.history, i), p.history[i]);
  }

  lemma {:induction false} FlaggedIsCounted(rows: seq<Row>, i: nat, t: nat)
    requires i < |rows| && rows[i].t == t && rows[i].via != CapForced
    ensures Taken(rows, t) > 0
  {
    if i < |rows| - 1 {
      FlaggedIsCounted(rows[..|rows| - 1], i, t);
    }
  }

  /** Only a release review fails straight into adjudication. */
  lemma OnlyReviewsFailUpwards(steps: seq<Step>, limit: nat, pid: string, i: nat)
    requires IsRun(INITIAL, steps, limit) && pid in After(INITIAL, steps, limit).ledger.packets
    requires i < |HistoryOf(After(INITIAL, steps, limit), pid)|
    requires HistoryOf(After(INITIAL, steps, limit), pid)[i].via == On(ExecFailed)
    requires HistoryOf(After(INITIAL, steps, limit), pid)[i].to == SOL_ADJUDICATE
    ensures After(INITIAL, steps, limit).ledger.packets[pid].releaseReview
  {
    InitialInv(limit, pid);
    RunKeepsInv(INITIAL, steps, limit, pid);
    var p := After(INITIAL, steps, limit).ledger.packets[pid];
    assert HistoryOk(p);
    var seed :| Seeded(p, seed);
    PathAt(seed, p.history, i);
    FlaggedIsCounted(p.history, i, 26);
  }

  /** Adjudication is left only for a replan, a release or a dead letter, and a dead letter only for
      adjudication, by its summary. */
  lemma AdjudicationIsLeft(steps: seq<Step>, limit: nat, pid: string, i: nat)
    requires IsRun(INITIAL, steps, limit) && pid in After(INITIAL, steps, limit).ledger.packets
    requires 0 < i < |HistoryOf(After(INITIAL, steps, limit), pid)|
    ensures var rows := HistoryOf(After(INITIAL, steps, limit), pid);
      && (rows[i - 1].to == SOL_ADJUDICATE && rows[i].to != SOL_ADJUDICATE ==>
            || (rows[i].via == On(SolReplan) && rows[i].to == PLANNED)
            || (rows[i].via == On(ReleaseMerge) && rows[i].to == DONE)
            || (rows[i].via.Dead? && rows[i].to == DEAD_LETTER))
      && (rows[i - 1].to == DEAD_LETTER && rows[i].to != DEAD_LETTER ==>
            rows[i].via == On(DeadLetterSummary) && rows[i].to == SOL_ADJUDICATE)
  {
    var seed := HistoriesAreLawful(steps, limit, pid);
    var rows := HistoryOf(After(INITIAL, steps, limit), pid);
    assert Entered(Before(seed, rows, i), rows[i]);
  }

  /** Accepted by an acceptance pass, or already. */
  predicate Accepts(from: State, row: Row) {
    row.to == ACCEPTED ==> row.via == On(AcceptancePass) || (from == ACCEPTED && !row.via.On?)
  }

  lemma EnteredAccepts(from: State, row: Row)
    requires Entered(from, row)
    ensures Accepts(from, row)
    ensures row.via in {On(Merged), On(MergeConflict)} ==> from == ACCEPTED && row.to in {MERGED, MERGE_CONFLICT}
  {}

  /** A packet that is accepted was accepted by an acceptance pass and has not moved since. */
  lemma {:induction false} AcceptedBy(seed: State, rows: seq<Row>, k: nat) returns (i: nat)
    requires seed != ACCEPTED && 0 < k <= |rows| && rows[k - 1].to == ACCEPTED
    requires forall j :: 0 <= j < |rows| ==> Accepts(Before(seed, rows, j), rows[j])
    ensures i < k && rows[i].via == On(AcceptancePass)
    ensures forall m :: i < m < k ==> rows[m].to == ACCEPTED && !rows[m].via.On?
  {
    assert Accepts(Before(seed, rows, k - 1), rows[k - 1]);
    if rows[k - 1].via == On(AcceptancePass) {
      i := k - 1;
    } else {
      i := AcceptedBy(seed, rows, k - 1);
    }
  }

  /** A merge needs an acceptance pass since the last dispatch; more than that, since it nothing
      happened to the packet. */
  lemma MergedMeansAccepted(steps: seq<Step>, limit: nat, pid: string, j: nat) returns (i: nat)
    requires IsRun(INITIAL, steps, limit) && pid in After(INITIAL, steps, limit).ledger.packets
    requires j < |HistoryOf(After(INITIAL, steps, limit), pid)|
    requires HistoryOf(After(INITIAL, steps, limit), pid)[j].via in {On(Merged), On(MergeConflict)}
    ensures var rows := HistoryOf(After(INITIAL, steps, limit), pid);
      && i < j && rows[i].via == On(AcceptancePass) && rows[j].to in {MERGED, MERGE_CONFLICT}
      && (forall m :: i < m < j ==> rows[m].to == ACCEPTED && !rows[m].via.On?)
  {
    var seed := HistoriesAreLawful(steps, limit, pid);
    var rows := HistoryOf(After(INITIAL, steps, limit), pid);
    forall k | 0 <= k < |rows| ensures Accepts(Before(seed, rows, k), rows[k]) {
      EnteredAccepts(Before(seed, rows, k), rows[k]);
    }
    EnteredAccepts(Before(seed, rows, j), rows[j]);
    i := AcceptedBy(seed, rows, j);
  }

  /** And only such an event merges. */
  lemma OnlyMergesMerge(steps: seq<Step>, limit: nat, pid: string, j: nat)
    requires IsRun(INITIAL, steps, limit) && pid in After(INITIAL, steps, limit).ledger.packets
    requires j < |HistoryOf(After(INITIAL, steps, limit), pid)|
    ensures var rows := HistoryOf(After(INITIAL, steps, limit), pid);
      rows[j].to == MERGED ==>
        (j > 0 && rows[j - 1].to == MERGED && !rows[j].via.On?) || rows[j].via == On(Merged)
  {
    var seed := HistoriesAreLawful(steps, limit, pid);
    var rows := HistoryOf(After(INITIAL, steps, limit), pid);
    assert Entered(Before(seed, rows, j), rows[j]);
  }

  /* One event and one packet. */

  /** A packet the machine knows, under an id it may write. */
  predicate Known(b: Books, ev: Event) {
    SafePid(ev.pid) && !Synthetic(ev.pid) && ev.pid in b.packets && !ev.name.Info? && ev.name != Unparseable
  }

  function StateAfter(b: Books, ev: Event, env: Env): State {
    EntryOf(Handled(b, ev, env).packets, ev.pid).state
  }

  /** An event that is not of an older generation. */
  predicate Current(b: Books, ev: Event) {
    ev.attempt.Some? ==> ev.attempt.value >= EntryOf(b.packets, ev.pid).attempts
  }

  /** Every gate is open: the report is current, rulings are enforced, no cap is reached. */
  predicate Open(b: Books, ev: Event, env: Env) {
    && env.reportCurrent && env.enforceDuty && env.countersReadable
    && CountOf(b.replans, ev.pid) < 2 && CountOf(b.timeouts, ev.pid) < 1
  }

  /** The state a known packet gets is the one its decision names. */
  lemma DecisionLeads(b: Books, ev: Event, env: Env)
    requires Known(b, ev)
    ensures StateAfter(b, ev, env)
         == Decide(b.packets[ev.pid], ev, env, CountOf(b.replans, ev.pid), CountOf(b.timeouts, ev.pid)).row.to
  {}

  /** With every gate open an event that has an edge takes it. */
  lemma OpenGatesTakeEdges(b: Books, ev: Event, env: Env)
    requires Known(b, ev) && Current(b, ev) && Open(b, ev, env)
    requires ev.name == ExecFailed ==> !b.packets[ev.pid].releaseReview
    ensures var edge := Table(b.packets[ev.pid].state, ev.name);
      edge.Some? ==> StateAfter(b, ev, env) == edge.value.to
  {
    DecisionLeads(b, ev, env);
  }

  /** From its plan to the judgement of its report. */
  predicate LeadsToReport(s: State, n: Name, next: State) {
    && (s == NONE && n == Planned ==> next == PLANNED)
    && (s == PLANNED && n == DagAssertPass ==> next == DISPATCHABLE)
    && (s == DISPATCHABLE && n == Dispatched ==> next == RUNNING)
    && (s == RUNNING && n == SubagentStop ==> next == REPORTED)
    && (s == RUNNING && n == Timeout ==> next == TIMED_OUT)
    && (s == RUNNING && n == ExecFailed ==> next == FAILED)
    && (s == REPORTED && n == AcceptancePass ==> next == ACCEPTED)
    && (s == REPORTED && n == AcceptanceFail ==> next == FAILED)
    && (s == REPORTED && n in {ReviewVerdictPass, ReviewVerdictFail} ==> next == SOL_ADJUDICATE)
  }

  lemma EdgesToReport(s: State, n: Name, next: State)
    requires Table(s, n).Some? ==> next == Table(s, n).value.to
    ensures LeadsToReport(s, n, next)
  {}

  /** With every gate open each event takes its packet where the life cycle says: to its report, */
  lemma EventsLeadToReport(b: Books, ev: Event, env: Env)
    requires Known(b, ev) && Current(b, ev) && Open(b, ev, env) && !b.packets[ev.pid].releaseReview
    ensures LeadsToReport(b.packets[ev.pid].state, ev.name, StateAfter(b, ev, env))
  {
    OpenGatesTakeEdges(b, ev, env);
    EdgesToReport(b.packets[ev.pid].state, ev.name, StateAfter(b, ev, env));
  }

  /** Out of a failure. */
  predicate LeadsFromFailure(s: State, n: Name, next: State) {
    && (s in {FAILED, TIMED_OUT} && n == RetryDispatch ==> next == DISPATCHABLE)
    && (s in {FAILED, TIMED_OUT} && n == Name.DutyReview ==> next == DUTY_REVIEW)
    && (s in {FAILED, TIMED_OUT} && n == BudgetExhausted ==> next == DEAD_LETTER)
    && (s == DUTY_REVIEW && n in {DutyRetryable, DutyFixable} ==> next == RUNNING)
    && (s == DUTY_REVIEW && n == DutyTerminal ==> next == DEAD_LETTER)
  }

  lemma EdgesFromFailure(s: State, n: Name, next: State)
    requires Table(s, n).Some? ==> next == Table(s, n).value.to
    ensures LeadsFromFailure(s, n, next)
  {}

  /** out of a failure, */
  lemma EventsLeadFromFailure(b: Books, ev: Event, env: Env)
    requires Known(b, ev) && Current(b, ev) && Open(b, ev, env)
    ensures LeadsFromFailure(b.packets[ev.pid].state, ev.name, StateAfter(b, ev, env))
  {
    if ev.name != ExecFailed {
      OpenGatesTakeEdges(b, ev, env);
      EdgesFromFailure(b.packets[ev.pid].state, ev.name, StateAfter(b, ev, env));
    }
  }

  /** From its acceptance or its dead letter to adjudication. */
  predicate LeadsToAdjudication(s: State, n: Name, next: State) {
    && (s == ACCEPTED && n == Merged ==> next == MERGED)
    && (s == ACCEPTED && n == MergeConflict ==> next == MERGE_CONFLICT)
    && (s == MERGED && n == WaveComplete ==> next == WAVE_DONE)
    && (s == DEAD_LETTER && n == DeadLetterSummary ==> next == SOL_ADJUDICATE)
    && (s == MERGE_CONFLICT && n == ConflictPointer ==> next == SOL_ADJUDICATE)
    && (s == WAVE_DONE && n == WaveSummary ==> next == SOL_ADJUDICATE)
  }

  lemma EdgesToAdjudication(s: State, n: Name, next: State)
    requires Table(s, n).Some? ==> next == Table(s, n).value.to
    ensures LeadsToAdjudication(s, n, next)
  {}

  /** to adjudication, */
  lemma EventsLeadToAdjudication(b: Books, ev: Event, env: Env)
    requires Known(b, ev) && Current(b, ev) && Open(b, ev, env)
    ensures LeadsToAdjudication(b.packets[ev.pid].state, ev.name, StateAfter(b, ev, env))
  {
    if ev.name != ExecFailed {
      OpenGatesTakeEdges(b, ev, env);
      EdgesToAdjudication(b.packets[ev.pid].state, ev.name, StateAfter(b, ev, env));
    }
  }

  /** and from there to a new plan or the release. */
  lemma EventsLeadToRelease(b: Books, ev: Event, env: Env)
    requires Known(b, ev) && Current(b, ev) && Open(b, ev, env) && b.packets[ev.pid].state == SOL_ADJUDICATE
    ensures ev.name == SolReplan ==> StateAfter(b, ev, env) == PLANNED
    ensures ev.name == ReleaseMerge ==> StateAfter(b, ev, env) == DONE
  {
    if ev.name != ExecFailed { OpenGatesTakeEdges(b, ev, env); }
  }

  /** And with a gate closed: no current report, no enforcement or a spent timeout retry is a dead
      letter, a spent replan stays in adjudication. */
  lemma ClosedGatesLead(b: Books, ev: Event, env: Env)
    requires Known(b, ev) && Current(b, ev)
    ensures var s, n, next := b.packets[ev.pid].state, ev.name, StateAfter(b, ev, env);
      && (s == RUNNING && n == SubagentStop && !env.reportCurrent ==> next == DEAD_LETTER)
      && (s == DUTY_REVIEW && n in {DutyRetryable, DutyFixable} && !env.enforceDuty ==> next == DEAD_LETTER)
      && (s == SOL_ADJUDICATE && n == SolReplan && (!env.countersReadable || CountOf(b.replans, ev.pid) >= 2) ==>
            next == SOL_ADJUDICATE)
      && (s == TIMED_OUT && n == RetryDispatch && (!env.countersReadable || CountOf(b.timeouts, ev.pid) >= 1) ==>
            next == DEAD_LETTER)
      && (s == RUNNING && n == ExecFailed && b.packets[ev.pid].releaseReview ==> next == SOL_ADJUDICATE)
  {
    DecisionLeads(b, ev, env);
  }

  /** Late and repeated events confirm what the packet is, */
  lemma LateEventsConfirm(b: Books, ev: Event, env: Env)
    requires Known(b, ev) && Current(b, ev)
    ensures var p, n, next := b.packets[ev.pid], ev.name, StateAfter(b, ev, env);
      && (p.state == TIMED_OUT && n == Timeout ==> next == TIMED_OUT)
      && (p.state == DEAD_LETTER && n != DeadLetterSummary ==> next == DEAD_LETTER)
      && (p.state == RUNNING && n == Dispatched && ev.attempt == Some(p.attempts) ==> next == RUNNING)
      && (p.state == REPORTED && n == SubagentStop && env.reportExists ==> next == REPORTED)
  {
    DecisionLeads(b, ev, env);
  }

  /** A late event never makes a dead letter anew, so the first evidence stays. */
  lemma DeadLettersAreMadeOnce(b: Books, ev: Event, env: Env, reason: string)
    requires Known(b, ev) && b.packets[ev.pid].state == DEAD_LETTER
    ensures var rows, history := HistoryAfter(b, ev, env), b.packets[ev.pid].history;
      |rows| == |history| + 1 && history <= rows && rows[|history|].via != Dead(reason)
  {}

  function HistoryAfter(b: Books, ev: Event, env: Env): seq<Row> {
    EntryOf(Handled(b, ev, env).packets, ev.pid).history
  }

  /** The event has no place in the state. */
  predicate Misplaced(p: Packet, ev: Event, reportExists: bool) {
    || ev.name.OffTable? || p.state == DONE
    || (p.state == RUNNING && ev.name == Dispatched && ev.attempt != Some(p.attempts))
    || (p.state == REPORTED && ev.name == SubagentStop && !reportExists)
    || (p.state !in {RUNNING, REPORTED, DEAD_LETTER} && ev.name == SubagentStop)
    || (p.state !in {DISPATCHABLE, RUNNING} && ev.name == Dispatched)
    || (p.state !in {FAILED, TIMED_OUT} && ev.name == RetryDispatch)
    || (p.state != SOL_ADJUDICATE && ev.name in {ReleaseMerge, SolReplan})
  }

  lemma MisplacedIsDead(p: Packet, ev: Event, env: Env, r: nat, t: nat)
    requires Misplaced(p, ev, env.reportExists) && !ev.name.Info?
    requires ev.attempt.Some? ==> ev.attempt.value >= p.attempts
    ensures Decide(p, ev, env, r, t).row.to == DEAD_LETTER
  {}

  /** and an event where it does not belong is a dead letter. */
  lemma MisplacedEventsAreDeadLetters(b: Books, ev: Event, env: Env)
    requires Known(b, ev) && Current(b, ev) && Misplaced(b.packets[ev.pid], ev, env.reportExists)
    ensures StateAfter(b, ev, env) == DEAD_LETTER
  {
    DecisionLeads(b, ev, env);
    MisplacedIsDead(b.packets[ev.pid], ev, env, CountOf(b.replans, ev.pid), CountOf(b.timeouts, ev.pid));
  }

  /** An event of an older generation moves nothing, nor counts an attempt. */
  lemma StaleEventsMoveNothing(b: Books, ev: Event, env: Env)
    requires Known(b, ev) && !Current(b, ev)
    ensures StateAfter(b, ev, env) == b.packets[ev.pid].state
    ensures EntryOf(Handled(b, ev, env).packets, ev.pid).attempts == b.packets[ev.pid].attempts
    ensures Handled(b, ev, env).replans == b.replans && Handled(b, ev, env).timeouts == b.timeouts
  {}

  /** Audit events, verifier jobs and packets that were never planned or admitted change nothing. */
  lemma ForeignEventsAreIgnored(b: Books, ev: Event, env: Env)
    requires ev.name.Info? || "l2v-" <= ev.pid || "v2job-" <= ev.pid
      || (SafePid(ev.pid) && ev.pid !in b.packets && ev.name !in {Planned, Unparseable})
    ensures Handled(b, ev, env) == b && OutcomeOf(b, ev, env) == Ignored
  {}

  /** A plan is what makes an unknown packet known. */
  lemma PlansAreAdmitted(b: Books, ev: Event, env: Env)
    requires SafePid(ev.pid) && !Synthetic(ev.pid) && ev.name == Planned && ev.pid !in b.packets
    requires ev.attempt.Some? ==> ev.attempt.value >= 0
    ensures ev.pid in Handled(b, ev, env).packets
    ensures Handled(b, ev, env).packets[ev.pid] == Packet(PLANNED, [Row(PLANNED, On(Planned), 1)], 0, false)
    ensures OutcomeOf(b, ev, env) == Reached(PLANNED)
  {}

  /** A malformed line is a dead letter of the id it carries. */
  lemma MalformedLinesAreDeadLetters(b: Books, ev: Event, env: Env)
    requires SafePid(ev.pid) && !Synthetic(ev.pid) && ev.name == Unparseable
    ensures StateAfter(b, ev, env) == DEAD_LETTER && OutcomeOf(b, ev, env) == Reached(DEAD_LETTER)
  {}

  /** Letters, digits, `.`, `_` and `-` make an id that may be written; a separator or a leading dot
      never does. */
  lemma SafeIdsAre(pid: string)
    ensures SafePid(pid) ==> '/' !in pid && '\\' !in pid && ".." != pid && 1 <= |pid| <= 96 && pid[0] != '.'
    ensures 1 <= |pid| <= 96 && (forall i :: 0 <= i < |pid| ==> 'a' <= pid[i] <= 'z') ==> SafePid(pid)
  {}
}
