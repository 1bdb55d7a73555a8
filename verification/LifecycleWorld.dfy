/** The packet lifecycle as a system: independent event producers append to the shared log while
    the state machine folds it into the ledger, any process dying anywhere.

    A state-machine step loads the ledger, handles the log from its cursor on, falls back to report
    files, fires the watchdog and commits; until the commit everything but the log and the sidecar
    counters is private to it.  `retry.py` and `duty_route.py` act on ledger snapshots that may
    be stale by the time they append.  The one ledger write of `retry.py`, the admission of an
    unknown packet, reads and replaces the ledger under a lock that no step takes. */
module LifecycleWorld {
  import opened Wrappers
  import opened Lifecycle

  /** The committed document: packets and read position change together. */
  datatype Ledger = Ledger(packets: Packets, cursor: nat)

  /** A producer between its ledger snapshot and its append. */
  datatype Call = RetryCall(pid: string, attempts: nat) | DutyCall(pid: string)

  /** An admission between its read of the ledger and its replace. */
  datatype Admission = Admission(id: nat, pid: string, read: Ledger)

  datatype World = World(log: seq<Event>, ledger: Ledger, work: Option<Ledger>, admission: Option<Admission>,
                         replans: Counters, timeouts: Counters, calls: map<nat, Call>)

  /** What the event producers do. */
  datatype Produce =
    | Append(ev: Event)
    | Import(pid: string, releaseReview: bool)
    | StartRetry(id: nat, pid: string)
    | ReadForAdmission(id: nat)
    | WriteAdmission(id: nat)
    | Abandon(id: nat)
    | FinishRetry(id: nat, maxAttempts: nat)
    | GiveUpRetry(id: nat, name: Name)
    | StartDuty(id: nat, pid: string)
    | FinishDuty(id: nat, name: Name)

  /** What a state-machine step does, piece by piece. */
  datatype Machine =
    | Begin
    | Handle(env: Env)
    | Fallback(pid: string)
    | Watchdog(pid: string, attempt: Option<int>)
    | Commit
    | Die

  datatype Step = ByProducer(produce: Produce) | ByMachine(machine: Machine)

  const INITIAL := World([], Ledger(map[], 0), None, None, map[], map[], map[])

  predicate IsDutyOutcome(n: Name) {
    n in {DutyRetryable, DutyFixable, DutyTerminal}
  }

  function AttemptsOf(l: Ledger, pid: string): nat {
    EntryOf(l.packets, pid).attempts
  }

  predicate IsRetry(ev: Event, pid: string, n: int) {
    ev == Event(pid, RetryDispatch, Some(n))
  }

  /** The scan a producer makes under the event lock. */
  predicate HasRetryDispatch(log: seq<Event>, pid: string, n: int) {
    exists i :: 0 <= i < |log| && IsRetry(log[i], pid, n)
  }

  predicate IsOutcomeOf(ev: Event, pid: string) {
    ev.pid == pid && IsDutyOutcome(ev.name)
  }

  predicate HasDutyOutcome(log: seq<Event>, pid: string) {
    exists i :: 0 <= i < |log| && IsOutcomeOf(log[i], pid)
  }

  function WorkBooks(w: World): Books
    requires w.work.Some?
  {
    Books(w.work.value.packets, w.replans, w.timeouts)
  }

  predicate Admitting(w: World, id: nat) {
    w.admission.Some? && w.admission.value.id == id
  }

  /** A call that is not in the middle of its admission. */
  predicate CanEndRetry(w: World, id: nat) {
    id in w.calls && w.calls[id].RetryCall? && !Admitting(w, id)
  }

  predicate CanProduce(w: World, step: Produce) {
    match step
    case Append(ev) => ev.name != RetryDispatch && !IsDutyOutcome(ev.name)
    case Import(pid, _) => w.work.None? && pid !in w.ledger.packets
    case StartRetry(id, pid) =>
      id !in w.calls && (pid in w.ledger.packets ==> w.ledger.packets[pid].state in {FAILED, TIMED_OUT})
    case ReadForAdmission(id) => w.admission.None? && id in w.calls && w.calls[id].RetryCall?
    case WriteAdmission(id) => Admitting(w, id)
    case Abandon(id) => id in w.calls
    case FinishRetry(id, maxAttempts) => CanEndRetry(w, id) && w.calls[id].attempts < maxAttempts
    case GiveUpRetry(id, name) => CanEndRetry(w, id) && name in {DutyReview, BudgetExhausted}
    case StartDuty(id, pid) =>
      id !in w.calls && pid in w.ledger.packets && w.ledger.packets[pid].state == DUTY_REVIEW
    case FinishDuty(id, name) => id in w.calls && w.calls[id].DutyCall? && IsDutyOutcome(name)
  }

  predicate WorkRunning(w: World, pid: string) {
    w.work.Some? && pid in w.work.value.packets && w.work.value.packets[pid].state == RUNNING
  }

  predicate CanMove(w: World, step: Machine) {
    match step
    case Begin => w.work.None?
    case Handle(_) => w.work.Some? && w.work.value.cursor < |w.log|
    case Fallback(pid) => WorkRunning(w, pid)
    case Watchdog(pid, _) => WorkRunning(w, pid)
    case Commit => w.work.Some?
    case Die => w.work.Some?
  }

  predicate Enabled(w: World, step: Step) {
    match step
    case ByProducer(produce) => CanProduce(w, produce)
    case ByMachine(machine) => CanMove(w, machine)
  }

  function WithWorkRow(w: World, pid: string, row: Row): World
    requires w.work.Some? && pid in w.work.value.packets
  {
    var l := w.work.value;
    w.(work := Some(l.(packets := l.packets[pid := WithRow(l.packets[pid], row)])))
  }

  /** The private copy one event further on. */
  function WithBooks(w: World, c: Books): World
    requires w.work.Some?
  {
    w.(work := Some(Ledger(c.packets, w.work.value.cursor + 1)), replans := c.replans, timeouts := c.timeouts)
  }

  function HandleNext(w: World, env: Env): World
    requires w.work.Some? && w.work.value.cursor < |w.log|
  {
    var ev := w.log[w.work.value.cursor];
    if Halts(WorkBooks(w), ev) then w.(work := None)
    else WithBooks(w, Handled(WorkBooks(w), ev, env))
  }

  function Produced(w: World, step: Produce): World
    requires CanProduce(w, step)
  {
    match step
    case Append(ev) => w.(log := w.log + [ev])
    case Import(pid, review) => Admit(w, pid, ImportedAt(DISPATCHABLE, review))
    case StartRetry(id, pid) => w.(calls := w.calls[id := RetryCall(pid, AttemptsOf(w.ledger, pid))])
    case ReadForAdmission(id) =>
      var pid := w.calls[id].pid;
      if pid in w.ledger.packets then w else w.(admission := Some(Admission(id, pid, w.ledger)))
    case WriteAdmission(_) => Replaced(w, Replacement(w.admission.value, AdmissionAt(FAILED)))
    case Abandon(id) =>
      w.(calls := w.calls - {id}, admission := if Admitting(w, id) then None else w.admission)
    case FinishRetry(id, _) =>
      var n := w.calls[id].attempts + 1;
      var pid := w.calls[id].pid;
      EndCall(w, id, Event(pid, RetryDispatch, Some(n)), HasRetryDispatch(w.log, pid, n))
    case GiveUpRetry(id, name) => EndCall(w, id, Event(w.calls[id].pid, name, None), false)
    case StartDuty(id, pid) => w.(calls := w.calls[id := DutyCall(pid)])
    case FinishDuty(id, name) =>
      EndCall(w, id, Event(w.calls[id].pid, name, None), HasDutyOutcome(w.log, w.calls[id].pid))
  }

  /** A call ends: its event is appended unless the log already holds its like. */
  function EndCall(w: World, id: nat, ev: Event, held: bool): World {
    var over := w.(calls := w.calls - {id});
    if held then over else over.(log := w.log + [ev])
  }

  /** What an admission puts in the place of the ledger: the one it read, and its packet. */
  function Replacement(a: Admission, p: Packet): Ledger {
    a.read.(packets := a.read.packets[a.pid := p])
  }

  function Replaced(w: World, l: Ledger): World {
    w.(ledger := l, admission := None)
  }

  function Admit(w: World, pid: string, p: Packet): World {
    w.(ledger := w.ledger.(packets := w.ledger.packets[pid := p]))
  }

  function Moved(w: World, step: Machine): World
    requires CanMove(w, step)
  {
    match step
    case Begin => w.(work := Some(w.ledger))
    case Handle(env) => HandleNext(w, env)
    case Fallback(pid) => WithWorkRow(w, pid, Row(REPORTED, ReportFallback, 4))
    case Watchdog(pid, attempt) =>
      WithWorkRow(w, pid, Row(TIMED_OUT, On(Timeout), 5)).(log := w.log + [Event(pid, Timeout, attempt)])
    case Commit => w.(ledger := w.work.value, work := None)
    case Die => w.(work := None)
  }

  function Next(w: World, step: Step): World
    requires Enabled(w, step)
  {
    match step
    case ByProducer(produce) => Produced(w, produce)
    case ByMachine(machine) => Moved(w, machine)
  }

  predicate WithinLimit(step: Step, limit: nat) {
    step.ByProducer? && step.produce.FinishRetry? ==> step.produce.maxAttempts <= limit
  }

  /** Runs whose class table never allows more than `limit` attempts. */
  ghost predicate IsRun(w: World, steps: seq<Step>, limit: nat)
    decreases |steps|
  {
    steps == [] ||
    (&& Enabled(w, steps[0])
     && WithinLimit(steps[0], limit)
     && IsRun(Next(w, steps[0]), steps[1..], limit))
  }

  ghost function After(w: World, steps: seq<Step>, limit: nat): World
    requires IsRun(w, steps, limit)
    decreases |steps|
  {
    if steps == [] then w else After(Next(w, steps[0]), steps[1..], limit)
  }

  /* The invariant of one packet `who`, part by part. */

  predicate IsRetryOf(ev: Event, who: string) {
    ev.pid == who && ev.name == RetryDispatch
  }

  ghost predicate RetryHandled(log: seq<Event>, cursor: nat, who: string, m: nat) {
    exists i :: 0 <= i < cursor && i < |log| && IsRetry(log[i], who, m)
  }

  /** Every number up to this one was asked for by a retry before the cursor. */
  ghost predicate AttemptsLogged(log: seq<Event>, cursor: nat, who: string, attempts: nat) {
    forall m :: 1 <= m <= attempts ==> RetryHandled(log, cursor, who, m)
  }

  /** A retry line carries a number within the limit, after all smaller ones. */
  ghost predicate RetryFollows(log: seq<Event>, limit: nat, who: string, i: nat)
    requires i < |log|
  {
    log[i].attempt.Some? && 1 <= log[i].attempt.value <= limit && AttemptsLogged(log, i, who, log[i].attempt.value - 1)
  }

  ghost predicate RetriesOk(log: seq<Event>, limit: nat, who: string) {
    && (forall i :: 0 <= i < |log| && IsRetryOf(log[i], who) ==> RetryFollows(log, limit, who, i))
    && (forall i, j :: 0 <= i < j < |log| && IsRetryOf(log[i], who) ==> log[i] != log[j])
  }

  ghost predicate OutcomesOk(log: seq<Event>, who: string) {
    forall i, j :: 0 <= i < j < |log| && IsOutcomeOf(log[i], who) ==> !IsOutcomeOf(log[j], who)
  }

  ghost predicate LogOk(log: seq<Event>, limit: nat, who: string) {
    RetriesOk(log, limit, who) && OutcomesOk(log, who)
  }

  ghost predicate OutcomeHandled(log: seq<Event>, cursor: nat, who: string) {
    exists i :: 0 <= i < cursor && i < |log| && IsOutcomeOf(log[i], who)
  }

  predicate Seeded(p: Packet, seed: State) {
    seed in {NONE, DISPATCHABLE, FAILED} && Path(seed, p.history) && EndOf(seed, p.history) == p.state
  }

  function DutyRows(rows: seq<Row>): nat {
    Taken(rows, 11) + Taken(rows, 12) + Taken(rows, 13)
  }

  /** The history is an authorized path to the state, the attempts are its retry rows, and only a
      release review failed straight into adjudication. */
  ghost predicate HistoryOk(p: Packet) {
    && (exists seed :: Seeded(p, seed))
    && p.attempts == Taken(p.history, 9) + Taken(p.history, 37)
    && (Taken(p.history, 26) > 0 ==> p.releaseReview)
  }

  /** Replans and timeout retries stay within their caps and within the sidecar counters. */
  predicate Capped(rows: seq<Row>, replans: nat, timeouts: nat) {
    && Taken(rows, 22) <= REPLAN_CAP && Taken(rows, 22) <= replans
    && Taken(rows, 37) <= TIMEOUT_RETRY_MAX && Taken(rows, 37) <= timeouts
  }

  /** At most one duty row, and only after a duty outcome was handled. */
  ghost predicate DutyOk(log: seq<Event>, cursor: nat, who: string, rows: seq<Row>) {
    DutyRows(rows) <= 1 && (DutyRows(rows) == 1 ==> OutcomeHandled(log, cursor, who))
  }

  /** What holds of the packet `who` in the committed ledger, in the private copy of a step, and in
      the copy an admission has read, however old. */
  ghost predicate LedgerOk(w: World, l: Ledger, who: string) {
    var p := EntryOf(l.packets, who);
    && l.cursor <= |w.log|
    && HistoryOk(p)
    && Capped(p.history, CountOf(w.replans, who), CountOf(w.timeouts, who))
    && DutyOk(w.log, l.cursor, who, p.history)
    && AttemptsLogged(w.log, l.cursor, who, p.attempts)
  }

  /** Whatever a call of the packet has seen counted was asked for in the log. */
  ghost predicate CallsOk(w: World, who: string) {
    forall id :: id in w.calls && w.calls[id].RetryCall? && w.calls[id].pid == who ==>
      AttemptsLogged(w.log, |w.log|, who, w.calls[id].attempts)
  }

  ghost predicate Inv(w: World, limit: nat, who: string) {
    && LogOk(w.log, limit, who)
    && LedgerOk(w, w.ledger, who)
    && (w.work.Some? ==> LedgerOk(w, w.work.value, who))
    && (w.admission.Some? ==> LedgerOk(w, w.admission.value.read, who))
    && (w.admission.Some? ==> w.admission.value.pid !in w.admission.value.read.packets)
    && CallsOk(w, who)
  }

  /* Growth of the log, of a cursor and of the sidecars. */

  /** Whatever was handled stays handled as the log and the cursor grow. */
  lemma AttemptsStayLogged(log: seq<Event>, more: seq<Event>, cursor: nat, cursor': nat, who: string, attempts: nat)
    requires cursor <= cursor' && log <= more && AttemptsLogged(log, cursor, who, attempts)
    ensures AttemptsLogged(more, cursor', who, attempts)
  {
    forall m | 1 <= m <= attempts
      ensures RetryHandled(more, cursor', who, m)
    {
      assert RetryHandled(log, cursor, who, m);
      var i :| 0 <= i < cursor && i < |log| && IsRetry(log[i], who, m);
      assert IsRetry(more[i], who, m);
    }
  }

  lemma OutcomeStaysHandled(log: seq<Event>, more: seq<Event>, cursor: nat, cursor': nat, who: string)
    requires cursor <= cursor' && log <= more && OutcomeHandled(log, cursor, who)
    ensures OutcomeHandled(more, cursor', who)
  {
    var i :| 0 <= i < cursor && i < |log| && IsOutcomeOf(log[i], who);
    assert IsOutcomeOf(more[i], who);
  }

  lemma DutyStaysOk(log: seq<Event>, more: seq<Event>, cursor: nat, cursor': nat, who: string, rows: seq<Row>)
    requires cursor <= cursor' && log <= more && DutyOk(log, cursor, who, rows)
    ensures DutyOk(more, cursor', who, rows)
  {
    if DutyRows(rows) == 1 {
      OutcomeStaysHandled(log, more, cursor, cursor', who);
    }
  }

  /** The log, the sidecars and a cursor only grew. */
  predicate Grew(w: World, l: Ledger, w': World, l': Ledger, who: string) {
    && w.log <= w'.log && l.cursor <= l'.cursor <= |w'.log|
    && CountOf(w.replans, who) <= CountOf(w'.replans, who)
    && CountOf(w.timeouts, who) <= CountOf(w'.timeouts, who)
  }

  /** The entry of a packet is untouched meanwhile. */
  lemma GrowthKeepsLedger(w: World, l: Ledger, w': World, l': Ledger, who: string)
    requires LedgerOk(w, l, who) && Grew(w, l, w', l', who)
    requires EntryOf(l'.packets, who) == EntryOf(l.packets, who)
    ensures LedgerOk(w', l', who)
  {
    var p := EntryOf(l.packets, who);
    AttemptsStayLogged(w.log, w'.log, l.cursor, l'.cursor, who, p.attempts);
    DutyStaysOk(w.log, w'.log, l.cursor, l'.cursor, who, p.history);
  }

  lemma GrowthKeepsCalls(w: World, w': World, who: string)
    requires CallsOk(w, who) && w.log <= w'.log
    requires forall id :: id in w'.calls ==> id in w.calls && w'.calls[id] == w.calls[id]
    ensures CallsOk(w', who)
  {
    forall id | id in w'.calls && w'.calls[id].RetryCall? && w'.calls[id].pid == who
      ensures AttemptsLogged(w'.log, |w'.log|, who, w'.calls[id].attempts)
    {
      AttemptsStayLogged(w.log, w'.log, |w.log|, |w'.log|, who, w.calls[id].attempts);
    }
  }

  /** A retry may be appended when all smaller numbers are there and its own is not. */
  ghost predicate MayAppend(log: seq<Event>, ev: Event, limit: nat, who: string) {
    && (IsRetryOf(ev, who) ==>
          && ev.attempt.Some? && 1 <= ev.attempt.value <= limit
          && AttemptsLogged(log, |log|, who, ev.attempt.value - 1)
          && !HasRetryDispatch(log, who, ev.attempt.value))
    && (IsOutcomeOf(ev, who) ==> !HasDutyOutcome(log, who))
  }

  lemma AppendKeepsRetries(log: seq<Event>, ev: Event, limit: nat, who: string)
    requires RetriesOk(log, limit, who) && MayAppend(log, ev, limit, who)
    ensures RetriesOk(log + [ev], limit, who)
  {
    var more := log + [ev];
    forall i | 0 <= i < |more| && IsRetryOf(more[i], who)
      ensures RetryFollows(more, limit, who, i)
    {
      AttemptsStayLogged(log, more, i, i, who, more[i].attempt.value - 1);
    }
    forall i | 0 <= i < |log| && IsRetryOf(log[i], who)
      ensures log[i] != ev
    {
      assert RetryFollows(log, limit, who, i);
      if log[i] == ev { assert IsRetry(log[i], who, ev.attempt.value); }
    }
  }

  lemma AppendKeepsOutcomes(log: seq<Event>, ev: Event, limit: nat, who: string)
    requires OutcomesOk(log, who) && MayAppend(log, ev, limit, who)
    ensures OutcomesOk(log + [ev], who)
  {}

  /** Appending an event keeps everything, for every copy of the ledger. */
  lemma AppendKeepsInv(w: World, ev: Event, limit: nat, who: string)
    requires Inv(w, limit, who) && MayAppend(w.log, ev, limit, who)
    ensures Inv(w.(log := w.log + [ev]), limit, who)
  {
    var w' := w.(log := w.log + [ev]);
    AppendKeepsRetries(w.log, ev, limit, who);
    AppendKeepsOutcomes(w.log, ev, limit, who);
    GrowthKeepsLedger(w, w.ledger, w', w.ledger, who);
    if w.work.Some? { GrowthKeepsLedger(w, w.work.value, w', w.work.value, who); }
    if w.admission.Some? { GrowthKeepsLedger(w, w.admission.value.read, w', w.admission.value.read, who); }
    GrowthKeepsCalls(w, w', who);
  }

  /* Rows added to the packet. */

  lemma RowKeepsHistory(p: Packet, row: Row)
    requires HistoryOk(p) && Authorized(p.state, row) && (row.t == 26 ==> p.releaseReview)
    ensures HistoryOk(WithRow(p, row))
  {
    var seed :| Seeded(p, seed);
    PathAppend(seed, p.history, row);
    assert Seeded(WithRow(p, row), seed);
    TakenAppend(p.history, row, 9);
    TakenAppend(p.history, row, 37);
    TakenAppend(p.history, row, 26);
  }

  /** A counted transition moved its counter and was below its cap. */
  predicate CountedRow(row: Row, replans: nat, timeouts: nat, replans': nat, timeouts': nat) {
    && replans <= replans' && timeouts <= timeouts'
    && (row.t == 22 && row.via != CapForced ==> replans < REPLAN_CAP && replans' == replans + 1)
    && (row.t == 37 ==> timeouts < TIMEOUT_RETRY_MAX && timeouts' == timeouts + 1)
  }

  lemma RowKeepsCaps(rows: seq<Row>, row: Row, replans: nat, timeouts: nat, replans': nat, timeouts': nat)
    requires Capped(rows, replans, timeouts) && CountedRow(row, replans, timeouts, replans', timeouts')
    ensures Capped(rows + [row], replans', timeouts')
  {
    TakenAppend(rows, row, 22);
    TakenAppend(rows, row, 37);
  }

  lemma DutyRowsAppend(rows: seq<Row>, row: Row)
    ensures DutyRows(rows + [row]) == DutyRows(rows) + One(row.t in {11, 12, 13} && row.via != CapForced)
  {
    TakenAppend(rows, row, 11);
    TakenAppend(rows, row, 12);
    TakenAppend(rows, row, 13);
  }

  /** A retry number that was handled does not come back at the cursor. */
  lemma HandledRetriesDoNotReturn(log: seq<Event>, limit: nat, cursor: nat, who: string, c: nat)
    requires RetriesOk(log, limit, who) && AttemptsLogged(log, cursor, who, c) && 1 <= c && cursor < |log|
    ensures !IsRetry(log[cursor], who, c)
  {
    assert RetryHandled(log, cursor, who, c);
    var i :| 0 <= i < cursor && i < |log| && IsRetry(log[i], who, c);
    assert log[i] != log[cursor];
  }

  /** The retry at the cursor is stale or asks for a later attempt. */
  lemma RetryAsksForMore(log: seq<Event>, limit: nat, cursor: nat, who: string, attempts: nat)
    requires RetriesOk(log, limit, who) && AttemptsLogged(log, cursor, who, attempts) && cursor < |log|
    requires IsRetryOf(log[cursor], who)
    requires log[cursor].attempt.Some? ==> log[cursor].attempt.value >= attempts
    ensures log[cursor].attempt.Some? && attempts < log[cursor].attempt.value <= limit
    ensures AttemptsLogged(log, cursor, who, log[cursor].attempt.value - 1)
  {
    assert RetryFollows(log, limit, who, cursor);
    if attempts > 0 {
      HandledRetriesDoNotReturn(log, limit, cursor, who, attempts);
    }
  }

  lemma RetryRowIsLogged(log: seq<Event>, limit: nat, cursor: nat, who: string, attempts: nat)
    requires RetriesOk(log, limit, who) && AttemptsLogged(log, cursor, who, attempts) && cursor < |log|
    requires IsRetryOf(log[cursor], who)
    requires log[cursor].attempt.Some? ==> log[cursor].attempt.value >= attempts
    ensures AttemptsLogged(log, cursor + 1, who, attempts + 1)
  {
    RetryAsksForMore(log, limit, cursor, who, attempts);
    var n := log[cursor].attempt.value;
    AttemptsStayLogged(log, log, cursor, cursor + 1, who, n - 1);
    assert IsRetry(log[cursor], who, n);
    assert RetryHandled(log, cursor + 1, who, n);
  }

  /** A duty outcome at the cursor is the first one its packet sees. */
  lemma DutyRowIsFirst(log: seq<Event>, cursor: nat, who: string, rows: seq<Row>, row: Row)
    requires OutcomesOk(log, who) && DutyOk(log, cursor, who, rows) && cursor < |log|
    requires row.t in {11, 12, 13} ==> IsOutcomeOf(log[cursor], who)
    ensures DutyOk(log, cursor + 1, who, rows + [row])
  {
    DutyStaysOk(log, log, cursor, cursor + 1, who, rows);
    DutyRowsAppend(rows, row);
    if row.t in {11, 12, 13} {
      assert IsOutcomeOf(log[cursor], who);
    }
  }

  /** Which numbered rows a ruling can produce, and from which events. */
  lemma RulingNumbers(b: Books, ev: Event, env: Env)
    ensures var p, d := EntryOf(b.packets, ev.pid), Ruling(b, ev, env);
      && Authorized(p.state, d.row) && (d.row.t == 26 ==> p.releaseReview)
      && (IsRetryRow(d.row) ==> ev.name == RetryDispatch && (ev.attempt.Some? ==> ev.attempt.value >= p.attempts))
      && (d.row.t in {11, 12, 13} ==> IsDutyOutcome(ev.name))
      && (d.row.t == 22 && d.row.via != CapForced ==>
            d.bump == ReplanCounter && CountOf(b.replans, ev.pid) < REPLAN_CAP)
      && (d.row.t == 37 ==> d.bump == TimeoutCounter && CountOf(b.timeouts, ev.pid) < TIMEOUT_RETRY_MAX)
  {
    var p, r, t := EntryOf(b.packets, ev.pid), CountOf(b.replans, ev.pid), CountOf(b.timeouts, ev.pid);
    if ev.name != Unparseable {
      var row := Decide(p, ev, env, r, t).row;
      DecisionIsAuthorized(p, ev, env, r, t);
      if IsRetryRow(row) { RetryRowsComeFromRetries(p, ev, env, r, t); }
      if row.t in {11, 12, 13} { DutyRowsComeFromOutcomes(p, ev, env, r, t); }
      if row.t == 26 { ReviewRowsComeFromReviews(p, ev, env, r, t); }
      CappedRowsAreCounted(p, ev, env, r, t);
    }
  }

  /** The row a packet gets for the event at the cursor of a ledger. */
  predicate RowFits(log: seq<Event>, cursor: nat, p: Packet, row: Row)
    requires cursor < |log|
  {
    && Authorized(p.state, row) && (row.t == 26 ==> p.releaseReview)
    && (IsRetryRow(row) ==> log[cursor].name == RetryDispatch)
    && (IsRetryRow(row) && log[cursor].attempt.Some? ==> log[cursor].attempt.value >= p.attempts)
    && (row.t in {11, 12, 13} ==> IsDutyOutcome(log[cursor].name))
  }

  lemma RowKeepsLogged(log: seq<Event>, limit: nat, cursor: nat, who: string, p: Packet, row: Row)
    requires RetriesOk(log, limit, who) && AttemptsLogged(log, cursor, who, p.attempts)
    requires cursor < |log| && log[cursor].pid == who && RowFits(log, cursor, p, row)
    ensures AttemptsLogged(log, cursor + 1, who, WithRow(p, row).attempts)
  {
    if IsRetryRow(row) {
      RetryRowIsLogged(log, limit, cursor, who, p.attempts);
    } else {
      AttemptsStayLogged(log, log, cursor, cursor + 1, who, p.attempts);
    }
  }

  /** A packet after a row was decided for the event at the cursor. */
  lemma RowKeepsLedger(w: World, limit: nat, l: Ledger, w': World, l': Ledger, row: Row, who: string)
    requires LogOk(w.log, limit, who) && LedgerOk(w, l, who) && l.cursor < |w.log| && w.log[l.cursor].pid == who
    requires w'.log == w.log && l'.cursor == l.cursor + 1
    requires EntryOf(l'.packets, who) == WithRow(EntryOf(l.packets, who), row)
    requires RowFits(w.log, l.cursor, EntryOf(l.packets, who), row)
    requires CountedRow(row, CountOf(w.replans, who), CountOf(w.timeouts, who),
                        CountOf(w'.replans, who), CountOf(w'.timeouts, who))
    ensures LedgerOk(w', l', who)
  {
    var p := EntryOf(l.packets, who);
    assert HistoryOk(WithRow(p, row)) by { RowKeepsHistory(p, row); }
    assert Capped(p.history + [row], CountOf(w'.replans, who), CountOf(w'.timeouts, who)) by {
      RowKeepsCaps(p.history, row, CountOf(w.replans, who), CountOf(w.timeouts, who),
                   CountOf(w'.replans, who), CountOf(w'.timeouts, who));
    }
    assert DutyOk(w.log, l'.cursor, who, p.history + [row]) by { DutyRowIsFirst(w.log, l.cursor, who, p.history, row); }
    assert AttemptsLogged(w.log, l'.cursor, who, WithRow(p, row).attempts) by {
      RowKeepsLogged(w.log, limit, l.cursor, who, p, row);
    }
  }

  /* Each step keeps the invariant. */

  lemma BumpedCounts(b: Books, pid: string, c: Counter)
    ensures CountOf(Bumped(b, pid, c).replans, pid) == CountOf(b.replans, pid) + One(c == ReplanCounter)
    ensures CountOf(Bumped(b, pid, c).timeouts, pid) == CountOf(b.timeouts, pid) + One(c == TimeoutCounter)
  {}

  /** The private copy after handling an event of the packet itself. */
  lemma OwnEventKeepsLedger(w: World, limit: nat, l: Ledger, ev: Event, env: Env, w': World, l': Ledger)
    requires LogOk(w.log, limit, ev.pid) && LedgerOk(w, l, ev.pid)
    requires l.cursor < |w.log| && w.log[l.cursor] == ev && w'.log == w.log && l'.cursor == l.cursor + 1
    requires var b := Books(l.packets, w.replans, w.timeouts);
      !Skipped(b, ev) && !Halts(b, ev) && Handled(b, ev, env) == Books(l'.packets, w'.replans, w'.timeouts)
    ensures LedgerOk(w', l', ev.pid)
  {
    var b := Books(l.packets, w.replans, w.timeouts);
    RulingNumbers(b, ev, env);
    BumpedCounts(b, ev.pid, Ruling(b, ev, env).bump);
    RowKeepsLedger(w, limit, l, w', l', Ruling(b, ev, env).row, ev.pid);
  }

  lemma HandledOnlyGrows(b: Books, ev: Event, env: Env, who: string)
    ensures CountOf(b.replans, who) <= CountOf(Handled(b, ev, env).replans, who)
    ensures CountOf(b.timeouts, who) <= CountOf(Handled(b, ev, env).timeouts, who)
    ensures EntryOf(b.packets, who).attempts <= EntryOf(Handled(b, ev, env).packets, who).attempts
  {}

  lemma HandledKeepsLedger(w: World, limit: nat, env: Env, who: string)
    requires LogOk(w.log, limit, who) && w.work.Some? && LedgerOk(w, w.work.value, who)
    requires w.work.value.cursor < |w.log| && !Halts(WorkBooks(w), w.log[w.work.value.cursor])
    ensures var w' := WithBooks(w, Handled(WorkBooks(w), w.log[w.work.value.cursor], env));
      LedgerOk(w', w'.work.value, who)
  {
    var l := w.work.value;
    var ev := w.log[l.cursor];
    var w' := WithBooks(w, Handled(WorkBooks(w), ev, env));
    if ev.pid == who && !Skipped(WorkBooks(w), ev) {
      OwnEventKeepsLedger(w, limit, l, ev, env, w', w'.work.value);
    } else {
      if ev.pid != who { OthersAreUntouched(WorkBooks(w), ev, env, who); }
      GrowthKeepsLedger(w, l, w', w'.work.value, who);
    }
  }

  /** A move of the machine that leaves the ledger, the log and the calls as they are. */
  lemma WorkKeepsInv(w: World, w': World, limit: nat, who: string)
    requires Inv(w, limit, who)
    requires w'.log == w.log && w'.ledger == w.ledger && w'.admission == w.admission && w'.calls == w.calls
    requires CountOf(w.replans, who) <= CountOf(w'.replans, who)
    requires CountOf(w.timeouts, who) <= CountOf(w'.timeouts, who)
    requires w'.work.Some? ==> LedgerOk(w', w'.work.value, who)
    ensures Inv(w', limit, who)
  {
    GrowthKeepsLedger(w, w.ledger, w', w'.ledger, who);
    if w.admission.Some? { GrowthKeepsLedger(w, w.admission.value.read, w', w.admission.value.read, who); }
    GrowthKeepsCalls(w, w', who);
  }

  lemma HandleKeepsInv(w: World, limit: nat, env: Env, who: string)
    requires Inv(w, limit, who) && w.work.Some? && w.work.value.cursor < |w.log|
    ensures Inv(HandleNext(w, env), limit, who)
  {
    if !Halts(WorkBooks(w), w.log[w.work.value.cursor]) {
      HandledKeepsLedger(w, limit, env, who);
      HandledOnlyGrows(WorkBooks(w), w.log[w.work.value.cursor], env, who);
    }
    WorkKeepsInv(w, HandleNext(w, env), limit, who);
  }

  /** A row without a counted transition, written outside the event loop. */
  lemma PlainRowKeepsLedger(w: World, l: Ledger, w': World, l': Ledger, row: Row, who: string)
    requires LedgerOk(w, l, who) && w'.log == w.log && l'.cursor == l.cursor
    requires w'.replans == w.replans && w'.timeouts == w.timeouts
    requires EntryOf(l'.packets, who) == WithRow(EntryOf(l.packets, who), row)
    requires Authorized(EntryOf(l.packets, who).state, row) && row.t !in {9, 11, 12, 13, 22, 26, 37}
    ensures LedgerOk(w', l', who)
  {
    var p := EntryOf(l.packets, who);
    RowKeepsHistory(p, row);
    RowKeepsCaps(p.history, row, CountOf(w.replans, who), CountOf(w.timeouts, who),
                 CountOf(w.replans, who), CountOf(w.timeouts, who));
    DutyRowsAppend(p.history, row);
  }

  lemma WorkRowKeepsInv(w: World, limit: nat, pid: string, row: Row, who: string)
    requires Inv(w, limit, who) && w.work.Some? && pid in w.work.value.packets
    requires Authorized(w.work.value.packets[pid].state, row) && row.t !in {9, 11, 12, 13, 22, 26, 37}
    ensures Inv(WithWorkRow(w, pid, row), limit, who)
  {
    var w' := WithWorkRow(w, pid, row);
    if pid == who {
      PlainRowKeepsLedger(w, w.work.value, w', w'.work.value, row, who);
    } else {
      GrowthKeepsLedger(w, w.work.value, w', w'.work.value, who);
    }
    WorkKeepsInv(w, w', limit, who);
  }

  /** An admission without a row. */
  function ImportedAt(s: State, review: bool): Packet {
    Packet(s, [], 0, review)
  }

  /** An admission recorded by one row that stays where it starts. */
  function AdmissionAt(s: State): Packet {
    WithRow(Packet(s, [], 0, false), Row(s, Admitted, 0))
  }

  /** A packet that has done nothing yet. */
  ghost predicate Untouched(p: Packet) {
    p.attempts == 0 && HistoryOk(p) && Capped(p.history, 0, 0) && DutyRows(p.history) == 0
  }

  lemma ImportIsUntouched(p: Packet)
    requires p.history == [] && p.attempts == 0 && p.state in {NONE, DISPATCHABLE, FAILED}
    ensures Untouched(p)
  {
    assert Seeded(p, p.state);
  }

  lemma StayKeepsUntouched(p: Packet, row: Row)
    requires Untouched(p) && Authorized(p.state, row) && row.t == 0
    ensures Untouched(WithRow(p, row))
  {
    RowKeepsHistory(p, row);
    RowKeepsCaps(p.history, row, 0, 0, 0, 0);
    DutyRowsAppend(p.history, row);
  }

  lemma AdmissionIsUntouched(s: State)
    requires s in {NONE, DISPATCHABLE, FAILED}
    ensures Untouched(AdmissionAt(s))
  {
    ImportIsUntouched(Packet(s, [], 0, false));
    StayKeepsUntouched(Packet(s, [], 0, false), Row(s, Admitted, 0));
  }

  /** A fresh admission satisfies everything its absence did. */
  lemma AdmissionKeepsLedger(w: World, l: Ledger, w': World, l': Ledger, p: Packet, who: string)
    requires LedgerOk(w, l, who) && w'.log == w.log && l'.cursor == l.cursor
    requires EntryOf(l'.packets, who) == p && Untouched(p)
    ensures LedgerOk(w', l', who)
  {}

  lemma AdmittedKeepsLedger(w: World, l: Ledger, pid: string, p: Packet, who: string)
    requires LedgerOk(w, l, who) && Untouched(p)
    ensures LedgerOk(w, l.(packets := l.packets[pid := p]), who)
  {
    var l' := l.(packets := l.packets[pid := p]);
    if pid == who {
      AdmissionKeepsLedger(w, l, w, l', p, who);
    } else {
      GrowthKeepsLedger(w, l, w, l', who);
    }
  }

  /** Another sound ledger is put in place, by an import or at the end of an admission. */
  lemma LedgerPutKeepsInv(w: World, l: Ledger, a: Option<Admission>, limit: nat, who: string)
    requires Inv(w, limit, who) && LedgerOk(w, l, who) && (a == w.admission || a.None?)
    ensures Inv(w.(ledger := l, admission := a), limit, who)
  {
    var w' := w.(ledger := l, admission := a);
    GrowthKeepsLedger(w, l, w', l, who);
    if w.work.Some? { GrowthKeepsLedger(w, w.work.value, w', w.work.value, who); }
    if a.Some? { GrowthKeepsLedger(w, a.value.read, w', a.value.read, who); }
    GrowthKeepsCalls(w, w', who);
  }

  lemma ImportKeepsInv(w: World, limit: nat, pid: string, review: bool, who: string)
    requires Inv(w, limit, who)
    ensures Inv(Admit(w, pid, ImportedAt(DISPATCHABLE, review)), limit, who)
  {
    ImportIsUntouched(ImportedAt(DISPATCHABLE, review));
    AdmittedKeepsLedger(w, w.ledger, pid, ImportedAt(DISPATCHABLE, review), who);
    LedgerPutKeepsInv(w, Admit(w, pid, ImportedAt(DISPATCHABLE, review)).ledger, w.admission, limit, who);
  }

  /** The old ledger an admission puts back was sound when it was read, and still is. */
  lemma ReplacementKeepsInv(w: World, p: Packet, limit: nat, who: string)
    requires Inv(w, limit, who) && w.admission.Some? && Untouched(p)
    ensures Inv(Replaced(w, Replacement(w.admission.value, p)), limit, who)
  {
    var a := w.admission.value;
    AdmittedKeepsLedger(w, a.read, a.pid, p, who);
    LedgerPutKeepsInv(w, Replacement(a, p), None, limit, who);
  }

  lemma WriteKeepsInv(w: World, id: nat, limit: nat, who: string)
    requires Inv(w, limit, who) && CanProduce(w, WriteAdmission(id))
    ensures Inv(Produced(w, WriteAdmission(id)), limit, who)
  {
    AdmissionIsUntouched(FAILED);
    ReplacementKeepsInv(w, AdmissionAt(FAILED), limit, who);
  }

  lemma NewCallKeepsInv(w: World, limit: nat, id: nat, call: Call, who: string)
    requires Inv(w, limit, who)
    requires call.RetryCall? ==> call.attempts == AttemptsOf(w.ledger, call.pid)
    ensures Inv(w.(calls := w.calls[id := call]), limit, who)
  {
    AttemptsStayLogged(w.log, w.log, w.ledger.cursor, |w.log|, who, AttemptsOf(w.ledger, who));
  }

  lemma NoCallKeepsInv(w: World, limit: nat, id: nat, who: string)
    requires Inv(w, limit, who)
    ensures Inv(w.(calls := w.calls - {id}), limit, who)
    ensures Inv(w.(calls := w.calls - {id}, admission := None), limit, who)
  {}

  lemma EndCallKeepsInv(w: World, id: nat, ev: Event, held: bool, limit: nat, who: string)
    requires Inv(w, limit, who) && (!held ==> MayAppend(w.log, ev, limit, who))
    ensures Inv(EndCall(w, id, ev, held), limit, who)
  {
    NoCallKeepsInv(w, limit, id, who);
    if !held {
      AppendKeepsInv(w.(calls := w.calls - {id}), ev, limit, who);
    }
  }

  /** A call asks for the number after those it has seen counted. */
  lemma CallMayAppend(w: World, id: nat, maxAttempts: nat, limit: nat, who: string)
    requires Inv(w, limit, who) && CanProduce(w, FinishRetry(id, maxAttempts)) && maxAttempts <= limit
    requires !HasRetryDispatch(w.log, w.calls[id].pid, w.calls[id].attempts + 1)
    ensures MayAppend(w.log, Event(w.calls[id].pid, RetryDispatch, Some(w.calls[id].attempts + 1)), limit, who)
  {}

  lemma RetryKeepsInv(w: World, id: nat, maxAttempts: nat, limit: nat, who: string)
    requires Inv(w, limit, who) && CanProduce(w, FinishRetry(id, maxAttempts)) && maxAttempts <= limit
    ensures Inv(Produced(w, FinishRetry(id, maxAttempts)), limit, who)
  {
    var n, pid := w.calls[id].attempts + 1, w.calls[id].pid;
    var held := HasRetryDispatch(w.log, pid, n);
    if !held {
      CallMayAppend(w, id, maxAttempts, limit, who);
    }
    EndCallKeepsInv(w, id, Event(pid, RetryDispatch, Some(n)), held, limit, who);
  }

  lemma DutyKeepsInv(w: World, id: nat, name: Name, limit: nat, who: string)
    requires Inv(w, limit, who) && CanProduce(w, FinishDuty(id, name))
    ensures Inv(Produced(w, FinishDuty(id, name)), limit, who)
  {
    var pid := w.calls[id].pid;
    EndCallKeepsInv(w, id, Event(pid, name, None), HasDutyOutcome(w.log, pid), limit, who);
  }

  lemma GiveUpKeepsInv(w: World, id: nat, name: Name, limit: nat, who: string)
    requires Inv(w, limit, who) && CanProduce(w, GiveUpRetry(id, name))
    ensures Inv(Produced(w, GiveUpRetry(id, name)), limit, who)
  {
    EndCallKeepsInv(w, id, Event(w.calls[id].pid, name, None), false, limit, who);
  }

  lemma ProducerKeepsInv(w: World, step: Produce, limit: nat, who: string)
    requires Inv(w, limit, who) && CanProduce(w, step)
    requires step.FinishRetry? ==> step.maxAttempts <= limit
    ensures Inv(Produced(w, step), limit, who)
  {
    match step
    case Append(ev) => AppendKeepsInv(w, ev, limit, who);
    case Import(pid, review) => ImportKeepsInv(w, limit, pid, review, who);
    case StartRetry(id, pid) => NewCallKeepsInv(w, limit, id, RetryCall(pid, AttemptsOf(w.ledger, pid)), who);
    case ReadForAdmission(id) =>
    case WriteAdmission(id) => WriteKeepsInv(w, id, limit, who);
    case Abandon(id) => NoCallKeepsInv(w, limit, id, who);
    case FinishRetry(id, maxAttempts) => RetryKeepsInv(w, id, maxAttempts, limit, who);
    case GiveUpRetry(id, name) => GiveUpKeepsInv(w, id, name, limit, who);
    case StartDuty(id, pid) => NewCallKeepsInv(w, limit, id, DutyCall(pid), who);
    case FinishDuty(id, name) => DutyKeepsInv(w, id, name, limit, who);
  }

  /** The rows written outside the event loop: the report fallback and the watchdog's timeout. */
  predicate IsSweepRow(row: Row) {
    || (row.via.ReportFallback? && row.to == REPORTED && row.t == 4)
    || (row.via == On(Timeout) && row.to == TIMED_OUT && row.t == 5)
  }

  lemma SweepRowIsAuthorized(row: Row)
    requires IsSweepRow(row)
    ensures Authorized(RUNNING, row) && row.t !in {9, 11, 12, 13, 22, 26, 37}
  {}

  lemma SweepRowKeepsInv(w: World, pid: string, row: Row, limit: nat, who: string)
    requires Inv(w, limit, who) && WorkRunning(w, pid) && IsSweepRow(row)
    ensures Inv(WithWorkRow(w, pid, row), limit, who)
  {
    SweepRowIsAuthorized(row);
    WorkRowKeepsInv(w, limit, pid, row, who);
  }

  lemma WatchdogKeepsInv(w: World, pid: string, row: Row, ev: Event, limit: nat, who: string)
    requires Inv(w, limit, who) && WorkRunning(w, pid) && IsSweepRow(row) && ev.name == Timeout
    ensures Inv(WithWorkRow(w, pid, row).(log := w.log + [ev]), limit, who)
  {
    SweepRowKeepsInv(w, pid, row, limit, who);
    AppendKeepsInv(WithWorkRow(w, pid, row), ev, limit, who);
  }

  lemma MachineKeepsInv(w: World, step: Machine, limit: nat, who: string)
    requires Inv(w, limit, who) && CanMove(w, step)
    ensures Inv(Moved(w, step), limit, who)
  {
    match step
    case Handle(env) => HandleKeepsInv(w, limit, env, who);
    case Fallback(pid) => SweepRowKeepsInv(w, pid, Row(REPORTED, ReportFallback, 4), limit, who);
    case Watchdog(pid, attempt) =>
      WatchdogKeepsInv(w, pid, Row(TIMED_OUT, On(Timeout), 5), Event(pid, Timeout, attempt), limit, who);
    case Begin =>
    case Commit =>
    case Die =>
  }

  lemma InitialInv(limit: nat, who: string)
    ensures Inv(INITIAL, limit, who)
  {
    assert Seeded(FRESH, NONE);
  }

  lemma {:induction false} RunKeepsInv(w: World, steps: seq<Step>, limit: nat, who: string)
    requires Inv(w, limit, who) && IsRun(w, steps, limit)
    ensures Inv(After(w, steps, limit), limit, who)
    decreases |steps|
  {
    if steps != [] {
      if steps[0].ByProducer? {
        ProducerKeepsInv(w, steps[0].produce, limit, who);
      } else {
        MachineKeepsInv(w, steps[0].machine, limit, who);
      }
      RunKeepsInv(Next(w, steps[0]), steps[1..], limit, who);
    }
  }

  /* The theorems: every run from the empty system, every packet of the committed ledger. */

  /** Histories are authorized paths ending in the state; attempts count the retry rows; every
      dispatch is paid for; RUNNING is entered at most `attempts + 4` times. */
  lemma BoundedBirths(steps: seq<Step>, limit: nat, pid: string)
    requires IsRun(INITIAL, steps, limit) && pid in After(INITIAL, steps, limit).ledger.packets
    ensures var p := After(INITIAL, steps, limit).ledger.packets[pid];
      var rows := p.history;
      && (exists seed :: Seeded(p, seed)
            && Taken(rows, 3) + One(Waiting(p.state))
               <= One(seed == DISPATCHABLE) + Taken(rows, 1) + Taken(rows, 22) + p.attempts)
      && p.attempts == Taken(rows, 9) + Taken(rows, 37)
      && Taken(rows, 3) + Taken(rows, 11) + Taken(rows, 12) <= p.attempts + 4
  {
    InitialInv(limit, pid);
    RunKeepsInv(INITIAL, steps, limit, pid);
    var p := After(INITIAL, steps, limit).ledger.packets[pid];
    var seed :| Seeded(p, seed);
    BirthsArePaidFor(seed, p.history);
  }

  /** However steps die and replay and admissions put old ledgers back, no packet takes more than two
      replans or one timeout retry, and never more than one duty outcome is routed for it. */
  lemma CapsSurviveCrashes(steps: seq<Step>, limit: nat, pid: string)
    requires IsRun(INITIAL, steps, limit) && pid in After(INITIAL, steps, limit).ledger.packets
    ensures var rows := After(INITIAL, steps, limit).ledger.packets[pid].history;
      Taken(rows, 22) <= 2 && Taken(rows, 37) <= 1 && DutyRows(rows) <= 1
  {
    InitialInv(limit, pid);
    RunKeepsInv(INITIAL, steps, limit, pid);
  }

  lemma AttemptsMoveByRetries(b: Books, ev: Event, env: Env)
    requires EntryOf(Handled(b, ev, env).packets, ev.pid).attempts != EntryOf(b.packets, ev.pid).attempts
    ensures ev.name == RetryDispatch
    ensures ev.attempt.Some? ==> ev.attempt.value >= EntryOf(b.packets, ev.pid).attempts
    ensures EntryOf(Handled(b, ev, env).packets, ev.pid).attempts == EntryOf(b.packets, ev.pid).attempts + 1
  {
    RulingNumbers(b, ev, env);
  }

  /** The line a step is about to handle. */
  function NextLine(w: World): Event
    requires w.work.Some? && w.work.value.cursor < |w.log|
  {
    w.log[w.work.value.cursor]
  }

  /** The attempts of that line's packet, before and after it is handled. */
  function AttemptsBefore(w: World): nat
    requires w.work.Some? && w.work.value.cursor < |w.log|
  {
    AttemptsOf(w.work.value, NextLine(w).pid)
  }

  function AttemptsAfter(w: World, env: Env): nat
    requires w.work.Some? && w.work.value.cursor < |w.log|
  {
    EntryOf(Handled(WorkBooks(w), NextLine(w), env).packets, NextLine(w).pid).attempts
  }

  lemma OneMoreByRetry(w: World, env: Env)
    requires w.work.Some? && w.work.value.cursor < |w.log|
    requires AttemptsAfter(w, env) != AttemptsBefore(w)
    ensures NextLine(w).name == RetryDispatch && AttemptsAfter(w, env) == AttemptsBefore(w) + 1
    ensures NextLine(w).attempt.Some? ==> NextLine(w).attempt.value >= AttemptsBefore(w)
  {
    AttemptsMoveByRetries(WorkBooks(w), NextLine(w), env);
  }

  /* The numbers of the retries. */

  /** The retry lines of a packet among the first `n`. */
  function RetryLines(log: seq<Event>, who: string, n: nat): nat
    requires n <= |log|
  {
    if n == 0 then 0 else RetryLines(log, who, n - 1) + One(IsRetryOf(log[n - 1], who))
  }

  /** The numbers asked for so far are 1 up to the number of lines. */
  lemma {:induction false} NumbersAreLines(log: seq<Event>, limit: nat, who: string, n: nat, m: nat)
    requires RetriesOk(log, limit, who) && n <= |log| && m >= 1
    ensures RetryHandled(log, n, who, m) <==> m <= RetryLines(log, who, n)
    decreases n, 0
  {
    if n > 0 {
      NumbersAreLines(log, limit, who, n - 1, m);
      if IsRetryOf(log[n - 1], who) {
        NumberAtLine(log, limit, who, n - 1);
        assert m == log[n - 1].attempt.value ==> IsRetry(log[n - 1], who, m);
      }
      OneMoreHandled(log, who, n - 1, m);
    }
  }

  lemma OneMoreHandled(log: seq<Event>, who: string, n: nat, m: nat)
    requires n < |log|
    ensures RetryHandled(log, n + 1, who, m) <==> RetryHandled(log, n, who, m) || IsRetry(log[n], who, m)
  {
    if RetryHandled(log, n, who, m) {
      var i :| 0 <= i < n && i < |log| && IsRetry(log[i], who, m);
      assert i < n + 1;
    }
  }

  /** A retry line carries the number of its place among the retry lines of its packet. */
  lemma {:induction false} NumberAtLine(log: seq<Event>, limit: nat, who: string, n: nat)
    requires RetriesOk(log, limit, who) && n < |log| && IsRetryOf(log[n], who)
    ensures log[n] == Event(who, RetryDispatch, Some(RetryLines(log, who, n) + 1))
    decreases n, 1
  {
    var k, lines := log[n].attempt.value, RetryLines(log, who, n);
    assert RetryFollows(log, limit, who, n);
    if k > 1 {
      assert RetryHandled(log, n, who, k - 1);
      NumbersAreLines(log, limit, who, n, k - 1);
    }
    if k <= lines {
      NumbersAreLines(log, limit, who, n, k);
      assert false;
    }
  }

  /** In every run the retries of a packet stand in the log numbered 1, 2, 3, ... in this order. */
  lemma LogIsNumbered(steps: seq<Step>, limit: nat, pid: string, n: nat)
    requires IsRun(INITIAL, steps, limit)
    requires n < |After(INITIAL, steps, limit).log| && IsRetryOf(After(INITIAL, steps, limit).log[n], pid)
    ensures var log := After(INITIAL, steps, limit).log;
      log[n] == Event(pid, RetryDispatch, Some(RetryLines(log, pid, n) + 1))
  {
    InitialInv(limit, pid);
    RunKeepsInv(INITIAL, steps, limit, pid);
    NumberAtLine(After(INITIAL, steps, limit).log, limit, pid, n);
  }

  /** In every run: a retry that is counted asks for a number above every attempt counted so far,
      and for the next one exactly when every retry line read so far was counted. */
  lemma CountedInOrderWhen(steps: seq<Step>, limit: nat, env: Env, w: World)
    requires IsRun(INITIAL, steps, limit) && w == After(INITIAL, steps, limit)
    requires CanMove(w, Handle(env)) && AttemptsAfter(w, env) != AttemptsBefore(w)
    ensures NextLine(w).name == RetryDispatch && NextLine(w).attempt.Some?
    ensures AttemptsAfter(w, env) == AttemptsBefore(w) + 1 <= NextLine(w).attempt.value <= limit
    ensures AttemptsBefore(w) <= RetryLines(w.log, NextLine(w).pid, w.work.value.cursor)
    ensures NextLine(w).attempt.value == AttemptsAfter(w, env) <==>
      RetryLines(w.log, NextLine(w).pid, w.work.value.cursor) == AttemptsBefore(w)
  {
    var pid, cursor, a := NextLine(w).pid, w.work.value.cursor, AttemptsBefore(w);
    InitialInv(limit, pid);
    RunKeepsInv(INITIAL, steps, limit, pid);
    OneMoreByRetry(w, env);
    RetryAsksForMore(w.log, limit, cursor, pid, a);
    NumberAtLine(w.log, limit, pid, cursor);
  }

  /** What keeps the attempts of a packet ahead of its retries: no retry, and no call, is further
      than the next attempt of the committed ledger, and no copy is behind where it matters. */
  ghost predicate InStep(w: World, who: string) {
    var a := AttemptsOf(w.ledger, who);
    && RetriesWithin(w.log, who, a + 1)
    && (w.work.Some? ==> a <= AttemptsOf(w.work.value, who))
    && (w.admission.Some? ==> AttemptsOf(w.admission.value.read, who) <= a)
    && CallsWithin(w.calls, who, a)
  }

  ghost predicate RetriesWithin(log: seq<Event>, who: string, n: nat) {
    forall i :: 0 <= i < |log| && IsRetryOf(log[i], who) && log[i].attempt.Some? ==> log[i].attempt.value <= n
  }

  ghost predicate CallsWithin(calls: map<nat, Call>, who: string, n: nat) {
    forall id :: id in calls && calls[id].RetryCall? && calls[id].pid == who ==> calls[id].attempts <= n
  }

  /** The step is an admission that puts back a ledger with fewer attempts of the packet. */
  predicate TakesBack(w: World, step: Step, who: string)
    requires Enabled(w, step)
  {
    && step.ByProducer? && step.produce.WriteAdmission?
    && AttemptsOf(Replacement(w.admission.value, AdmissionAt(FAILED)), who) < AttemptsOf(w.ledger, who)
  }

  /** An admission whose read is still the committed ledger takes nothing back. */
  lemma FreshAdmissionTakesNothing(w: World, id: nat, limit: nat, who: string)
    requires Inv(w, limit, who) && Admitting(w, id) && w.admission.value.read == w.ledger
    ensures !TakesBack(w, ByProducer(WriteAdmission(id)), who)
  {}

  lemma AppendKeepsInStep(w: World, ev: Event, who: string)
    requires InStep(w, who)
    requires IsRetryOf(ev, who) && ev.attempt.Some? ==> ev.attempt.value <= AttemptsOf(w.ledger, who) + 1
    ensures InStep(w.(log := w.log + [ev]), who)
  {
    var more := w.log + [ev];
    assert RetriesWithin(more, who, AttemptsOf(w.ledger, who) + 1);
  }

  lemma EndCallKeepsInStep(w: World, id: nat, ev: Event, held: bool, who: string)
    requires InStep(w, who)
    requires IsRetryOf(ev, who) && ev.attempt.Some? ==> ev.attempt.value <= AttemptsOf(w.ledger, who) + 1
    ensures InStep(EndCall(w, id, ev, held), who)
  {
    assert InStep(w.(calls := w.calls - {id}), who);
    AppendKeepsInStep(w.(calls := w.calls - {id}), ev, who);
  }

  /** Another ledger with as many attempts of the packet is put in place. */
  lemma LedgerPutKeepsInStep(w: World, l: Ledger, who: string)
    requires InStep(w, who) && AttemptsOf(l, who) == AttemptsOf(w.ledger, who)
    ensures InStep(w.(ledger := l), who) && InStep(Replaced(w, l), who)
  {}

  lemma ReplacementKeepsInStep(w: World, p: Packet, who: string)
    requires InStep(w, who) && w.admission.Some? && p.attempts == 0
    requires w.admission.value.pid !in w.admission.value.read.packets
    requires AttemptsOf(Replacement(w.admission.value, p), who) >= AttemptsOf(w.ledger, who)
    ensures InStep(Replaced(w, Replacement(w.admission.value, p)), who)
  {
    var a := w.admission.value;
    assert AttemptsOf(Replacement(a, p), who) == AttemptsOf(a.read, who);
    LedgerPutKeepsInStep(w, Replacement(a, p), who);
  }

  lemma WriteKeepsInStep(w: World, id: nat, limit: nat, who: string)
    requires Inv(w, limit, who) && InStep(w, who) && CanProduce(w, WriteAdmission(id))
    requires !TakesBack(w, ByProducer(WriteAdmission(id)), who)
    ensures InStep(Produced(w, WriteAdmission(id)), who)
  {
    ReplacementKeepsInStep(w, AdmissionAt(FAILED), who);
  }

  lemma FinishKeepsInStep(w: World, id: nat, maxAttempts: nat, who: string)
    requires InStep(w, who) && CanProduce(w, FinishRetry(id, maxAttempts))
    ensures InStep(Produced(w, FinishRetry(id, maxAttempts)), who)
  {
    var n, pid := w.calls[id].attempts + 1, w.calls[id].pid;
    EndCallKeepsInStep(w, id, Event(pid, RetryDispatch, Some(n)), HasRetryDispatch(w.log, pid, n), who);
  }

  lemma CallKeepsInStep(w: World, id: nat, call: Call, who: string)
    requires InStep(w, who) && (call.RetryCall? ==> call.attempts <= AttemptsOf(w.ledger, call.pid))
    ensures InStep(w.(calls := w.calls[id := call]), who)
  {}

  lemma ProducerKeepsInStep(w: World, step: Produce, limit: nat, who: string)
    requires Inv(w, limit, who) && InStep(w, who) && CanProduce(w, step) && !TakesBack(w, ByProducer(step), who)
    ensures InStep(Produced(w, step), who)
  {
    match step
    case Append(ev) => AppendKeepsInStep(w, ev, who);
    case Import(pid, review) => LedgerPutKeepsInStep(w, Admit(w, pid, ImportedAt(DISPATCHABLE, review)).ledger, who);
    case StartRetry(id, pid) => CallKeepsInStep(w, id, RetryCall(pid, AttemptsOf(w.ledger, pid)), who);
    case ReadForAdmission(id) =>
    case WriteAdmission(id) => WriteKeepsInStep(w, id, limit, who);
    case Abandon(id) =>
    case FinishRetry(id, maxAttempts) => FinishKeepsInStep(w, id, maxAttempts, who);
    case GiveUpRetry(id, name) => EndCallKeepsInStep(w, id, Event(w.calls[id].pid, name, None), false, who);
    case StartDuty(id, pid) => CallKeepsInStep(w, id, DutyCall(pid), who);
    case FinishDuty(id, name) =>
      var pid := w.calls[id].pid;
      EndCallKeepsInStep(w, id, Event(pid, name, None), HasDutyOutcome(w.log, pid), who);
  }

  lemma MachineKeepsInStep(w: World, step: Machine, who: string)
    requires InStep(w, who) && CanMove(w, step)
    ensures InStep(Moved(w, step), who)
  {
    match step
    case Handle(env) =>
      HandledOnlyGrows(WorkBooks(w), NextLine(w), env, who);
    case Fallback(pid) =>
    case Watchdog(pid, attempt) =>
    case Begin =>
    case Commit =>
    case Die =>
  }

  /** No admission of the run takes an attempt of the packet back. */
  ghost predicate KeepsAttempts(w: World, steps: seq<Step>, limit: nat, who: string)
    requires IsRun(w, steps, limit)
    decreases |steps|
  {
    steps == [] || (!TakesBack(w, steps[0], who) && KeepsAttempts(Next(w, steps[0]), steps[1..], limit, who))
  }

  lemma {:induction false} RunKeepsInStep(w: World, steps: seq<Step>, limit: nat, who: string)
    requires Inv(w, limit, who) && InStep(w, who) && IsRun(w, steps, limit) && KeepsAttempts(w, steps, limit, who)
    ensures InStep(After(w, steps, limit), who)
    decreases |steps|
  {
    if steps != [] {
      if steps[0].ByProducer? {
        ProducerKeepsInv(w, steps[0].produce, limit, who);
        ProducerKeepsInStep(w, steps[0].produce, limit, who);
      } else {
        MachineKeepsInv(w, steps[0].machine, limit, who);
        MachineKeepsInStep(w, steps[0].machine, who);
      }
      RunKeepsInStep(Next(w, steps[0]), steps[1..], limit, who);
    }
  }

  lemma LineIsWithin(w: World, who: string)
    requires InStep(w, who) && w.work.Some?
    ensures RetriesWithin(w.log, who, AttemptsOf(w.work.value, who) + 1)
  {}

  /** In a run without such an admission a retry row is only ever written for the event that asks
      for exactly the next attempt, so the retries a packet takes are numbered 1, 2, 3, ... without
      gap or repeat. */
  lemma RetriesAreNumberedInOrder(steps: seq<Step>, limit: nat, env: Env, w: World)
    requires IsRun(INITIAL, steps, limit) && w == After(INITIAL, steps, limit)
    requires CanMove(w, Handle(env)) && AttemptsAfter(w, env) != AttemptsBefore(w)
    requires KeepsAttempts(INITIAL, steps, limit, NextLine(w).pid)
    ensures NextLine(w) == Event(NextLine(w).pid, RetryDispatch, Some(AttemptsBefore(w) + 1))
    ensures AttemptsAfter(w, env) == AttemptsBefore(w) + 1 <= limit
  {
    InitialInv(limit, NextLine(w).pid);
    CountedInOrderWhen(steps, limit, env, w);
    RunKeepsInStep(INITIAL, steps, limit, NextLine(w).pid);
    assert RetriesWithin(w.log, NextLine(w).pid, AttemptsBefore(w) + 1) by { LineIsWithin(w, NextLine(w).pid); }
  }

  /** The log holds at most one retry per packet and number and one duty outcome per packet. */
  lemma ProducersAreUnique(steps: seq<Step>, limit: nat, i: nat, j: nat, pid: string)
    requires IsRun(INITIAL, steps, limit) && i < j < |After(INITIAL, steps, limit).log|
    ensures var log := After(INITIAL, steps, limit).log;
      && !(log[i].name == RetryDispatch && log[i].pid == pid && log[j] == log[i])
      && !(IsOutcomeOf(log[i], pid) && IsOutcomeOf(log[j], pid))
  {
    InitialInv(limit, pid);
    RunKeepsInv(INITIAL, steps, limit, pid);
  }

  /** No packet ever counts more attempts than the largest class limit. */
  lemma AttemptsStayWithinLimit(steps: seq<Step>, limit: nat, pid: string)
    requires IsRun(INITIAL, steps, limit)
    ensures AttemptsOf(After(INITIAL, steps, limit).ledger, pid) <= limit
  {
    InitialInv(limit, pid);
    RunKeepsInv(INITIAL, steps, limit, pid);
    var w := After(INITIAL, steps, limit);
    var n := AttemptsOf(w.ledger, pid);
    if n > 0 {
      assert RetryHandled(w.log, w.ledger.cursor, pid, n);
      var k :| 0 <= k < w.ledger.cursor && k < |w.log| && IsRetry(w.log[k], pid, n);
    }
  }
}
