/** The packet state machine: its transition table, the decision taken for one event, and what
    every packet history made of such decisions satisfies. */
module Lifecycle {
  import opened Wrappers

  datatype State =
    | NONE | PLANNED | DISPATCHABLE | RUNNING | REPORTED | TIMED_OUT | FAILED | ACCEPTED
    | DUTY_REVIEW | DEAD_LETTER | MERGED | MERGE_CONFLICT | WAVE_DONE | SOL_ADJUDICATE | DONE

  /** Event names: the table's, `unparseable` for a malformed line, audit-only ones, and others. */
  datatype Name =
    | Planned | DagAssertPass | Dispatched | SubagentStop | Timeout | ExecFailed
    | AcceptancePass | AcceptanceFail | RetryDispatch | DutyReview
    | DutyRetryable | DutyFixable | DutyTerminal | BudgetExhausted
    | Merged | MergeConflict | WaveComplete | DeadLetterSummary | ConflictPointer | WaveSummary
    | SolReplan | ReleaseMerge | ReviewVerdictPass | ReviewVerdictFail
    | Unparseable | Info(text: string) | OffTable(text: string)

  datatype Event = Event(pid: string, name: Name, attempt: Option<int>)

  datatype Edge = Edge(to: State, t: nat)

  /** The complete set of authorized transitions. */
  function Table(s: State, n: Name): Option<Edge> {
    match (s, n)
    case (NONE, Planned) => Some(Edge(PLANNED, 1))
    case (PLANNED, DagAssertPass) => Some(Edge(DISPATCHABLE, 2))
    case (DISPATCHABLE, Dispatched) => Some(Edge(RUNNING, 3))
    case (RUNNING, SubagentStop) => Some(Edge(REPORTED, 4))
    case (RUNNING, Timeout) => Some(Edge(TIMED_OUT, 5))
    case (RUNNING, ExecFailed) => Some(Edge(FAILED, 6))
    case (REPORTED, AcceptancePass) => Some(Edge(ACCEPTED, 7))
    case (REPORTED, AcceptanceFail) => Some(Edge(FAILED, 8))
    case (FAILED, RetryDispatch) => Some(Edge(DISPATCHABLE, 9))
    case (TIMED_OUT, RetryDispatch) => Some(Edge(DISPATCHABLE, 37))
    case (FAILED, DutyReview) => Some(Edge(DUTY_REVIEW, 10))
    case (TIMED_OUT, DutyReview) => Some(Edge(DUTY_REVIEW, 10))
    case (DUTY_REVIEW, DutyRetryable) => Some(Edge(RUNNING, 11))
    case (DUTY_REVIEW, DutyFixable) => Some(Edge(RUNNING, 12))
    case (DUTY_REVIEW, DutyTerminal) => Some(Edge(DEAD_LETTER, 13))
    case (TIMED_OUT, BudgetExhausted) => Some(Edge(DEAD_LETTER, 14))
    case (FAILED, BudgetExhausted) => Some(Edge(DEAD_LETTER, 15))
    case (ACCEPTED, Merged) => Some(Edge(MERGED, 16))
    case (ACCEPTED, MergeConflict) => Some(Edge(MERGE_CONFLICT, 17))
    case (MERGED, WaveComplete) => Some(Edge(WAVE_DONE, 18))
    case (DEAD_LETTER, DeadLetterSummary) => Some(Edge(SOL_ADJUDICATE, 19))
    case (MERGE_CONFLICT, ConflictPointer) => Some(Edge(SOL_ADJUDICATE, 20))
    case (WAVE_DONE, WaveSummary) => Some(Edge(SOL_ADJUDICATE, 21))
    case (SOL_ADJUDICATE, SolReplan) => Some(Edge(PLANNED, 22))
    case (SOL_ADJUDICATE, ReleaseMerge) => Some(Edge(DONE, 23))
    case (REPORTED, ReviewVerdictPass) => Some(Edge(SOL_ADJUDICATE, 24))
    case (REPORTED, ReviewVerdictFail) => Some(Edge(SOL_ADJUDICATE, 25))
    case _ => None
  }

  /** Why a history row was written; only `On`, the report fallback and a refused replan carry a
      transition number. */
  datatype Via =
    | On(name: Name) | ReportFallback | CapForced | Dead(reason: string)
    | Stale | LateStop | TimeoutAgain | LateEvent | DispatchConfirmed | Admitted

  datatype Row = Row(to: State, via: Via, t: nat)

  datatype Packet = Packet(state: State, history: seq<Row>, attempts: nat, releaseReview: bool)

  /** What the machine finds outside the ledger when it handles one event. */
  datatype Env = Env(reportExists: bool, reportCurrent: bool, enforceDuty: bool, countersReadable: bool)

  const REPLAN_CAP := 2
  const TIMEOUT_RETRY_MAX := 1

  datatype Counter = NoCounter | ReplanCounter | TimeoutCounter

  datatype Decision = Decision(row: Row, bump: Counter)

  /** Taking an edge under its cap: t22 and t37 count first and stop when the count is exceeded;
      an unreadable counter stops them too, uncounted. */
  function CapRuling(name: Name, edge: Edge, readable: bool, replans: nat, timeouts: nat): Decision {
    if edge.t == 22 && (!readable || replans + 1 > REPLAN_CAP) then
      Decision(Row(SOL_ADJUDICATE, CapForced, 22), if readable then ReplanCounter else NoCounter)
    else if edge.t == 37 && (!readable || timeouts + 1 > TIMEOUT_RETRY_MAX) then
      Decision(Row(DEAD_LETTER, Dead("timeout_retry_exhausted"), 0), if readable then TimeoutCounter else NoCounter)
    else
      Decision(Row(edge.to, On(name), edge.t),
               if edge.t == 22 then ReplanCounter else if edge.t == 37 then TimeoutCounter else NoCounter)
  }

  /** The one row an admitted packet gets for an event, and the sidecar counter it bumps. */
  function Decide(p: Packet, ev: Event, env: Env, replans: nat, timeouts: nat): Decision {
    var edge := Table(p.state, ev.name);
    if ev.attempt.Some? && ev.attempt.value < p.attempts then
      Decision(Row(p.state, Stale, 0), NoCounter)
    else if p.state == REPORTED && ev.name == SubagentStop && env.reportExists then
      Decision(Row(REPORTED, LateStop, 0), NoCounter)
    else if p.state == TIMED_OUT && ev.name == Timeout then
      Decision(Row(TIMED_OUT, TimeoutAgain, 0), NoCounter)
    else if p.state == DEAD_LETTER && edge.None? then
      Decision(Row(DEAD_LETTER, LateEvent, 0), NoCounter)
    else if p.state == RUNNING && ev.name == Dispatched && ev.attempt == Some(p.attempts) then
      Decision(Row(RUNNING, DispatchConfirmed, 0), NoCounter)
    else if p.releaseReview && p.state == RUNNING && ev.name == ExecFailed then
      Decision(Row(SOL_ADJUDICATE, On(ExecFailed), 26), NoCounter)
    else if edge.None? then
      Decision(Row(DEAD_LETTER, Dead("off_table_event"), 0), NoCounter)
    else if edge.value.t == 4 && !env.reportCurrent then
      Decision(Row(DEAD_LETTER, Dead("report_missing_on_stop"), 0), NoCounter)
    else if edge.value.t in {11, 12} && !env.enforceDuty then
      Decision(Row(DEAD_LETTER, Dead("duty_ruling_recorded_not_routed"), 0), NoCounter)
    else
      CapRuling(ev.name, edge.value, env.countersReadable, replans, timeouts)
  }

  predicate IsRetryRow(row: Row) {
    row.t in {9, 37}
  }

  function WithRow(p: Packet, row: Row): Packet {
    p.(state := row.to, history := p.history + [row],
       attempts := if IsRetryRow(row) then p.attempts + 1 else p.attempts)
  }

  /* Histories are authorized paths. */

  predicate Authorized(from: State, row: Row) {
    match row.via
    case On(n) =>
      || Table(from, n) == Some(Edge(row.to, row.t))
      || (from == RUNNING && n == ExecFailed && row.to == SOL_ADJUDICATE && row.t == 26)
    case ReportFallback => from == RUNNING && row.to == REPORTED && row.t == 4
    case CapForced => from == SOL_ADJUDICATE && row.to == SOL_ADJUDICATE && row.t == 22
    case Dead(_) => row.to == DEAD_LETTER && row.t == 0
    case _ => row.to == from && row.t == 0
  }

  function EndOf(seed: State, rows: seq<Row>): State {
    if rows == [] then seed else rows[|rows| - 1].to
  }

  predicate Path(seed: State, rows: seq<Row>) {
    rows == [] ||
    (var init := rows[..|rows| - 1];
     Path(seed, init) && Authorized(EndOf(seed, init), rows[|rows| - 1]))
  }

  /** How often transition `t` was really taken; a refused replan is not one. */
  function Taken(rows: seq<Row>, t: nat): nat {
    if rows == [] then 0
    else
      var last := rows[|rows| - 1];
      Taken(rows[..|rows| - 1], t) + (if last.t == t && last.via != CapForced then 1 else 0)
  }

  function One(b: bool): nat { if b then 1 else 0 }

  predicate Waiting(s: State) { s == PLANNED || s == DISPATCHABLE }

  lemma TakenAppend(rows: seq<Row>, row: Row, t: nat)
    ensures Taken(rows + [row], t) == Taken(rows, t) + One(row.t == t && row.via != CapForced)
  {
    assert (rows + [row])[..|rows|] == rows;
  }

  lemma PathAppend(seed: State, rows: seq<Row>, row: Row)
    requires Path(seed, rows) && Authorized(EndOf(seed, rows), row)
    ensures Path(seed, rows + [row]) && EndOf(seed, rows + [row]) == row.to
  {
    assert (rows + [row])[..|rows|] == rows;
  }

  /** A decision only ever takes an authorized edge, and it leaves the right state behind. */
  lemma DecisionIsAuthorized(p: Packet, ev: Event, env: Env, replans: nat, timeouts: nat)
    ensures Authorized(p.state, Decide(p, ev, env, replans, timeouts).row)
  {}

  /** Only a retry that is not stale writes a retry row. */
  lemma RetryRowsComeFromRetries(p: Packet, ev: Event, env: Env, replans: nat, timeouts: nat)
    requires IsRetryRow(Decide(p, ev, env, replans, timeouts).row)
    ensures ev.name == RetryDispatch && (ev.attempt.Some? ==> ev.attempt.value >= p.attempts)
  {}

  lemma DutyRowsComeFromOutcomes(p: Packet, ev: Event, env: Env, replans: nat, timeouts: nat)
    requires Decide(p, ev, env, replans, timeouts).row.t in {11, 12, 13}
    ensures p.state == DUTY_REVIEW && ev.name in {DutyRetryable, DutyFixable, DutyTerminal}
  {}

  /** Only a release review takes the edge from a failed run to adjudication. */
  lemma ReviewRowsComeFromReviews(p: Packet, ev: Event, env: Env, replans: nat, timeouts: nat)
    requires Decide(p, ev, env, replans, timeouts).row.t == 26
    ensures p.releaseReview && p.state == RUNNING && ev.name == ExecFailed
  {}

  /** A capped transition is taken only below its cap, and bumps its counter. */
  lemma CappedRowsAreCounted(p: Packet, ev: Event, env: Env, replans: nat, timeouts: nat)
    ensures var d := Decide(p, ev, env, replans, timeouts);
      && (d.row.t == 22 && d.row.via != CapForced ==> d.bump == ReplanCounter && replans < REPLAN_CAP)
      && (d.row.t == 37 ==> d.bump == TimeoutCounter && timeouts < TIMEOUT_RETRY_MAX)
  {}

  /** Births are paid for: on every authorized path, dispatches plus a packet still waiting to be
      dispatched never exceed the plans, replans and retries that made it dispatchable. */
  lemma {:induction false} BirthsArePaidFor(seed: State, rows: seq<Row>)
    requires Path(seed, rows)
    ensures Taken(rows, 3) + One(Waiting(EndOf(seed, rows)))
         <= One(Waiting(seed)) + Taken(rows, 1) + Taken(rows, 22) + Taken(rows, 9) + Taken(rows, 37)
    ensures Taken(rows, 1) + One(EndOf(seed, rows) == NONE) <= One(seed == NONE)
  {
    if rows != [] {
      BirthsArePaidFor(seed, rows[..|rows| - 1]);
    }
  }

  /** A packet that is dispatched twice went through a replan or a retry in between. */
  lemma {:induction false} DispatchNeedsRelease(seed: State, rows: seq<Row>, i: nat, j: nat)
    requires Path(seed, rows) && i < j < |rows|
    requires rows[i].t == 3 && rows[j].t == 3
    ensures exists m :: i < m < j && (IsRetryRow(rows[m]) || (rows[m].t == 22 && rows[m].to == PLANNED))
  {
    if forall m :: i < m < j ==> !(IsRetryRow(rows[m]) || (rows[m].t == 22 && rows[m].to == PLANNED)) {
      NotWaitingAgain(seed, rows, i, j);
      PathAt(seed, rows, j);
      assert false;
    }
  }

  lemma {:induction false} PathAt(seed: State, rows: seq<Row>, k: nat)
    requires Path(seed, rows) && k < |rows|
    ensures Authorized(if k == 0 then seed else rows[k - 1].to, rows[k])
  {
    if k < |rows| - 1 {
      PathAt(seed, rows[..|rows| - 1], k);
    }
  }

  lemma {:induction false} NotWaitingAgain(seed: State, rows: seq<Row>, i: nat, k: nat)
    requires Path(seed, rows) && i < k < |rows| && rows[i].t == 3
    requires forall m :: i < m < k ==> !(IsRetryRow(rows[m]) || (rows[m].t == 22 && rows[m].to == PLANNED))
    ensures !Waiting(rows[k - 1].to) && rows[k - 1].to != NONE
  {
    PathAt(seed, rows, k - 1);
    if k - 1 > i {
      NotWaitingAgain(seed, rows, i, k - 1);
    }
  }

  /* Events against the whole ledger. */

  type Packets = map<string, Packet>
  type Counters = map<string, nat>

  function CountOf(c: Counters, pid: string): nat {
    if pid in c then c[pid] else 0
  }

  datatype Books = Books(packets: Packets, replans: Counters, timeouts: Counters)

  datatype Outcome = Ignored | Reached(state: State) | Halted

  predicate Alnum(c: char) {
    'A' <= c <= 'Z' || 'a' <= c <= 'z' || '0' <= c <= '9'
  }

  /** Ids that may become file names: 1 to 96 letters, digits, `.`, `_`, `-`, the first alphanumeric. */
  predicate SafePid(pid: string) {
    && 1 <= |pid| <= 96
    && Alnum(pid[0])
    && (forall i :: 0 <= i < |pid| ==> Alnum(pid[i]) || pid[i] in {'.', '_', '-'})
  }

  /** Verifier jobs have their own lifecycle and never touch a source packet. */
  predicate Synthetic(pid: string) {
    "l2v-" <= pid || "v2job-" <= pid
  }

  const FRESH := Packet(NONE, [], 0, false)

  function EntryOf(packets: Packets, pid: string): Packet {
    if pid in packets then packets[pid] else FRESH
  }

  function Bumped(b: Books, pid: string, c: Counter): Books {
    match c
    case NoCounter => b
    case ReplanCounter => b.(replans := b.replans[pid := CountOf(b.replans, pid) + 1])
    case TimeoutCounter => b.(timeouts := b.timeouts[pid := CountOf(b.timeouts, pid) + 1])
  }

  predicate Skipped(b: Books, ev: Event) {
    || Synthetic(ev.pid)
    || ev.name.Info?
    || (SafePid(ev.pid) && ev.name != Unparseable && ev.pid !in b.packets && ev.name != Planned)
  }

  predicate Halts(b: Books, ev: Event) {
    !Skipped(b, ev) && !SafePid(ev.pid)
  }

  /** What a handled event decides for its packet. */
  function Ruling(b: Books, ev: Event, env: Env): Decision {
    if ev.name == Unparseable then Decision(Row(DEAD_LETTER, Dead("unparseable_event_line"), 0), NoCounter)
    else Decide(EntryOf(b.packets, ev.pid), ev, env, CountOf(b.replans, ev.pid), CountOf(b.timeouts, ev.pid))
  }

  function Handled(b: Books, ev: Event, env: Env): Books {
    if Skipped(b, ev) || Halts(b, ev) then b
    else
      var d := Ruling(b, ev, env);
      var c := Bumped(b, ev.pid, d.bump);
      c.(packets := c.packets[ev.pid := WithRow(EntryOf(b.packets, ev.pid), d.row)])
  }

  function OutcomeOf(b: Books, ev: Event, env: Env): Outcome {
    if Skipped(b, ev) then Ignored
    else if Halts(b, ev) then Halted
    else Reached(Ruling(b, ev, env).row.to)
  }

  /** An event touches at most the packet it names. */
  lemma OthersAreUntouched(b: Books, ev: Event, env: Env, pid: string)
    requires pid != ev.pid
    ensures EntryOf(Handled(b, ev, env).packets, pid) == EntryOf(b.packets, pid)
    ensures pid in Handled(b, ev, env).packets <==> pid in b.packets
    ensures CountOf(Handled(b, ev, env).replans, pid) == CountOf(b.replans, pid)
    ensures CountOf(Handled(b, ev, env).timeouts, pid) == CountOf(b.timeouts, pid)
  {}
}
