/** What the admission of an unknown packet can do to the ledger.  It reads and replaces the whole
    document under a lock of its own, so it may lose a step's commit, or a step may lose it. */
module StaleAdmission {
  import opened Wrappers
  import opened Lifecycle
  import opened LifecycleWorld
  import LifecycleMachine

  /** An admission written while a step is in progress survives its commit if and only if the step
      had met the packet itself. */
  lemma AdmissionSurvivesCommitWhen(w: World, id: nat)
    requires Admitting(w, id) && w.work.Some?
    ensures var written := Next(w, ByProducer(WriteAdmission(id)));
      && w.admission.value.pid in written.ledger.packets
      && (w.admission.value.pid in Next(written, ByMachine(Commit)).ledger.packets <==>
            w.admission.value.pid in w.work.value.packets)
  {}

  /** Whatever was committed after the read of an admission is gone with its replace: every other
      packet is back where it was read, and so is the cursor. */
  lemma ReplaceRevertsCommits(w: World, id: nat, pid: string)
    requires Admitting(w, id) && pid != w.admission.value.pid
    ensures var l, read := Next(w, ByProducer(WriteAdmission(id))).ledger, w.admission.value.read;
      l.cursor == read.cursor && EntryOf(l.packets, pid) == EntryOf(read.packets, pid)
  {}

  /* A run in which a replace makes a packet count its second retry as its first attempt. */

  /** Any readable surroundings. */
  const QUIET := Env(false, false, false, true)

  /** A packet the machine handles events of. */
  predicate Plain(pid: string) {
    SafePid(pid) && !Synthetic(pid)
  }

  /** Nothing in progress and every line read. */
  predicate Resting(w: World) {
    w.work.None? && w.ledger.cursor == |w.log|
  }

  lemma TakeStep(steps: seq<Step>, w: World, step: Step, limit: nat) returns (more: seq<Step>)
    requires IsRun(INITIAL, steps, limit) && After(INITIAL, steps, limit) == w
    requires Enabled(w, step) && WithinLimit(step, limit)
    ensures more == steps + [step] && IsRun(INITIAL, more, limit) && After(INITIAL, more, limit) == Next(w, step)
  {
    LifecycleMachine.RunAppend(INITIAL, steps, step, limit);
    more := steps + [step];
  }

  /** The ledger one row and one line further on. */
  function OneRow(l: Ledger, pid: string, row: Row): Ledger {
    Ledger(l.packets[pid := WithRow(EntryOf(l.packets, pid), row)], l.cursor + 1)
  }

  /** The line at the cursor of a step gives its packet a row without a counter. */
  ghost predicate GivesRow(w: World, ev: Event, row: Row) {
    && ev.pid in w.ledger.packets && Plain(ev.pid) && !ev.name.Info? && ev.name != Unparseable
    && forall r, t :: Decide(w.ledger.packets[ev.pid], ev, QUIET, r, t) == Decision(row, NoCounter)
  }

  lemma RowIsHandled(b: Books, ev: Event, row: Row)
    requires ev.pid in b.packets && Plain(ev.pid) && !ev.name.Info? && ev.name != Unparseable
    requires Decide(b.packets[ev.pid], ev, QUIET, CountOf(b.replans, ev.pid), CountOf(b.timeouts, ev.pid))
          == Decision(row, NoCounter)
    ensures !Halts(b, ev)
    ensures Handled(b, ev, QUIET) == b.(packets := b.packets[ev.pid := WithRow(b.packets[ev.pid], row)])
  {}

  lemma HandleOne(w: World, ev: Event, row: Row)
    requires w.ledger.cursor < |w.log| && w.log[w.ledger.cursor] == ev && GivesRow(w, ev, row)
    ensures HandleNext(w.(work := Some(w.ledger)), QUIET) == w.(work := Some(OneRow(w.ledger, ev.pid, row)))
  {
    RowIsHandled(Books(w.ledger.packets, w.replans, w.timeouts), ev, row);
  }

  /** A whole step over one line that was just appended. */
  lemma FoldOne(steps: seq<Step>, w: World, ev: Event, row: Row, limit: nat) returns (more: seq<Step>)
    requires IsRun(INITIAL, steps, limit) && After(INITIAL, steps, limit) == w
    requires w.work.None? && |w.log| == w.ledger.cursor + 1 && w.log[w.ledger.cursor] == ev && GivesRow(w, ev, row)
    ensures IsRun(INITIAL, more, limit)
    ensures After(INITIAL, more, limit) == w.(ledger := OneRow(w.ledger, ev.pid, row))
  {
    more := TakeStep(steps, w, ByMachine(Begin), limit);
    var open := w.(work := Some(w.ledger));
    more := TakeStep(more, open, ByMachine(Handle(QUIET)), limit);
    HandleOne(w, ev, row);
    more := TakeStep(more, w.(work := Some(OneRow(w.ledger, ev.pid, row))), ByMachine(Commit), limit);
  }

  lemma AppendAndFold(steps: seq<Step>, w: World, ev: Event, row: Row, limit: nat) returns (more: seq<Step>)
    requires IsRun(INITIAL, steps, limit) && After(INITIAL, steps, limit) == w
    requires Resting(w) && CanProduce(w, Append(ev)) && GivesRow(w, ev, row)
    ensures IsRun(INITIAL, more, limit)
    ensures After(INITIAL, more, limit) == w.(log := w.log + [ev], ledger := OneRow(w.ledger, ev.pid, row))
  {
    more := TakeStep(steps, w, ByProducer(Append(ev)), limit);
    more := FoldOne(more, w.(log := w.log + [ev]), ev, row, limit);
  }

  function Failure(pid: string): seq<Event> {
    [Event(pid, Dispatched, None), Event(pid, ExecFailed, None)]
  }

  /** The packet after it was dispatched and failed. */
  function FailedOnce(p: Packet): Packet {
    WithRow(WithRow(p, Row(RUNNING, On(Dispatched), 3)), Row(FAILED, On(ExecFailed), 6))
  }

  predicate ReadyAt(w: World, pid: string, p: Packet) {
    Resting(w) && pid in w.ledger.packets && w.ledger.packets[pid] == p && p.state == DISPATCHABLE && !p.releaseReview
  }

  lemma FailureRows(p: Packet, pid: string, r: nat, t: nat)
    requires p.state == DISPATCHABLE && !p.releaseReview
    ensures Decide(p, Event(pid, Dispatched, None), QUIET, r, t) == Decision(Row(RUNNING, On(Dispatched), 3), NoCounter)
    ensures Decide(WithRow(p, Row(RUNNING, On(Dispatched), 3)), Event(pid, ExecFailed, None), QUIET, r, t)
         == Decision(Row(FAILED, On(ExecFailed), 6), NoCounter)
  {}

  /** A dispatchable packet is dispatched and fails. */
  lemma DispatchAndFail(steps: seq<Step>, w: World, pid: string, p: Packet, limit: nat)
    returns (more: seq<Step>, w': World)
    requires IsRun(INITIAL, steps, limit) && After(INITIAL, steps, limit) == w && Plain(pid) && ReadyAt(w, pid, p)
    ensures IsRun(INITIAL, more, limit) && After(INITIAL, more, limit) == w' && Resting(w')
    ensures w' == w.(log := w.log + Failure(pid), ledger := Ledger(w.ledger.packets[pid := FailedOnce(p)], |w.log| + 2))
  {
    var dispatched, failed := Event(pid, Dispatched, None), Event(pid, ExecFailed, None);
    forall r, t
      ensures Decide(p, dispatched, QUIET, r, t) == Decision(Row(RUNNING, On(Dispatched), 3), NoCounter)
      ensures Decide(WithRow(p, Row(RUNNING, On(Dispatched), 3)), failed, QUIET, r, t)
           == Decision(Row(FAILED, On(ExecFailed), 6), NoCounter)
    {
      FailureRows(p, pid, r, t);
    }
    more := AppendAndFold(steps, w, dispatched, Row(RUNNING, On(Dispatched), 3), limit);
    var mid := w.(log := w.log + [dispatched], ledger := OneRow(w.ledger, pid, Row(RUNNING, On(Dispatched), 3)));
    more := AppendAndFold(more, mid, failed, Row(FAILED, On(ExecFailed), 6), limit);
    w' := w.(log := w.log + Failure(pid), ledger := Ledger(w.ledger.packets[pid := FailedOnce(p)], |w.log| + 2));
    assert w.log + [dispatched] + [failed] == w.log + Failure(pid);
  }

  /** The packet after a retry brought it back from its failure. */
  function Retried(p: Packet): Packet {
    WithRow(p, Row(DISPATCHABLE, On(RetryDispatch), 9))
  }

  /** A retry call of a failed packet, whose line is the first retry of the log. */
  lemma FirstRetry(steps: seq<Step>, w: World, id: nat, pid: string, limit: nat) returns (more: seq<Step>)
    requires IsRun(INITIAL, steps, limit) && After(INITIAL, steps, limit) == w && limit >= 1
    requires id !in w.calls && !Admitting(w, id)
    requires pid in w.ledger.packets && w.ledger.packets[pid].state == FAILED && w.ledger.packets[pid].attempts == 0
    requires forall i :: 0 <= i < |w.log| ==> w.log[i].name != RetryDispatch
    ensures IsRun(INITIAL, more, limit)
    ensures After(INITIAL, more, limit) == w.(log := w.log + [Event(pid, RetryDispatch, Some(1))])
  {
    more := TakeStep(steps, w, ByProducer(StartRetry(id, pid)), limit);
    var called := w.(calls := w.calls[id := RetryCall(pid, 0)]);
    assert called == Next(w, ByProducer(StartRetry(id, pid)));
    more := TakeStep(more, called, ByProducer(FinishRetry(id, 1)), limit);
    assert called.calls - {id} == w.calls;
    assert !HasRetryDispatch(w.log, pid, 1);
  }

  lemma RetryRow(p: Packet, pid: string, r: nat, t: nat)
    requires p.state == FAILED && p.attempts == 0
    ensures Decide(p, Event(pid, RetryDispatch, Some(1)), QUIET, r, t)
         == Decision(Row(DISPATCHABLE, On(RetryDispatch), 9), NoCounter)
  {}

  /** A whole retry of a failed packet: call, line and step. */
  lemma RetryAndFold(steps: seq<Step>, w: World, id: nat, pid: string, p: Packet, limit: nat)
    returns (more: seq<Step>, w': World)
    requires IsRun(INITIAL, steps, limit) && After(INITIAL, steps, limit) == w && Plain(pid) && limit >= 1
    requires Resting(w) && id !in w.calls && !Admitting(w, id)
    requires pid in w.ledger.packets && w.ledger.packets[pid] == p && p.state == FAILED && p.attempts == 0
    requires forall i :: 0 <= i < |w.log| ==> w.log[i].name != RetryDispatch
    ensures IsRun(INITIAL, more, limit) && After(INITIAL, more, limit) == w'
    ensures w' == w.(log := w.log + [Event(pid, RetryDispatch, Some(1))],
                     ledger := Ledger(w.ledger.packets[pid := Retried(p)], |w.log| + 1))
  {
    var ev, row := Event(pid, RetryDispatch, Some(1)), Row(DISPATCHABLE, On(RetryDispatch), 9);
    more := FirstRetry(steps, w, id, pid, limit);
    forall r, t ensures Decide(p, ev, QUIET, r, t) == Decision(row, NoCounter) {
      RetryRow(p, pid, r, t);
    }
    more := FoldOne(more, w.(log := w.log + [ev]), ev, row, limit);
    w' := w.(log := w.log + [ev], ledger := Ledger(w.ledger.packets[pid := Retried(p)], |w.log| + 1));
  }

  lemma UnknownIsSkipped(b: Books, ev: Event)
    requires Plain(ev.pid) && ev.pid !in b.packets && ev.name in {Dispatched, ExecFailed, RetryDispatch}
    ensures !Halts(b, ev) && Handled(b, ev, QUIET) == b
  {}

  /** A step in progress passes over lines of a packet it does not know. */
  lemma {:induction false} SkipUnknown(steps: seq<Step>, w: World, pid: string, limit: nat) returns (more: seq<Step>)
    requires IsRun(INITIAL, steps, limit) && After(INITIAL, steps, limit) == w && Plain(pid)
    requires w.work.Some? && w.work.value.cursor <= |w.log| && pid !in w.work.value.packets
    requires forall i :: 0 <= i < |w.log| ==>
      w.log[i].pid == pid && w.log[i].name in {Dispatched, ExecFailed, RetryDispatch}
    ensures IsRun(INITIAL, more, limit)
    ensures After(INITIAL, more, limit) == w.(work := Some(w.work.value.(cursor := |w.log|)))
    decreases |w.log| - w.work.value.cursor
  {
    if w.work.value.cursor == |w.log| {
      more := steps;
    } else {
      more := TakeStep(steps, w, ByMachine(Handle(QUIET)), limit);
      UnknownIsSkipped(WorkBooks(w), NextLine(w));
      var skipped := w.(work := Some(w.work.value.(cursor := w.work.value.cursor + 1)));
      more := SkipUnknown(more, skipped, pid, limit);
    }
  }

  /** An empty ledger is committed, then the admission of `b` reads it, and `a` is imported. */
  lemma Beginning(a: string, b: string, limit: nat) returns (steps: seq<Step>, w: World)
    requires a != b
    ensures IsRun(INITIAL, steps, limit) && After(INITIAL, steps, limit) == w
    ensures ReadyAt(w, a, ImportedAt(DISPATCHABLE, false))
    ensures w == World([], Ledger(map[a := ImportedAt(DISPATCHABLE, false)], 0), None,
                       Some(Admission(1, b, Ledger(map[], 0))), map[], map[], map[1 := RetryCall(b, 0)])
  {
    assert IsRun(INITIAL, [], limit);
    steps := TakeStep([], INITIAL, ByMachine(Begin), limit);
    steps := TakeStep(steps, Next(INITIAL, ByMachine(Begin)), ByMachine(Commit), limit);
    assert Next(Next(INITIAL, ByMachine(Begin)), ByMachine(Commit)) == INITIAL;
    steps := TakeStep(steps, INITIAL, ByProducer(StartRetry(1, b)), limit);
    w := Next(INITIAL, ByProducer(StartRetry(1, b)));
    steps := TakeStep(steps, w, ByProducer(ReadForAdmission(1)), limit);
    w := Next(w, ByProducer(ReadForAdmission(1)));
    steps := TakeStep(steps, w, ByProducer(Import(a, false)), limit);
    w := Next(w, ByProducer(Import(a, false)));
  }

  /** The lines of `a` when the admission replaces the ledger. */
  function FirstLines(a: string): seq<Event> {
    Failure(a) + [Event(a, RetryDispatch, Some(1))] + Failure(a)
  }

  /** `a` fails, is retried, fails again, and a second call sees its one attempt. */
  lemma FirstAttempt(a: string, b: string, limit: nat) returns (steps: seq<Step>, w: World)
    requires a != b && Plain(a) && limit >= 1
    ensures IsRun(INITIAL, steps, limit) && After(INITIAL, steps, limit) == w
    ensures w.log == FirstLines(a) && w.work.None? && w.admission == Some(Admission(1, b, Ledger(map[], 0)))
    ensures w.calls == map[1 := RetryCall(b, 0), 3 := RetryCall(a, 1)]
  {
    var p := ImportedAt(DISPATCHABLE, false);
    steps, w := Beginning(a, b, limit);
    steps, w := DispatchAndFail(steps, w, a, p, limit);
    steps, w := RetryAndFold(steps, w, 2, a, FailedOnce(p), limit);
    steps, w := DispatchAndFail(steps, w, a, Retried(FailedOnce(p)), limit);
    steps := TakeStep(steps, w, ByProducer(StartRetry(3, a)), limit);
    w := Next(w, ByProducer(StartRetry(3, a)));
  }

  /** The admission puts the empty ledger back, a step passes over all lines of the packet it no
      longer finds, and the importer admits `a` again. */
  lemma SecondAdmission(a: string, b: string, limit: nat) returns (steps: seq<Step>, w: World)
    requires a != b && Plain(a) && limit >= 1
    ensures IsRun(INITIAL, steps, limit) && After(INITIAL, steps, limit) == w
    ensures w.log == FirstLines(a) && ReadyAt(w, a, ImportedAt(DISPATCHABLE, false)) && w.admission.None?
    ensures 3 in w.calls && w.calls[3] == RetryCall(a, 1)
  {
    steps, w := FirstAttempt(a, b, limit);
    steps := TakeStep(steps, w, ByProducer(WriteAdmission(1)), limit);
    w := Next(w, ByProducer(WriteAdmission(1)));
    steps := TakeStep(steps, w, ByMachine(Begin), limit);
    w := Next(w, ByMachine(Begin));
    steps := SkipUnknown(steps, w, a, limit);
    w := w.(work := Some(w.work.value.(cursor := |w.log|)));
    steps := TakeStep(steps, w, ByMachine(Commit), limit);
    w := Next(w, ByMachine(Commit));
    steps := TakeStep(steps, w, ByProducer(Import(a, false)), limit);
    w := Next(w, ByProducer(Import(a, false)));
  }

  /** `a` fails again, and the waiting call appends its second retry. */
  lemma SecondRetry(a: string, b: string, limit: nat) returns (steps: seq<Step>, w: World)
    requires a != b && Plain(a) && limit >= 2
    ensures IsRun(INITIAL, steps, limit) && After(INITIAL, steps, limit) == w && w.work.None?
    ensures w.ledger.cursor + 1 == |w.log| && w.log[w.ledger.cursor] == Event(a, RetryDispatch, Some(2))
    ensures a in w.ledger.packets && w.ledger.packets[a] == FailedOnce(ImportedAt(DISPATCHABLE, false))
  {
    steps, w := SecondAdmission(a, b, limit);
    steps, w := DispatchAndFail(steps, w, a, ImportedAt(DISPATCHABLE, false), limit);
    steps := TakeStep(steps, w, ByProducer(FinishRetry(3, 2)), limit);
    assert !HasRetryDispatch(w.log, a, 2);
    w := Next(w, ByProducer(FinishRetry(3, 2)));
  }

  lemma LateRetryRow(p: Packet, pid: string, r: nat, t: nat)
    requires p.state == FAILED && p.attempts == 0
    ensures Decide(p, Event(pid, RetryDispatch, Some(2)), QUIET, r, t)
         == Decision(Row(DISPATCHABLE, On(RetryDispatch), 9), NoCounter)
  {}

  lemma LateRetryCounts(b: Books, pid: string)
    requires Plain(pid) && pid in b.packets && b.packets[pid].state == FAILED && b.packets[pid].attempts == 0
    ensures EntryOf(Handled(b, Event(pid, RetryDispatch, Some(2)), QUIET).packets, pid).attempts == 1
  {
    LateRetryRow(b.packets[pid], pid, CountOf(b.replans, pid), CountOf(b.timeouts, pid));
    RowIsHandled(b, Event(pid, RetryDispatch, Some(2)), Row(DISPATCHABLE, On(RetryDispatch), 9));
  }

  /** So the numbering fails for any two packets: the second retry of `a` is about to be counted as
      its first attempt. */
  lemma SecondRetryCountsAsFirst(a: string, b: string, limit: nat) returns (steps: seq<Step>, w: World)
    requires a != b && Plain(a) && limit >= 2
    ensures IsRun(INITIAL, steps, limit) && After(INITIAL, steps, limit) == w && CanMove(w, Handle(QUIET))
    ensures NextLine(w) == Event(a, RetryDispatch, Some(2))
    ensures AttemptsBefore(w) == 0 && AttemptsAfter(w, QUIET) == 1
  {
    steps, w := SecondRetry(a, b, limit);
    steps := TakeStep(steps, w, ByMachine(Begin), limit);
    w := Next(w, ByMachine(Begin));
    LateRetryCounts(WorkBooks(w), a);
  }

  /** And the run is one in which an admission takes an attempt back. */
  lemma SecondRetryMeansTakenBack(steps: seq<Step>, w: World, a: string, limit: nat)
    requires IsRun(INITIAL, steps, limit) && After(INITIAL, steps, limit) == w && CanMove(w, Handle(QUIET))
    requires NextLine(w) == Event(a, RetryDispatch, Some(2)) && AttemptsBefore(w) == 0 && AttemptsAfter(w, QUIET) == 1
    ensures !KeepsAttempts(INITIAL, steps, limit, a)
  {
    if KeepsAttempts(INITIAL, steps, limit, a) {
      RetriesAreNumberedInOrder(steps, limit, QUIET, w);
      assert false;
    }
  }
}
