/** `retry.py` and `duty_route.py`: how one call decides and what it writes, and that a call, interleaved
    with anything else in the system, is a run of `LifecycleWorld`, so that its theorems hold of it. */
module Producers {
  import opened Wrappers
  import opened Lifecycle
  import opened LifecycleWorld
  import LifecycleMachine

  /* The decision of one retry call. */

  /** A row of the class table. */
  datatype Class = Class(name: string, retryable: bool, dutyReview: bool, maxAttempts: nat)

  /** What a call finds besides the ledger: the class its error matches, the breaker, the class of
      the packet's last failure, the run's retries so far and their budget. */
  datatype Facts = Facts(matched: Option<Class>, circuitOpen: bool, lastClass: Option<string>,
                         totalRetries: nat, runBudget: nat)

  datatype Choice = AlreadyScheduled | CircuitOpen | NoMatch | Repeat | DutyClass | Permanent | BudgetSpent
                    | Retry(attempt: nat) | LockBusy

  /** The state a call assumes of a packet the ledger does not know. */
  function StateSeen(l: Ledger, pid: string): State {
    if pid in l.packets then l.packets[pid].state else FAILED
  }

  /** Whether a decision puts the packet before the duty officer. */
  predicate IsReview(d: Choice) {
    d.CircuitOpen? || d.NoMatch? || d.Repeat? || d.DutyClass?
  }

  predicate IsDeadLetter(d: Choice) {
    d.Permanent? || d.BudgetSpent?
  }

  /** The cascade, first match first. */
  method Cascade(state: State, attempts: nat, f: Facts) returns (d: Choice)
    ensures d.AlreadyScheduled? <==> state !in {FAILED, TIMED_OUT}
    ensures d.Retry? <==>
      && state in {FAILED, TIMED_OUT} && !f.circuitOpen
      && f.matched.Some? && f.matched.value.retryable && f.lastClass != Some(f.matched.value.name)
      && attempts < f.matched.value.maxAttempts && f.totalRetries < f.runBudget
    ensures d.Retry? ==> d.attempt == attempts + 1 <= f.matched.value.maxAttempts
    ensures d.CircuitOpen? <==> state in {FAILED, TIMED_OUT} && f.circuitOpen
    ensures d.NoMatch? <==> state in {FAILED, TIMED_OUT} && !f.circuitOpen && f.matched.None?
    ensures d.Repeat? <==>
      state in {FAILED, TIMED_OUT} && !f.circuitOpen && f.matched.Some? && f.lastClass == Some(f.matched.value.name)
    ensures d.DutyClass? ==> f.matched.Some? && !f.matched.value.retryable && f.matched.value.dutyReview
    ensures d.BudgetSpent? ==> f.matched.Some? && f.matched.value.retryable
    ensures d.BudgetSpent? ==> attempts >= f.matched.value.maxAttempts || f.totalRetries >= f.runBudget
    ensures d.Permanent? ==> f.matched.Some? && !f.matched.value.retryable && !f.matched.value.dutyReview
    ensures IsReview(d) || IsDeadLetter(d) || d.Retry? || d.AlreadyScheduled?
  {
    if state !in {FAILED, TIMED_OUT} {
      return AlreadyScheduled;
    }
    if f.circuitOpen {
      return CircuitOpen;
    }
    if f.matched.None? {
      return NoMatch;
    }
    var c := f.matched.value;
    if f.lastClass == Some(c.name) {
      return Repeat;
    }
    if !c.retryable {
      return if c.dutyReview then DutyClass else Permanent;
    }
    if attempts >= c.maxAttempts || f.totalRetries >= f.runBudget {
      return BudgetSpent;
    }
    return Retry(attempts + 1);
  }

  /* The scans of the log. */

  method FindRetry(log: seq<Event>, pid: string, attempt: nat) returns (found: bool)
    ensures found == HasRetryDispatch(log, pid, attempt)
  {
    for i := 0 to |log|
      invariant forall k :: 0 <= k < i ==> !IsRetry(log[k], pid, attempt)
    {
      if log[i].pid == pid && log[i].name == RetryDispatch && log[i].attempt == Some(attempt) {
        assert IsRetry(log[i], pid, attempt);
        return true;
      }
    }
    return false;
  }

  method PriorOutcome(log: seq<Event>, pid: string) returns (found: bool)
    ensures found == HasDutyOutcome(log, pid)
  {
    for i := 0 to |log|
      invariant forall k :: 0 <= k < i ==> !IsOutcomeOf(log[k], pid)
    {
      if log[i].pid == pid && IsDutyOutcome(log[i].name) {
        assert IsOutcomeOf(log[i], pid);
        return true;
      }
    }
    return false;
  }

  /** The outcome of a ruling: its class if the gate lets it pass, else terminal. */
  function Routed(ruling: Name, gatePasses: bool): Name {
    if gatePasses && IsDutyOutcome(ruling) then ruling else DutyTerminal
  }

  /* Whole calls. */

  /** A step of somebody else. */
  predicate IsForeign(step: Step, id: nat) {
    step.ByProducer? ==>
      match step.produce
      case ReadForAdmission(other) => other != id
      case WriteAdmission(other) => other != id
      case Abandon(other) => other != id
      case FinishRetry(other, _) => other != id
      case GiveUpRetry(other, _) => other != id
      case FinishDuty(other, _) => other != id
      case _ => true
  }

  /** Where a call is: what it has seen, and whether it is in the middle of an admission. */
  predicate CallIs(w: World, id: nat, call: Call, admission: Option<Admission>) {
    && id in w.calls && w.calls[id] == call
    && (admission.Some? ==> w.admission == admission)
    && (admission.None? ==> !Admitting(w, id))
  }

  lemma ForeignKeepsCall(w: World, step: Step, id: nat, call: Call, admission: Option<Admission>)
    requires Enabled(w, step) && IsForeign(step, id) && CallIs(w, id, call, admission)
    requires admission.Some? ==> admission.value.id == id
    ensures CallIs(Next(w, step), id, call, admission)
  {
    if step.ByProducer? {
      match step.produce
      case _ =>
    } else {
      match step.machine
      case _ =>
    }
  }

  /** One more step of a run. */
  lemma Extend(w0: World, before: seq<Step>, w: World, step: Step, limit: nat) returns (trace: seq<Step>)
    requires IsRun(w0, before, limit) && After(w0, before, limit) == w
    requires Enabled(w, step) && WithinLimit(step, limit)
    ensures trace == before + [step] && IsRun(w0, trace, limit) && After(w0, trace, limit) == Next(w, step)
  {
    LifecycleMachine.RunAppend(w0, before, step, limit);
    trace := before + [step];
  }

  /** An admitted packet has one row, in its state, and no attempts. */
  lemma AdmissionIs(s: State)
    ensures AdmissionAt(s) == Packet(s, [Row(s, Admitted, 0)], 0, false)
  {
    assert [] + [Row(s, Admitted, 0)] == [Row(s, Admitted, 0)];
  }

  class EventProducers {
    var log: seq<Event>
    var ledger: Ledger
    var work: Option<Ledger>
    var admission: Option<Admission>
    var replans: Counters
    var timeouts: Counters
    var calls: map<nat, Call>

    function View(): World
      reads this
    {
      World(log, ledger, work, admission, replans, timeouts, calls)
    }

    constructor ()
      ensures View() == INITIAL
    {
      log, ledger, work, admission := [], Ledger(map[], 0), None, None;
      replans, timeouts, calls := map[], map[], map[];
    }

    /** Whatever others do to the files meanwhile. */
    method Interfere(id: nat, steps: seq<Step>, limit: nat, ghost w0: World, ghost before: seq<Step>,
                     ghost call: Call, ghost held: Option<Admission>)
      returns (ghost trace: seq<Step>)
      requires IsRun(w0, before, limit) && After(w0, before, limit) == View() && CallIs(View(), id, call, held)
      requires held.Some? ==> held.value.id == id
      modifies this
      ensures IsRun(w0, trace, limit) && After(w0, trace, limit) == View() && CallIs(View(), id, call, held)
      ensures before <= trace
    {
      trace := before;
      for k := 0 to |steps|
        invariant IsRun(w0, trace, limit) && After(w0, trace, limit) == View() && CallIs(View(), id, call, held)
        invariant before <= trace
      {
        if Enabled(View(), steps[k]) && WithinLimit(steps[k], limit) && IsForeign(steps[k], id) {
          ForeignKeepsCall(View(), steps[k], id, call, held);
          trace := Extend(w0, trace, View(), steps[k], limit);
          Apply(steps[k]);
        }
      }
    }

    /** One step of somebody else, file by file. */
    method Apply(step: Step)
      requires Enabled(View(), step)
      modifies this
      ensures View() == Next(old(View()), step)
    {
      var w := Next(View(), step);
      log, ledger, work, admission := w.log, w.ledger, w.work, w.admission;
      replans, timeouts, calls := w.replans, w.timeouts, w.calls;
    }

    /** The admission of an unknown packet: the current ledger is read, others go on, and it is
        replaced as it was read, with the packet.  It fails when the lock stays busy; a packet that
        the current ledger knows is left alone. */
    method AdmitFailedPacket(id: nat, pid: string, env: seq<Step>, limit: nat, ghost w0: World, ghost before: seq<Step>)
      returns (ok: bool, ghost trace: seq<Step>)
      requires IsRun(w0, before, limit) && After(w0, before, limit) == View()
      requires id in calls && calls[id].RetryCall? && calls[id].pid == pid && !Admitting(View(), id)
      modifies this
      ensures IsRun(w0, trace, limit) && After(w0, trace, limit) == View()
      ensures CallIs(View(), id, old(calls[id]), None)
      ensures ok <==> old(admission).None?
      ensures !ok ==> View() == old(View())
      ensures ok ==> ByProducer(ReadForAdmission(id)) in trace
      ensures ok && pid in old(ledger.packets) ==> View() == old(View())
      ensures ok && pid !in old(ledger.packets) ==>
        && admission == None && ledger.cursor == old(ledger.cursor)
        && ledger.packets == old(ledger.packets)[pid := Packet(FAILED, [Row(FAILED, Admitted, 0)], 0, false)]
    {
      trace, ok := before, admission.None?;
      if !ok {
        return;
      }
      ghost var call := calls[id];
      var read := ledger;
      trace := Extend(w0, trace, View(), ByProducer(ReadForAdmission(id)), limit);
      assert trace[|before|] == ByProducer(ReadForAdmission(id));
      if pid in read.packets {
        return;
      }
      admission := Some(Admission(id, pid, read));
      trace := Interfere(id, env, limit, w0, trace, call, admission);
      trace := Extend(w0, trace, View(), ByProducer(WriteAdmission(id)), limit);
      AdmissionIs(FAILED);
      ledger := Ledger(read.packets[pid := AdmissionAt(FAILED)], read.cursor);
      admission := None;
    }

    /** The locked block at the end of a call that retries. */
    method EndRetry(id: nat, maxAttempts: nat, limit: nat, ghost w0: World, ghost before: seq<Step>)
      returns (found: bool, ghost trace: seq<Step>)
      requires IsRun(w0, before, limit) && After(w0, before, limit) == View()
      requires CanEndRetry(View(), id) && calls[id].attempts < maxAttempts <= limit
      modifies this`log, this`calls
      ensures IsRun(w0, trace, limit) && After(w0, trace, limit) == View() && calls == old(calls) - {id}
      ensures before <= trace
      ensures found <==> HasRetryDispatch(old(log), old(calls[id]).pid, old(calls[id]).attempts + 1)
      ensures found ==> log == old(log)
      ensures !found ==> log == old(log) + [Event(old(calls[id]).pid, RetryDispatch, Some(old(calls[id]).attempts + 1))]
    {
      var pid, n := calls[id].pid, calls[id].attempts + 1;
      trace := Extend(w0, before, View(), ByProducer(FinishRetry(id, maxAttempts)), limit);
      found := FindRetry(log, pid, n);
      calls := calls - {id};
      if !found {
        log := log + [Event(pid, RetryDispatch, Some(n))];
      }
    }

    /** The one line of a call that gives up. */
    method EndGivenUp(id: nat, name: Name, limit: nat, ghost w0: World, ghost before: seq<Step>)
      returns (ghost trace: seq<Step>)
      requires IsRun(w0, before, limit) && After(w0, before, limit) == View()
      requires CanEndRetry(View(), id) && name in {Lifecycle.DutyReview, BudgetExhausted}
      modifies this`log, this`calls
      ensures IsRun(w0, trace, limit) && After(w0, trace, limit) == View() && calls == old(calls) - {id}
      ensures log == old(log) + [Event(old(calls[id]).pid, name, None)]
    {
      trace := Extend(w0, before, View(), ByProducer(GiveUpRetry(id, name)), limit);
      log := log + [Event(calls[id].pid, name, None)];
      calls := calls - {id};
    }

    /** A call that ends with an error leaves no line. */
    method EndFailed(id: nat, limit: nat, ghost w0: World, ghost before: seq<Step>) returns (ghost trace: seq<Step>)
      requires IsRun(w0, before, limit) && After(w0, before, limit) == View()
      requires id in calls && !Admitting(View(), id)
      modifies this`calls
      ensures IsRun(w0, trace, limit) && After(w0, trace, limit) == View() && calls == old(calls) - {id}
    {
      trace := Extend(w0, before, View(), ByProducer(Abandon(id)), limit);
      calls := calls - {id};
    }

    /** The wait for the event lock, and the block under it. */
    method ClaimRetry(id: nat, maxAttempts: nat, env: seq<Step>, limit: nat, ghost w0: World, ghost before: seq<Step>)
      returns (found: bool, ghost trace: seq<Step>)
      requires IsRun(w0, before, limit) && After(w0, before, limit) == View()
      requires CanEndRetry(View(), id) && calls[id].attempts < maxAttempts <= limit
      modifies this
      ensures IsRun(w0, trace, limit) && After(w0, trace, limit) == View() && id !in calls
      ensures before <= trace
      ensures found ==> HasRetryDispatch(log, old(calls[id]).pid, old(calls[id]).attempts + 1)
      ensures !found ==>
        log != [] && log[|log| - 1] == Event(old(calls[id]).pid, RetryDispatch, Some(old(calls[id]).attempts + 1))
    {
      trace := Interfere(id, env, limit, w0, before, calls[id], None);
      found, trace := EndRetry(id, maxAttempts, limit, w0, trace);
    }

    /** What a call that retries does after its decision. */
    method ProceedToRetry(id: nat, admits: bool, maxAttempts: nat, env: (seq<Step>, seq<Step>, seq<Step>), limit: nat,
                          ghost w0: World, ghost before: seq<Step>)
      returns (d: Choice, ghost trace: seq<Step>)
      requires IsRun(w0, before, limit) && After(w0, before, limit) == View()
      requires CanEndRetry(View(), id) && calls[id].attempts < maxAttempts <= limit
      modifies this
      ensures IsRun(w0, trace, limit) && After(w0, trace, limit) == View() && id !in calls
      ensures d.Retry? || d.AlreadyScheduled? || (d.LockBusy? && admits)
      ensures d.Retry? ==> d.attempt == old(calls[id]).attempts + 1
      ensures d.Retry? ==> log != [] && log[|log| - 1] == Event(old(calls[id]).pid, RetryDispatch, Some(d.attempt))
      ensures d.Retry? && admits ==> ByProducer(ReadForAdmission(id)) in trace
      ensures d.AlreadyScheduled? ==> HasRetryDispatch(log, old(calls[id]).pid, old(calls[id]).attempts + 1)
    {
      ghost var call := calls[id];
      var pid, n := calls[id].pid, calls[id].attempts + 1;
      trace := Interfere(id, env.0, limit, w0, before, call, None);
      if admits {
        var ok;
        ok, trace := AdmitFailedPacket(id, pid, env.1, limit, w0, trace);
        if !ok {
          trace := EndFailed(id, limit, w0, trace);
          return LockBusy, trace;
        }
      }
      var found;
      found, trace := ClaimRetry(id, maxAttempts, env.2, limit, w0, trace);
      d := if found then AlreadyScheduled else Retry(n);
    }

    /** What a call that gives up does after its decision. */
    method ProceedToGiveUp(id: nat, choice: Choice, env: seq<Step>, limit: nat, ghost w0: World,
                           ghost before: seq<Step>)
      returns (ghost trace: seq<Step>)
      requires IsRun(w0, before, limit) && After(w0, before, limit) == View()
      requires CanEndRetry(View(), id) && (IsReview(choice) || IsDeadLetter(choice))
      modifies this
      ensures IsRun(w0, trace, limit) && After(w0, trace, limit) == View() && id !in calls
      ensures log != [] && log[|log| - 1]
           == Event(old(calls[id]).pid, if IsReview(choice) then Lifecycle.DutyReview else BudgetExhausted, None)
    {
      trace := Interfere(id, env, limit, w0, before, calls[id], None);
      trace := EndGivenUp(id, if IsReview(choice) then Lifecycle.DutyReview else BudgetExhausted, limit, w0, trace);
    }

    /** One `retry.py` call.  `env` is what others do after its ledger snapshot, in the middle of its
        admission, and before the event lock.  Whatever that is, the call is a run of the system. */
    method RetryMain(id: nat, pid: string, f: Facts, env: (seq<Step>, seq<Step>, seq<Step>), limit: nat)
      returns (d: Choice, ghost trace: seq<Step>)
      requires id !in calls && !Admitting(View(), id)
      requires f.matched.Some? ==> f.matched.value.maxAttempts <= limit
      modifies this
      ensures IsRun(old(View()), trace, limit) && After(old(View()), trace, limit) == View() && id !in calls
      ensures d.Retry? || d.LockBusy? ==>
        && (pid in old(ledger.packets) ==> old(ledger.packets)[pid].state in {FAILED, TIMED_OUT})
        && !f.circuitOpen && f.matched.Some? && f.matched.value.retryable
        && f.lastClass != Some(f.matched.value.name)
        && AttemptsOf(old(ledger), pid) < f.matched.value.maxAttempts && f.totalRetries < f.runBudget
      ensures d.Retry? ==>
        && log != []
        && log[|log| - 1] == Event(pid, RetryDispatch, Some(AttemptsOf(old(ledger), pid) + 1))
      ensures d.Retry? && pid !in old(ledger.packets) ==> ByProducer(ReadForAdmission(id)) in trace
      ensures d.CircuitOpen? || d.NoMatch? || d.Repeat? || d.DutyClass? ==>
        log != [] && log[|log| - 1] == Event(pid, Lifecycle.DutyReview, None)
      ensures d.Permanent? || d.BudgetSpent? ==> log != [] && log[|log| - 1] == Event(pid, BudgetExhausted, None)
      ensures d.LockBusy? ==> pid !in old(ledger.packets) || old(ledger.packets)[pid].history == []
      ensures d.AlreadyScheduled? ==>
        || HasRetryDispatch(log, pid, AttemptsOf(old(ledger), pid) + 1)
        || (pid in old(ledger.packets) && old(ledger.packets)[pid].state !in {FAILED, TIMED_OUT})
      ensures pid in old(ledger.packets) && old(ledger.packets)[pid].state !in {FAILED, TIMED_OUT} ==>
        d.AlreadyScheduled? && View() == old(View())
      ensures !d.AlreadyScheduled? ==>
        && (d.CircuitOpen? <==> f.circuitOpen)
        && (d.NoMatch? <==> !f.circuitOpen && f.matched.None?)
        && (d.Repeat? <==> !f.circuitOpen && f.matched.Some? && f.lastClass == Some(f.matched.value.name))
        && (d.DutyClass? ==> !f.matched.value.retryable && f.matched.value.dutyReview)
        && (d.Permanent? ==> !f.matched.value.retryable && !f.matched.value.dutyReview)
    {
      ghost var w0 := View();
      trace := [];
      var attempts := AttemptsOf(ledger, pid);
      var known := pid in ledger.packets && ledger.packets[pid].history != [];
      var state := StateSeen(ledger, pid);
      d := Cascade(state, attempts, f);
      if d.AlreadyScheduled? {
        return;
      }
      trace := Extend(w0, trace, View(), ByProducer(StartRetry(id, pid)), limit);
      calls := calls[id := RetryCall(pid, attempts)];
      if d.Retry? {
        d, trace := ProceedToRetry(id, state == FAILED && !known, f.matched.value.maxAttempts, env, limit, w0, trace);
      } else {
        trace := ProceedToGiveUp(id, d, env.0, limit, w0, trace);
      }
    }

    /** One adjudication: `env` runs while the ruling is made; without a ruling or an error file to
        make one from it is a usage error.  The outcome is the gated class of the ruling, or terminal;
        at most one outcome of a packet is ever appended. */
    method Adjudicate(id: nat, pid: string, hasSource: bool, ruling: Name, gatePasses: bool, env: seq<Step>, limit: nat)
      returns (code: nat, ghost trace: seq<Step>)
      requires id !in calls && !Admitting(View(), id)
      modifies this
      ensures IsRun(old(View()), trace, limit) && After(old(View()), trace, limit) == View()
      ensures code <= 3 && id !in calls
      ensures code == 2 <==>
        || pid !in old(ledger.packets) || old(ledger.packets)[pid].state != DUTY_REVIEW
        || (!hasSource && !HasDutyOutcome(old(log), pid))
      ensures code == 2 ==> View() == old(View())
      ensures code == 3 ==> HasDutyOutcome(log, pid)
      ensures code == 0 ==> gatePasses && ruling in {DutyRetryable, DutyFixable}
      ensures code == 0 ==> log != [] && log[|log| - 1] == Event(pid, ruling, None)
      ensures code == 1 ==> !gatePasses || ruling !in {DutyRetryable, DutyFixable}
      ensures code == 1 ==> log != [] && log[|log| - 1] == Event(pid, DutyTerminal, None)
    {
      code := DutyGate(pid, hasSource);
      if code != 0 {
        return code, [];
      }
      var raced;
      raced, trace := AppendOutcome(id, pid, Routed(ruling, gatePasses), env, limit);
      code := if raced then 3 else if Routed(ruling, gatePasses) == DutyTerminal then 1 else 0;
    }

    /** What must hold before a ruling is made; 0 when it does. */
    method DutyGate(pid: string, hasSource: bool) returns (code: nat)
      ensures code == 0 || code == 2 || code == 3
      ensures code == 2 <==> !InReview(ledger, pid) || (!hasSource && !HasDutyOutcome(log, pid))
      ensures code == 3 ==> HasDutyOutcome(log, pid)
    {
      if !InReview(ledger, pid) {
        return 2;
      }
      var previous := PriorOutcome(log, pid);
      return if previous then 3 else if !hasSource then 2 else 0;
    }

    /** The call of an adjudication, from its snapshot to its line. */
    method AppendOutcome(id: nat, pid: string, name: Name, env: seq<Step>, limit: nat)
      returns (raced: bool, ghost trace: seq<Step>)
      requires id !in calls && !Admitting(View(), id) && InReview(ledger, pid) && IsDutyOutcome(name)
      modifies this
      ensures IsRun(old(View()), trace, limit) && After(old(View()), trace, limit) == View() && id !in calls
      ensures raced ==> HasDutyOutcome(log, pid)
      ensures !raced ==> log != [] && log[|log| - 1] == Event(pid, name, None)
    {
      trace := Extend(View(), [], View(), ByProducer(StartDuty(id, pid)), limit);
      ghost var w0 := View();
      calls := calls[id := DutyCall(pid)];
      raced, trace := ProceedToOutcome(id, name, env, limit, w0, trace);
    }

    /** What an adjudication does after its snapshot. */
    method ProceedToOutcome(id: nat, name: Name, env: seq<Step>, limit: nat, ghost w0: World, ghost before: seq<Step>)
      returns (raced: bool, ghost trace: seq<Step>)
      requires IsRun(w0, before, limit) && After(w0, before, limit) == View()
      requires id in calls && calls[id].DutyCall? && IsDutyOutcome(name) && !Admitting(View(), id)
      modifies this
      ensures IsRun(w0, trace, limit) && After(w0, trace, limit) == View() && id !in calls
      ensures raced ==> HasDutyOutcome(log, old(calls[id]).pid)
      ensures !raced ==> log != [] && log[|log| - 1] == Event(old(calls[id]).pid, name, None)
    {
      trace := Interfere(id, env, limit, w0, before, calls[id], None);
      raced, trace := EndDuty(id, name, limit, w0, trace);
    }

    /** The locked block at the end of an adjudication. */
    method EndDuty(id: nat, name: Name, limit: nat, ghost w0: World, ghost before: seq<Step>)
      returns (raced: bool, ghost trace: seq<Step>)
      requires IsRun(w0, before, limit) && After(w0, before, limit) == View()
      requires id in calls && calls[id].DutyCall? && IsDutyOutcome(name)
      modifies this`log, this`calls
      ensures IsRun(w0, trace, limit) && After(w0, trace, limit) == View() && calls == old(calls) - {id}
      ensures raced <==> HasDutyOutcome(old(log), old(calls[id]).pid)
      ensures log == if raced then old(log) else old(log) + [Event(old(calls[id]).pid, name, None)]
    {
      var pid := calls[id].pid;
      trace := Extend(w0, before, View(), ByProducer(FinishDuty(id, name)), limit);
      raced := PriorOutcome(log, pid);
      calls := calls - {id};
      if !raced {
        log := log + [Event(pid, name, None)];
      }
    }
  }

  predicate InReview(l: Ledger, pid: string) {
    pid in l.packets && l.packets[pid].state == DUTY_REVIEW
  }
}
