/** The state machine as it updates its ledger in place: one event, the fallback and watchdog
    sweeps, and a whole step, each proved to be what `LifecycleWorld` says a machine may do. */
module LifecycleMachine {
  import opened Wrappers
  import opened Lifecycle
  import opened LifecycleWorld

  /** One more enabled step at the end of a run. */
  lemma {:induction false} RunAppend(w: World, steps: seq<Step>, step: Step, limit: nat)
    requires IsRun(w, steps, limit) && Enabled(After(w, steps, limit), step) && WithinLimit(step, limit)
    ensures IsRun(w, steps + [step], limit)
    ensures After(w, steps + [step], limit) == Next(After(w, steps, limit), step)
    decreases |steps|
  {
    if steps == [] {
      assert ([] + [step])[1..] == [];
      assert IsRun(Next(w, step), [], limit);
    } else {
      RunAppend(Next(w, steps[0]), steps[1..], step, limit);
      assert (steps + [step])[1..] == steps[1..] + [step];
    }
  }

  /** An id that must never become a file name, on an event that is not just passed over. */
  predicate Unsafe(ev: Event) {
    !Synthetic(ev.pid) && !ev.name.Info? && !SafePid(ev.pid)
  }

  /** What halts a step is in the line alone, whatever the ledger says. */
  lemma UnsafeIdsHalt(b: Books, ev: Event, env: Env)
    ensures OutcomeOf(b, ev, env).Halted? <==> Unsafe(ev)
    ensures Halts(b, ev) <==> Unsafe(ev)
  {}

  /** The books after the lines from `i` up to `j`, and how many of them ended in a dead letter. */
  function Folded(b: Books, log: seq<Event>, envs: seq<Env>, i: nat, j: nat): Books
    requires i <= j <= |log| == |envs|
  {
    if i == j then b else Handled(Folded(b, log, envs, i, j - 1), log[j - 1], envs[j - 1])
  }

  function DeadLetters(b: Books, log: seq<Event>, envs: seq<Env>, i: nat, j: nat): nat
    requires i <= j <= |log| == |envs|
  {
    if i == j then 0
    else
      var o := OutcomeOf(Folded(b, log, envs, i, j - 1), log[j - 1], envs[j - 1]);
      DeadLetters(b, log, envs, i, j - 1) + One(o == Reached(DEAD_LETTER))
  }

  predicate AllSafe(log: seq<Event>, i: nat, j: nat)
    requires i <= j <= |log|
  {
    forall k :: i <= k < j ==> !Unsafe(log[k])
  }

  /** The system once a step has handled the lines up to `j`. */
  function AfterLines(w: World, envs: seq<Env>, j: nat): World
    requires w.work.Some? && w.work.value.cursor <= j <= |w.log| == |envs|
  {
    var b := Folded(WorkBooks(w), w.log, envs, w.work.value.cursor, j);
    w.(work := Some(Ledger(b.packets, j)), replans := b.replans, timeouts := b.timeouts)
  }

  lemma OneMoreLine(w: World, envs: seq<Env>, j: nat)
    requires w.work.Some? && w.work.value.cursor < j <= |w.log| == |envs| && !Unsafe(w.log[j - 1])
    ensures Next(AfterLines(w, envs, j - 1), ByMachine(Handle(envs[j - 1]))) == AfterLines(w, envs, j)
  {
    UnsafeIdsHalt(WorkBooks(AfterLines(w, envs, j - 1)), w.log[j - 1], envs[j - 1]);
  }

  /** Handling lines with safe ids, one after the other, is a run. */
  lemma {:induction false} LinesAreRun(w0: World, before: seq<Step>, w: World, envs: seq<Env>, j: nat, limit: nat)
    returns (trace: seq<Step>)
    requires IsRun(w0, before, limit) && After(w0, before, limit) == w
    requires w.work.Some? && w.work.value.cursor <= j <= |w.log| == |envs| && AllSafe(w.log, w.work.value.cursor, j)
    ensures IsRun(w0, trace, limit) && After(w0, trace, limit) == AfterLines(w, envs, j)
    ensures |trace| == |before| + (j - w.work.value.cursor)
  {
    trace := before;
    if w.work.value.cursor < j {
      trace := LinesAreRun(w0, before, w, envs, j - 1, limit);
      RunAppend(w0, trace, ByMachine(Handle(envs[j - 1])), limit);
      OneMoreLine(w, envs, j);
      trace := trace + [ByMachine(Handle(envs[j - 1]))];
    }
  }

  /** And so is meeting an unsafe one, which ends the step with the counters as they are. */
  lemma HaltIsRun(w0: World, before: seq<Step>, w: World, env: Env, limit: nat) returns (trace: seq<Step>)
    requires IsRun(w0, before, limit) && After(w0, before, limit) == w
    requires w.work.Some? && w.work.value.cursor < |w.log| && Unsafe(w.log[w.work.value.cursor])
    ensures IsRun(w0, trace, limit) && After(w0, trace, limit) == w.(work := None)
  {
    RunAppend(w0, before, ByMachine(Handle(env)), limit);
    UnsafeIdsHalt(WorkBooks(w), NextLine(w), env);
    trace := before + [ByMachine(Handle(env))];
  }

  /* The sweeps after the fold. */

  function MovedTo(p: Packet, row: Row): Packet {
    p.(state := row.to, history := p.history + [row])
  }

  /** The listed RUNNING packets with a current report are reported; every other entry is the same. */
  ghost predicate FellBack(before: Packets, now: Packets, listed: seq<string>, current: set<string>) {
    && now.Keys == before.Keys
    && (forall pid :: pid in before ==>
          now[pid] == if pid in listed && pid in current && before[pid].state == RUNNING
                      then MovedTo(before[pid], Row(REPORTED, ReportFallback, 4)) else before[pid])
  }

  /** The listed RUNNING packets that are overdue are timed out; every other entry is the same. */
  ghost predicate WentOff(before: Packets, now: Packets, listed: seq<string>, overdue: map<string, Option<int>>) {
    && now.Keys == before.Keys
    && (forall pid :: pid in before ==>
          now[pid] == if pid in listed && pid in overdue && before[pid].state == RUNNING
                      then MovedTo(before[pid], Row(TIMED_OUT, On(Timeout), 5)) else before[pid])
  }

  /** After both: a listed packet that was RUNNING is reported if it has a current report, timed out if
      it is overdue without one, and every other entry is the same. */
  ghost predicate Swept(before: Packets, now: Packets, listed: seq<string>, current: set<string>,
                        overdue: map<string, Option<int>>) {
    && now.Keys == before.Keys
    && (forall pid :: pid in before ==>
          now[pid] == if pid !in listed || before[pid].state != RUNNING then before[pid]
                      else if pid in current then MovedTo(before[pid], Row(REPORTED, ReportFallback, 4))
                      else if pid in overdue then MovedTo(before[pid], Row(TIMED_OUT, On(Timeout), 5))
                      else before[pid])
  }

  /** Without repeats. */
  predicate Distinct(fired: seq<string>) {
    forall i, j :: 0 <= i < j < |fired| ==> fired[i] != fired[j]
  }

  /** The packets the watchdog fired for. */
  ghost predicate FiredFor(fired: seq<string>, before: Packets, listed: seq<string>,
                           overdue: map<string, Option<int>>) {
    && Distinct(fired)
    && (forall pid :: pid in fired <==>
          pid in listed && pid in before && before[pid].state == RUNNING && pid in overdue)
  }

  ghost predicate FiredExactly(fired: seq<string>, before: Packets, listed: seq<string>, current: set<string>,
                               overdue: map<string, Option<int>>) {
    && Distinct(fired)
    && (forall pid :: pid in fired <==>
          pid in listed && pid in before && before[pid].state == RUNNING && pid !in current && pid in overdue)
  }

  /** The lines of the watchdog, in the order it fired. */
  function TimeoutLines(fired: seq<string>, overdue: map<string, Option<int>>): seq<Event> {
    if fired == [] then []
    else
      var pid := fired[|fired| - 1];
      TimeoutLines(fired[..|fired| - 1], overdue)
      + [Event(pid, Timeout, if pid in overdue then overdue[pid] else None)]
  }

  lemma OneMoreFallsBack(before: Packets, now: Packets, listed: seq<string>, current: set<string>, pid: string)
    requires FellBack(before, now, listed, current)
    ensures pid in now && now[pid].state == RUNNING && pid in current ==>
      FellBack(before, now[pid := MovedTo(now[pid], Row(REPORTED, ReportFallback, 4))], listed + [pid], current)
    ensures !(pid in now && now[pid].state == RUNNING && pid in current) ==>
      FellBack(before, now, listed + [pid], current)
  {}

  lemma OneMoreGoesOff(before: Packets, now: Packets, listed: seq<string>, overdue: map<string, Option<int>>,
                       fired: seq<string>, pid: string)
    requires WentOff(before, now, listed, overdue) && FiredFor(fired, before, listed, overdue)
    ensures pid in now && now[pid].state == RUNNING && pid in overdue ==>
      WentOff(before, now[pid := MovedTo(now[pid], Row(TIMED_OUT, On(Timeout), 5))], listed + [pid], overdue)
    ensures pid in now && now[pid].state == RUNNING && pid in overdue ==>
      FiredFor(fired + [pid], before, listed + [pid], overdue)
    ensures !(pid in now && now[pid].state == RUNNING && pid in overdue) ==>
      WentOff(before, now, listed + [pid], overdue) && FiredFor(fired, before, listed + [pid], overdue)
  {}

  lemma OneMoreLineOfTimeouts(log: seq<Event>, fired: seq<string>, overdue: map<string, Option<int>>, pid: string)
    requires pid in overdue
    ensures (log + TimeoutLines(fired, overdue)) + [Event(pid, Timeout, overdue[pid])]
         == log + TimeoutLines(fired + [pid], overdue)
  {
    assert (fired + [pid])[..|fired|] == fired;
  }

  lemma SweepsCompose(before: Packets, between: Packets, now: Packets, pids: seq<string>, current: set<string>,
                      overdue: map<string, Option<int>>, fired: seq<string>)
    requires FellBack(before, between, pids, current) && WentOff(between, now, pids, overdue)
    requires FiredFor(fired, between, pids, overdue)
    ensures Swept(before, now, pids, current, overdue) && FiredExactly(fired, before, pids, current, overdue)
  {}

  class StateMachine {
    var log: seq<Event>
    var ledger: Ledger
    var packets: Packets
    var replans: Counters
    var timeouts: Counters
    var calls: map<nat, Call>
    var admission: Option<Admission>

    function Working(cursor: nat): World
      reads this
    {
      World(log, ledger, Some(Ledger(packets, cursor)), admission, replans, timeouts, calls)
    }

    function Idle(): World
      reads this
    {
      World(log, ledger, None, admission, replans, timeouts, calls)
    }

    function Open(): Books
      reads this
    {
      Books(packets, replans, timeouts)
    }

    constructor ()
      ensures Idle() == INITIAL
    {
      log, ledger, packets, admission := [], Ledger(map[], 0), map[], None;
      replans, timeouts, calls := map[], map[], map[];
    }

    /** Counts one more replan; an unreadable counter file counts as exceeded. */
    method BumpReplanCounter(pid: string, readable: bool) returns (exceeded: bool)
      modifies this`replans
      ensures readable ==> replans == old(replans)[pid := CountOf(old(replans), pid) + 1]
      ensures !readable ==> replans == old(replans)
      ensures exceeded <==> !readable || CountOf(old(replans), pid) >= REPLAN_CAP
    {
      if !readable {
        return true;
      }
      var count := CountOf(replans, pid) + 1;
      replans := replans[pid := count];
      return count > REPLAN_CAP;
    }

    /** Counts one more timeout retry, with the same failure direction. */
    method BumpTimeoutRetryCounter(pid: string, readable: bool) returns (exceeded: bool)
      modifies this`timeouts
      ensures readable ==> timeouts == old(timeouts)[pid := CountOf(old(timeouts), pid) + 1]
      ensures !readable ==> timeouts == old(timeouts)
      ensures exceeded <==> !readable || CountOf(old(timeouts), pid) >= TIMEOUT_RETRY_MAX
    {
      if !readable {
        return true;
      }
      var count := CountOf(timeouts, pid) + 1;
      timeouts := timeouts[pid := count];
      return count > TIMEOUT_RETRY_MAX;
    }

    /** Appends a row to a packet and moves it there. */
    method Record(pid: string, row: Row) returns (o: Outcome)
      modifies this`packets
      ensures packets == old(packets)[pid := WithRow(EntryOf(old(packets), pid), row)]
      ensures o == Reached(row.to)
    {
      var p := EntryOf(packets, pid);
      p := p.(state := row.to, history := p.history + [row]);
      if row.t == 9 || row.t == 37 {
        p := p.(attempts := p.attempts + 1);
      }
      packets := packets[pid := p];
      return Reached(row.to);
    }

    /** Events that confirm what the packet already is, or come too late for it. */
    method Absorb(p: Packet, ev: Event, env: Env) returns (via: Option<Via>)
      ensures via.Some? ==> Decide(p, ev, env, 0, 0) == Decision(Row(p.state, via.value, 0), NoCounter)
      ensures via.Some? ==> forall r, t :: Decide(p, ev, env, r, t) == Decide(p, ev, env, 0, 0)
      ensures via.None? ==>
        && !(ev.attempt.Some? && ev.attempt.value < p.attempts)
        && !(p.state == REPORTED && ev.name == SubagentStop && env.reportExists)
        && !(p.state == TIMED_OUT && ev.name == Timeout)
        && !(p.state == DEAD_LETTER && Table(p.state, ev.name).None?)
        && !(p.state == RUNNING && ev.name == Dispatched && ev.attempt == Some(p.attempts))
    {
      if ev.attempt.Some? && ev.attempt.value < p.attempts {
        return Some(Stale);
      }
      if p.state == REPORTED && ev.name == SubagentStop && env.reportExists {
        return Some(LateStop);
      }
      if p.state == TIMED_OUT && ev.name == Timeout {
        return Some(TimeoutAgain);
      }
      if p.state == DEAD_LETTER && Table(p.state, ev.name).None? {
        return Some(LateEvent);
      }
      if p.state == RUNNING && ev.name == Dispatched && ev.attempt == Some(p.attempts) {
        return Some(DispatchConfirmed);
      }
      return None;
    }

    /** Takes a table edge, unless it is capped and its counter says enough. */
    method TakeEdge(pid: string, name: Name, edge: Edge, readable: bool) returns (o: Outcome)
      modifies this`packets, this`replans, this`timeouts
      ensures var d := CapRuling(name, edge, readable, CountOf(old(replans), pid), CountOf(old(timeouts), pid));
        var b := Bumped(old(Open()), pid, d.bump);
        && Open() == b.(packets := old(packets)[pid := WithRow(EntryOf(old(packets), pid), d.row)])
        && o == Reached(d.row.to)
    {
      if edge.t == 22 {
        var exceeded := BumpReplanCounter(pid, readable);
        if exceeded {
          o := Record(pid, Row(SOL_ADJUDICATE, CapForced, 22));
          return;
        }
      }
      if edge.t == 37 {
        var exceeded := BumpTimeoutRetryCounter(pid, readable);
        if exceeded {
          o := Record(pid, Row(DEAD_LETTER, Dead("timeout_retry_exhausted"), 0));
          return;
        }
      }
      o := Record(pid, Row(edge.to, On(name), edge.t));
    }

    /** Follows the table for an event that was not absorbed. */
    method Route(pid: string, p: Packet, ev: Event, env: Env) returns (o: Outcome)
      requires p == EntryOf(packets, pid)
      requires !(ev.attempt.Some? && ev.attempt.value < p.attempts)
      requires !(p.state == REPORTED && ev.name == SubagentStop && env.reportExists)
      requires !(p.state == TIMED_OUT && ev.name == Timeout)
      requires !(p.state == DEAD_LETTER && Table(p.state, ev.name).None?)
      requires !(p.state == RUNNING && ev.name == Dispatched && ev.attempt == Some(p.attempts))
      modifies this`packets, this`replans, this`timeouts
      ensures var d := Decide(p, ev, env, CountOf(old(replans), pid), CountOf(old(timeouts), pid));
        var b := Bumped(old(Open()), pid, d.bump);
        && Open() == b.(packets := old(packets)[pid := WithRow(p, d.row)])
        && o == Reached(d.row.to)
    {
      if p.releaseReview && p.state == RUNNING && ev.name == ExecFailed {
        o := Record(pid, Row(SOL_ADJUDICATE, On(ExecFailed), 26));
        return;
      }
      var edge := Table(p.state, ev.name);
      if edge.None? {
        o := Record(pid, Row(DEAD_LETTER, Dead("off_table_event"), 0));
        return;
      }
      var t := edge.value.t;
      if t == 4 && !env.reportCurrent {
        o := Record(pid, Row(DEAD_LETTER, Dead("report_missing_on_stop"), 0));
        return;
      }
      if (t == 11 || t == 12) && !env.enforceDuty {
        o := Record(pid, Row(DEAD_LETTER, Dead("duty_ruling_recorded_not_routed"), 0));
        return;
      }
      o := TakeEdge(pid, ev.name, edge.value, env.countersReadable);
    }

    /** One event against the working copy. */
    method ApplyEvent(ev: Event, env: Env) returns (o: Outcome)
      modifies this`packets, this`replans, this`timeouts
      ensures Open() == Handled(old(Open()), ev, env)
      ensures o == OutcomeOf(old(Open()), ev, env)
    {
      if Synthetic(ev.pid) || ev.name.Info? {
        return Ignored;
      }
      if !SafePid(ev.pid) {
        return Halted;
      }
      if ev.name == Unparseable {
        o := Record(ev.pid, Row(DEAD_LETTER, Dead("unparseable_event_line"), 0));
        return;
      }
      if ev.pid !in packets && ev.name != Planned {
        return Ignored;
      }
      var p := EntryOf(packets, ev.pid);
      var via := Absorb(p, ev, env);
      if via.Some? {
        o := Record(ev.pid, Row(p.state, via.value, 0));
      } else {
        o := Route(ev.pid, p, ev, env);
      }
    }

    /** The read loop: handles the log from `from` on, in order, once each, until its end or an
        event whose id must never become a file name. */
    method ReadLoop(from: nat, envs: seq<Env>) returns (stop: nat, dead: nat)
      requires from <= |log| && |envs| == |log|
      modifies this`packets, this`replans, this`timeouts
      ensures from <= stop <= |log| && AllSafe(log, from, stop) && (stop < |log| ==> Unsafe(log[stop]))
      ensures Open() == Folded(old(Open()), log, envs, from, stop)
      ensures dead == DeadLetters(old(Open()), log, envs, from, stop)
    {
      stop, dead := from, 0;
      while stop < |log|
        invariant from <= stop <= |log| && AllSafe(log, from, stop)
        invariant Open() == Folded(old(Open()), log, envs, from, stop)
        invariant dead == DeadLetters(old(Open()), log, envs, from, stop)
      {
        UnsafeIdsHalt(Open(), log[stop], envs[stop]);
        var o := ApplyEvent(log[stop], envs[stop]);
        if o.Halted? {
          return;
        }
        if o == Reached(DEAD_LETTER) {
          dead := dead + 1;
        }
        stop := stop + 1;
      }
    }

    /** The report-file fallback over a listing of the packets: it reports exactly the listed RUNNING
        packets with a current report, and leaves every other entry alone. */
    method Reconcile(pids: seq<string>, current: set<string>, cursor: nat, limit: nat,
                     ghost w0: World, ghost before: seq<Step>)
      returns (ghost trace: seq<Step>)
      requires IsRun(w0, before, limit) && After(w0, before, limit) == Working(cursor)
      modifies this`packets
      ensures IsRun(w0, trace, limit) && After(w0, trace, limit) == Working(cursor)
      ensures FellBack(old(packets), packets, pids, current)
    {
      trace := before;
      assert pids[..0] == [];
      for i := 0 to |pids|
        invariant IsRun(w0, trace, limit) && After(w0, trace, limit) == Working(cursor)
        invariant FellBack(old(packets), packets, pids[..i], current)
      {
        var pid := pids[i];
        OneMoreFallsBack(old(packets), packets, pids[..i], current, pid);
        assert pids[..i + 1] == pids[..i] + [pid];
        if pid in packets && packets[pid].state == RUNNING && pid in current {
          trace := ReportPacket(pid, cursor, limit, w0, trace);
        }
      }
      assert pids[..|pids|] == pids;
    }

    method ReportPacket(pid: string, cursor: nat, limit: nat, ghost w0: World, ghost before: seq<Step>)
      returns (ghost trace: seq<Step>)
      requires IsRun(w0, before, limit) && After(w0, before, limit) == Working(cursor)
      requires pid in packets && packets[pid].state == RUNNING
      modifies this`packets
      ensures IsRun(w0, trace, limit) && After(w0, trace, limit) == Working(cursor)
      ensures packets == old(packets)[pid := MovedTo(old(packets)[pid], Row(REPORTED, ReportFallback, 4))]
    {
      RunAppend(w0, before, ByMachine(Fallback(pid)), limit);
      trace := before + [ByMachine(Fallback(pid))];
      var _ := Record(pid, Row(REPORTED, ReportFallback, 4));
    }

    /** The watchdog over a listing of the packets; `overdue` gives the attempt each event carries.  It
        fires for exactly the listed RUNNING packets that are overdue, once each: one line and one row
        for each of them, and nothing else. */
    method WatchdogSweep(pids: seq<string>, overdue: map<string, Option<int>>, cursor: nat, limit: nat,
                         ghost w0: World, ghost before: seq<Step>)
      returns (fired: seq<string>, ghost trace: seq<Step>)
      requires IsRun(w0, before, limit) && After(w0, before, limit) == Working(cursor)
      modifies this`packets, this`log
      ensures IsRun(w0, trace, limit) && After(w0, trace, limit) == Working(cursor)
      ensures WentOff(old(packets), packets, pids, overdue)
      ensures FiredFor(fired, old(packets), pids, overdue)
      ensures log == old(log) + TimeoutLines(fired, overdue)
    {
      trace, fired := before, [];
      assert pids[..0] == [] && old(log) + [] == old(log);
      for i := 0 to |pids|
        invariant IsRun(w0, trace, limit) && After(w0, trace, limit) == Working(cursor)
        invariant WentOff(old(packets), packets, pids[..i], overdue)
        invariant FiredFor(fired, old(packets), pids[..i], overdue)
        invariant log == old(log) + TimeoutLines(fired, overdue)
      {
        var pid := pids[i];
        OneMoreGoesOff(old(packets), packets, pids[..i], overdue, fired, pid);
        assert pids[..i + 1] == pids[..i] + [pid];
        if pid in packets && packets[pid].state == RUNNING && pid in overdue {
          OneMoreLineOfTimeouts(old(log), fired, overdue, pid);
          trace := TimeOutPacket(pid, overdue[pid], cursor, limit, w0, trace);
          fired := fired + [pid];
        }
      }
      assert pids[..|pids|] == pids;
    }

    method TimeOutPacket(pid: string, attempt: Option<int>, cursor: nat, limit: nat, ghost w0: World,
                         ghost before: seq<Step>)
      returns (ghost trace: seq<Step>)
      requires IsRun(w0, before, limit) && After(w0, before, limit) == Working(cursor)
      requires pid in packets && packets[pid].state == RUNNING
      modifies this`packets, this`log
      ensures IsRun(w0, trace, limit) && After(w0, trace, limit) == Working(cursor)
      ensures packets == old(packets)[pid := MovedTo(old(packets)[pid], Row(TIMED_OUT, On(Timeout), 5))]
      ensures log == old(log) + [Event(pid, Timeout, attempt)]
    {
      RunAppend(w0, before, ByMachine(Watchdog(pid, attempt)), limit);
      trace := before + [ByMachine(Watchdog(pid, attempt))];
      log := log + [Event(pid, Timeout, attempt)];
      var _ := Record(pid, Row(TIMED_OUT, On(Timeout), 5));
    }

    /** Both sweeps over the folded packets. */
    method Sweep(pids: seq<string>, current: set<string>, overdue: map<string, Option<int>>, cursor: nat, limit: nat,
                 ghost w0: World, ghost before: seq<Step>)
      returns (fired: seq<string>, ghost trace: seq<Step>)
      requires IsRun(w0, before, limit) && After(w0, before, limit) == Working(cursor)
      modifies this`packets, this`log
      ensures IsRun(w0, trace, limit) && After(w0, trace, limit) == Working(cursor)
      ensures Swept(old(packets), packets, pids, current, overdue)
      ensures log == old(log) + TimeoutLines(fired, overdue)
      ensures FiredExactly(fired, old(packets), pids, current, overdue)
    {
      trace := Reconcile(pids, current, cursor, limit, w0, before);
      ghost var between := packets;
      fired, trace := WatchdogSweep(pids, overdue, cursor, limit, w0, trace);
      SweepsCompose(old(packets), between, packets, pids, current, overdue, fired);
    }

    /** One whole step: load, fold the log, fall back, watch, commit.  It is a run of the system,
        so everything proved about runs holds of it.  It halts without a commit exactly when it meets
        an unsafe id; otherwise it has read every line that was there when it began. */
    method Step(envs: seq<Env>, pids: seq<string>, current: set<string>, overdue: map<string, Option<int>>, limit: nat)
      returns (halted: bool, dead: nat, fired: seq<string>, ghost trace: seq<LifecycleWorld.Step>)
      requires ledger.cursor <= |log| && |envs| == |log|
      modifies this
      ensures IsRun(old(Idle()), trace, limit) && After(old(Idle()), trace, limit) == Idle()
      ensures calls == old(calls) && admission == old(admission)
      ensures halted <==> !AllSafe(old(log), old(ledger.cursor), |old(log)|)
      ensures halted ==> ledger == old(ledger) && log == old(log)
      ensures !halted ==> ledger.cursor == |old(log)|
      ensures var b := old(Books(ledger.packets, replans, timeouts));
        var folded := Folded(b, old(log), envs, old(ledger.cursor), |old(log)|).packets;
        !halted ==>
          && dead == DeadLetters(b, old(log), envs, old(ledger.cursor), |old(log)|)
          && Swept(folded, ledger.packets, pids, current, overdue)
          && log == old(log) + TimeoutLines(fired, overdue)
          && FiredExactly(fired, folded, pids, current, overdue)
    {
      ghost var w0 := Idle();
      packets := ledger.packets;
      trace, fired := [ByMachine(Begin)], [];
      RunAppend(w0, [], ByMachine(Begin), limit);
      assert [] + trace == trace;
      ghost var w := Working(ledger.cursor);
      var consumed;
      consumed, dead := ReadLoop(ledger.cursor, envs);
      trace := LinesAreRun(w0, trace, w, envs, consumed, limit);
      halted := consumed < |log|;
      if halted {
        trace := HaltIsRun(w0, trace, Working(consumed), envs[consumed], limit);
        return;
      }
      fired, trace := Sweep(pids, current, overdue, consumed, limit, w0, trace);
      RunAppend(w0, trace, ByMachine(Commit), limit);
      trace := trace + [ByMachine(Commit)];
      ledger := Ledger(packets, consumed);
    }
  }
}
