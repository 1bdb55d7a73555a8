/** The coalesced wake-up protocol.

    Schedulers bump `requested_seq` under the claim lock and either coalesce onto the live
    runner named by the marker file or spawn a new one.  A runner reads the sequence number
    outside the lock, works, and commits `consumed_seq` and its exit under the lock.

    A step is one lock-protected block or one read; a process may die at any point of a block,
    which `Cut` records.  A runner is a (pid, start ticks) pair, so identities are never reused. */
module WakeProtocol {
  import opened Wrappers

  type Runner = nat

  /** Where a live runner is in its loop. */
  datatype Phase = AtTop | Working(requested: nat)

  /** The request file, the marker file and the process table. */
  datatype Wake = Wake(requested: nat, consumed: nat, marker: Option<Runner>,
                       live: map<Runner, Phase>, next: Runner)

  /** The point of a locked block at which its process died, if it did. */
  datatype Cut = Whole | BeforeSpawn | BeforeMarker

  datatype Step =
    | Schedule(cut: Cut)
    | StartByHand
    | Read(r: Runner)
    | Commit(r: Runner, survives: bool)
    | Crash(r: Runner)

  const INITIAL := Wake(0, 0, None, map[], 0)

  ghost predicate Valid(s: Wake) {
    && s.consumed <= s.requested
    && (s.marker.Some? ==> s.marker.value < s.next)
    && (forall r :: r in s.live ==> r < s.next)
    && (forall r :: r in s.live && s.live[r].Working? ==> s.live[r].requested <= s.requested)
  }

  predicate MarkerLive(s: Wake) {
    s.marker.Some? && s.marker.value in s.live
  }

  /** No recorded request waits without a runner that will look at it. */
  predicate Healthy(s: Wake) {
    s.requested > s.consumed ==> MarkerLive(s)
  }

  predicate Enabled(s: Wake, step: Step) {
    match step
    case Schedule(_) => true
    case StartByHand => s.requested > 0
    case Read(r) => r in s.live && s.live[r].AtTop?
    case Commit(r, _) => r in s.live && s.live[r].Working?
    case Crash(r) => r in s.live
  }

  function Scheduled(s: Wake, cut: Cut): Wake {
    var bumped := s.(requested := s.requested + 1);
    if MarkerLive(s) || cut == BeforeSpawn then bumped
    else
      var spawned := bumped.(live := s.live[s.next := AtTop], next := s.next + 1);
      if cut == BeforeMarker then spawned else spawned.(marker := Some(s.next))
  }

  function Committed(s: Wake, r: Runner, survives: bool): Wake
    requires r in s.live && s.live[r].Working?
  {
    var q := s.live[r].requested;
    var written := s.(consumed := if s.consumed < q then q else s.consumed);
    if !survives then written.(live := s.live - {r})
    else if s.requested <= q then
      written.(live := s.live - {r}, marker := if s.marker == Some(r) then None else s.marker)
    else written.(live := s.live[r := AtTop])
  }

  function Next(s: Wake, step: Step): Wake
    requires Enabled(s, step)
  {
    match step
    case Schedule(cut) => Scheduled(s, cut)
    case StartByHand => s.(live := s.live[s.next := AtTop], next := s.next + 1)
    case Read(r) => s.(live := s.live[r := Working(s.requested)])
    case Commit(r, survives) => Committed(s, r, survives)
    case Crash(r) => s.(live := s.live - {r})
  }

  /** Some process died in this step. */
  predicate Dies(step: Step) {
    step.Crash? || (step.Schedule? && step.cut != Whole) || (step.Commit? && !step.survives)
  }

  predicate StepOf(step: Step, r: Runner) {
    (step.Read? || step.Commit? || step.Crash?) && step.r == r
  }

  /* Runs: every interleaving of enabled steps. */

  ghost predicate IsRun(s: Wake, steps: seq<Step>)
    decreases |steps|, 0
  {
    steps == [] ||
    (var init := steps[..|steps| - 1];
     IsRun(s, init) && Enabled(After(s, init), steps[|steps| - 1]))
  }

  ghost function After(s: Wake, steps: seq<Step>): Wake
    requires IsRun(s, steps)
    decreases |steps|, 1
  {
    if steps == [] then s
    else
      var init := steps[..|steps| - 1];
      Next(After(s, init), steps[|steps| - 1])
  }

  lemma {:induction false} PrefixIsRun(s: Wake, steps: seq<Step>, k: nat)
    requires IsRun(s, steps) && k <= |steps|
    ensures IsRun(s, steps[..k])
  {
    if k == |steps| {
      assert steps[..k] == steps;
    } else {
      var init := steps[..|steps| - 1];
      PrefixIsRun(s, init, k);
      assert init[..k] == steps[..k];
    }
  }

  /** After a prefix, one step further on. */
  lemma AfterOneMore(s: Wake, steps: seq<Step>, k: nat)
    requires IsRun(s, steps) && k < |steps|
    ensures IsRun(s, steps[..k]) && IsRun(s, steps[..k + 1])
    ensures Enabled(After(s, steps[..k]), steps[k])
    ensures After(s, steps[..k + 1]) == Next(After(s, steps[..k]), steps[k])
  {
    PrefixIsRun(s, steps, k);
    PrefixIsRun(s, steps, k + 1);
    assert steps[..k + 1][..k] == steps[..k];
  }

  lemma RunOneMore(s: Wake, steps: seq<Step>, step: Step)
    requires IsRun(s, steps) && Enabled(After(s, steps), step)
    ensures IsRun(s, steps + [step]) && After(s, steps + [step]) == Next(After(s, steps), step)
  {
    assert (steps + [step])[..|steps|] == steps;
  }

  /* What every step keeps. */

  lemma StepKeepsValid(s: Wake, step: Step)
    requires Valid(s) && Enabled(s, step)
    ensures Valid(Next(s, step))
    ensures s.requested <= Next(s, step).requested && s.consumed <= Next(s, step).consumed
  {}

  lemma StepKeepsHealthy(s: Wake, step: Step)
    requires Valid(s) && Healthy(s) && Enabled(s, step) && !Dies(step)
    ensures Healthy(Next(s, step))
  {}

  lemma {:induction false} RunKeepsValid(s: Wake, steps: seq<Step>)
    requires Valid(s) && IsRun(s, steps)
    ensures Valid(After(s, steps))
  {
    if steps != [] {
      RunKeepsValid(s, steps[..|steps| - 1]);
      StepKeepsValid(After(s, steps[..|steps| - 1]), steps[|steps| - 1]);
    }
  }

  /** From any reachable state, crashed or not, one undisturbed schedule restores health. */
  lemma ScheduleRestoresHealth(s: Wake)
    requires Valid(s)
    ensures Healthy(Next(s, Schedule(Whole)))
    ensures MarkerLive(Next(s, Schedule(Whole)))
  {}

  /** No wake-up is lost: over every interleaving with crashes anywhere, once a whole schedule has
      run and no process has died since, a waiting request has a live marked runner; and with no
      runner left nothing waits. */
  lemma {:induction false} NoLostWakeUp(s: Wake, steps: seq<Step>, k: nat)
    requires Valid(s) && IsRun(s, steps) && k <= |steps|
    requires k == 0 ==> Healthy(s)
    requires k > 0 ==> steps[k - 1] == Schedule(Whole)
    requires forall i :: k <= i < |steps| ==> !Dies(steps[i])
    ensures Healthy(After(s, steps))
    ensures After(s, steps).live == map[] ==> After(s, steps).requested == After(s, steps).consumed
  {
    RunKeepsValid(s, steps);
    if |steps| == k {
      if k > 0 {
        RunKeepsValid(s, steps[..k - 1]);
        ScheduleRestoresHealth(After(s, steps[..k - 1]));
      }
    } else {
      var init := steps[..|steps| - 1];
      RunKeepsValid(s, init);
      if k > 0 { assert init[k - 1] == steps[k - 1]; }
      NoLostWakeUp(s, init, k);
      StepKeepsHealthy(After(s, init), steps[|steps| - 1]);
    }
  }

  /** The only live runner, if there is one, is the marked one. */
  predicate OneRunner(s: Wake) {
    forall r :: r in s.live ==> s.marker == Some(r)
  }

  /** Schedules coalesce: in a run without deaths and without runners started by hand there is never more
      than one runner, and the marker names it. */
  lemma {:induction false} SchedulesCoalesce(s: Wake, steps: seq<Step>)
    requires OneRunner(s) && IsRun(s, steps)
    requires forall i :: 0 <= i < |steps| ==> !Dies(steps[i]) && !steps[i].StartByHand?
    ensures OneRunner(After(s, steps))
  {
    if steps != [] {
      SchedulesCoalesce(s, steps[..|steps| - 1]);
    }
  }

  /* Coverage: a consumed request was seen by a pass that began after it was recorded. */

  /** Steps `i` and `j` are the read and the commit of one pass of `r`. */
  predicate Pass(steps: seq<Step>, i: nat, j: nat, r: Runner) {
    && i < j < |steps|
    && steps[i] == Read(r)
    && steps[j].Commit? && steps[j].r == r
    && (forall m :: i < m < j ==> !StepOf(steps[m], r))
  }

  /** Request `n` had been recorded when the read `i` of a finished pass happened. */
  ghost predicate Covered(s: Wake, steps: seq<Step>, n: nat)
    requires IsRun(s, steps)
  {
    exists i: nat, j: nat, r ::
      && Pass(steps, i, j, r)
      && IsRun(s, steps[..i]) && After(s, steps[..i]).requested >= n
  }

  /** Read `i` of runner `r` saw `q`, and `r` has not stepped since. */
  ghost predicate OpenAt(s: Wake, steps: seq<Step>, r: Runner, q: nat, i: nat)
    requires IsRun(s, steps)
  {
    && i < |steps| && steps[i] == Read(r)
    && (forall m :: i < m < |steps| ==> !StepOf(steps[m], r))
    && IsRun(s, steps[..i]) && After(s, steps[..i]).requested >= q
  }

  /** The open pass of a working runner: its read and what it saw there. */
  ghost predicate Opened(s: Wake, steps: seq<Step>, r: Runner, q: nat)
    requires IsRun(s, steps)
  {
    exists i: nat :: OpenAt(s, steps, r, q, i)
  }

  lemma OpenedGrows(s: Wake, steps: seq<Step>, r: Runner, q: nat)
    requires steps != [] && IsRun(s, steps)
    requires Opened(s, steps[..|steps| - 1], r, q)
    requires !StepOf(steps[|steps| - 1], r)
    ensures Opened(s, steps, r, q)
  {
    var init := steps[..|steps| - 1];
    var i: nat :| OpenAt(s, init, r, q, i);
    assert steps[..i] == init[..i];
    assert OpenAt(s, steps, r, q, i);
  }

  lemma CoveredGrows(s: Wake, steps: seq<Step>, n: nat)
    requires steps != [] && IsRun(s, steps)
    requires Covered(s, steps[..|steps| - 1], n)
    ensures Covered(s, steps, n)
  {
    var init := steps[..|steps| - 1];
    var i: nat, j: nat, r :| Pass(init, i, j, r)
                             && IsRun(s, init[..i]) && After(s, init[..i]).requested >= n;
    assert forall m :: 0 <= m < |init| ==> steps[m] == init[m];
    assert Pass(steps, i, j, r);
    assert steps[..i] == init[..i];
  }

  /** Committing an open pass covers every request it saw. */
  lemma OpenedCloses(s: Wake, steps: seq<Step>, r: Runner, q: nat, n: nat)
    requires steps != [] && IsRun(s, steps)
    requires Opened(s, steps[..|steps| - 1], r, q) && n <= q
    requires steps[|steps| - 1].Commit? && steps[|steps| - 1].r == r
    ensures Covered(s, steps, n)
  {
    var init := steps[..|steps| - 1];
    var i: nat :| OpenAt(s, init, r, q, i);
    assert forall m :: 0 <= m < |init| ==> steps[m] == init[m];
    assert Pass(steps, i, |steps| - 1, r);
    assert steps[..i] == init[..i];
  }

  lemma ReadOpens(s: Wake, steps: seq<Step>, r: Runner)
    requires steps != [] && IsRun(s, steps) && steps[|steps| - 1] == Read(r)
    ensures Opened(s, steps, r, After(s, steps[..|steps| - 1]).requested)
  {
    assert OpenAt(s, steps, r, After(s, steps[..|steps| - 1]).requested, |steps| - 1);
  }

  /** Every working runner has an open pass that saw what it is working on. */
  lemma {:induction false} WorkingIsOpened(s: Wake, steps: seq<Step>, r: Runner)
    requires s.live == map[] && IsRun(s, steps)
    requires r in After(s, steps).live && After(s, steps).live[r].Working?
    ensures Opened(s, steps, r, After(s, steps).live[r].requested)
  {
    if steps != [] {
      var init, last := steps[..|steps| - 1], steps[|steps| - 1];
      if last == Read(r) {
        ReadOpens(s, steps, r);
      } else {
        assert !StepOf(last, r);
        WorkingIsOpened(s, init, r);
        OpenedGrows(s, steps, r, After(s, init).live[r].requested);
      }
    }
  }

  /** Every request up to `consumed_seq` was seen by a finished pass that began after it was
      recorded, over every interleaving and wherever processes died. */
  lemma {:induction false} ConsumedIsCovered(s: Wake, steps: seq<Step>, n: nat)
    requires s.live == map[] && s.consumed == 0 && IsRun(s, steps)
    requires 0 < n <= After(s, steps).consumed
    ensures Covered(s, steps, n)
  {
    if steps != [] {
      var init, last := steps[..|steps| - 1], steps[|steps| - 1];
      if n <= After(s, init).consumed {
        ConsumedIsCovered(s, init, n);
        CoveredGrows(s, steps, n);
      } else {
        WorkingIsOpened(s, init, last.r);
        OpenedCloses(s, steps, last.r, After(s, init).live[last.r].requested, n);
      }
    }
  }

  /* Progress of one pass. */

  lemma OthersLeaveAPassAlone(t: Wake, step: Step, r: Runner)
    requires Valid(t) && Enabled(t, step) && !StepOf(step, r)
    requires r in t.live
    ensures r in Next(t, step).live && Next(t, step).live[r] == t.live[r]
    ensures t.requested <= Next(t, step).requested
    ensures !step.Schedule? ==> Next(t, step).requested == t.requested
  {}

  /** Between its read and its next own step a runner stays where it is. */
  lemma {:induction false} PassHolds(s: Wake, steps: seq<Step>, i: nat, m: nat, r: Runner)
    requires IsRun(s, steps) && i < m <= |steps| && steps[i] == Read(r)
    requires Valid(s)
    requires forall x :: i < x < m ==> !StepOf(steps[x], r)
    ensures IsRun(s, steps[..i]) && IsRun(s, steps[..m])
    ensures r in After(s, steps[..m]).live
    ensures After(s, steps[..m]).live[r] == Working(After(s, steps[..i]).requested)
  {
    AfterOneMore(s, steps, m - 1);
    if m == i + 1 {
    } else {
      PassHolds(s, steps, i, m - 1, r);
      RunKeepsValid(s, steps[..m - 1]);
      OthersLeaveAPassAlone(After(s, steps[..m - 1]), steps[m - 1], r);
    }
  }

  /** Without a schedule nothing more is requested. */
  lemma {:induction false} QuietKeepsRequests(s: Wake, steps: seq<Step>, i: nat, m: nat)
    requires IsRun(s, steps) && i <= m <= |steps|
    requires forall x :: i <= x < m ==> !steps[x].Schedule?
    ensures IsRun(s, steps[..i]) && IsRun(s, steps[..m])
    ensures After(s, steps[..m]).requested == After(s, steps[..i]).requested
  {
    PrefixIsRun(s, steps, i);
    if m > i {
      QuietKeepsRequests(s, steps, i, m - 1);
      AfterOneMore(s, steps, m - 1);
    }
  }

  /** A finished pass consumes everything recorded before it began. */
  lemma PassConsumes(s: Wake, steps: seq<Step>, i: nat, j: nat, r: Runner)
    requires Valid(s) && IsRun(s, steps) && Pass(steps, i, j, r)
    ensures IsRun(s, steps[..i]) && IsRun(s, steps[..j + 1])
    ensures After(s, steps[..j + 1]).consumed >= After(s, steps[..i]).requested
  {
    PassHolds(s, steps, i, j, r);
    AfterOneMore(s, steps, j);
  }

  /** A runner leaves after a pass it survives when nothing was scheduled since its read, and then
      the two counters are equal; `StaysWhenScheduled` is the other half. */
  lemma LeavesWhenQuiet(s: Wake, steps: seq<Step>, i: nat, j: nat, r: Runner)
    requires Valid(s) && IsRun(s, steps) && Pass(steps, i, j, r) && steps[j].survives
    requires forall x :: i < x < j ==> !steps[x].Schedule?
    ensures IsRun(s, steps[..j + 1])
    ensures r !in After(s, steps[..j + 1]).live
    ensures After(s, steps[..j + 1]).consumed == After(s, steps[..j + 1]).requested
  {
    PassHolds(s, steps, i, j, r);
    QuietKeepsRequests(s, steps, i, j);
    AfterOneMore(s, steps, j);
    RunKeepsValid(s, steps[..j]);
  }

  lemma {:induction false} RequestsOnlyGrow(s: Wake, steps: seq<Step>, i: nat, m: nat)
    requires Valid(s) && IsRun(s, steps) && i <= m <= |steps|
    ensures IsRun(s, steps[..i]) && IsRun(s, steps[..m])
    ensures After(s, steps[..i]).requested <= After(s, steps[..m]).requested
    ensures (exists x :: i <= x < m && steps[x].Schedule?) ==>
      After(s, steps[..i]).requested < After(s, steps[..m]).requested
  {
    PrefixIsRun(s, steps, i);
    if m > i {
      RequestsOnlyGrow(s, steps, i, m - 1);
      AfterOneMore(s, steps, m - 1);
      RunKeepsValid(s, steps[..m - 1]);
      StepKeepsValid(After(s, steps[..m - 1]), steps[m - 1]);
    }
  }

  /** One schedule during the pass keeps the runner in its loop, back at its top. */
  lemma StaysWhenScheduled(s: Wake, steps: seq<Step>, i: nat, j: nat, r: Runner, x: nat)
    requires Valid(s) && IsRun(s, steps) && Pass(steps, i, j, r) && steps[j].survives
    requires i < x < j && steps[x].Schedule?
    ensures IsRun(s, steps[..j + 1])
    ensures r in After(s, steps[..j + 1]).live && After(s, steps[..j + 1]).live[r] == AtTop
  {
    PassHolds(s, steps, i, j, r);
    RequestsOnlyGrow(s, steps, i, j);
    AfterOneMore(s, steps, j);
  }

  /* The files and processes as they are updated in place. */

  datatype Status = Coalesced(pid: Runner) | Spawned(pid: Runner)

  /** Nothing is scheduled meanwhile. */
  predicate Quiet(steps: seq<Step>) {
    forall k :: 0 <= k < |steps| ==> !steps[k].Schedule?
  }

  class ControlPlane {
    var requestedSeq: nat
    var consumedSeq: nat
    var marker: Option<Runner>
    var processes: map<Runner, Phase>
    var nextRunner: Runner

    function View(): Wake
      reads this
    {
      Wake(requestedSeq, consumedSeq, marker, processes, nextRunner)
    }

    constructor ()
      ensures View() == INITIAL
    {
      requestedSeq, consumedSeq, marker, processes, nextRunner := 0, 0, None, map[], 0;
    }

    /** One undisturbed scheduling call. */
    method ScheduleRun() returns (status: Status)
      modifies this
      ensures View() == Next(old(View()), Schedule(Whole))
      ensures status.pid in processes && marker == Some(status.pid)
      ensures status.Coalesced? <==> MarkerLive(old(View()))
      ensures requestedSeq == old(requestedSeq) + 1 && consumedSeq == old(consumedSeq)
      ensures status.Coalesced? ==> processes == old(processes) && marker == old(marker)
      ensures status.Spawned? ==> processes == old(processes)[status.pid := AtTop]
    {
      requestedSeq := requestedSeq + 1;
      if marker.Some? && marker.value in processes {
        return Coalesced(marker.value);
      }
      processes := processes[nextRunner := AtTop];
      marker := Some(nextRunner);
      status := Spawned(nextRunner);
      nextRunner := nextRunner + 1;
    }

    /** The locked block at the end of a pass of runner `me` that had read `requested`. */
    method CommitPass(me: Runner, requested: nat) returns (done: bool)
      requires me in processes && processes[me] == Working(requested)
      modifies this
      ensures View() == Next(old(View()), Commit(me, true))
      ensures done <==> me !in processes
      ensures done <==> old(requestedSeq) <= requested
      ensures requestedSeq == old(requestedSeq)
      ensures consumedSeq == if old(consumedSeq) < requested then requested else old(consumedSeq)
      ensures marker == if done && old(marker) == Some(me) then None else old(marker)
      ensures processes == if done then old(processes) - {me} else old(processes)[me := AtTop]
    {
      if consumedSeq < requested {
        consumedSeq := requested;
      }
      done := requestedSeq <= requested;
      if done {
        if marker == Some(me) {
          marker := None;
        }
        processes := processes - {me};
      } else {
        processes := processes[me := AtTop];
      }
    }

    /** Steps of other processes, taken when they are enabled. */
    method Interfere(me: Runner, steps: seq<Step>, ghost s0: Wake, ghost before: seq<Step>)
      returns (ghost trace: seq<Step>)
      requires IsRun(s0, before) && After(s0, before) == View() && Valid(s0)
      requires me in processes
      modifies this
      ensures IsRun(s0, trace) && After(s0, trace) == View()
      ensures before <= trace && (forall i :: |before| <= i < |trace| ==> !StepOf(trace[i], me))
      ensures me in processes && processes[me] == old(processes[me])
      ensures old(requestedSeq) <= requestedSeq && (Quiet(steps) ==> requestedSeq == old(requestedSeq))
    {
      trace := before;
      for k := 0 to |steps|
        invariant IsRun(s0, trace) && After(s0, trace) == View()
        invariant before <= trace && (forall i :: |before| <= i < |trace| ==> !StepOf(trace[i], me))
        invariant me in processes && processes[me] == old(processes[me])
        invariant old(requestedSeq) <= requestedSeq && (Quiet(steps) ==> requestedSeq == old(requestedSeq))
      {
        if Enabled(View(), steps[k]) && !StepOf(steps[k], me) {
          RunKeepsValid(s0, trace);
          RunOneMore(s0, trace, steps[k]);
          OthersLeaveAPassAlone(View(), steps[k], me);
          var t := Next(View(), steps[k]);
          requestedSeq, consumedSeq, marker, processes, nextRunner :=
            t.requested, t.consumed, t.marker, t.live, t.next;
          trace := trace + [steps[k]];
        }
      }
    }

    /** The runner's loop: read, work, commit, until no request is newer than the one it read.
        `env[p]` is what other processes do around the read of pass `p`; the loop is cut off when
        `env` ends.  The result says whether the runner left, and what it had consumed; it leaves with
        the first pass during which nothing is scheduled, if not before. */
    method DrainRequested(me: Runner, env: seq<(seq<Step>, seq<Step>)>)
      returns (done: bool, requested: nat, ghost trace: seq<Step>)
      requires Valid(View()) && me in processes && processes[me] == AtTop
      modifies this
      ensures IsRun(old(View()), trace) && View() == After(old(View()), trace)
      ensures done <==> me !in processes
      ensures done ==> old(requestedSeq) <= requested <= consumedSeq
      ensures (exists p :: 0 <= p < |env| && Quiet(env[p].1)) ==> done
      ensures done ==> trace != [] && trace[|trace| - 1] == Commit(me, true)
      ensures !done ==> me in processes && processes[me] == AtTop
    {
      ghost var s0 := View();
      trace, done, requested := [], false, 0;
      for p := 0 to |env|
        invariant IsRun(s0, trace) && After(s0, trace) == View()
        invariant me in processes && processes[me] == AtTop && !done
        invariant old(requestedSeq) <= requestedSeq
        invariant forall q :: 0 <= q < p ==> !Quiet(env[q].1)
      {
        trace := Interfere(me, env[p].0, s0, trace);
        requested := requestedSeq;
        RunOneMore(s0, trace, Read(me));
        processes := processes[me := Working(requested)];
        trace := trace + [Read(me)];
        trace := Interfere(me, env[p].1, s0, trace);
        RunOneMore(s0, trace, Commit(me, true));
        done := CommitPass(me, requested);
        trace := trace + [Commit(me, true)];
        if done {
          return;
        }
      }
    }
  }
}
