/** The exactly-once `send_l2` queue.

    Claims are files made with O_EXCL, a reaper moves stale claims aside up to a reclaim budget,
    completions are written once.  One drain-loop body, one reaper iteration, one `complete`, one
    stale check and one heartbeat are atomic; a process may die inside each of them at the points
    the code leaves half-done work behind. */
module L2Queue {
  import opened Wrappers

  /** The semantic identity of a request; its digest form is taken to be injective. */
  datatype Key = Key(packet: string, run: string, attempt: int)

  datatype Record = Record(key: Key, created: int)

  /** A claim file whose body was never written, or one with its last heartbeat. */
  datatype Claim = Torn(mtime: int) | Held(heartbeat: int)

  datatype Completion = Verified(valid: bool, verdict: Option<string>) | StaleEscalated | EscalatedL3

  /** A file under `reaped/` for one key. */
  datatype Evidence = Numbered(n: nat) | Corrupt

  /** What happened, in order; a dispatch is a call of the dispatcher, whatever it answers. */
  datatype Act =
    | Claimed(key: Key, torn: bool)
    | Dispatched(key: Key)
    | Reaped(key: Key, torn: bool)
    | ReaperDied(key: Key)
    | Released(key: Key, torn: bool)
    | Finished(key: Key)

  datatype Queue = Queue(claims: map<Key, Claim>, done: map<Key, Completion>,
                         reaped: map<Key, set<Evidence>>, acts: seq<Act>)

  datatype Policy = Policy(staleAfter: int, maxAge: int, maxReclaims: nat)

  const EMPTY := Queue(map[], map[], map[], [])

  /** Where the drainer died: between creating the claim and writing its body, between the claim
      and the dispatch, or nowhere. */
  datatype DrainCut = Whole | AtOpen | BeforeDispatch

  datatype Step =
    | Drain(rec: Record, now: int, cut: DrainCut)
    | Reap(key: Key, now: int, dies: bool)
    | Complete(key: Key, result: Completion, dies: bool)
    | StaleCheck(rec: Record, now: int)
    | Heartbeat(key: Key, now: int)

  function EvidenceOf(q: Queue, k: Key): set<Evidence> {
    if k in q.reaped then q.reaped[k] else {}
  }

  /** The successful O_EXCL creation of a claim. */
  function Taken(q: Queue, k: Key, c: Claim): Queue {
    q.(claims := q.claims[k := c], acts := q.acts + [Claimed(k, c.Torn?)])
  }

  function Sent(q: Queue, k: Key): Queue {
    q.(acts := q.acts + [Dispatched(k)])
  }

  function DrainOne(q: Queue, rec: Record, now: int, cut: DrainCut): Queue {
    var k := rec.key;
    if k in q.done || k in q.claims then q
    else match cut
      case AtOpen => Taken(q, k, Torn(now))
      case BeforeDispatch => Taken(q, k, Held(now))
      case Whole => Sent(Taken(q, k, Held(now)), k)
  }

  /** Moving a claim aside: the part every reap has in common. */
  function Moved(q: Queue, key: Key, e: Evidence): Queue
    requires key in q.claims
  {
    q.(claims := q.claims - {key}, reaped := q.reaped[key := EvidenceOf(q, key) + {e}],
       acts := q.acts + [Reaped(key, q.claims[key].Torn?)])
  }

  /** What follows an exhausted claim: the poison, or a death that raises the allowance. */
  function Exhausted(q: Queue, k: Key, e: Evidence, dies: bool): Queue
    requires k in q.claims
  {
    var m := Moved(q, k, e);
    if dies then m.(acts := m.acts + [ReaperDied(k)])
    else m.(done := m.done[k := EscalatedL3], acts := m.acts + [Finished(k)])
  }

  function ReapOne(p: Policy, q: Queue, k: Key, now: int, dies: bool): Queue {
    if k !in q.claims then q
    else match q.claims[k]
      case Torn(mtime) =>
        if now - mtime < p.staleAfter then q else Moved(q, k, Corrupt)
      case Held(heartbeat) =>
        if k in q.done || now - heartbeat < p.staleAfter then q
        else
          var reclaims := |EvidenceOf(q, k)| + 1;
          if reclaims <= p.maxReclaims then Moved(q, k, Numbered(reclaims))
          else Exhausted(q, k, Numbered(reclaims), dies)
  }

  /** The write of a completion. */
  function Marked(q: Queue, k: Key, result: Completion): Queue {
    q.(done := q.done[k := result], acts := q.acts + [Finished(k)])
  }

  function CompleteOne(q: Queue, k: Key, result: Completion, dies: bool): Queue {
    if k in q.done then q
    else
      var marked := Marked(q, k, result);
      if dies || k !in q.claims then marked
      else marked.(claims := q.claims - {k},
                   acts := marked.acts + [Released(k, q.claims[k].Torn?)])
  }

  function StaleOne(p: Policy, q: Queue, rec: Record, now: int): Queue {
    if now - rec.created <= p.maxAge || rec.key in q.claims || rec.key in q.done then q
    else Marked(q, rec.key, StaleEscalated)
  }

  function BeatOne(q: Queue, k: Key, now: int): Queue {
    if k in q.claims && q.claims[k].Held? then q.(claims := q.claims[k := Held(now)]) else q
  }

  function Next(p: Policy, q: Queue, step: Step): Queue {
    match step
    case Drain(rec, now, cut) => DrainOne(q, rec, now, cut)
    case Reap(k, now, dies) => ReapOne(p, q, k, now, dies)
    case Complete(k, result, dies) => CompleteOne(q, k, result, dies)
    case StaleCheck(rec, now) => StaleOne(p, q, rec, now)
    case Heartbeat(k, now) => BeatOne(q, k, now)
  }

  /** Any interleaving of any number of drainers, reapers and completers. */
  function Run(p: Policy, q: Queue, steps: seq<Step>): Queue
    decreases |steps|
  {
    if steps == [] then q else Run(p, Next(p, q, steps[0]), steps[1..])
  }

  /** How often each act was done for one key; `late` counts what followed its completion. */
  datatype Tally = Tally(claimed: nat, claimedTorn: nat, reaped: nat, reapedTorn: nat,
                         released: nat, releasedTorn: nat, dispatched: nat, deaths: nat,
                         finished: nat, late: nat)

  const NONE_YET := Tally(0, 0, 0, 0, 0, 0, 0, 0, 0, 0)

  function Bump(t: Tally, b: Act, k: Key): Tally {
    if b.key != k then t
    else match b
      case Claimed(_, torn) =>
        var u := t.(late := if t.finished > 0 then t.late + 1 else t.late);
        if torn then u.(claimedTorn := u.claimedTorn + 1) else u.(claimed := u.claimed + 1)
      case Dispatched(_) =>
        t.(dispatched := t.dispatched + 1, late := if t.finished > 0 then t.late + 1 else t.late)
      case Reaped(_, torn) =>
        if torn then t.(reapedTorn := t.reapedTorn + 1) else t.(reaped := t.reaped + 1)
      case ReaperDied(_) => t.(deaths := t.deaths + 1)
      case Released(_, torn) =>
        if torn then t.(releasedTorn := t.releasedTorn + 1) else t.(released := t.released + 1)
      case Finished(_) =>
        t.(finished := t.finished + 1, late := if t.finished > 0 then t.late + 1 else t.late)
  }

  function TallyOf(acts: seq<Act>, k: Key): Tally {
    if acts == [] then NONE_YET
    else Bump(TallyOf(acts[..|acts| - 1], k), acts[|acts| - 1], k)
  }

  lemma TallyAppend(acts: seq<Act>, b: Act, k: Key)
    ensures TallyOf(acts + [b], k) == Bump(TallyOf(acts, k), b, k)
  {
    assert (acts + [b])[..|acts|] == acts;
  }

  lemma TallyAppend2(acts: seq<Act>, b: Act, c: Act, k: Key)
    ensures TallyOf(acts + [b] + [c], k) == Bump(Bump(TallyOf(acts, k), b, k), c, k)
  {
    TallyAppend(acts, b, k);
    TallyAppend(acts + [b], c, k);
  }

  lemma DispatchAppend(acts: seq<Act>, b: Act, k: Key)
    ensures TallyOf(acts + [b], k).dispatched == TallyOf(acts, k).dispatched + (if b == Dispatched(k) then 1 else 0)
  {
    TallyAppend(acts, b, k);
  }

  lemma DrainDispatches(q: Queue, rec: Record, now: int, k: Key)
    ensures TallyOf(DrainOne(q, rec, now, Whole).acts, k).dispatched == TallyOf(q.acts, k).dispatched
      + (if rec.key == k && k !in q.done && k !in q.claims then 1 else 0)
  {
    DispatchAppend(q.acts, Claimed(rec.key, false), k);
    DispatchAppend(q.acts + [Claimed(rec.key, false)], Dispatched(rec.key), k);
  }

  /* The invariant. */

  function One(b: bool): nat {
    if b then 1 else 0
  }

  /** Every successful claim of the key is the one present, was reaped, or was released by a
      completion, torn and written claims apart; its completion is one act and nothing is claimed,
      dispatched or finished past it; reaps are budgeted. */
  predicate Accounted(p: Policy, t: Tally, held: bool, torn: bool, done: bool, evidence: nat) {
    && t.claimed == t.reaped + t.released + One(held)
    && t.claimedTorn == t.reapedTorn + t.releasedTorn + One(torn)
    && t.finished == One(done) && t.late == 0 && (!done ==> t.released == 0)
    && t.reaped <= evidence
    && t.dispatched <= t.claimed <= p.maxReclaims + 1 + t.deaths
    && (!done ==> t.reaped <= p.maxReclaims + t.deaths)
  }

  predicate IsHeld(q: Queue, k: Key) { k in q.claims && q.claims[k].Held? }

  predicate IsTorn(q: Queue, k: Key) { k in q.claims && q.claims[k].Torn? }

  /** Numbered evidence is never beyond the count of its directory entries. */
  ghost predicate NumberedOk(evidence: set<Evidence>) {
    forall n: nat :: Numbered(n) in evidence ==> n <= |evidence|
  }

  ghost predicate Sound(p: Policy, q: Queue, k: Key) {
    && Accounted(p, TallyOf(q.acts, k), IsHeld(q, k), IsTorn(q, k), k in q.done, |EvidenceOf(q, k)|)
    && NumberedOk(EvidenceOf(q, k))
  }

  function KeyOf(step: Step): Key {
    match step
    case Drain(rec, _, _) => rec.key
    case Reap(k, _, _) => k
    case Complete(k, _, _) => k
    case StaleCheck(rec, _) => rec.key
    case Heartbeat(k, _) => k
  }

  predicate SameFiles(q: Queue, r: Queue, k: Key) {
    && (k in r.claims <==> k in q.claims) && (k in q.claims ==> r.claims[k] == q.claims[k])
    && (k in r.done <==> k in q.done) && (k in q.done ==> r.done[k] == q.done[k])
    && EvidenceOf(r, k) == EvidenceOf(q, k)
  }

  lemma MoveLeavesOthers(q: Queue, key: Key, e: Evidence, k: Key)
    requires key in q.claims && key != k
    ensures SameFiles(q, Moved(q, key, e), k)
  {}

  lemma ReapLeavesOthers(p: Policy, q: Queue, key: Key, now: int, dies: bool, k: Key)
    requires key != k
    ensures SameFiles(q, ReapOne(p, q, key, now, dies), k)
  {
    if key in q.claims {
      var e := if q.claims[key].Torn? then Corrupt else Numbered(|EvidenceOf(q, key)| + 1);
      MoveLeavesOthers(q, key, e, k);
    }
  }

  /** A step touches the files of its own key only. */
  lemma OtherFilesAreUntouched(p: Policy, q: Queue, step: Step, k: Key)
    requires KeyOf(step) != k
    ensures SameFiles(q, Next(p, q, step), k)
  {
    if step.Reap? {
      ReapLeavesOthers(p, q, step.key, step.now, step.dies, k);
    }
  }

  lemma OtherActsDoNotCount(acts: seq<Act>, b: Act, c: Act, k: Key)
    requires b.key != k && c.key != k
    ensures TallyOf(acts + [b], k) == TallyOf(acts + [b] + [c], k) == TallyOf(acts, k)
  {
    TallyAppend2(acts, b, c, k);
    TallyAppend(acts, b, k);
  }

  lemma OtherReapIsUncounted(p: Policy, q: Queue, o: Key, now: int, dies: bool, k: Key)
    requires o != k
    ensures TallyOf(ReapOne(p, q, o, now, dies).acts, k) == TallyOf(q.acts, k)
  {
    OtherActsDoNotCount(q.acts, Reaped(o, false), if dies then ReaperDied(o) else Finished(o), k);
    OtherActsDoNotCount(q.acts, Reaped(o, true), Finished(o), k);
  }

  lemma OtherDrainIsUncounted(q: Queue, rec: Record, now: int, cut: DrainCut, k: Key)
    requires rec.key != k
    ensures TallyOf(DrainOne(q, rec, now, cut).acts, k) == TallyOf(q.acts, k)
  {
    OtherActsDoNotCount(q.acts, Claimed(rec.key, false), Dispatched(rec.key), k);
    OtherActsDoNotCount(q.acts, Claimed(rec.key, true), Dispatched(rec.key), k);
  }

  lemma OtherTallyIsUntouched(p: Policy, q: Queue, step: Step, k: Key)
    requires KeyOf(step) != k
    ensures TallyOf(Next(p, q, step).acts, k) == TallyOf(q.acts, k)
  {
    var o := KeyOf(step);
    match step
    case Drain(rec, now, cut) => OtherDrainIsUncounted(q, rec, now, cut, k);
    case Reap(_, now, dies) => OtherReapIsUncounted(p, q, o, now, dies, k);
    case Complete(_, _, _) => OtherActsDoNotCount(q.acts, Finished(o), Released(o, IsTorn(q, o)), k);
    case StaleCheck(_, _) => OtherActsDoNotCount(q.acts, Finished(o), Finished(o), k);
    case Heartbeat(_, _) =>
  }

  lemma OtherStepKeepsSound(p: Policy, q: Queue, step: Step, k: Key)
    requires Sound(p, q, k) && KeyOf(step) != k
    ensures Sound(p, Next(p, q, step), k)
  {
    OtherFilesAreUntouched(p, q, step, k);
    OtherTallyIsUntouched(p, q, step, k);
  }

  /* The steps of the key itself. */

  lemma ClaimKeepsSound(p: Policy, q: Queue, k: Key, c: Claim)
    requires Sound(p, q, k) && k !in q.done && k !in q.claims
    ensures Sound(p, Taken(q, k, c), k)
    ensures c.Held? ==> TallyOf(Taken(q, k, c).acts, k).dispatched < TallyOf(Taken(q, k, c).acts, k).claimed
  {
    TallyAppend(q.acts, Claimed(k, c.Torn?), k);
    assert EvidenceOf(Taken(q, k, c), k) == EvidenceOf(q, k);
  }

  lemma SendKeepsSound(p: Policy, q: Queue, k: Key)
    requires Sound(p, q, k) && k !in q.done
    requires TallyOf(q.acts, k).dispatched < TallyOf(q.acts, k).claimed
    ensures Sound(p, Sent(q, k), k)
  {
    TallyAppend(q.acts, Dispatched(k), k);
    assert EvidenceOf(Sent(q, k), k) == EvidenceOf(q, k);
  }

  lemma DrainKeepsSound(p: Policy, q: Queue, rec: Record, now: int, cut: DrainCut)
    requires Sound(p, q, rec.key)
    ensures Sound(p, DrainOne(q, rec, now, cut), rec.key)
  {
    var k := rec.key;
    if k !in q.done && k !in q.claims {
      ClaimKeepsSound(p, q, k, if cut == AtOpen then Torn(now) else Held(now));
      if cut == Whole {
        SendKeepsSound(p, Taken(q, k, Held(now)), k);
      }
    }
  }

  lemma AddedEvidence(evidence: set<Evidence>, e: Evidence)
    ensures |evidence| <= |evidence + {e}| <= |evidence| + 1
    ensures e !in evidence ==> |evidence + {e}| == |evidence| + 1
  {
    if e in evidence {
      assert evidence + {e} == evidence;
    }
  }

  /** Moving a claim aside leaves one more file, whose number fits. */
  lemma MovedEvidence(evidence: set<Evidence>, e: Evidence)
    requires NumberedOk(evidence)
    requires e == Corrupt || e == Numbered(|evidence| + 1)
    ensures NumberedOk(evidence + {e})
    ensures |evidence + {e}| >= |evidence| + One(e != Corrupt)
  {
    AddedEvidence(evidence, e);
  }

  lemma TornReapKeepsSound(p: Policy, q: Queue, k: Key)
    requires Sound(p, q, k) && IsTorn(q, k)
    ensures Sound(p, Moved(q, k, Corrupt), k)
  {
    TallyAppend(q.acts, Reaped(k, true), k);
    MovedEvidence(EvidenceOf(q, k), Corrupt);
    assert EvidenceOf(Moved(q, k, Corrupt), k) == EvidenceOf(q, k) + {Corrupt};
  }

  lemma BudgetedReapKeepsSound(p: Policy, q: Queue, k: Key, e: Evidence)
    requires Sound(p, q, k) && IsHeld(q, k) && k !in q.done
    requires e == Numbered(|EvidenceOf(q, k)| + 1)
    requires |EvidenceOf(q, k)| + 1 <= p.maxReclaims
    ensures Sound(p, Moved(q, k, e), k)
  {
    TallyAppend(q.acts, Reaped(k, false), k);
    MovedEvidence(EvidenceOf(q, k), e);
    assert EvidenceOf(Moved(q, k, e), k) == EvidenceOf(q, k) + {e};
  }

  lemma ExhaustedIsAccounted(p: Policy, t: Tally, k: Key, dies: bool, evidence: nat)
    requires Accounted(p, t, true, false, false, evidence)
    ensures Accounted(p, Bump(Bump(t, Reaped(k, false), k), if dies then ReaperDied(k) else Finished(k), k),
                      false, false, !dies, evidence + 1)
  {}

  lemma ExhaustKeepsSound(p: Policy, q: Queue, k: Key, e: Evidence, dies: bool)
    requires Sound(p, q, k) && IsHeld(q, k) && k !in q.done
    requires e == Numbered(|EvidenceOf(q, k)| + 1)
    ensures Sound(p, Exhausted(q, k, e, dies), k)
  {
    TallyAppend2(q.acts, Reaped(k, false), if dies then ReaperDied(k) else Finished(k), k);
    ExhaustedIsAccounted(p, TallyOf(q.acts, k), k, dies, |EvidenceOf(q, k)|);
    MovedEvidence(EvidenceOf(q, k), e);
    assert EvidenceOf(Exhausted(q, k, e, dies), k) == EvidenceOf(q, k) + {e};
  }

  lemma ReapKeepsSound(p: Policy, q: Queue, k: Key, now: int, dies: bool)
    requires Sound(p, q, k)
    ensures Sound(p, ReapOne(p, q, k, now, dies), k)
  {
    var e := Numbered(|EvidenceOf(q, k)| + 1);
    if IsTorn(q, k) {
      TornReapKeepsSound(p, q, k);
    } else if k in q.claims && k !in q.done {
      if |EvidenceOf(q, k)| + 1 <= p.maxReclaims {
        BudgetedReapKeepsSound(p, q, k, e);
      } else {
        ExhaustKeepsSound(p, q, k, e, dies);
      }
    }
  }

  lemma CompletionIsAccounted(p: Policy, t: Tally, k: Key, held: bool, torn: bool, evidence: nat)
    requires Accounted(p, t, held, torn, false, evidence)
    ensures var f := Bump(t, Finished(k), k);
      && Accounted(p, f, held, torn, true, evidence)
      && (held ==> Accounted(p, Bump(f, Released(k, false), k), false, torn, true, evidence))
      && (torn ==> Accounted(p, Bump(f, Released(k, true), k), held, false, true, evidence))
  {}

  lemma MarkKeepsSound(p: Policy, q: Queue, k: Key, result: Completion)
    requires Sound(p, q, k) && k !in q.done
    ensures Sound(p, Marked(q, k, result), k)
  {
    TallyAppend(q.acts, Finished(k), k);
    CompletionIsAccounted(p, TallyOf(q.acts, k), k, IsHeld(q, k), IsTorn(q, k), |EvidenceOf(q, k)|);
    assert EvidenceOf(Marked(q, k, result), k) == EvidenceOf(q, k);
  }

  lemma CompleteKeepsSound(p: Policy, q: Queue, k: Key, result: Completion, dies: bool)
    requires Sound(p, q, k)
    ensures Sound(p, CompleteOne(q, k, result, dies), k)
  {
    if k !in q.done {
      MarkKeepsSound(p, q, k, result);
      TallyAppend2(q.acts, Finished(k), Released(k, IsTorn(q, k)), k);
      CompletionIsAccounted(p, TallyOf(q.acts, k), k, IsHeld(q, k), IsTorn(q, k), |EvidenceOf(q, k)|);
      assert EvidenceOf(CompleteOne(q, k, result, dies), k) == EvidenceOf(q, k);
    }
  }

  lemma StaleKeepsSound(p: Policy, q: Queue, rec: Record, now: int)
    requires Sound(p, q, rec.key)
    ensures Sound(p, StaleOne(p, q, rec, now), rec.key)
  {
    if rec.key !in q.done {
      MarkKeepsSound(p, q, rec.key, StaleEscalated);
    }
  }

  lemma StepKeepsSound(p: Policy, q: Queue, step: Step, k: Key)
    requires Sound(p, q, k)
    ensures Sound(p, Next(p, q, step), k)
  {
    if KeyOf(step) != k {
      OtherStepKeepsSound(p, q, step, k);
    } else {
      match step
      case Drain(rec, now, cut) => DrainKeepsSound(p, q, rec, now, cut);
      case Reap(_, now, dies) => ReapKeepsSound(p, q, k, now, dies);
      case Complete(_, result, dies) => CompleteKeepsSound(p, q, k, result, dies);
      case StaleCheck(rec, now) => StaleKeepsSound(p, q, rec, now);
      case Heartbeat(_, now) =>
    }
  }

  lemma {:induction false} RunKeepsSound(p: Policy, q: Queue, steps: seq<Step>, k: Key)
    requires Sound(p, q, k)
    ensures Sound(p, Run(p, q, steps), k)
    decreases |steps|
  {
    if steps != [] {
      StepKeepsSound(p, q, steps[0], k);
      RunKeepsSound(p, Next(p, q, steps[0]), steps[1..], k);
    }
  }

  /* The theorems, from the empty queue, for every key and every run. */

  lemma ClaimsAreConserved(p: Policy, steps: seq<Step>, k: Key)
    ensures var q := Run(p, EMPTY, steps);
      var t := TallyOf(q.acts, k);
      t.claimed + t.claimedTorn
      == (if k in q.claims then 1 else 0) + t.reaped + t.reapedTorn + t.released + t.releasedTorn
  {
    RunKeepsSound(p, EMPTY, steps, k);
  }

  /** Dispatches are bounded by the reclaim budget plus one, as long as no reaper died between
      moving an exhausted claim aside and writing its poison completion; each such death allows
      one more. */
  lemma DispatchesAreBounded(p: Policy, steps: seq<Step>, k: Key)
    ensures var t := TallyOf(Run(p, EMPTY, steps).acts, k);
      t.dispatched <= p.maxReclaims + 1 + t.deaths
  {
    RunKeepsSound(p, EMPTY, steps, k);
  }

  /** Exactly when the allowance is spent: a claim past the budget is moved aside, and a later
      drain dispatches its key again if and only if the reaper died before the poison. */
  lemma DeathReopensAnExhaustedKey(p: Policy, q: Queue, rec: Record, now: int, dies: bool, later: int)
    requires rec.key in q.claims && q.claims[rec.key].Held? && rec.key !in q.done
    requires |EvidenceOf(q, rec.key)| >= p.maxReclaims
    requires now - q.claims[rec.key].heartbeat >= p.staleAfter
    ensures var r := ReapOne(p, q, rec.key, now, dies);
      && rec.key !in r.claims
      && TallyOf(DrainOne(r, rec, later, Whole).acts, rec.key).dispatched
         == TallyOf(q.acts, rec.key).dispatched + (if dies then 1 else 0)
  {
    var k := rec.key;
    var r := ReapOne(p, q, k, now, dies);
    DispatchAppend(q.acts, Reaped(k, false), k);
    DispatchAppend(q.acts + [Reaped(k, false)], if dies then ReaperDied(k) else Finished(k), k);
    DrainDispatches(r, rec, later, k);
  }

  lemma {:induction false} RunAppend(p: Policy, q: Queue, steps: seq<Step>, step: Step)
    ensures Run(p, q, steps + [step]) == Next(p, Run(p, q, steps), step)
    decreases |steps|
  {
    if steps != [] {
      RunAppend(p, Next(p, q, steps[0]), steps[1..], step);
      assert (steps + [step])[1..] == steps[1..] + [step];
    }
  }

  /** A key free to be claimed after `n` budgeted reaps and as many dispatches. */
  predicate FreeAfter(q: Queue, k: Key, n: nat) {
    && k !in q.claims && k !in q.done && |EvidenceOf(q, k)| == n
    && TallyOf(q.acts, k).dispatched == n && TallyOf(q.acts, k).deaths == 0
  }

  lemma DrainTally(q: Queue, rec: Record, now: int)
    requires rec.key !in q.done && rec.key !in q.claims
    ensures var t, u := TallyOf(q.acts, rec.key), TallyOf(DrainOne(q, rec, now, Whole).acts, rec.key);
      u.dispatched == t.dispatched + 1 && u.deaths == t.deaths
  {
    TallyAppend2(q.acts, Claimed(rec.key, false), Dispatched(rec.key), rec.key);
  }

  /** A drain whose claim goes stale and is reaped within the budget. */
  lemma BudgetedRound(p: Policy, q: Queue, rec: Record, n: nat)
    requires FreeAfter(q, rec.key, n) && n < p.maxReclaims && NumberedOk(EvidenceOf(q, rec.key))
    ensures FreeAfter(ReapOne(p, DrainOne(q, rec, 0, Whole), rec.key, p.staleAfter, false), rec.key, n + 1)
  {
    var k, d := rec.key, DrainOne(q, rec, 0, Whole);
    DrainTally(q, rec, 0);
    assert EvidenceOf(d, k) == EvidenceOf(q, k);
    TallyAppend(d.acts, Reaped(k, false), k);
    AddedEvidence(EvidenceOf(q, k), Numbered(n + 1));
  }

  lemma {:induction false} BudgetedRounds(p: Policy, rec: Record, n: nat) returns (steps: seq<Step>)
    requires n <= p.maxReclaims
    ensures FreeAfter(Run(p, EMPTY, steps), rec.key, n)
  {
    steps := [];
    if n > 0 {
      steps := BudgetedRounds(p, rec, n - 1);
      RunKeepsSound(p, EMPTY, steps, rec.key);
      BudgetedRound(p, Run(p, EMPTY, steps), rec, n - 1);
      RunAppend(p, EMPTY, steps, Drain(rec, 0, Whole));
      RunAppend(p, EMPTY, steps + [Drain(rec, 0, Whole)], Reap(rec.key, p.staleAfter, false));
      steps := steps + [Drain(rec, 0, Whole)] + [Reap(rec.key, p.staleAfter, false)];
    }
  }

  lemma DeadlyReap(p: Policy, d: Queue, k: Key, now: int)
    requires IsHeld(d, k) && k !in d.done && |EvidenceOf(d, k)| >= p.maxReclaims
    requires now - d.claims[k].heartbeat >= p.staleAfter
    ensures var t, r := TallyOf(d.acts, k), ReapOne(p, d, k, now, true);
      && k !in r.claims && k !in r.done
      && TallyOf(r.acts, k).dispatched == t.dispatched && TallyOf(r.acts, k).deaths == t.deaths + 1
  {
    var e := Numbered(|EvidenceOf(d, k)| + 1);
    assert ReapOne(p, d, k, now, true) == Exhausted(d, k, e, true);
    ExhaustedTally(d, k, e);
  }

  lemma ExhaustedTally(d: Queue, k: Key, e: Evidence)
    requires IsHeld(d, k)
    ensures var t, u := TallyOf(d.acts, k), TallyOf(Exhausted(d, k, e, true).acts, k);
      u.dispatched == t.dispatched && u.deaths == t.deaths + 1
  {
    TallyAppend2(d.acts, Reaped(k, false), ReaperDied(k), k);
  }

  /** The last claim goes stale, its reaper dies, and the key is drained again. */
  lemma DeadlyRound(p: Policy, q: Queue, rec: Record)
    requires FreeAfter(q, rec.key, p.maxReclaims)
    ensures var r := ReapOne(p, DrainOne(q, rec, 0, Whole), rec.key, p.staleAfter, true);
      var t := TallyOf(DrainOne(r, rec, 0, Whole).acts, rec.key);
      t.dispatched == p.maxReclaims + 2 && t.deaths == 1
  {
    var d := DrainOne(q, rec, 0, Whole);
    DrainTally(q, rec, 0);
    assert EvidenceOf(d, rec.key) == EvidenceOf(q, rec.key);
    DeadlyReap(p, d, rec.key, p.staleAfter);
    DrainTally(ReapOne(p, d, rec.key, p.staleAfter, true), rec, 0);
  }

  /** So the bound without the allowance is false for every budget: some run has one reaper death and
      one dispatch more than the budget and one. */
  lemma ReaperDeathCostsADispatch(p: Policy, rec: Record) returns (steps: seq<Step>)
    ensures var t := TallyOf(Run(p, EMPTY, steps).acts, rec.key);
      t.dispatched == p.maxReclaims + 2 && t.deaths == 1
  {
    steps := BudgetedRounds(p, rec, p.maxReclaims);
    DeadlyRound(p, Run(p, EMPTY, steps), rec);
    var drain, reap := Drain(rec, 0, Whole), Reap(rec.key, p.staleAfter, true);
    RunAppend(p, EMPTY, steps, drain);
    RunAppend(p, EMPTY, steps + [drain], reap);
    RunAppend(p, EMPTY, steps + [drain] + [reap], drain);
    steps := steps + [drain] + [reap] + [drain];
  }

  lemma {:induction false} TallyOnlyGrows(acts: seq<Act>, i: nat, k: Key)
    requires i < |acts| && acts[i] == Finished(k)
    ensures TallyOf(acts, k).finished > 0
  {
    if i < |acts| - 1 {
      TallyOnlyGrows(acts[..|acts| - 1], i, k);
    }
  }

  lemma {:induction false} LateIsCounted(acts: seq<Act>, i: nat, j: nat, k: Key)
    requires i < j < |acts| && acts[i] == Finished(k)
    requires acts[j] in {Finished(k), Dispatched(k), Claimed(k, true), Claimed(k, false)}
    ensures TallyOf(acts, k).late > 0
  {
    if j < |acts| - 1 {
      LateIsCounted(acts[..|acts| - 1], i, j, k);
    } else {
      TallyOnlyGrows(acts[..j], i, k);
    }
  }

  /** Completions are written once and nothing is dispatched or claimed after one. */
  lemma NothingFollowsACompletion(p: Policy, steps: seq<Step>, k: Key, i: nat, j: nat)
    requires i < j < |Run(p, EMPTY, steps).acts|
    requires Run(p, EMPTY, steps).acts[i] == Finished(k)
    ensures Run(p, EMPTY, steps).acts[j] !in {Finished(k), Dispatched(k), Claimed(k, true), Claimed(k, false)}
  {
    RunKeepsSound(p, EMPTY, steps, k);
    var q := Run(p, EMPTY, steps);
    if q.acts[j] in {Finished(k), Dispatched(k), Claimed(k, true), Claimed(k, false)} {
      LateIsCounted(q.acts, i, j, k);
      assert false;
    }
  }

  /** A completion keeps its value for ever, whatever runs afterwards. */
  lemma {:induction false} CompletionsAreImmutable(p: Policy, q: Queue, steps: seq<Step>, k: Key)
    requires k in q.done
    ensures k in Run(p, q, steps).done && Run(p, q, steps).done[k] == q.done[k]
    decreases |steps|
  {
    if steps != [] {
      CompletionsAreImmutable(p, Next(p, q, steps[0]), steps[1..], k);
    }
  }

  /** Reaped evidence is never overwritten by a numbered reap: the next number is new. */
  lemma NextEvidenceIsNew(p: Policy, steps: seq<Step>, k: Key)
    ensures var q := Run(p, EMPTY, steps);
      Numbered(|EvidenceOf(q, k)| + 1) !in EvidenceOf(q, k)
  {
    RunKeepsSound(p, EMPTY, steps, k);
  }

  /* Clocks: which claims a reaper may move. */

  /** The clock of the key's last claim or heartbeat, once a step is taken that may be one. */
  function TouchedBy(q: Queue, step: Step, k: Key, t: int): int {
    match step
    case Drain(rec, now, _) => if rec.key == k && k !in q.claims && k !in q.done then now else t
    case Heartbeat(key, now) => if key == k && k in q.claims && q.claims[k].Held? then now else t
    case _ => t
  }

  /** The same over a run; `t` is the clock before it. */
  function LastTouch(p: Policy, q: Queue, steps: seq<Step>, k: Key, t: int): int
    decreases |steps|
  {
    if steps == [] then t else LastTouch(p, Next(p, q, steps[0]), steps[1..], k, TouchedBy(q, steps[0], k, t))
  }

  /** The claim of the key carries that clock. */
  predicate Clocked(q: Queue, k: Key, t: int) {
    k in q.claims ==> q.claims[k] == Torn(t) || q.claims[k] == Held(t)
  }

  lemma StepKeepsClock(p: Policy, q: Queue, step: Step, k: Key, t: int)
    requires Clocked(q, k, t)
    ensures Clocked(Next(p, q, step), k, TouchedBy(q, step, k, t))
  {
    if KeyOf(step) != k {
      OtherFilesAreUntouched(p, q, step, k);
    }
  }

  lemma {:induction false} RunKeepsClock(p: Policy, q: Queue, steps: seq<Step>, k: Key, t: int)
    requires Clocked(q, k, t)
    ensures Clocked(Run(p, q, steps), k, LastTouch(p, q, steps, k, t))
    decreases |steps|
  {
    if steps != [] {
      StepKeepsClock(p, q, steps[0], k, t);
      RunKeepsClock(p, Next(p, q, steps[0]), steps[1..], k, TouchedBy(q, steps[0], k, t));
    }
  }

  lemma ReapGoesByClock(p: Policy, q: Queue, k: Key, now: int, dies: bool, t: int)
    requires Clocked(q, k, t) && k in q.claims
    ensures var after := Next(p, q, Reap(k, now, dies));
      && (k !in after.claims <==> now - t >= p.staleAfter && (q.claims[k].Torn? || k !in q.done))
      && (k in after.claims ==> after == q)
  {}

  /** In every run a reap moves a claim aside exactly when the key's last claim or heartbeat is at
      least `staleAfter` old and it has no completion; a torn claim goes by age alone. */
  lemma ReapedExactlyWhenStale(p: Policy, steps: seq<Step>, k: Key, now: int, dies: bool)
    requires k in Run(p, EMPTY, steps).claims
    ensures var q, t := Run(p, EMPTY, steps), LastTouch(p, EMPTY, steps, k, 0);
      var after := Next(p, q, Reap(k, now, dies));
      && (k !in after.claims <==> now - t >= p.staleAfter && (q.claims[k].Torn? || k !in q.done))
      && (k in after.claims ==> after == q)
  {
    RunKeepsClock(p, EMPTY, steps, k, 0);
    ReapGoesByClock(p, Run(p, EMPTY, steps), k, now, dies, LastTouch(p, EMPTY, steps, k, 0));
  }

  lemma {:induction false} TouchAppend(p: Policy, q: Queue, steps: seq<Step>, step: Step, k: Key, t: int)
    ensures LastTouch(p, q, steps + [step], k, t) == TouchedBy(Run(p, q, steps), step, k, LastTouch(p, q, steps, k, t))
    decreases |steps|
  {
    if steps != [] {
      TouchAppend(p, Next(p, q, steps[0]), steps[1..], step, k, TouchedBy(q, steps[0], k, t));
      assert (steps + [step])[1..] == steps[1..] + [step];
    }
  }

  /** A heartbeat postpones the reap: for `staleAfter` from then on no reaper moves the claim. */
  lemma HeartbeatPostponesReap(p: Policy, steps: seq<Step>, k: Key, beat: int, now: int, dies: bool)
    requires IsHeld(Run(p, EMPTY, steps), k) && now - beat < p.staleAfter
    ensures var q := Next(p, Run(p, EMPTY, steps), Heartbeat(k, beat));
      IsHeld(q, k) && Next(p, q, Reap(k, now, dies)) == q
  {
    var steps' := steps + [Heartbeat(k, beat)];
    RunAppend(p, EMPTY, steps, Heartbeat(k, beat));
    TouchAppend(p, EMPTY, steps, Heartbeat(k, beat), k, 0);
    ReapedExactlyWhenStale(p, steps', k, now, dies);
  }

  /** No reap of a claim of the key in the run comes `staleAfter` or more after its last claim or
      heartbeat. */
  predicate ReapsAreEarly(p: Policy, q: Queue, steps: seq<Step>, k: Key, t: int)
    decreases |steps|
  {
    steps == [] ||
    (&& (steps[0].Reap? && steps[0].key == k && k in q.claims ==> steps[0].now - t < p.staleAfter)
     && ReapsAreEarly(p, Next(p, q, steps[0]), steps[1..], k, TouchedBy(q, steps[0], k, t)))
  }

  /** A key claimed at most once, and never again once its claim is gone. */
  predicate ClaimedOnce(q: Queue, k: Key, t: Tally) {
    && t.reaped == 0 && t.reapedTorn == 0 && t.claimed + t.claimedTorn <= 1 && t.dispatched <= t.claimed
    && (t.claimed + t.claimedTorn == 1 ==> k in q.claims || k in q.done)
  }

  lemma DrainClaimsOnce(q: Queue, rec: Record, now: int, cut: DrainCut)
    requires ClaimedOnce(q, rec.key, TallyOf(q.acts, rec.key))
    ensures var d := DrainOne(q, rec, now, cut);
      ClaimedOnce(d, rec.key, TallyOf(d.acts, rec.key))
  {
    TallyAppend2(q.acts, Claimed(rec.key, false), Dispatched(rec.key), rec.key);
    TallyAppend(q.acts, Claimed(rec.key, false), rec.key);
    TallyAppend(q.acts, Claimed(rec.key, true), rec.key);
  }

  lemma MarkClaimsOnce(q: Queue, k: Key, result: Completion)
    requires ClaimedOnce(q, k, TallyOf(q.acts, k))
    ensures ClaimedOnce(Marked(q, k, result), k, TallyOf(Marked(q, k, result).acts, k))
  {
    TallyAppend(q.acts, Finished(k), k);
  }

  lemma ReleaseClaimsOnce(q: Queue, k: Key, torn: bool)
    requires ClaimedOnce(q, k, TallyOf(q.acts, k)) && k in q.done
    ensures var d := q.(claims := q.claims - {k}, acts := q.acts + [Released(k, torn)]);
      ClaimedOnce(d, k, TallyOf(d.acts, k))
  {
    TallyAppend(q.acts, Released(k, torn), k);
  }

  lemma FinishClaimsOnce(q: Queue, k: Key, result: Completion, dies: bool)
    requires ClaimedOnce(q, k, TallyOf(q.acts, k))
    ensures var d := CompleteOne(q, k, result, dies);
      ClaimedOnce(d, k, TallyOf(d.acts, k))
  {
    if k !in q.done {
      MarkClaimsOnce(q, k, result);
      ReleaseClaimsOnce(Marked(q, k, result), k, IsTorn(q, k));
    }
  }

  lemma StaleClaimsOnce(p: Policy, q: Queue, rec: Record, now: int)
    requires ClaimedOnce(q, rec.key, TallyOf(q.acts, rec.key))
    ensures ClaimedOnce(StaleOne(p, q, rec, now), rec.key, TallyOf(StaleOne(p, q, rec, now).acts, rec.key))
  {
    MarkClaimsOnce(q, rec.key, StaleEscalated);
  }

  lemma OtherStepClaimsOnce(p: Policy, q: Queue, step: Step, k: Key)
    requires ClaimedOnce(q, k, TallyOf(q.acts, k)) && KeyOf(step) != k
    ensures ClaimedOnce(Next(p, q, step), k, TallyOf(Next(p, q, step).acts, k))
  {
    OtherFilesAreUntouched(p, q, step, k);
    OtherTallyIsUntouched(p, q, step, k);
  }

  lemma EarlyReapDoesNothing(p: Policy, q: Queue, k: Key, now: int, dies: bool, t: int)
    requires Clocked(q, k, t) && (k in q.claims ==> now - t < p.staleAfter)
    ensures ReapOne(p, q, k, now, dies) == q
  {}

  lemma StepClaimsOnce(p: Policy, q: Queue, step: Step, k: Key, t: int)
    requires ClaimedOnce(q, k, TallyOf(q.acts, k)) && Clocked(q, k, t)
    requires step.Reap? && step.key == k && k in q.claims ==> step.now - t < p.staleAfter
    ensures ClaimedOnce(Next(p, q, step), k, TallyOf(Next(p, q, step).acts, k))
  {
    if KeyOf(step) != k {
      OtherStepClaimsOnce(p, q, step, k);
    } else {
      match step
      case Drain(rec, now, cut) => DrainClaimsOnce(q, rec, now, cut);
      case Reap(_, now, dies) => EarlyReapDoesNothing(p, q, k, now, dies, t);
      case Complete(_, result, dies) => FinishClaimsOnce(q, k, result, dies);
      case StaleCheck(rec, now) => StaleClaimsOnce(p, q, rec, now);
      case Heartbeat(_, _) =>
    }
  }

  lemma {:induction false} RunClaimsOnce(p: Policy, q: Queue, steps: seq<Step>, k: Key, t: int)
    requires ClaimedOnce(q, k, TallyOf(q.acts, k)) && Clocked(q, k, t) && ReapsAreEarly(p, q, steps, k, t)
    ensures var r := Run(p, q, steps);
      ClaimedOnce(r, k, TallyOf(r.acts, k))
    decreases |steps|
  {
    if steps != [] {
      StepClaimsOnce(p, q, steps[0], k, t);
      StepKeepsClock(p, q, steps[0], k, t);
      RunClaimsOnce(p, Next(p, q, steps[0]), steps[1..], k, TouchedBy(q, steps[0], k, t));
    }
  }

  /** Exactly once: in every run in which heartbeats keep ahead of the reapers, the key is never
      reaped, is claimed at most once, and is dispatched at most once. */
  lemma LiveKeysAreDispatchedOnce(p: Policy, steps: seq<Step>, k: Key)
    requires ReapsAreEarly(p, EMPTY, steps, k, 0)
    ensures var t := TallyOf(Run(p, EMPTY, steps).acts, k);
      t.reaped == 0 && t.reapedTorn == 0 && t.claimed + t.claimedTorn <= 1 && t.dispatched <= 1
  {
    RunClaimsOnce(p, EMPTY, steps, k, 0);
  }

  /** Stale escalation: a check completes a key exactly when its record is older than `maxAge` and the
      key has neither claim nor completion; a young or claimed record is left alone. */
  lemma EscalatedExactlyWhenAged(p: Policy, q: Queue, rec: Record, now: int, k: Key)
    ensures var after := Next(p, q, StaleCheck(rec, now));
      && (k in after.done && k !in q.done <==>
            k == rec.key && k !in q.done && k !in q.claims && now - rec.created > p.maxAge)
      && (k in after.done && k !in q.done ==> after.done[k] == StaleEscalated)
      && after.claims == q.claims && after.reaped == q.reaped
  {}

  /* Whole passes over the pending file. */

  /** What one drainer meets at each record: the clock and where it dies. */
  datatype Tick = Tick(now: int, cut: DrainCut)

  function DrainPass(q: Queue, pending: seq<Record>, ticks: seq<Tick>): Queue
    requires |pending| == |ticks|
    decreases |pending|
  {
    if pending == [] then q
    else
      var i := |pending| - 1;
      DrainOne(DrainPass(q, pending[..i], ticks[..i]), pending[i], ticks[i].now, ticks[i].cut)
  }

  predicate AllWhole(ticks: seq<Tick>) {
    forall i :: 0 <= i < |ticks| ==> ticks[i].cut == Whole
  }

  function KeysOf(pending: seq<Record>): set<Key> {
    if pending == [] then {} else KeysOf(pending[..|pending| - 1]) + {pending[|pending| - 1].key}
  }

  lemma {:induction false} KeysOfListed(pending: seq<Record>, i: nat)
    requires i < |pending|
    ensures pending[i].key in KeysOf(pending)
  {
    if i < |pending| - 1 {
      KeysOfListed(pending[..|pending| - 1], i);
    }
  }

  /** One undisturbed pass dispatches every open pending key exactly once, however often it is
      listed, and touches nothing else. */
  lemma {:induction false} PassDispatchesEachOnce(q: Queue, pending: seq<Record>, ticks: seq<Tick>, k: Key)
    requires |pending| == |ticks| && AllWhole(ticks)
    ensures var after := DrainPass(q, pending, ticks);
      && TallyOf(after.acts, k).dispatched == TallyOf(q.acts, k).dispatched
           + (if k in KeysOf(pending) && k !in q.done && k !in q.claims then 1 else 0)
      && (k in after.claims <==> k in q.claims || (k in KeysOf(pending) && k !in q.done))
      && after.done == q.done
    decreases |pending|
  {
    if pending != [] {
      var i := |pending| - 1;
      PassDispatchesEachOnce(q, pending[..i], ticks[..i], k);
      var mid := DrainPass(q, pending[..i], ticks[..i]);
      DrainDispatches(mid, pending[i], ticks[i].now, k);
    }
  }

  /** A drain after a drain does nothing, whenever and wherever it runs. */
  lemma {:induction false} SecondPassIsIdle(q: Queue, pending: seq<Record>, ticks: seq<Tick>)
    requires |pending| == |ticks|
    requires forall i :: 0 <= i < |pending| ==> pending[i].key in q.claims || pending[i].key in q.done
    ensures DrainPass(q, pending, ticks) == q
    decreases |pending|
  {
    if pending != [] {
      var i := |pending| - 1;
      SecondPassIsIdle(q, pending[..i], ticks[..i]);
    }
  }

  lemma DrainTwiceIsDrainOnce(q: Queue, pending: seq<Record>, first: seq<Tick>, second: seq<Tick>)
    requires |pending| == |first| == |second| && AllWhole(first)
    ensures DrainPass(DrainPass(q, pending, first), pending, second) == DrainPass(q, pending, first)
  {
    var after := DrainPass(q, pending, first);
    forall i | 0 <= i < |pending|
      ensures pending[i].key in after.claims || pending[i].key in after.done
    {
      KeysOfListed(pending, i);
      PassDispatchesEachOnce(q, pending, first, pending[i].key);
    }
    SecondPassIsIdle(after, pending, second);
  }

  function ReapPass(p: Policy, q: Queue, keys: seq<Key>, now: int): Queue
    decreases |keys|
  {
    if keys == [] then q
    else ReapOne(p, ReapPass(p, q, keys[..|keys| - 1], now), keys[|keys| - 1], now, false)
  }

  function StalePass(p: Policy, q: Queue, pending: seq<Record>, now: int): Queue
    decreases |pending|
  {
    if pending == [] then q
    else StaleOne(p, StalePass(p, q, pending[..|pending| - 1], now), pending[|pending| - 1], now)
  }

  /** No pending record is dropped silently: after a stale check each one has a claim, a
      completion, or is still young. */
  lemma {:induction false} NothingAgesSilently(p: Policy, q: Queue, pending: seq<Record>, now: int, i: nat)
    requires i < |pending|
    ensures var after := StalePass(p, q, pending, now);
      && after.claims == q.claims
      && (forall k :: k in q.done ==> k in after.done && after.done[k] == q.done[k])
      && (pending[i].key in after.claims || pending[i].key in after.done
          || now - pending[i].created <= p.maxAge)
    decreases |pending|
  {
    var n := |pending| - 1;
    if n > 0 {
      NothingAgesSilently(p, q, pending[..n], now, if i < n then i else 0);
    }
  }

  /* The consumer as it updates its directories. */

  datatype DrainStats = DrainStats(scanned: nat, claimed: nat, dispatched: nat, errors: nat,
                                   alreadyClaimed: nat, alreadyComplete: nat)

  /** Some listed record of the key is older than that. */
  predicate IsAged(pending: seq<Record>, k: Key, now: int, maxAge: int) {
    exists i :: 0 <= i < |pending| && pending[i].key == k && now - pending[i].created > maxAge
  }

  /** Nothing was heard of the claim for so long. */
  predicate Aged(c: Claim, now: int, staleAfter: int) {
    match c
    case Torn(mtime) => now - mtime >= staleAfter
    case Held(heartbeat) => now - heartbeat >= staleAfter
  }

  lemma OneClaimLess(claims: map<Key, Claim>, k: Key)
    ensures k in claims ==> |claims - {k}| + 1 == |claims|
  {
    if k in claims {
      assert claims == (claims - {k})[k := claims[k]];
    }
  }

  /** How a record is met by a drainer. */
  datatype Met = Completed | InFlight | Claims

  function MetBy(q: Queue, k: Key): Met {
    if k in q.done then Completed else if k in q.claims then InFlight else Claims
  }

  predicate Balanced(s: DrainStats) {
    s.scanned == s.claimed + s.alreadyClaimed + s.alreadyComplete && s.claimed == s.dispatched + s.errors
  }

  function Counted(s: DrainStats, met: Met, ok: bool): (r: DrainStats)
    ensures Balanced(s) ==> Balanced(r)
    ensures r.scanned == s.scanned + 1 && r.claimed == s.claimed + One(met.Claims?)
    ensures r.errors == s.errors + One(met.Claims? && !ok)
  {
    var t := s.(scanned := s.scanned + 1);
    match met
    case Completed => t.(alreadyComplete := t.alreadyComplete + 1)
    case InFlight => t.(alreadyClaimed := t.alreadyClaimed + 1)
    case Claims =>
      if ok then t.(claimed := t.claimed + 1, dispatched := t.dispatched + 1)
      else t.(claimed := t.claimed + 1, errors := t.errors + 1)
  }

  class L2Consumer {
    const policy: Policy
    var pending: seq<Record>
    var claims: map<Key, Claim>
    var completions: map<Key, Completion>
    var reaped: map<Key, set<Evidence>>
    var acts: seq<Act>

    function View(): Queue
      reads this
    {
      Queue(claims, completions, reaped, acts)
    }

    constructor (policy: Policy)
      ensures View() == EMPTY && pending == [] && this.policy == policy
    {
      this.policy := policy;
      pending, claims, completions, reaped, acts := [], map[], map[], map[], [];
    }

    /** Appends a request unless its key is already listed. */
    method Enqueue(rec: Record) returns (added: bool)
      modifies this`pending
      ensures added <==> rec.key !in KeysOf(old(pending))
      ensures pending == if added then old(pending) + [rec] else old(pending)
      ensures rec.key in KeysOf(pending)
    {
      for i := 0 to |pending|
        invariant rec.key !in KeysOf(pending[..i])
      {
        if pending[i].key == rec.key {
          KeysOfListed(pending, i);
          return false;
        }
        assert pending[..i + 1][..i] == pending[..i];
      }
      assert pending[..|pending|] == pending && (pending + [rec])[..|pending|] == pending;
      pending := pending + [rec];
      return true;
    }

    /** The O_EXCL claim of an undisturbed drainer. */
    method TryClaim(rec: Record, now: int) returns (ok: bool)
      modifies this`claims, this`acts
      ensures ok <==> rec.key !in old(claims)
      ensures ok ==> claims == old(claims)[rec.key := Held(now)] && acts == old(acts) + [Claimed(rec.key, false)]
      ensures !ok ==> claims == old(claims) && acts == old(acts)
    {
      if rec.key in claims {
        return false;
      }
      claims := claims[rec.key := Held(now)];
      acts := acts + [Claimed(rec.key, false)];
      return true;
    }

    /** The body of the drain loop for one record. */
    method DrainRecord(rec: Record, now: int) returns (met: Met)
      modifies this`claims, this`acts
      ensures View() == DrainOne(old(View()), rec, now, Whole)
      ensures met == MetBy(old(View()), rec.key)
      ensures claims == if met.Claims? then old(claims)[rec.key := Held(now)] else old(claims)
      ensures |acts| == |old(acts)| + (if met.Claims? then 2 else 0)
    {
      if rec.key in completions {
        return Completed;
      }
      var ok := TryClaim(rec, now);
      if !ok {
        return InFlight;
      }
      acts := acts + [Dispatched(rec.key)];
      return Claims;
    }

    /** One undisturbed pass over the pending file; `nows[i]` is the clock at record `i` and `oks[i]`
        what the dispatcher answers for it.  A refusal leaves the claim to the reaper. */
    method DrainPending(nows: seq<int>, oks: seq<bool>) returns (stats: DrainStats)
      requires |nows| == |oks| == |pending|
      modifies this`claims, this`acts
      ensures View() == DrainPass(old(View()), pending, seq(|nows|, i requires 0 <= i < |nows| => Tick(nows[i], Whole)))
      ensures stats.scanned == |pending|
      ensures stats.scanned == stats.claimed + stats.alreadyClaimed + stats.alreadyComplete
      ensures stats.claimed == stats.dispatched + stats.errors && (false !in oks ==> stats.errors == 0)
      ensures |acts| == |old(acts)| + 2 * stats.claimed
    {
      ghost var ticks := seq(|nows|, i requires 0 <= i < |nows| => Tick(nows[i], Whole));
      stats := DrainStats(0, 0, 0, 0, 0, 0);
      for i := 0 to |pending|
        invariant View() == DrainPass(old(View()), pending[..i], ticks[..i])
        invariant stats.scanned == i && Balanced(stats) && (false !in oks ==> stats.errors == 0)
        invariant |acts| == |old(acts)| + 2 * stats.claimed
      {
        assert pending[..i + 1][..i] == pending[..i] && ticks[..i + 1][..i] == ticks[..i];
        var met := DrainRecord(pending[i], nows[i]);
        stats := Counted(stats, met, oks[i]);
      }
      assert pending[..|pending|] == pending && ticks[..|pending|] == ticks;
    }

    /** One reaper iteration: moves a stale claim aside, and past the budget poisons its key. */
    method ReapClaim(k: Key, now: int) returns (moved: bool)
      modifies this`claims, this`completions, this`reaped, this`acts
      ensures View() == ReapOne(policy, old(View()), k, now, false)
      ensures moved ==> k in old(claims)
      ensures k in old(claims) && old(claims)[k].Torn? ==>
        (moved <==> now - old(claims)[k].mtime >= policy.staleAfter)
      ensures k in old(claims) && old(claims)[k].Held? ==>
        (moved <==> k !in old(completions) && now - old(claims)[k].heartbeat >= policy.staleAfter)
      ensures claims == if moved then old(claims) - {k} else old(claims)
      ensures k !in old(completions) && k in completions ==> moved && completions[k] == EscalatedL3
      ensures forall other :: other != k && other in completions ==> other in old(completions)
    {
      if k !in claims {
        return false;
      }
      var claim := claims[k];
      var evidence := if k in reaped then reaped[k] else {};
      if claim.Torn? {
        if now - claim.mtime < policy.staleAfter {
          return false;
        }
        claims := claims - {k};
        reaped := reaped[k := evidence + {Corrupt}];
        acts := acts + [Reaped(k, true)];
        return true;
      }
      if k in completions || now - claim.heartbeat < policy.staleAfter {
        return false;
      }
      var reclaims := |evidence| + 1;
      claims := claims - {k};
      reaped := reaped[k := evidence + {Numbered(reclaims)}];
      acts := acts + [Reaped(k, false)];
      if reclaims > policy.maxReclaims {
        completions := completions[k := EscalatedL3];
        acts := acts + [Finished(k)];
      }
      return true;
    }

    /** The reaper over a listing of the claim directory. */
    method ReapStaleClaims(keys: seq<Key>, now: int) returns (count: nat)
      modifies this`claims, this`completions, this`reaped, this`acts
      ensures View() == ReapPass(policy, old(View()), keys, now)
      ensures count + |claims| == |old(claims)|
      ensures forall k :: k in claims ==> k in old(claims) && claims[k] == old(claims)[k]
      ensures forall k :: k in old(claims) && k !in claims ==> Aged(old(claims)[k], now, policy.staleAfter)
      ensures forall k :: k in keys && k in claims && k !in completions ==> !Aged(claims[k], now, policy.staleAfter)
    {
      count := 0;
      for i := 0 to |keys|
        invariant View() == ReapPass(policy, old(View()), keys[..i], now)
        invariant count + |claims| == |old(claims)|
        invariant forall k :: k in claims ==> k in old(claims) && claims[k] == old(claims)[k]
        invariant forall k :: k in old(claims) && k !in claims ==> Aged(old(claims)[k], now, policy.staleAfter)
        invariant forall k :: k in keys[..i] && k in claims && k !in completions ==>
          !Aged(claims[k], now, policy.staleAfter)
      {
        assert keys[..i + 1][..i] == keys[..i];
        OneClaimLess(claims, keys[i]);
        var moved := ReapClaim(keys[i], now);
        count := if moved then count + 1 else count;
      }
      assert keys[..|keys|] == keys;
    }

    /** The down-consumer guard over the pending file. */
    method CheckStalePending(now: int) returns (escalated: nat)
      modifies this`completions, this`acts
      ensures View() == StalePass(policy, old(View()), pending, now)
      ensures forall k :: k in completions && k !in old(completions) ==>
        k !in claims && completions[k] == StaleEscalated && IsAged(pending, k, now, policy.maxAge)
      ensures |acts| == |old(acts)| + escalated
    {
      escalated := 0;
      for i := 0 to |pending|
        invariant View() == StalePass(policy, old(View()), pending[..i], now) && claims == old(claims)
        invariant forall k :: k in completions && k !in old(completions) ==>
          k !in claims && completions[k] == StaleEscalated && IsAged(pending, k, now, policy.maxAge)
        invariant |acts| == |old(acts)| + escalated
      {
        assert pending[..i + 1][..i] == pending[..i];
        var rec := pending[i];
        if now - rec.created <= policy.maxAge || rec.key in claims || rec.key in completions {
          continue;
        }
        completions := completions[rec.key := StaleEscalated];
        acts := acts + [Finished(rec.key)];
        escalated := escalated + 1;
      }
      assert pending[..|pending|] == pending;
    }

    /** Publishes a verifier result; a repeated call reports the first one. */
    method CompleteKey(k: Key, valid: bool, verdict: Option<string>) returns (published: Completion)
      modifies this`claims, this`completions, this`acts
      ensures View() == CompleteOne(old(View()), k, Verified(valid, verdict), false)
      ensures k in completions && published == completions[k]
      ensures k in old(completions) ==> published == old(completions)[k]
      ensures k !in old(completions) ==> published == Verified(valid, verdict) && claims == old(claims) - {k}
      ensures k in old(completions) ==> claims == old(claims) && completions == old(completions)
      ensures forall other :: other != k ==> (other in completions <==> other in old(completions))
    {
      if k in completions {
        return completions[k];
      }
      published := Verified(valid, verdict);
      completions := completions[k := published];
      acts := acts + [Finished(k)];
      if k in claims {
        acts := acts + [Released(k, claims[k].Torn?)];
        claims := claims - {k};
      }
    }

    /** Refreshes a claim; false when it is gone or unreadable. */
    method Beat(k: Key, now: int) returns (ok: bool)
      modifies this`claims
      ensures View() == BeatOne(old(View()), k, now)
      ensures ok <==> k in old(claims) && old(claims)[k].Held?
      ensures claims == if ok then old(claims)[k := Held(now)] else old(claims)
    {
      ok := k in claims && claims[k].Held?;
      if ok {
        claims := claims[k := Held(now)];
      }
    }
  }
}
