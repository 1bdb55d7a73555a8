/** The pool-aware refill controller: the ledger sync that counts demand, and the recompute that
    turns demand, targets and what is running into per-pool and per-parent deficits. */
module Refill {
  import opened Wrappers
  import Split

  datatype Pool = V4 | K3

  /** One number for each pool. */
  datatype Counts = Counts(v4: nat, k3: nat) {
    function At(p: Pool): nat { if p == V4 then v4 else k3 }

    function Total(): nat { v4 + k3 }

    function Plus(p: Pool, n: nat): Counts {
      if p == V4 then Counts(v4 + n, k3) else Counts(v4, k3 + n)
    }

    function Add(c: Counts): Counts { Counts(v4 + c.v4, k3 + c.k3) }
  }

  function Min(a: int, b: int): int { if a < b then a else b }

  function Max(a: int, b: int): int { if a > b then a else b }

  function Least(a: nat, b: nat): nat { if a < b then a else b }

  function AtLeast0(a: int): nat { if a > 0 then a else 0 }

  function One(b: bool): nat { if b then 1 else 0 }

  /* The ledger as the controller reads it. */

  /** A ledger row; `parent` is empty for a packet without one. */
  datatype Entry =
    | Malformed
    | Entry(state: string, hint: Option<string>, role: string, parent: string,
            manifest: Option<string>, releaseReview: bool)

  /** A registered parent session; `target` is 0 when it names none. */
  datatype Parent = Parent(active: bool, manifest: Option<string>, target: int)

  predicate IsK3Role(role: string) {
    role == "verifier" || role == "reviewer" || role == "plan_expander"
  }

  predicate IsK3Work(state: string) {
    state == "L2_VERIFY" || state == "L2_RANK" || state == "EXPAND_K3" || state == "L2_VERIFY_PENDING"
  }

  /** An explicit hint, else the role, else v4. */
  function PoolOf(e: Entry): Pool
    requires e.Entry?
  {
    if e.hint == Some("v4") then V4
    else if e.hint == Some("k3") then K3
    else if IsK3Role(e.role) then K3 else V4
  }

  /** Its parent, if it names one, is active under the same manifest. */
  predicate Admitted(e: Entry, registry: map<string, Parent>)
    requires e.Entry?
  {
    e.parent == "" || (e.parent in registry && registry[e.parent].active && registry[e.parent].manifest == e.manifest)
  }

  predicate Ready(e: Entry, registry: map<string, Parent>) {
    e.Entry? && e.state == "DISPATCHABLE" && Admitted(e, registry)
  }

  /** The pool whose demand a row is, if it is demand at all. */
  function DemandPool(e: Entry, registry: map<string, Parent>): Option<Pool> {
    if Ready(e, registry) then Some(PoolOf(e))
    else if e.Entry? && IsK3Work(e.state) then Some(K3)
    else None
  }

  /** The parent whose demand a row is. */
  predicate IsDemandOf(e: Entry, registry: map<string, Parent>, parent: string, p: Pool) {
    Ready(e, registry) && e.parent != "" && e.parent == parent && PoolOf(e) == p
  }

  /** The demand of the first `n` rows in a pool, and that of one parent in it. */
  function Demand(rows: seq<Entry>, registry: map<string, Parent>, p: Pool, n: nat): nat
    requires n <= |rows|
  {
    if n == 0 then 0 else Demand(rows, registry, p, n - 1) + One(DemandPool(rows[n - 1], registry) == Some(p))
  }

  function ParentDemand(rows: seq<Entry>, registry: map<string, Parent>, parent: string, p: Pool, n: nat): nat
    requires n <= |rows|
  {
    if n == 0 then 0
    else ParentDemand(rows, registry, parent, p, n - 1) + One(IsDemandOf(rows[n - 1], registry, parent, p))
  }

  /* The work queue. */

  datatype Queue = Queue(pools: Counts, parents: map<string, Counts>)

  function Queued(parents: map<string, Counts>, id: string): Counts {
    if id in parents then parents[id] else Counts(0, 0)
  }

  /** The queue holds exactly the demand of the first `n` ledger rows, by pool and by parent. */
  ghost predicate CountsRows(q: Queue, rows: seq<Entry>, registry: map<string, Parent>, n: nat)
    requires n <= |rows|
  {
    && (forall p :: q.pools.At(p) == Demand(rows, registry, p, n))
    && (forall id, p :: Queued(q.parents, id).At(p) == ParentDemand(rows, registry, id, p, n))
  }

  /** The queue of a whole ledger. */
  ghost predicate Synced(q: Queue, rows: seq<Entry>, registry: map<string, Parent>) {
    CountsRows(q, rows, registry, |rows|)
  }

  predicate NoRepeats(ids: seq<string>) {
    forall i, j :: 0 <= i < j < |ids| ==> ids[i] != ids[j]
  }

  /** What the first `n` listed parents count together. */
  function SumOver(ids: seq<string>, parents: map<string, Counts>, p: Pool, n: nat): nat
    requires n <= |ids|
  {
    if n == 0 then 0 else SumOver(ids, parents, p, n - 1) + Queued(parents, ids[n - 1]).At(p)
  }

  /** Each pool counts at least what any distinct parents count together. */
  ghost predicate Covered(q: Queue) {
    forall ids, p :: NoRepeats(ids) ==> SumOver(ids, q.parents, p, |ids|) <= q.pools.At(p)
  }

  function DemandOver(ids: seq<string>, rows: seq<Entry>, registry: map<string, Parent>, p: Pool, n: nat, m: nat): nat
    requires n <= |ids| && m <= |rows|
  {
    if n == 0 then 0
    else DemandOver(ids, rows, registry, p, n - 1, m) + ParentDemand(rows, registry, ids[n - 1], p, m)
  }

  lemma {:induction false} DemandOverNone(ids: seq<string>, rows: seq<Entry>, registry: map<string, Parent>, p: Pool,
                                          n: nat)
    requires n <= |ids|
    ensures DemandOver(ids, rows, registry, p, n, 0) == 0
  {
    if n > 0 {
      DemandOverNone(ids, rows, registry, p, n - 1);
    }
  }

  /** One row is the demand of at most one of several distinct parents. */
  lemma {:induction false} DemandOverOneMore(ids: seq<string>, rows: seq<Entry>, registry: map<string, Parent>,
                                             p: Pool, n: nat, m: nat)
    requires n <= |ids| && m < |rows| && NoRepeats(ids)
    ensures DemandOver(ids, rows, registry, p, n, m + 1) == DemandOver(ids, rows, registry, p, n, m)
      + One(rows[m].Entry? && rows[m].parent in ids[..n] && IsDemandOf(rows[m], registry, rows[m].parent, p))
  {
    if n > 0 {
      DemandOverOneMore(ids, rows, registry, p, n - 1, m);
      assert ids[..n] == ids[..n - 1] + [ids[n - 1]] && ids[n - 1] !in ids[..n - 1];
    }
  }

  lemma {:induction false} ParentsAreDemand(ids: seq<string>, rows: seq<Entry>, registry: map<string, Parent>,
                                            p: Pool, m: nat)
    requires NoRepeats(ids) && m <= |rows|
    ensures DemandOver(ids, rows, registry, p, |ids|, m) <= Demand(rows, registry, p, m)
  {
    if m == 0 {
      DemandOverNone(ids, rows, registry, p, |ids|);
    } else {
      ParentsAreDemand(ids, rows, registry, p, m - 1);
      DemandOverOneMore(ids, rows, registry, p, |ids|, m - 1);
    }
  }

  lemma {:induction false} SumIsDemand(ids: seq<string>, q: Queue, rows: seq<Entry>, registry: map<string, Parent>,
                                       p: Pool, n: nat)
    requires Synced(q, rows, registry) && n <= |ids|
    ensures SumOver(ids, q.parents, p, n) == DemandOver(ids, rows, registry, p, n, |rows|)
  {
    if n > 0 {
      SumIsDemand(ids, q, rows, registry, p, n - 1);
    }
  }

  /** After a sync every pool counts at least the sum of its parents' counts. */
  lemma SyncedIsCovered(q: Queue, rows: seq<Entry>, registry: map<string, Parent>)
    requires Synced(q, rows, registry)
    ensures Covered(q)
  {
    forall ids, p | NoRepeats(ids) ensures SumOver(ids, q.parents, p, |ids|) <= q.pools.At(p) {
      SumIsDemand(ids, q, rows, registry, p, |ids|);
      ParentsAreDemand(ids, rows, registry, p, |rows|);
    }
  }

  /* What recompute reads besides the queue. */

  datatype Policy = Policy(v4Target: int, k3Target: int, total: int, dialogue: int, borrowable: bool)

  /** Live agents of one parent. */
  datatype Load = Load(running: nat, initializing: nat)

  datatype Observed = Observed(running: Counts, initializing: Counts, parents: map<string, Load>)

  /** Everything one recompute sees. */
  datatype Inputs = Inputs(policy: Policy, queue: Queue, registry: map<string, Parent>,
                           seen: Observed, finalized: bool)

  datatype ParentState = ParentState(active: bool, target: int, load: Load, debt: nat, spawnable: Counts)

  datatype State = State(requiredV4: bool, requiredK3: bool, debt: Counts, deficit: Counts,
                         parents: map<string, ParentState>)

  lemma SumOfPair(s: seq<nat>)
    requires |s| == 2
    ensures Split.Sum(s) == s[0] + s[1]
  {
    assert Split.SumTo(s, 2) == Split.SumTo(s, 1) + s[1] && Split.SumTo(s, 1) == Split.SumTo(s, 0) + s[0];
  }

  lemma PairSplit(total: int, pending: seq<nat>)
    requires |pending| == 2
    ensures var r := Split.SplitOf(total, pending);
      && r[0] + r[1] == Least(AtLeast0(total), pending[0] + pending[1])
      && r[0] <= pending[0] && r[1] <= pending[1]
  {
    Split.SplitIsExact(total, pending);
    SumOfPair(pending);
    SumOfPair(Split.SplitOf(total, pending));
  }

  function PairOf(total: int, pending: seq<nat>): Counts
    requires |pending| == 2
  {
    Counts(Split.SplitOf(total, pending)[0], Split.SplitOf(total, pending)[1])
  }

  /** The split of a total between the two pools. */
  function TwoWay(total: int, c: Counts): (r: Counts)
    ensures r.v4 + r.k3 == Least(AtLeast0(total), c.v4 + c.k3)
    ensures total <= 0 ==> r.v4 == 0 && r.k3 == 0
    ensures r.v4 <= c.v4 && r.k3 <= c.k3
  {
    PairSplit(total, [c.v4, c.k3]);
    PairOf(total, [c.v4, c.k3])
  }

  /** The pool targets; a pool with the only pending work borrows the whole total. */
  function TargetOf(x: Inputs, p: Pool): int {
    var pending := x.queue.pools;
    if x.policy.borrowable && (pending.v4 > 0) != (pending.k3 > 0) then
      if pending.At(p) > 0 then x.policy.total else 0
    else if p == V4 then x.policy.v4Target else x.policy.k3Target
  }

  function LoadOf(x: Inputs, id: string): Load {
    if id in x.seen.parents then x.seen.parents[id] else Load(0, 0)
  }

  function ParentTarget(x: Inputs, id: string): int
    requires id in x.registry
  {
    var asked := x.registry[id].target;
    Max(1, Min(x.policy.dialogue, if asked == 0 then x.policy.dialogue else asked))
  }

  function Lacks(x: Inputs, id: string): nat
    requires id in x.registry
  {
    AtLeast0(ParentTarget(x, id) - LoadOf(x, id).running)
  }

  /** What an active parent lacks and could be given from its own backlog. */
  function ParentDebt(x: Inputs, id: string): nat
    requires id in x.registry
  {
    if x.registry[id].active then Least(Queued(x.queue.parents, id).Total(), Lacks(x, id)) else 0
  }

  function DebtByPool(x: Inputs, id: string): Counts
    requires id in x.registry
  {
    TwoWay(ParentDebt(x, id), Queued(x.queue.parents, id))
  }

  /** The debts of the first `n` listed parents. */
  function ParentDebts(x: Inputs, ids: seq<string>, n: nat): Counts
    requires n <= |ids| && forall i :: 0 <= i < |ids| ==> ids[i] in x.registry
  {
    if n == 0 then Counts(0, 0) else ParentDebts(x, ids, n - 1).Add(DebtByPool(x, ids[n - 1]))
  }

  lemma InactiveOwesNothing(x: Inputs, id: string, sum: Counts)
    requires id in x.registry && !x.registry[id].active
    ensures sum.Add(DebtByPool(x, id)) == sum
  {}

  predicate Lists(ids: seq<string>, registry: map<string, Parent>) {
    NoRepeats(ids) && (forall i :: 0 <= i < |ids| ==> ids[i] in registry) && (forall id :: id in registry ==> id in ids)
  }

  predicate Required(x: Inputs, demand: Counts, p: Pool) {
    && !x.finalized
    && x.queue.pools.At(p) > 0
    && (x.seen.running.At(p) < TargetOf(x, p) || demand.At(p) > 0)
  }

  function Debt(x: Inputs, demand: Counts, p: Pool): nat {
    if !Required(x, demand, p) then 0
    else
      var own := Least(x.queue.pools.At(p), AtLeast0(TargetOf(x, p) - x.seen.running.At(p)));
      if own > demand.At(p) then own else demand.At(p)
  }

  /** Births under way reserve capacity but never clear debt. */
  function Spawnable(x: Inputs, demand: Counts): Counts {
    Counts(AtLeast0(Debt(x, demand, V4) - x.seen.initializing.v4),
           AtLeast0(Debt(x, demand, K3) - x.seen.initializing.k3))
  }

  function Capacity(x: Inputs): nat {
    AtLeast0(x.policy.total - x.seen.running.Total() - x.seen.initializing.Total())
  }

  function DeficitTotal(x: Inputs, demand: Counts): nat {
    if Required(x, demand, V4) || Required(x, demand, K3) then Least(Spawnable(x, demand).Total(), Capacity(x)) else 0
  }

  function ParentSpawn(x: Inputs, id: string): nat
    requires id in x.registry
  {
    var load := LoadOf(x, id);
    var free := AtLeast0(ParentTarget(x, id) - load.running - load.initializing);
    Least(Least(ParentDebt(x, id), free), Capacity(x))
  }

  function SpawnOf(x: Inputs, id: string): Counts
    requires id in x.registry
  {
    TwoWay(ParentSpawn(x, id), Queued(x.queue.parents, id))
  }

  function DeficitOf(x: Inputs, demand: Counts): Counts {
    TwoWay(DeficitTotal(x, demand), Spawnable(x, demand))
  }

  function ParentStateOf(x: Inputs, id: string): ParentState
    requires id in x.registry
  {
    ParentState(x.registry[id].active, ParentTarget(x, id), LoadOf(x, id), ParentDebt(x, id), SpawnOf(x, id))
  }

  /** What a recompute publishes. */
  ghost predicate Publishes(s: State, x: Inputs, demand: Counts) {
    && s.requiredV4 == Required(x, demand, V4) && s.requiredK3 == Required(x, demand, K3)
    && s.debt == Counts(Debt(x, demand, V4), Debt(x, demand, K3))
    && s.deficit == DeficitOf(x, demand)
    && s.parents.Keys == x.registry.Keys
    && (forall id :: id in x.registry ==> s.parents[id] == ParentStateOf(x, id))
  }

  /* The theorems about one recompute. */

  /** The guard on the deficit total is redundant: it is what could be spawned, capped by capacity. */
  lemma DeficitIsCapped(x: Inputs, demand: Counts)
    ensures DeficitTotal(x, demand) == Least(Spawnable(x, demand).Total(), Capacity(x))
  {}

  lemma DeficitIsSplit(x: Inputs, demand: Counts)
    ensures DeficitOf(x, demand).v4 + DeficitOf(x, demand).k3 == DeficitTotal(x, demand)
    ensures DeficitOf(x, demand).v4 <= Spawnable(x, demand).v4 <= Debt(x, demand, V4)
    ensures DeficitOf(x, demand).k3 <= Spawnable(x, demand).k3 <= Debt(x, demand, K3)
  {
    DeficitIsCapped(x, demand);
  }

  /** Nothing is spawned past the total. */
  lemma DeficitFits(x: Inputs, demand: Counts)
    ensures var live := x.seen.running.Total() + x.seen.initializing.Total();
      live + DeficitOf(x, demand).v4 + DeficitOf(x, demand).k3 <= Max(x.policy.total, live)
  {
    DeficitIsCapped(x, demand);
    DeficitIsSplit(x, demand);
  }

  /** No parent is spawned past its own target, nor out of a pool it has no backlog in. */
  lemma ParentFits(x: Inputs, id: string)
    requires id in x.registry
    ensures SpawnOf(x, id).v4 + SpawnOf(x, id).k3 == ParentSpawn(x, id) <= Capacity(x)
    ensures var live := LoadOf(x, id).running + LoadOf(x, id).initializing;
      live + SpawnOf(x, id).v4 + SpawnOf(x, id).k3 <= Max(ParentTarget(x, id), live)
    ensures SpawnOf(x, id).v4 <= Queued(x.queue.parents, id).v4 && SpawnOf(x, id).k3 <= Queued(x.queue.parents, id).k3
    ensures !x.registry[id].active ==> SpawnOf(x, id).v4 + SpawnOf(x, id).k3 == 0
  {}

  lemma {:induction false} ParentDebtsAreQueued(x: Inputs, ids: seq<string>, p: Pool, n: nat)
    requires n <= |ids| && forall i :: 0 <= i < |ids| ==> ids[i] in x.registry
    ensures ParentDebts(x, ids, n).At(p) <= SumOver(ids, x.queue.parents, p, n)
  {
    if n > 0 {
      ParentDebtsAreQueued(x, ids, p, n - 1);
    }
  }

  lemma DeficitWithinDebt(x: Inputs, demand: Counts, p: Pool)
    ensures DeficitOf(x, demand).At(p) <= Debt(x, demand, p)
  {
    DeficitIsSplit(x, demand);
  }

  lemma ShareWithinPending(x: Inputs, demand: Counts, p: Pool)
    requires demand.At(p) <= x.queue.pools.At(p)
    ensures Debt(x, demand, p) <= x.queue.pools.At(p)
  {}

  /** Demand of parents within what is pending keeps debt and deficit within it. */
  lemma DebtWithinPending(x: Inputs, demand: Counts, p: Pool)
    requires demand.At(p) <= x.queue.pools.At(p)
    ensures Debt(x, demand, p) <= x.queue.pools.At(p)
    ensures DeficitOf(x, demand).At(p) <= x.queue.pools.At(p)
  {
    ShareWithinPending(x, demand, p);
    DeficitWithinDebt(x, demand, p);
  }

  /** Borrowing never invents demand: from a queue whose pools cover their parents, debt and
      deficit stay within what is pending in every pool. */
  lemma DebtIsPending(x: Inputs, ids: seq<string>, p: Pool)
    requires Covered(x.queue) && Lists(ids, x.registry)
    ensures ParentDebts(x, ids, |ids|).At(p) <= x.queue.pools.At(p)
    ensures Debt(x, ParentDebts(x, ids, |ids|), p) <= x.queue.pools.At(p)
    ensures DeficitOf(x, ParentDebts(x, ids, |ids|)).At(p) <= x.queue.pools.At(p)
  {
    ParentDebtsAreQueued(x, ids, p, |ids|);
    CoveredSum(x.queue, ids, p);
    DebtWithinPending(x, ParentDebts(x, ids, |ids|), p);
  }

  lemma CoveredSum(q: Queue, ids: seq<string>, p: Pool)
    requires Covered(q) && NoRepeats(ids)
    ensures SumOver(ids, q.parents, p, |ids|) <= q.pools.At(p)
  {}

  /** For any queue at all, debt exceeds what is pending exactly when a required pool is asked for
      more than that by the parents. */
  lemma DebtExceedsPendingWhen(x: Inputs, demand: Counts, p: Pool)
    ensures Debt(x, demand, p) > x.queue.pools.At(p) <==> Required(x, demand, p) && demand.At(p) > x.queue.pools.At(p)
  {}

  lemma DebtExceedsParentsWhen(x: Inputs, ids: seq<string>, p: Pool)
    requires forall i :: 0 <= i < |ids| ==> ids[i] in x.registry
    ensures var demand := ParentDebts(x, ids, |ids|);
      Debt(x, demand, p) > x.queue.pools.At(p) <==> Required(x, demand, p) && demand.At(p) > x.queue.pools.At(p)
  {
    DebtExceedsPendingWhen(x, ParentDebts(x, ids, |ids|), p);
  }

  /** What taking tasks out of a pool by hand leaves: the pool lowered, its parents kept. */
  function Lowered(q: Queue, p: Pool, n: nat): Queue {
    var left := AtLeast0(q.pools.At(p) - n);
    Queue(if p == V4 then Counts(left, q.pools.k3) else Counts(q.pools.v4, left), q.parents)
  }

  lemma SplitOfAll(total: nat, c: Counts)
    requires total == c.Total()
    ensures TwoWay(total, c) == c
  {}

  lemma WholeBacklogIsDebt(x: Inputs, id: string, c: Counts)
    requires id in x.registry && x.registry[id].active && Queued(x.queue.parents, id) == c && Lacks(x, id) >= c.Total()
    ensures ParentDebt(x, id) == c.Total()
  {}

  lemma SplitDebt(x: Inputs, id: string, c: Counts)
    requires id in x.registry && Queued(x.queue.parents, id) == c && ParentDebt(x, id) == c.Total()
    ensures DebtByPool(x, id) == c
  {
    SplitOfAll(c.Total(), c);
  }

  /** A parent that lacks all it has queued owes exactly that. */
  lemma WholeBacklogIsOwed(x: Inputs, id: string, c: Counts)
    requires id in x.registry && x.registry[id].active && Queued(x.queue.parents, id) == c && Lacks(x, id) >= c.Total()
    ensures DebtByPool(x, id) == c
  {
    WholeBacklogIsDebt(x, id, c);
    SplitDebt(x, id, c);
  }

  lemma OneMoreDebt(x: Inputs, ids: seq<string>, n: nat)
    requires n < |ids| && forall i :: 0 <= i < |ids| ==> ids[i] in x.registry
    ensures ParentDebts(x, ids, n + 1) == ParentDebts(x, ids, n).Add(DebtByPool(x, ids[n]))
  {}

  lemma LoneDebts(x: Inputs, ids: seq<string>, c: Counts)
    requires |ids| == 1 && ids[0] in x.registry && DebtByPool(x, ids[0]) == c
    ensures ParentDebts(x, ids, |ids|) == c
  {
    OneMoreDebt(x, ids, 0);
  }

  /** The queue of one parent with backlog `c`, after `n` tasks were taken out of a pool by hand. */
  predicate TakenByHand(x: Inputs, ids: seq<string>, c: Counts, p: Pool, n: nat) {
    && |ids| == 1 && Lists(ids, x.registry) && x.registry[ids[0]].active && Lacks(x, ids[0]) >= c.Total()
    && x.queue == Lowered(Queue(c, map[ids[0] := c]), p, n)
  }

  /** Unless nothing is left pending, the parent still owes what it did: more than is pending. */
  lemma LoweredQueueOwesMore(x: Inputs, ids: seq<string>, c: Counts, p: Pool, n: nat)
    requires TakenByHand(x, ids, c, p, n) && 1 <= n < c.At(p) && !x.finalized
    ensures Debt(x, ParentDebts(x, ids, |ids|), p) > x.queue.pools.At(p)
  {
    WholeBacklogIsOwed(x, ids[0], c);
    LoneDebts(x, ids, c);
    DebtExceedsParentsWhen(x, ids, p);
  }

  /** Two queued, one taken out, one left pending: such inputs exist. */
  lemma OneOfTwoTaken(id: string, policy: Policy)
    requires policy.dialogue >= 2
    ensures TakenByHand(Inputs(policy, Queue(Counts(1, 0), map[id := Counts(2, 0)]), map[id := Parent(true, None, 2)],
                               Observed(Counts(0, 0), Counts(0, 0), map[]), false), [id], Counts(2, 0), V4, 1)
  {}

  /** Slots are filled to target: after spawning a pool's whole debt it is at its target, has
      nothing pending, or ran into the capacity of the total. */
  lemma DebtRestoresTarget(x: Inputs, demand: Counts, p: Pool)
    requires !x.finalized
    ensures x.seen.running.At(p) + Debt(x, demand, p) >= Min(TargetOf(x, p), x.seen.running.At(p) + x.queue.pools.At(p))
  {}

  predicate IsLone(x: Inputs, p: Pool, other: Pool) {
    && p != other && x.queue.pools.At(p) > 0 && x.queue.pools.At(other) == 0
    && x.policy.borrowable && !x.finalized && x.seen.initializing.Total() == 0
  }

  lemma LoneDebt(x: Inputs, demand: Counts, p: Pool, other: Pool)
    requires IsLone(x, p, other)
    ensures Debt(x, demand, other) == 0
    ensures Debt(x, demand, p) >= Least(x.queue.pools.At(p), Capacity(x))
  {
    assert TargetOf(x, p) == x.policy.total;
  }

  lemma LoneShare(share: Counts, want: Counts, cap: nat, p: Pool, other: Pool)
    requires p != other && want.At(other) == 0 && share.v4 <= want.v4 && share.k3 <= want.k3
    requires share.v4 + share.k3 == Least(want.v4 + want.k3, cap)
    ensures share.At(other) == 0 && share.At(p) == Least(want.At(p), cap)
  {}

  lemma NothingStarting(x: Inputs, demand: Counts, p: Pool)
    requires x.seen.initializing.Total() == 0
    ensures Spawnable(x, demand).At(p) == Debt(x, demand, p)
  {}

  /** What a lone pool may be given: nothing else is spawnable, and it lacks all there is. */
  lemma LoneSpawn(x: Inputs, demand: Counts, p: Pool, other: Pool)
    requires IsLone(x, p, other)
    ensures Spawnable(x, demand).At(other) == 0
    ensures Spawnable(x, demand).At(p) >= Least(x.queue.pools.At(p), Capacity(x))
  {
    LoneDebt(x, demand, p, other);
    NothingStarting(x, demand, p);
    NothingStarting(x, demand, other);
  }

  /** A pool with the only pending work borrows all the capacity there is: what runs and what it is
      given reach the total, or everything pending. */
  lemma LonePoolFillsTotal(x: Inputs, demand: Counts, p: Pool, other: Pool)
    requires IsLone(x, p, other)
    ensures DeficitOf(x, demand).At(other) == 0
    ensures DeficitOf(x, demand).At(p) >= Least(x.queue.pools.At(p), Capacity(x))
  {
    LoneSpawn(x, demand, p, other);
    DeficitShares(x, demand);
    LoneShare(DeficitOf(x, demand), Spawnable(x, demand), Capacity(x), p, other);
  }

  lemma DeficitShares(x: Inputs, demand: Counts)
    ensures var share, want := DeficitOf(x, demand), Spawnable(x, demand);
      share.v4 <= want.v4 && share.k3 <= want.k3 && share.v4 + share.k3 == Least(want.v4 + want.k3, Capacity(x))
  {
    DeficitIsCapped(x, demand);
    DeficitIsSplit(x, demand);
  }

  /* What is published, in terms of the policy, the queue and what was observed. */

  /** Only one pool has pending work and may borrow the other's reservation. */
  predicate Borrows(x: Inputs, p: Pool, other: Pool) {
    x.policy.borrowable && p != other && x.queue.pools.At(p) > 0 && x.queue.pools.At(other) == 0
  }

  /** With its debt a pool reaches `target` or all it has pending, and does not pass it but for what
      runs already or the parents ask for. */
  predicate Restored(target: int, running: nat, pending: nat, asked: nat, debt: nat) {
    && running + debt >= Min(target, running + pending)
    && running + debt <= Max(Max(target, running), running + asked)
    && (pending > 0 ==> debt >= asked)
    && (pending == 0 ==> debt == 0)
  }

  lemma DebtIsRestored(x: Inputs, demand: Counts, p: Pool)
    requires !x.finalized
    ensures Restored(TargetOf(x, p), x.seen.running.At(p), x.queue.pools.At(p), demand.At(p), Debt(x, demand, p))
  {}

  /** Each pool is restored to its own target, unless it borrows: then to the total, and the idle pool
      owes nothing.  A finalized release owes and spawns nothing. */
  predicate MeetsPolicy(s: State, x: Inputs, demand: Counts) {
    && (!x.finalized && !Borrows(x, V4, K3) && !Borrows(x, K3, V4) ==>
          && Restored(x.policy.v4Target, x.seen.running.v4, x.queue.pools.v4, demand.v4, s.debt.v4)
          && Restored(x.policy.k3Target, x.seen.running.k3, x.queue.pools.k3, demand.k3, s.debt.k3))
    && (!x.finalized && Borrows(x, V4, K3) ==>
          && Restored(x.policy.total, x.seen.running.v4, x.queue.pools.v4, demand.v4, s.debt.v4)
          && s.debt.k3 == 0)
    && (!x.finalized && Borrows(x, K3, V4) ==>
          && Restored(x.policy.total, x.seen.running.k3, x.queue.pools.k3, demand.k3, s.debt.k3)
          && s.debt.v4 == 0)
    && (x.finalized ==>
          s.debt == Counts(0, 0) && s.deficit.v4 + s.deficit.k3 == 0 && !s.requiredV4 && !s.requiredK3)
  }

  /** Every published state meets the policy. */
  lemma PoolsAreRestored(s: State, x: Inputs, demand: Counts)
    requires Publishes(s, x, demand)
    ensures MeetsPolicy(s, x, demand)
  {
    if x.finalized {
      DeficitIsSplit(x, demand);
    } else {
      DebtIsRestored(x, demand, V4);
      DebtIsRestored(x, demand, K3);
    }
  }

  /** A parent's load is what was observed of it. */
  lemma LoadsAreObserved(x: Inputs, id: string)
    ensures id in x.seen.parents ==> LoadOf(x, id) == x.seen.parents[id]
    ensures id !in x.seen.parents ==> LoadOf(x, id) == Load(0, 0)
  {}

  lemma SpawnableIs(x: Inputs, demand: Counts)
    ensures Spawnable(x, demand).v4 == Max(0, Debt(x, demand, V4) - x.seen.initializing.v4)
    ensures Spawnable(x, demand).k3 == Max(0, Debt(x, demand, K3) - x.seen.initializing.k3)
  {}

  lemma CapacityIs(x: Inputs)
    ensures Capacity(x) == Max(0, x.policy.total
      - (x.seen.running.v4 + x.seen.running.k3 + x.seen.initializing.v4 + x.seen.initializing.k3))
  {}

  /** All of the debt that is not starting already, as far as the room goes. */
  predicate UsesRoom(share: Counts, debt: Counts, starting: Counts, room: int) {
    && share.v4 <= Max(0, debt.v4 - starting.v4) && share.k3 <= Max(0, debt.k3 - starting.k3)
    && share.v4 + share.k3
       == Min(Max(0, debt.v4 - starting.v4) + Max(0, debt.k3 - starting.k3), Max(0, room))
  }

  lemma ShareUsesRoom(share: Counts, want: Counts, cap: nat, debt: Counts, starting: Counts, room: int)
    requires share.v4 <= want.v4 && share.k3 <= want.k3 && share.v4 + share.k3 == Least(want.v4 + want.k3, cap)
    requires want.v4 == Max(0, debt.v4 - starting.v4) && want.k3 == Max(0, debt.k3 - starting.k3) && cap == Max(0, room)
    ensures UsesRoom(share, debt, starting, room)
  {}

  /** What is started is all the debt that is not starting already, as far as the total goes. */
  lemma DeficitsAreUsed(s: State, x: Inputs, demand: Counts)
    requires Publishes(s, x, demand)
    ensures var live := x.seen.running.v4 + x.seen.running.k3 + x.seen.initializing.v4 + x.seen.initializing.k3;
      UsesRoom(s.deficit, s.debt, x.seen.initializing, x.policy.total - live)
  {
    var live := x.seen.running.v4 + x.seen.running.k3 + x.seen.initializing.v4 + x.seen.initializing.k3;
    DeficitShares(x, demand);
    SpawnableIs(x, demand);
    CapacityIs(x);
    ShareUsesRoom(s.deficit, Spawnable(x, demand), Capacity(x), s.debt, x.seen.initializing, x.policy.total - live);
  }

  /** A parent's target: what it asks for, at least one, at most the dialogue's limit, and that limit
      when it asks for nothing. */
  lemma ParentTargetsAre(x: Inputs, id: string)
    requires id in x.registry
    ensures var t, asked := ParentTarget(x, id), x.registry[id].target;
      && 1 <= t <= Max(1, x.policy.dialogue)
      && (asked != 0 ==> t <= Max(1, asked))
      && (asked == 0 ==> t == Max(1, x.policy.dialogue))
      && (1 <= asked <= x.policy.dialogue ==> t == asked)
      && (asked > x.policy.dialogue ==> t == Max(1, x.policy.dialogue))
  {}

  /** What a parent owes and may spawn, from its queue and the room of the total: an active one owes what
      it has queued, up to what it lacks, and may spawn that as far as its own target and the room go;
      an inactive one nothing. */
  predicate Served(ps: ParentState, queued: Counts, room: int) {
    && ps.debt == (if ps.active then Min(queued.v4 + queued.k3, Max(0, ps.target - ps.load.running)) else 0)
    && ps.spawnable.v4 <= queued.v4 && ps.spawnable.k3 <= queued.k3
    && ps.spawnable.v4 + ps.spawnable.k3
       == Min(ps.debt, Min(Max(0, ps.target - ps.load.running - ps.load.initializing), Max(0, room)))
  }

  lemma LeastIs(q: Counts, n: nat)
    ensures Least(q.Total(), n) == Min(q.v4 + q.k3, n)
  {}

  lemma LacksIs(x: Inputs, id: string)
    requires id in x.registry
    ensures Lacks(x, id) == Max(0, ParentTarget(x, id) - LoadOf(x, id).running)
  {}

  lemma OwesLeast(x: Inputs, id: string, q: Counts, lacks: nat)
    requires id in x.registry && q == Queued(x.queue.parents, id) && lacks == Lacks(x, id)
    ensures ParentDebt(x, id) == if x.registry[id].active then Least(q.Total(), lacks) else 0
  {}

  lemma ParentDebtIs(x: Inputs, id: string, q: Counts, lacks: nat)
    requires id in x.registry && q == Queued(x.queue.parents, id)
    requires lacks == Max(0, ParentTarget(x, id) - LoadOf(x, id).running)
    ensures ParentDebt(x, id) == if x.registry[id].active then Min(q.v4 + q.k3, lacks) else 0
  {
    LacksIs(x, id);
    OwesLeast(x, id, q, lacks);
    LeastIs(q, lacks);
  }

  lemma ParentSpawnIs(x: Inputs, id: string)
    requires id in x.registry
    ensures var load := LoadOf(x, id);
      ParentSpawn(x, id)
      == Min(ParentDebt(x, id), Min(Max(0, ParentTarget(x, id) - load.running - load.initializing), Capacity(x)))
  {}

  lemma ServedBy(ps: ParentState, queued: Counts, debt: int, spawn: int, room: int)
    requires debt == if ps.active then Min(queued.v4 + queued.k3, Max(0, ps.target - ps.load.running)) else 0
    requires ps.debt == debt
    requires spawn == Min(debt, Min(Max(0, ps.target - ps.load.running - ps.load.initializing), Max(0, room)))
    requires ps.spawnable.v4 + ps.spawnable.k3 == spawn && ps.spawnable.v4 <= queued.v4 && ps.spawnable.k3 <= queued.k3
    ensures Served(ps, queued, room)
  {}

  lemma PublishedParent(s: State, x: Inputs, demand: Counts, id: string)
    requires Publishes(s, x, demand) && id in x.registry
    ensures id in s.parents && s.parents[id] == ParentStateOf(x, id)
  {}

  lemma StateOfParent(x: Inputs, id: string, ps: ParentState)
    requires id in x.registry && ps == ParentStateOf(x, id)
    ensures ps.active == x.registry[id].active && ps.target == ParentTarget(x, id)
    ensures ps.load == LoadOf(x, id) && ps.debt == ParentDebt(x, id)
    ensures ps.spawnable.v4 + ps.spawnable.k3 == ParentSpawn(x, id)
    ensures ps.spawnable.v4 <= Queued(x.queue.parents, id).v4 && ps.spawnable.k3 <= Queued(x.queue.parents, id).k3
  {
    ParentFits(x, id);
  }

  lemma StateIsServed(x: Inputs, id: string, ps: ParentState, q: Counts, room: int)
    requires id in x.registry && q == Queued(x.queue.parents, id) && Capacity(x) == Max(0, room)
    requires ps.active == x.registry[id].active && ps.target == ParentTarget(x, id)
    requires ps.load == LoadOf(x, id) && ps.debt == ParentDebt(x, id)
    requires ps.spawnable.v4 + ps.spawnable.k3 == ParentSpawn(x, id)
    requires ps.spawnable.v4 <= q.v4 && ps.spawnable.k3 <= q.k3
    ensures Served(ps, q, room)
  {
    ParentDebtIs(x, id, q, Max(0, ps.target - ps.load.running));
    ParentSpawnIs(x, id);
    ServedBy(ps, q, ParentDebt(x, id), ParentSpawn(x, id), room);
  }

  /** Every registered parent is published as it is registered, and served. */
  lemma ParentsAreServed(s: State, x: Inputs, demand: Counts, id: string)
    requires Publishes(s, x, demand) && id in x.registry
    ensures var live := x.seen.running.v4 + x.seen.running.k3 + x.seen.initializing.v4 + x.seen.initializing.k3;
      && s.parents[id].active == x.registry[id].active && s.parents[id].target == ParentTarget(x, id)
      && s.parents[id].load == LoadOf(x, id)
      && Served(s.parents[id], Queued(x.queue.parents, id), x.policy.total - live)
  {
    var live := x.seen.running.v4 + x.seen.running.k3 + x.seen.initializing.v4 + x.seen.initializing.k3;
    PublishedParent(s, x, demand, id);
    StateOfParent(x, id, s.parents[id]);
    CapacityIs(x);
    StateIsServed(x, id, s.parents[id], Queued(x.queue.parents, id), x.policy.total - live);
  }

  /** Which pool a ledger row is demand of: a dispatchable packet, without a parent or under the active
      manifest of its parent, by its hint or else its role; and verifier work is always K3's. */
  lemma RowsAreDemandOf(e: Entry, registry: map<string, Parent>)
    ensures var open := e.Entry? && e.state == "DISPATCHABLE" && (e.parent == "" ||
        (e.parent in registry && registry[e.parent].active && registry[e.parent].manifest == e.manifest));
      var k3 := e.Entry? && (e.hint == Some("k3") ||
        (e.hint != Some("v4") && e.role in {"verifier", "reviewer", "plan_expander"}));
      var verify := e.Entry? && e.state in {"L2_VERIFY", "L2_RANK", "EXPAND_K3", "L2_VERIFY_PENDING"};
      && (DemandPool(e, registry) == Some(V4) <==> open && !k3)
      && (DemandPool(e, registry) == Some(K3) <==> (open && k3) || verify)
      && (forall id, p :: IsDemandOf(e, registry, id, p) <==>
            open && id != "" && e.parent == id && p == (if k3 then K3 else V4))
  {}

  lemma KeysMatch(ids: seq<string>, registry: map<string, Parent>, parents: map<string, ParentState>)
    requires Lists(ids, registry)
    requires forall k :: 0 <= k < |ids| ==> ids[k] in parents
    requires forall id :: id in parents ==> id in registry
    ensures parents.Keys == registry.Keys
  {
    forall id | id in registry ensures id in parents {
      var k :| 0 <= k < |ids| && ids[k] == id;
    }
  }

  ghost predicate AreStates(parents: map<string, ParentState>, x: Inputs) {
    forall id :: id in parents ==> id in x.registry && parents[id] == ParentStateOf(x, id)
  }

  lemma OneMoreState(parents: map<string, ParentState>, x: Inputs, id: string)
    requires AreStates(parents, x) && id in x.registry
    ensures AreStates(parents[id := ParentStateOf(x, id)], x)
  {}

  /* The controller as it rewrites its queue and state. */

  class RefillController {
    const policy: Policy
    var queue: Queue
    var state: Option<State>

    constructor (policy: Policy)
      ensures this.policy == policy && queue == Queue(Counts(0, 0), map[]) && state == None
    {
      this.policy := policy;
      queue, state := Queue(Counts(0, 0), map[]), None;
    }

    /** Counts the whole ledger and replaces both pool counts. */
    method QueueSyncLedger(rows: seq<Entry>, registry: map<string, Parent>)
      modifies this`queue
      ensures Synced(queue, rows, registry)
    {
      var ready, parents := Counts(0, 0), map[];
      for i := 0 to |rows|
        invariant CountsRows(Queue(ready, parents), rows, registry, i)
      {
        var e := rows[i];
        if e.Malformed? {
          continue;
        }
        if e.state == "DISPATCHABLE" {
          var pool := PoolOf(e);
          if e.parent != "" {
            if e.parent !in registry || !registry[e.parent].active || registry[e.parent].manifest != e.manifest {
              continue;
            }
            parents := parents[e.parent := Queued(parents, e.parent).Plus(pool, 1)];
          }
          ready := ready.Plus(pool, 1);
        } else if IsK3Work(e.state) {
          ready := ready.Plus(K3, 1);
        }
      }
      queue := Queue(ready, parents);
    }

    /** Takes tasks out of a pool by hand. */
    method QueueRemove(count: nat, p: Pool)
      modifies this`queue
      ensures queue == Lowered(old(queue), p, count)
    {
      var left := AtLeast0(queue.pools.At(p) - count);
      queue := queue.(pools := if p == V4 then queue.pools.(v4 := left) else queue.pools.(k3 := left));
    }

    /** The dialogue-level debts of the active parents; `ids` lists the registry. */
    method SumParentDebts(x: Inputs, ids: seq<string>) returns (demand: Counts)
      requires forall i :: 0 <= i < |ids| ==> ids[i] in x.registry
      ensures demand == ParentDebts(x, ids, |ids|)
    {
      demand := Counts(0, 0);
      for i := 0 to |ids|
        invariant demand == ParentDebts(x, ids, i)
      {
        if x.registry[ids[i]].active {
          demand := demand.Add(DebtByPool(x, ids[i]));
        } else {
          InactiveOwesNothing(x, ids[i], demand);
        }
      }
    }

    /** The states of the registered parents. */
    method ParentStates(x: Inputs, ids: seq<string>) returns (parents: map<string, ParentState>)
      requires forall k :: 0 <= k < |ids| ==> ids[k] in x.registry
      ensures forall k :: 0 <= k < |ids| ==> ids[k] in parents
      ensures AreStates(parents, x)
    {
      parents := map[];
      for i := 0 to |ids|
        invariant forall k :: 0 <= k < i ==> ids[k] in parents
        invariant AreStates(parents, x)
      {
        OneMoreState(parents, x, ids[i]);
        parents := parents[ids[i] := ParentStateOf(x, ids[i])];
      }
    }

    /** Recomputes the state from the queue. */
    method Recompute(registry: map<string, Parent>, ids: seq<string>, seen: Observed, finalized: bool)
      returns (x: Inputs)
      requires Lists(ids, registry)
      modifies this`state
      ensures x == Inputs(policy, queue, registry, seen, finalized)
      ensures state.Some? && Publishes(state.value, x, ParentDebts(x, ids, |ids|))
      ensures MeetsPolicy(state.value, x, ParentDebts(x, ids, |ids|))
    {
      x := Inputs(policy, queue, registry, seen, finalized);
      var demand := SumParentDebts(x, ids);
      var spawn := Spawnable(x, demand);
      var total := 0;
      if Required(x, demand, V4) || Required(x, demand, K3) {
        total := Least(spawn.Total(), Capacity(x));
      }
      var parents := ParentStates(x, ids);
      KeysMatch(ids, registry, parents);
      state := Some(State(Required(x, demand, V4), Required(x, demand, K3),
                          Counts(Debt(x, demand, V4), Debt(x, demand, K3)), TwoWay(total, spawn), parents));
      PoolsAreRestored(state.value, x, demand);
    }
  }
}
