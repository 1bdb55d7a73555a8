/** The per-task token budget: role allocations carved into agent allocations, a pool of returned
    tokens, and a four-rung state ladder with hysteresis. */
module Budget {
  import opened Wrappers

  /** The keys of the allocation table: a role's share, or an agent's. */
  datatype Key = Role(name: string) | Agent(id: string)

  datatype Level = NORMAL | THROTTLE | DEGRADE | BREAK

  datatype Doc = Doc(open: bool, ceiling: int, shares: map<Key, int>, consumed: map<Key, int>,
                     state: Level, pool: int)

  /** Thresholds on consumed over ceiling. */
  datatype Policy = Policy(throttleAt: real, degradeAt: real, breakAt: real)

  function Min(a: int, b: int): int { if a < b then a else b }

  function Max(a: int, b: int): int { if a > b then a else b }

  function Get(m: map<Key, int>, k: Key): int { if k in m then m[k] else 0 }

  /* Sums over a table. */

  ghost function Sum(m: map<Key, int>): int
    decreases |m|
  {
    if m == map[] then 0
    else
      var k :| k in m;
      m[k] + Sum(m - {k})
  }

  lemma {:induction false} SumSplit(m: map<Key, int>, k: Key)
    requires k in m
    ensures Sum(m) == m[k] + Sum(m - {k})
    decreases |m|
  {
    var first :| first in m && Sum(m) == m[first] + Sum(m - {first});
    if first != k {
      SumSplit(m - {first}, k);
      SumSplit(m - {k}, first);
      assert m - {first} - {k} == m - {k} - {first};
    }
  }

  lemma SumUpdate(m: map<Key, int>, k: Key, v: int)
    ensures Sum(m[k := v]) == Sum(m) - Get(m, k) + v
  {
    SumSplit(m[k := v], k);
    assert m[k := v] - {k} == m - {k};
    if k in m {
      SumSplit(m, k);
    } else {
      assert m - {k} == m;
    }
  }

  lemma SumRemove(m: map<Key, int>, k: Key)
    ensures Sum(m - {k}) == Sum(m) - Get(m, k)
  {
    if k in m {
      SumSplit(m, k);
    } else {
      assert m - {k} == m;
    }
  }

  /* The ladder. */

  function Rank(l: Level): nat {
    match l
    case NORMAL => 0
    case THROTTLE => 1
    case DEGRADE => 2
    case BREAK => 3
  }

  ghost function Ratio(d: Doc): real {
    Sum(d.consumed) as real / Max(1, d.ceiling) as real
  }

  /** The stateless threshold function. */
  function Ladder(p: Policy, ratio: real): Level {
    if ratio > p.breakAt then BREAK
    else if ratio >= p.degradeAt then DEGRADE
    else if ratio >= p.throttleAt then THROTTLE
    else NORMAL
  }

  function Threshold(p: Policy, l: Level): real {
    match l
    case NORMAL => 0.0
    case THROTTLE => p.throttleAt
    case DEGRADE => p.degradeAt
    case BREAK => p.breakAt
  }

  /** Up at once; down only when cooled and a band below the threshold that was left. */
  function Moved(p: Policy, current: Level, ratio: real, cooled: bool): Level {
    var target := Ladder(p, ratio);
    if Rank(target) > Rank(current) then target
    else if Rank(target) < Rank(current) && cooled && ratio < Threshold(p, current) - 0.05 then target
    else current
  }

  ghost function Recomputed(p: Policy, d: Doc, cooled: bool): Doc {
    d.(state := Moved(p, d.state, Ratio(d), cooled))
  }

  /* The operations. */

  datatype Step =
    | Register(agent: string, role: string, want: nat)
    | Record(agent: string, tokens: int, cooled: bool)
    | Extend(agent: string, verified: bool)
    | Reclaim(agent: string, cooled: bool)

  function Available(d: Doc, role: string): int {
    Get(d.shares, Role(role)) + d.pool
  }

  /** The task is open and has nothing left for the role. */
  predicate Exceeded(d: Doc, agent: string, role: string) {
    Agent(agent) !in d.shares && d.open && Available(d, role) <= 0
  }

  function Grant(d: Doc, role: string, want: nat): int {
    if Available(d, role) > 0 then Min(want, Available(d, role)) else want
  }

  function Registered(d: Doc, agent: string, role: string, want: nat): Doc {
    if Agent(agent) in d.shares || Exceeded(d, agent, role) then d
    else
      var share, grant := Get(d.shares, Role(role)), Grant(d, role, want);
      var fromRole := Min(grant, share);
      d.(shares := d.shares[Role(role) := share - fromRole][Agent(agent) := grant],
         pool := d.pool - (grant - fromRole),
         consumed := d.consumed[Agent(agent) := Get(d.consumed, Agent(agent))])
  }

  function Used(d: Doc, agent: string, tokens: int): Doc {
    d.(consumed := d.consumed[Agent(agent) := Get(d.consumed, Agent(agent)) + Max(0, tokens)])
  }

  function Unused(d: Doc, agent: string): int {
    Max(0, Get(d.shares, Agent(agent)) - Get(d.consumed, Agent(agent)))
  }

  function Returned(d: Doc, agent: string): Doc {
    d.(shares := d.shares - {Agent(agent)}, pool := d.pool + Unused(d, agent))
  }

  /** At least 85 % of the allocation is consumed. */
  predicate NearLimit(d: Doc, agent: string) {
    20 * Get(d.consumed, Agent(agent)) >= 17 * Max(1, Get(d.shares, Agent(agent)))
  }

  function Extension(d: Doc, agent: string): int {
    Min(d.pool, Max(0, Get(d.shares, Agent(agent))) / 2)
  }

  function Extended(d: Doc, agent: string, verified: bool): Doc {
    if NearLimit(d, agent) && Extension(d, agent) > 0 && verified && d.state != BREAK then
      d.(pool := d.pool - Extension(d, agent),
         shares := d.shares[Agent(agent) := Get(d.shares, Agent(agent)) + Extension(d, agent)])
    else d
  }

  ghost function Next(p: Policy, d: Doc, step: Step): Doc {
    match step
    case Register(agent, role, want) => Registered(d, agent, role, want)
    case Record(agent, tokens, cooled) => Recomputed(p, Used(d, agent, tokens), cooled)
    case Extend(agent, verified) => Extended(d, agent, verified)
    case Reclaim(agent, cooled) => Recomputed(p, Returned(d, agent), cooled)
  }

  ghost function Run(p: Policy, d: Doc, steps: seq<Step>): Doc {
    if steps == [] then d else Next(p, Run(p, d, steps[..|steps| - 1]), steps[|steps| - 1])
  }

  /* Conservation. */

  ghost function Held(d: Doc): int {
    Sum(d.shares) + d.pool
  }

  /** Tokens a step retires: what a reclaimed agent had really used of its allocation. */
  function Retires(d: Doc, step: Step): int {
    if step.Reclaim? then Min(Get(d.shares, Agent(step.agent)), Get(d.consumed, Agent(step.agent))) else 0
  }

  ghost function Retired(p: Policy, d: Doc, steps: seq<Step>): int {
    if steps == [] then 0
    else
      var init := steps[..|steps| - 1];
      Retired(p, d, init) + Retires(Run(p, d, init), steps[|steps| - 1])
  }

  predicate NonNegative(m: map<Key, int>) {
    forall k :: k in m ==> m[k] >= 0
  }

  predicate Sound(d: Doc) {
    NonNegative(d.shares) && NonNegative(d.consumed) && d.pool >= 0
  }

  lemma RegisterConserves(d: Doc, agent: string, role: string, want: nat)
    ensures Held(Registered(d, agent, role, want)) == Held(d)
    ensures Sum(Registered(d, agent, role, want).consumed) == Sum(d.consumed)
  {
    if !(Agent(agent) in d.shares || Exceeded(d, agent, role)) {
      var share, grant := Get(d.shares, Role(role)), Grant(d, role, want);
      SumUpdate(d.shares, Role(role), share - Min(grant, share));
      SumUpdate(d.shares[Role(role) := share - Min(grant, share)], Agent(agent), grant);
      SumUpdate(d.consumed, Agent(agent), Get(d.consumed, Agent(agent)));
    }
  }

  /** Registering keeps every component non-negative exactly when it does not grant more than is
      there; with an open task that is always so. */
  lemma RegisterKeepsSound(d: Doc, agent: string, role: string, want: nat)
    requires Sound(d)
    ensures Sound(Registered(d, agent, role, want)) <==>
      Agent(agent) in d.shares || d.open || Available(d, role) > 0 || want == 0
  {
    if !(Agent(agent) in d.shares || Exceeded(d, agent, role)) {
      var grant := Grant(d, role, want);
      assert Registered(d, agent, role, want).pool == d.pool - (grant - Min(grant, Get(d.shares, Role(role))));
    }
  }

  /** Without a task every registration takes what it wants out of an empty pool. */
  lemma UnbudgetedPoolGoesNegative(agent: string, role: string, want: nat)
    requires want > 0
    ensures var d := Doc(false, 0, map[], map[], NORMAL, 0);
      Sound(d) && Registered(d, agent, role, want).pool + want == 0
  {}

  /** An agent gets what it wants as far as its role's share and the pool go, the share first: the
      pool is touched only once the share is used up, and no other share ever is. */
  lemma SharesBeforePool(d: Doc, agent: string, role: string, want: nat, k: Key)
    requires Sound(d) && d.open && Agent(agent) !in d.shares && !Exceeded(d, agent, role)
    ensures var r := Registered(d, agent, role, want);
      && Get(r.shares, Agent(agent)) == Min(want, Get(d.shares, Role(role)) + d.pool)
      && (r.pool < d.pool ==> Get(r.shares, Role(role)) == 0)
      && (k != Agent(agent) && k != Role(role) ==> Get(r.shares, k) == Get(d.shares, k))
  {}

  lemma StepConserves(p: Policy, d: Doc, step: Step)
    requires Sound(d) && d.open
    ensures Sound(Next(p, d, step)) && Next(p, d, step).open
    ensures Held(Next(p, d, step)) + Retires(d, step) == Held(d)
  {
    match step
    case Register(agent, role, want) =>
      RegisterConserves(d, agent, role, want);
      RegisterKeepsSound(d, agent, role, want);
    case Record(agent, tokens, cooled) =>
    case Extend(agent, verified) =>
      SumUpdate(d.shares, Agent(agent), Get(d.shares, Agent(agent)) + Extension(d, agent));
    case Reclaim(agent, cooled) =>
      SumRemove(d.shares, Agent(agent));
  }

  /** Over every sequence of operations on an open task, allocations, pool and retired tokens
      together stay what the task was opened with, and nothing is negative. */
  lemma {:induction false} TokensAreConserved(p: Policy, d: Doc, steps: seq<Step>)
    requires Sound(d) && d.open
    ensures Sound(Run(p, d, steps)) && Run(p, d, steps).open
    ensures Held(Run(p, d, steps)) + Retired(p, d, steps) == Held(d)
  {
    if steps != [] {
      TokensAreConserved(p, d, steps[..|steps| - 1]);
      StepConserves(p, Run(p, d, steps[..|steps| - 1]), steps[|steps| - 1]);
    }
  }

  /** A second reclaim returns nothing and changes no table. */
  lemma SecondReclaimIsEmpty(p: Policy, d: Doc, agent: string, cooled: bool)
    requires Sound(d)
    ensures var once := Next(p, d, Reclaim(agent, cooled));
      && Unused(once, agent) == 0
      && Returned(once, agent) == once
  {
    var once := Next(p, d, Reclaim(agent, cooled));
    assert once.shares - {Agent(agent)} == once.shares;
  }

  /* Hysteresis. */

  lemma LadderIsMonotone(p: Policy, r1: real, r2: real)
    requires r1 <= r2
    ensures Rank(Ladder(p, r1)) <= Rank(Ladder(p, r2))
  {}

  predicate Positive(p: Policy) {
    p.throttleAt > 0.0 && p.degradeAt > 0.0 && p.breakAt > 0.0
  }

  ghost predicate Settled(p: Policy, d: Doc) {
    d.state == Ladder(p, Ratio(d))
  }

  lemma DivMono(a: real, b: real, c: real)
    requires a <= b && c > 0.0
    ensures a / c <= b / c
  {}

  lemma UseGrows(d: Doc, agent: string, tokens: int)
    ensures Ratio(d) <= Ratio(Used(d, agent, tokens))
  {
    SumUpdate(d.consumed, Agent(agent), Get(d.consumed, Agent(agent)) + Max(0, tokens));
    DivMono(Sum(d.consumed) as real, Sum(Used(d, agent, tokens).consumed) as real, Max(1, d.ceiling) as real);
  }

  /** Each step keeps the state on the ladder, whatever the clock says, and never lowers it. */
  lemma StepIsOnLadder(p: Policy, d: Doc, step: Step)
    requires Settled(p, d)
    ensures Settled(p, Next(p, d, step))
    ensures Rank(d.state) <= Rank(Next(p, d, step).state)
  {
    match step
    case Register(agent, role, want) => RegisterConserves(d, agent, role, want);
    case Record(agent, tokens, cooled) =>
      UseGrows(d, agent, tokens);
      LadderIsMonotone(p, Ratio(d), Ratio(Used(d, agent, tokens)));
    case Extend(agent, verified) =>
    case Reclaim(agent, cooled) =>
  }

  /** The hysteresis collapses: within an opened task the stored state is always the threshold
      function of consumed over ceiling, and it never falls. */
  lemma {:induction false} StateIsTheLadder(p: Policy, d: Doc, steps: seq<Step>)
    requires Settled(p, d)
    ensures Settled(p, Run(p, d, steps))
    ensures Rank(d.state) <= Rank(Run(p, d, steps).state)
  {
    if steps != [] {
      StateIsTheLadder(p, d, steps[..|steps| - 1]);
      StepIsOnLadder(p, Run(p, d, steps[..|steps| - 1]), steps[|steps| - 1]);
    }
  }

  /** When each rung of the ladder is reached: above the break threshold, from the degrade threshold on,
      from the throttle threshold on. */
  predicate OnRung(p: Policy, state: Level, ratio: real) {
    && (state == BREAK <==> ratio > p.breakAt)
    && (state == DEGRADE <==> ratio <= p.breakAt && ratio >= p.degradeAt)
    && (state == THROTTLE <==> ratio <= p.breakAt && ratio < p.degradeAt && ratio >= p.throttleAt)
    && (state == NORMAL <==> ratio <= p.breakAt && ratio < p.degradeAt && ratio < p.throttleAt)
  }

  /** Within an opened task the stored state is on the rung of consumed over ceiling. */
  lemma StateIsOnItsRung(p: Policy, asks: seq<Ask>, caps: Caps, steps: seq<Step>)
    requires DistinctRoles(asks) && Positive(p)
    ensures var d := Run(p, Opened(caps.ceiling, Shaped(asks, caps)), steps);
      OnRung(p, d.state, Sum(d.consumed) as real / Max(1, d.ceiling) as real)
  {
    OpenedTaskIsSound(p, asks, caps, steps);
  }

  /** The same operations at other times of the clock. */
  predicate SameButClock(a: Step, b: Step) {
    match a
    case Record(agent, tokens, _) => b.Record? && b.agent == agent && b.tokens == tokens
    case Reclaim(agent, _) => b.Reclaim? && b.agent == agent
    case _ => a == b
  }

  /** So the cooldown is never what decides: runs that differ only in the clock end alike. */
  lemma {:induction false} ClockNeverMatters(p: Policy, d: Doc, a: seq<Step>, b: seq<Step>)
    requires Settled(p, d) && |a| == |b|
    requires forall i :: 0 <= i < |a| ==> SameButClock(a[i], b[i])
    ensures Run(p, d, a) == Run(p, d, b)
  {
    if a != [] {
      var n := |a| - 1;
      ClockNeverMatters(p, d, a[..n], b[..n]);
      StateIsTheLadder(p, d, a[..n]);
      StepIsOnLadder(p, Run(p, d, a[..n]), a[n]);
      StepIsOnLadder(p, Run(p, d, a[..n]), b[n]);
    }
  }

  /* Opening a task. */

  /** What a role asks for: its cost model times its agents. */
  datatype Ask = Ask(role: string, tokens: nat)

  const K3_ROLES: set<string> := {"verifier", "reviewer", "plan_expander", "k3"}

  datatype Caps = Caps(ceiling: nat, solCap: nat, k3Floor: nat)

  function Total(asks: seq<Ask>): nat {
    if asks == [] then 0 else Total(asks[..|asks| - 1]) + asks[|asks| - 1].tokens
  }

  datatype Class = Sol | K3 | Other

  function ClassOf(role: string): Class {
    if role == "sol" then Sol else if role in K3_ROLES then K3 else Other
  }

  function TotalOf(asks: seq<Ask>, c: Class): nat {
    if asks == [] then 0
    else
      var last := asks[|asks| - 1];
      TotalOf(asks[..|asks| - 1], c) + (if ClassOf(last.role) == c then last.tokens else 0)
  }

  /** Caps every sol role. */
  function SolCapped(asks: seq<Ask>, cap: nat): seq<Ask> {
    if asks == [] then []
    else
      var last := asks[|asks| - 1];
      SolCapped(asks[..|asks| - 1], cap)
      + [if ClassOf(last.role) == Sol then last.(tokens := Min(last.tokens, cap)) else last]
  }

  function Scale(x: nat, num: nat, den: nat): nat
    requires den > 0
  {
    x * num / den
  }

  /** Scales one class by `num / den`, rounding down. */
  function Scaled(asks: seq<Ask>, c: Class, num: nat, den: nat): (r: seq<Ask>)
    requires den > 0
    ensures |r| == |asks|
  {
    if asks == [] then []
    else
      var last := asks[|asks| - 1];
      Scaled(asks[..|asks| - 1], c, num, den)
      + [if ClassOf(last.role) == c then last.(tokens := Scale(last.tokens, num, den)) else last]
  }

  function K3Floored(asks: seq<Ask>, floor: nat): seq<Ask> {
    if TotalOf(asks, K3) < floor then Scaled(asks, K3, floor, Max(1, TotalOf(asks, K3))) else asks
  }

  function Fixed(asks: seq<Ask>): nat {
    TotalOf(asks, Sol) + TotalOf(asks, K3)
  }

  function Fitted(asks: seq<Ask>, ceiling: nat): seq<Ask> {
    var available := Max(0, ceiling - Fixed(asks));
    if TotalOf(asks, Other) > available then Scaled(asks, Other, available, Max(1, TotalOf(asks, Other))) else asks
  }

  function Shaped(asks: seq<Ask>, caps: Caps): seq<Ask> {
    Fitted(K3Floored(SolCapped(asks, caps.solCap), caps.k3Floor), caps.ceiling)
  }

  lemma {:induction false} ClassesAddUp(asks: seq<Ask>)
    ensures Total(asks) == TotalOf(asks, Sol) + TotalOf(asks, K3) + TotalOf(asks, Other)
  {
    if asks != [] {
      ClassesAddUp(asks[..|asks| - 1]);
    }
  }

  lemma ScaleOne(x: nat, num: nat, den: nat)
    requires den > 0
    ensures den * Scale(x, num, den) <= x * num
  {}

  lemma ScaleStep(den: nat, a: nat, b: nat, q: nat, x: nat, num: nat)
    requires den * a <= b * num && den * q <= x * num
    ensures den * (a + q) <= (b + x) * num
  {
    assert den * (a + q) == den * a + den * q;
    assert (b + x) * num == b * num + x * num;
  }

  /** Scaling a class rounds its total down. */
  lemma {:induction false} ScaledTotal(asks: seq<Ask>, c: Class, num: nat, den: nat)
    requires den > 0
    ensures den * TotalOf(Scaled(asks, c, num, den), c) <= TotalOf(asks, c) * num
  {
    if asks != [] {
      var init, last := asks[..|asks| - 1], asks[|asks| - 1];
      var done := Scaled(init, c, num, den);
      ScaledTotal(init, c, num, den);
      assert Scaled(asks, c, num, den)[..|done|] == done;
      if ClassOf(last.role) == c {
        ScaleOne(last.tokens, num, den);
        ScaleStep(den, TotalOf(done, c), TotalOf(init, c), Scale(last.tokens, num, den), last.tokens, num);
      }
    }
  }

  /** The other classes are left alone. */
  lemma {:induction false} OthersUnscaled(asks: seq<Ask>, c: Class, num: nat, den: nat, other: Class)
    requires den > 0 && other != c
    ensures TotalOf(Scaled(asks, c, num, den), other) == TotalOf(asks, other)
  {
    if asks != [] {
      var init := asks[..|asks| - 1];
      OthersUnscaled(init, c, num, den, other);
      assert Scaled(asks, c, num, den)[..|init|] == Scaled(init, c, num, den);
    }
  }

  lemma Cancel(a: nat, b: nat, c: nat)
    requires c > 0 && c * a <= b * c
    ensures a <= b
  {
    if a > b {
      assert c * a == c * b + c * (a - b);
      MulPos(a - b, c);
      assert false;
    }
  }

  lemma CancelLeft(a: nat, b: nat, c: nat)
    requires c > 0 && c * a <= c * b
    ensures a <= b
  {
    assert c * b == b * c;
    Cancel(a, b, c);
  }

  lemma MulPos(a: int, c: int)
    requires a >= 1 && c > 0
    ensures c * a >= c
  {}

  /** The others get at most what the fixed shares leave. */
  lemma FittedOthers(asks: seq<Ask>, ceiling: nat)
    ensures TotalOf(Fitted(asks, ceiling), Other) <= Max(0, ceiling - Fixed(asks))
    ensures Fixed(Fitted(asks, ceiling)) == Fixed(asks)
  {
    var available, others := Max(0, ceiling - Fixed(asks)), TotalOf(asks, Other);
    if others > available {
      ScaledTotal(asks, Other, available, others);
      OthersUnscaled(asks, Other, available, others, Sol);
      OthersUnscaled(asks, Other, available, others, K3);
      Cancel(TotalOf(Scaled(asks, Other, available, others), Other), available, others);
    }
  }

  /** The opened allocations fit the ceiling if and only if the capped sol share and the floored K3
      share fit it by themselves. */
  lemma OpenFits(asks: seq<Ask>, caps: Caps)
    ensures var fixed := Fixed(K3Floored(SolCapped(asks, caps.solCap), caps.k3Floor));
      && (Total(Shaped(asks, caps)) <= caps.ceiling <==> fixed <= caps.ceiling)
      && Total(Shaped(asks, caps)) <= Max(caps.ceiling, fixed)
  {
    var before := K3Floored(SolCapped(asks, caps.solCap), caps.k3Floor);
    FittedOthers(before, caps.ceiling);
    ClassesAddUp(Fitted(before, caps.ceiling));
  }

  lemma TwoAsks(a: Ask, b: Ask, c: Class)
    ensures TotalOf([a, b], c)
         == (if ClassOf(a.role) == c then a.tokens else 0) + (if ClassOf(b.role) == c then b.tokens else 0)
  {
    assert [a, b][..1] == [a] && [a][..0] == [];
    assert TotalOf([a], c) == TotalOf([], c) + (if ClassOf(a.role) == c then a.tokens else 0);
  }

  lemma TwoAsksCapped(a: Ask, b: Ask, cap: nat)
    requires a.role == "sol" && ClassOf(b.role) != Sol
    ensures SolCapped([a, b], cap) == [Ask("sol", Min(a.tokens, cap)), b]
  {
    assert [a, b][..1] == [a] && [a][..0] == [];
    assert SolCapped([a], cap) == SolCapped([], cap) + [Ask("sol", Min(a.tokens, cap))];
  }

  /** A capped Sol and one large verifier pass the ceiling by all of Sol's share. */
  lemma FixedSharesMayNotFit(ceiling: nat, solCap: nat, k3Floor: nat)
    requires 0 < solCap <= ceiling && k3Floor <= ceiling
    ensures var asks := [Ask("sol", ceiling), Ask("verifier", ceiling)];
      Total(Shaped(asks, Caps(ceiling, solCap, k3Floor))) > ceiling
  {
    var sol, k3 := Ask("sol", ceiling), Ask("verifier", ceiling);
    var capped := Ask("sol", solCap);
    TwoAsksCapped(sol, k3, solCap);
    TwoAsks(capped, k3, Sol);
    TwoAsks(capped, k3, K3);
    assert K3Floored([capped, k3], k3Floor) == [capped, k3];
    OpenFits([sol, k3], Caps(ceiling, solCap, k3Floor));
  }

  /** Flooring raises the K3 share to at most the floor, and no other. */
  lemma FlooredShare(asks: seq<Ask>, floor: nat)
    ensures TotalOf(K3Floored(asks, floor), K3) <= Max(floor, TotalOf(asks, K3))
    ensures TotalOf(K3Floored(asks, floor), Sol) == TotalOf(asks, Sol)
    ensures TotalOf(K3Floored(asks, floor), Other) == TotalOf(asks, Other)
  {
    var k3 := TotalOf(asks, K3);
    if k3 < floor {
      ScaledTotal(asks, K3, floor, Max(1, k3));
      OthersUnscaled(asks, K3, floor, Max(1, k3), Sol);
      OthersUnscaled(asks, K3, floor, Max(1, k3), Other);
      var r := TotalOf(Scaled(asks, K3, floor, Max(1, k3)), K3);
      if k3 > 0 {
        Cancel(r, floor, k3);
      }
    }
  }

  function CountOf(asks: seq<Ask>, c: Class): nat {
    if asks == [] then 0 else CountOf(asks[..|asks| - 1], c) + (if ClassOf(asks[|asks| - 1].role) == c then 1 else 0)
  }

  lemma ScaleOneBelow(x: nat, num: nat, den: nat)
    requires den > 0
    ensures den * (Scale(x, num, den) + 1) > x * num
  {}

  lemma ScaleStepBelow(den: nat, a: nat, n: nat, b: nat, q: nat, x: nat, num: nat)
    requires den * (a + n) >= b * num && den * (q + 1) > x * num
    ensures den * (a + q + (n + 1)) >= (b + x) * num
  {
    assert den * (a + q + (n + 1)) == den * (a + n) + den * (q + 1);
    assert (b + x) * num == b * num + x * num;
  }

  lemma {:induction false} ScaledTotalBelow(asks: seq<Ask>, c: Class, num: nat, den: nat)
    requires den > 0
    ensures den * (TotalOf(Scaled(asks, c, num, den), c) + CountOf(asks, c)) >= TotalOf(asks, c) * num
  {
    if asks != [] {
      var init, last := asks[..|asks| - 1], asks[|asks| - 1];
      var done := Scaled(init, c, num, den);
      ScaledTotalBelow(init, c, num, den);
      assert Scaled(asks, c, num, den)[..|done|] == done;
      if ClassOf(last.role) == c {
        var q := Scale(last.tokens, num, den);
        assert den * (q + 1) > last.tokens * num by { ScaleOneBelow(last.tokens, num, den); }
        ScaleStepBelow(den, TotalOf(done, c), CountOf(init, c), TotalOf(init, c), q, last.tokens, num);
      }
    }
  }

  /** How far the K3 floor is met: within one token a role when any K3 role has a cost, and not at
      all when none has. */
  lemma FloorIsNearlyMet(asks: seq<Ask>, floor: nat)
    requires TotalOf(asks, K3) < floor
    ensures TotalOf(asks, K3) > 0 ==> TotalOf(K3Floored(asks, floor), K3) + CountOf(asks, K3) >= floor
    ensures TotalOf(asks, K3) == 0 ==> TotalOf(K3Floored(asks, floor), K3) == 0
  {
    var k3 := TotalOf(asks, K3);
    if k3 == 0 {
      ScaledTotal(asks, K3, floor, 1);
    } else {
      ScaledTotalBelow(asks, K3, floor, k3);
      CancelLeft(floor, TotalOf(Scaled(asks, K3, floor, k3), K3) + CountOf(asks, K3), k3);
    }
  }

  /** A single verifier without a cost stays without a share, whatever the floor. */
  lemma FreeVerifierGetsNothing(floor: nat)
    requires floor > 0
    ensures TotalOf(K3Floored([Ask("verifier", 0)], floor), K3) == 0 < floor
  {
    var ask := Ask("verifier", 0);
    assert [ask][..0] == [];
    assert TotalOf([ask], K3) == TotalOf([], K3) + 0;
    FloorIsNearlyMet([ask], floor);
  }

  /** Two verifying roles of one token each miss an odd floor by a token. */
  lemma OddFloorIsMissed(floor: nat)
    requires floor % 2 == 1 && floor > 2
    ensures var asks := [Ask("verifier", 1), Ask("reviewer", 1)];
      TotalOf(K3Floored(asks, floor), K3) == floor - 1
  {
    var a, b := Ask("verifier", 1), Ask("reviewer", 1);
    TwoAsks(a, b, K3);
    assert [a, b][..1] == [a] && [a][..0] == [];
    assert Scale(1, floor, 2) == floor / 2;
    assert Scaled([a], K3, floor, 2) == Scaled([], K3, floor, 2) + [Ask("verifier", floor / 2)];
    assert Scaled([a, b], K3, floor, 2) == [Ask("verifier", floor / 2), Ask("reviewer", floor / 2)];
    TwoAsks(Ask("verifier", floor / 2), Ask("reviewer", floor / 2), K3);
  }

  /** The share table of an opened task. */
  function ShareTable(asks: seq<Ask>): map<Key, int> {
    if asks == [] then map[]
    else ShareTable(asks[..|asks| - 1])[Role(asks[|asks| - 1].role) := asks[|asks| - 1].tokens]
  }

  predicate DistinctRoles(asks: seq<Ask>) {
    forall i, j :: 0 <= i < j < |asks| ==> asks[i].role != asks[j].role
  }

  lemma {:induction false} ShareTableHolds(asks: seq<Ask>, k: Key)
    ensures k in ShareTable(asks) ==> exists i :: 0 <= i < |asks| && k == Role(asks[i].role)
    ensures NonNegative(ShareTable(asks))
  {
    if asks != [] {
      ShareTableHolds(asks[..|asks| - 1], k);
    }
  }

  lemma {:induction false} ShareTableTotal(asks: seq<Ask>)
    requires DistinctRoles(asks)
    ensures Sum(ShareTable(asks)) == Total(asks)
  {
    if asks != [] {
      var init, last := asks[..|asks| - 1], asks[|asks| - 1];
      ShareTableTotal(init);
      SumUpdate(ShareTable(init), Role(last.role), last.tokens);
      ShareTableHolds(init, Role(last.role));
    }
  }

  function Opened(ceiling: nat, asks: seq<Ask>): Doc {
    Doc(true, ceiling, ShareTable(asks), map[], NORMAL, 0)
  }

  /** An opened task starts sound and on the ladder, holding exactly its shaped shares. */
  lemma OpenedIsSound(p: Policy, ceiling: nat, asks: seq<Ask>)
    requires DistinctRoles(asks) && Positive(p)
    ensures Sound(Opened(ceiling, asks)) && Settled(p, Opened(ceiling, asks))
    ensures Held(Opened(ceiling, asks)) == Total(asks)
  {
    ShareTableTotal(asks);
    ShareTableHolds(asks, Agent(""));
    assert 0.0 / Max(1, ceiling) as real == 0.0;
  }

  predicate SameRoles(a: seq<Ask>, b: seq<Ask>) {
    |a| == |b| && forall i :: 0 <= i < |a| ==> a[i].role == b[i].role
  }

  lemma {:induction false} CappingKeepsRoles(asks: seq<Ask>, cap: nat)
    ensures SameRoles(SolCapped(asks, cap), asks)
  {
    if asks != [] {
      CappingKeepsRoles(asks[..|asks| - 1], cap);
    }
  }

  lemma {:induction false} ScalingKeepsRoles(asks: seq<Ask>, c: Class, num: nat, den: nat)
    requires den > 0
    ensures SameRoles(Scaled(asks, c, num, den), asks)
  {
    if asks != [] {
      ScalingKeepsRoles(asks[..|asks| - 1], c, num, den);
    }
  }

  lemma ShapingKeepsRoles(asks: seq<Ask>, caps: Caps)
    ensures SameRoles(Shaped(asks, caps), asks)
  {
    var sol := SolCapped(asks, caps.solCap);
    var k3 := K3Floored(sol, caps.k3Floor);
    CappingKeepsRoles(asks, caps.solCap);
    ScalingKeepsRoles(sol, K3, caps.k3Floor, Max(1, TotalOf(sol, K3)));
    ScalingKeepsRoles(k3, Other, Max(0, caps.ceiling - Fixed(k3)), Max(1, TotalOf(k3, Other)));
  }

  /** From opening on: every run of an opened task holds and retires exactly its shaped shares, with
      its state on the ladder. */
  lemma OpenedTaskIsSound(p: Policy, asks: seq<Ask>, caps: Caps, steps: seq<Step>)
    requires DistinctRoles(asks) && Positive(p)
    ensures var d := Opened(caps.ceiling, Shaped(asks, caps));
      && Sound(Run(p, d, steps))
      && Held(Run(p, d, steps)) + Retired(p, d, steps) == Total(Shaped(asks, caps))
      && Settled(p, Run(p, d, steps))
  {
    var d := Opened(caps.ceiling, Shaped(asks, caps));
    ShapingKeepsRoles(asks, caps);
    OpenedIsSound(p, caps.ceiling, Shaped(asks, caps));
    TokensAreConserved(p, d, steps);
    StateIsTheLadder(p, d, steps);
  }

  lemma {:induction false} CappedAt(asks: seq<Ask>, cap: nat, i: nat)
    requires i < |asks|
    ensures |SolCapped(asks, cap)| == |asks|
    ensures SolCapped(asks, cap)[i]
         == if asks[i].role == "sol" then Ask("sol", Min(asks[i].tokens, cap)) else asks[i]
  {
    CappingKeepsRoles(asks, cap);
    if i < |asks| - 1 {
      CappedAt(asks[..|asks| - 1], cap, i);
    }
  }

  lemma {:induction false} ScaledAt(asks: seq<Ask>, c: Class, num: nat, den: nat, i: nat)
    requires den > 0 && i < |asks|
    ensures ClassOf(asks[i].role) != c ==> Scaled(asks, c, num, den)[i] == asks[i]
    ensures num <= den ==> Scaled(asks, c, num, den)[i].tokens <= asks[i].tokens
  {
    if i < |asks| - 1 {
      ScaledAt(asks[..|asks| - 1], c, num, den, i);
    } else if num <= den {
      ScaledDown(asks[i].tokens, num, den);
    }
  }

  lemma ScaledDown(x: nat, num: nat, den: nat)
    requires den > 0 && num <= den
    ensures Scale(x, num, den) <= x
  {
    ScaleOne(x, num, den);
    TimesMono(x, num, den);
    CancelLeft(Scale(x, num, den), x, den);
  }

  lemma TimesMono(x: nat, num: nat, den: nat)
    requires num <= den
    ensures x * num <= den * x
  {}

  lemma FlooredAt(asks: seq<Ask>, floor: nat, i: nat)
    requires i < |asks| && ClassOf(asks[i].role) != K3
    ensures |K3Floored(asks, floor)| == |asks| && K3Floored(asks, floor)[i] == asks[i]
  {
    ScaledAt(asks, K3, floor, Max(1, TotalOf(asks, K3)), i);
  }

  lemma FittedAt(asks: seq<Ask>, ceiling: nat, i: nat)
    requires i < |asks|
    ensures |Fitted(asks, ceiling)| == |asks|
    ensures ClassOf(asks[i].role) != Other ==> Fitted(asks, ceiling)[i] == asks[i]
    ensures Fitted(asks, ceiling)[i].tokens <= asks[i].tokens
  {
    ScaledAt(asks, Other, Max(0, ceiling - Fixed(asks)), Max(1, TotalOf(asks, Other)), i);
  }

  /** Sol is capped and nothing else happens to it; a role that is neither Sol nor K3 never gets more than
      it asked for. */
  lemma SharesAreShaped(asks: seq<Ask>, caps: Caps, i: nat)
    requires i < |asks|
    ensures |Shaped(asks, caps)| == |asks|
    ensures asks[i].role == "sol" ==> Shaped(asks, caps)[i] == Ask("sol", Min(asks[i].tokens, caps.solCap))
    ensures asks[i].role !in {"sol", "verifier", "reviewer", "plan_expander", "k3"} ==>
      Shaped(asks, caps)[i].tokens <= asks[i].tokens
  {
    ShapingKeepsRoles(asks, caps);
    CappedAt(asks, caps.solCap, i);
    if ClassOf(asks[i].role) != K3 {
      var sol := SolCapped(asks, caps.solCap);
      FlooredAt(sol, caps.k3Floor, i);
      FittedAt(K3Floored(sol, caps.k3Floor), caps.ceiling, i);
    }
  }

  lemma SmallSolIsUncapped(asks: seq<Ask>, cap: nat)
    requires forall i :: 0 <= i < |asks| && asks[i].role == "sol" ==> asks[i].tokens <= cap
    ensures SolCapped(asks, cap) == asks
  {
    CappingKeepsRoles(asks, cap);
    forall i | 0 <= i < |asks| ensures SolCapped(asks, cap)[i] == asks[i] {
      CappedAt(asks, cap, i);
    }
  }

  /** What fits as it is asked for is opened as it is asked for. */
  lemma FittingAsksAreKept(asks: seq<Ask>, caps: Caps)
    requires forall i :: 0 <= i < |asks| && asks[i].role == "sol" ==> asks[i].tokens <= caps.solCap
    requires TotalOf(asks, K3) >= caps.k3Floor && Total(asks) <= caps.ceiling
    ensures Shaped(asks, caps) == asks
  {
    SmallSolIsUncapped(asks, caps.solCap);
    ClassesAddUp(asks);
  }

  /** The classes of roles. */
  lemma ClassesAre(role: string)
    ensures ClassOf(role) == Sol <==> role == "sol"
    ensures ClassOf(role) == K3 <==> role in {"verifier", "reviewer", "plan_expander", "k3"}
  {}

  /* The controller as it edits its document. */

  datatype Decision = Continue | ExtendBy(tokens: int) | WrapUp

  class BudgetController {
    const policy: Policy
    var doc: Doc

    constructor (policy: Policy)
      ensures this.policy == policy && doc == Doc(false, 0, map[], map[], NORMAL, 0)
    {
      this.policy := policy;
      doc := Doc(false, 0, map[], map[], NORMAL, 0);
    }

    /** Adds up a table. */
    static method SumValues(m: map<Key, int>) returns (sum: int)
      ensures sum == Sum(m)
    {
      sum := 0;
      var rest := m;
      while rest != map[]
        invariant sum + Sum(rest) == Sum(m)
        decreases |rest|
      {
        var k :| k in rest;
        SumSplit(rest, k);
        sum := sum + rest[k];
        rest := rest - {k};
      }
    }

    /** Shapes the asks to the ceiling and opens the task with them. */
    method OpenTask(ceiling: int, asks: seq<Ask>, solCap: nat, k3Floor: nat) returns (ok: bool)
      requires DistinctRoles(asks)
      modifies this`doc
      ensures ok <==> ceiling > 0
      ensures !ok ==> doc == old(doc)
      ensures ok ==> doc == Opened(ceiling, Shaped(asks, Caps(ceiling, solCap, k3Floor)))
    {
      if ceiling <= 0 {
        return false;
      }
      var raw := [];
      for i := 0 to |asks|
        invariant raw == SolCapped(asks[..i], solCap)
      {
        assert asks[..i + 1][..i] == asks[..i];
        raw := raw + [if asks[i].role == "sol" then asks[i].(tokens := Min(asks[i].tokens, solCap)) else asks[i]];
      }
      assert asks[..|asks|] == asks;
      raw := K3Floored(raw, k3Floor);
      raw := Fitted(raw, ceiling);
      var shares: map<Key, int> := map[];
      for i := 0 to |raw|
        invariant shares == ShareTable(raw[..i])
      {
        assert raw[..i + 1][..i] == raw[..i];
        shares := shares[Role(raw[i].role) := raw[i].tokens];
      }
      assert raw[..|raw|] == raw;
      doc := Doc(true, ceiling, shares, map[], NORMAL, 0);
      return true;
    }

    /** Carves an agent's share out of its role's share, then out of the pool. */
    method RegisterAgent(agent: string, role: string, want: nat) returns (grant: Option<int>)
      modifies this`doc
      ensures doc == Registered(old(doc), agent, role, want)
      ensures var left := Get(old(doc).shares, Role(role)) + old(doc).pool;
        grant.None? <==> Agent(agent) !in old(doc).shares && old(doc).open && left <= 0
      ensures grant.None? ==> doc == old(doc)
      ensures grant.Some? ==> Agent(agent) in doc.shares && grant.value == doc.shares[Agent(agent)]
    {
      if Agent(agent) in doc.shares {
        return Some(doc.shares[Agent(agent)]);
      }
      var rolePool, pool := Get(doc.shares, Role(role)), doc.pool;
      var available := rolePool + pool;
      if available <= 0 && doc.open {
        return None;
      }
      var granted := if available > 0 then Min(want, available) else want;
      var takeRole := Min(granted, rolePool);
      doc := doc.(shares := doc.shares[Role(role) := rolePool - takeRole]);
      doc := doc.(pool := pool - (granted - takeRole));
      doc := doc.(shares := doc.shares[Agent(agent) := granted]);
      if Agent(agent) !in doc.consumed {
        doc := doc.(consumed := doc.consumed[Agent(agent) := 0]);
      } else {
        assert doc.consumed == doc.consumed[Agent(agent) := doc.consumed[Agent(agent)]];
      }
      return Some(granted);
    }

    /** The ladder with its hysteresis, applied to the stored state. */
    method RecomputeState(cooled: bool) returns (state: Level)
      modifies this`doc
      ensures doc == Recomputed(policy, old(doc), cooled)
      ensures state == doc.state
    {
      var used := SumValues(doc.consumed);
      var ratio := used as real / Max(1, doc.ceiling) as real;
      var current := doc.state;
      var target := Ladder(policy, ratio);
      if Rank(target) > Rank(current) {
        doc := doc.(state := target);
        return target;
      }
      if Rank(target) < Rank(current) {
        if cooled && ratio < Threshold(policy, current) - 0.05 {
          doc := doc.(state := target);
          return target;
        }
      }
      return current;
    }

    /** Records consumption; `breached` when the agent is over its share with the task in BREAK. */
    method RecordUsage(agent: string, tokens: int, cooled: bool) returns (state: Level, breached: bool)
      modifies this`doc
      ensures doc == Next(policy, old(doc), Record(agent, tokens, cooled))
      ensures state == doc.state
      ensures doc.consumed == old(doc).consumed[Agent(agent) := Get(old(doc).consumed, Agent(agent)) + Max(0, tokens)]
      ensures doc.(state := old(doc).state, consumed := old(doc).consumed) == old(doc)
      ensures old(Settled(policy, doc)) ==>
        OnRung(policy, state, Sum(doc.consumed) as real / Max(1, doc.ceiling) as real)
      ensures breached <==> state == BREAK && Get(doc.consumed, Agent(agent)) > Get(doc.shares, Agent(agent))
    {
      if Settled(policy, doc) {
        StepIsOnLadder(policy, doc, Record(agent, tokens, cooled));
      }
      doc := doc.(consumed := doc.consumed[Agent(agent) := Get(doc.consumed, Agent(agent)) + Max(0, tokens)]);
      state := RecomputeState(cooled);
      breached := state == BREAK && Get(doc.consumed, Agent(agent)) > Get(doc.shares, Agent(agent));
    }

    /** Returns what a finished agent did not use to the pool. */
    method ReclaimUnused(agent: string, cooled: bool) returns (tokens: int)
      modifies this`doc
      ensures doc == Next(policy, old(doc), Reclaim(agent, cooled))
      ensures tokens == Max(0, Get(old(doc).shares, Agent(agent)) - Get(old(doc).consumed, Agent(agent)))
      ensures doc.pool == old(doc).pool + tokens && doc.shares == old(doc).shares - {Agent(agent)}
      ensures doc.consumed == old(doc).consumed
    {
      var share := Get(doc.shares, Agent(agent));
      tokens := Max(0, share - Get(doc.consumed, Agent(agent)));
      doc := doc.(shares := doc.shares - {Agent(agent)}, pool := doc.pool + tokens);
      var _ := RecomputeState(cooled);
    }

    /** Near its limit an agent is extended from the pool, or wraps up. */
    method ExtendOrWrapUp(agent: string, verified: bool) returns (decision: Decision)
      modifies this`doc
      ensures doc == Extended(old(doc), agent, verified)
      ensures var share, used := Get(old(doc).shares, Agent(agent)), Get(old(doc).consumed, Agent(agent));
        var half := Min(old(doc).pool, Max(0, share) / 2);
        && (decision.Continue? <==> 20 * used < 17 * Max(1, share))
        && (decision.ExtendBy? <==>
              20 * used >= 17 * Max(1, share) && half > 0 && verified && old(doc).state != BREAK)
        && (decision.ExtendBy? ==> decision.tokens == half && doc.pool == old(doc).pool - half)
        && (decision.ExtendBy? ==> doc.shares == old(doc).shares[Agent(agent) := share + half])
        && (!decision.ExtendBy? ==> doc == old(doc))
    {
      var pool, share, used := doc.pool, Get(doc.shares, Agent(agent)), Get(doc.consumed, Agent(agent));
      if 20 * used < 17 * Max(1, share) {
        return Continue;
      }
      var extension := Min(pool, Max(0, share) / 2);
      if extension > 0 && verified && doc.state != BREAK {
        doc := doc.(pool := pool - extension, shares := doc.shares[Agent(agent) := share + extension]);
        return ExtendBy(extension);
      }
      return WrapUp;
    }
  }
}
