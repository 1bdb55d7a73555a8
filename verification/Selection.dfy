/** The round-robin task selection: ready packets picked bucket by bucket, under the deficit of
    each pool and the spawn quota of each parent. */
module Selection {
  import opened Wrappers
  import opened Refill

  datatype Packet = Packet(id: string, entry: Entry)

  /** A selectable row; `parent` names its bucket and is empty for the legacy one. */
  datatype Row = Row(id: string, entry: Entry, pool: Pool, parent: string)

  /** The buckets still to pick from and the quotas left. */
  datatype Sel = Sel(rows: map<string, seq<Row>>, left: Counts, quota: map<string, Counts>)

  datatype Pick = Pick(key: string, index: nat)

  predicate IsRole(role: string) {
    role == "worker" || IsK3Role(role)
  }

  /** Ready under its manifest, not a release review, and its parent is in the same snapshot. */
  predicate Eligible(e: Entry, registry: map<string, Parent>, spawn: map<string, Counts>) {
    Ready(e, registry) && !e.releaseReview && (e.parent == "" || e.parent in spawn)
  }

  function RowOf(p: Packet): Row
    requires p.entry.Entry?
  {
    Row(p.id, p.entry, PoolOf(p.entry), p.entry.parent)
  }

  function BucketOf(packets: seq<Packet>, registry: map<string, Parent>, spawn: map<string, Counts>,
                    key: string): seq<Row> {
    if packets == [] then []
    else
      var init, p := packets[..|packets| - 1], packets[|packets| - 1];
      BucketOf(init, registry, spawn, key)
      + (if Eligible(p.entry, registry, spawn) && p.entry.parent == key then [RowOf(p)] else [])
  }

  /** The keys of the buckets, in the order the loop visits them. */
  predicate ListsBuckets(keys: seq<string>, packets: seq<Packet>, registry: map<string, Parent>,
                         spawn: map<string, Counts>) {
    && NoRepeats(keys)
    && (forall i :: 0 <= i < |packets| && Eligible(packets[i].entry, registry, spawn) ==>
          packets[i].entry.parent in keys)
  }

  function Start(packets: seq<Packet>, registry: map<string, Parent>, keys: seq<string>,
                 deficit: Counts, spawn: map<string, Counts>): Sel {
    Sel(map key | key in keys :: BucketOf(packets, registry, spawn, key), deficit, spawn)
  }

  /** The row can be taken without passing its pool's deficit or its parent's quota. */
  predicate Fits(s: Sel, r: Row) {
    s.left.At(r.pool) > 0 && (r.parent == "" || Queued(s.quota, r.parent).At(r.pool) > 0)
  }

  function Less(c: Counts, p: Pool): Counts
    requires c.At(p) > 0
  {
    if p == V4 then Counts(c.v4 - 1, c.k3) else Counts(c.v4, c.k3 - 1)
  }

  predicate Holds(s: Sel, pick: Pick) {
    pick.key in s.rows && pick.index < |s.rows[pick.key]|
  }

  function RowAt(s: Sel, pick: Pick): Row
    requires Holds(s, pick)
  {
    s.rows[pick.key][pick.index]
  }

  function Taken(s: Sel, pick: Pick): Sel
    requires Holds(s, pick) && Fits(s, RowAt(s, pick))
  {
    var rows, r := s.rows[pick.key], RowAt(s, pick);
    Sel(s.rows[pick.key := rows[..pick.index] + rows[pick.index + 1..]], Less(s.left, r.pool),
        if r.parent == "" then s.quota else s.quota[r.parent := Less(Queued(s.quota, r.parent), r.pool)])
  }

  /** No row of the bucket can be taken any more. */
  predicate Dead(s: Sel, key: string)
    requires key in s.rows
  {
    forall i :: 0 <= i < |s.rows[key]| ==> !Fits(s, s.rows[key][i])
  }

  function Share(picks: seq<Pick>, key: string): nat {
    if picks == [] then 0 else Share(picks[..|picks| - 1], key) + One(picks[|picks| - 1].key == key)
  }

  /** A pick that may be taken. */
  predicate IsNext(s: Sel, pick: Pick) {
    Holds(s, pick) && Fits(s, RowAt(s, pick))
  }

  /** A selection takes rows that fit, one after the other. */
  ghost predicate IsRun(s: Sel, picks: seq<Pick>)
    decreases |picks|, 0
  {
    picks == [] ||
    (var init := picks[..|picks| - 1];
     IsRun(s, init) && IsNext(After(s, init), picks[|picks| - 1]))
  }

  ghost function After(s: Sel, picks: seq<Pick>): Sel
    requires IsRun(s, picks)
    decreases |picks|, 1
  {
    if picks == [] then s
    else
      var init := picks[..|picks| - 1];
      Taken(After(s, init), picks[|picks| - 1])
  }

  /** The rows picked, in order. */
  ghost function TasksOf(s: Sel, picks: seq<Pick>): (tasks: seq<Row>)
    requires IsRun(s, picks)
    ensures |tasks| == |picks|
  {
    if picks == [] then []
    else
      var init := picks[..|picks| - 1];
      TasksOf(s, init) + [RowAt(After(s, init), picks[|picks| - 1])]
  }

  lemma RunAppend(s: Sel, picks: seq<Pick>, pick: Pick)
    requires IsRun(s, picks) && IsNext(After(s, picks), pick)
    ensures IsRun(s, picks + [pick]) && After(s, picks + [pick]) == Taken(After(s, picks), pick)
    ensures TasksOf(s, picks + [pick]) == TasksOf(s, picks) + [RowAt(After(s, picks), pick)]
  {
    assert (picks + [pick])[..|picks|] == picks;
  }

  lemma ShareAppend(picks: seq<Pick>, pick: Pick, key: string)
    ensures Share(picks + [pick], key) == Share(picks, key) + One(pick.key == key)
  {
    assert (picks + [pick])[..|picks|] == picks;
  }

  /* What a pick changes. */

  /** Every row is in the bucket of its parent. */
  predicate Filed(s: Sel) {
    forall key, i :: key in s.rows && 0 <= i < |s.rows[key]| ==> s.rows[key][i].parent == key
  }

  lemma TakenQuota(s: Sel, pick: Pick, p: Pool, key: string)
    requires Holds(s, pick) && Fits(s, RowAt(s, pick))
    ensures var r := RowAt(s, pick);
      && Taken(s, pick).left.At(p) == s.left.At(p) - One(r.pool == p)
      && Queued(Taken(s, pick).quota, key).At(p)
         == Queued(s.quota, key).At(p) - One(r.parent != "" && r.parent == key && r.pool == p)
  {}

  /** A row that no longer fits never fits again. */
  lemma FitsFades(s: Sel, pick: Pick, r: Row)
    requires Holds(s, pick) && Fits(s, RowAt(s, pick)) && !Fits(s, r)
    ensures !Fits(Taken(s, pick), r)
  {
    TakenQuota(s, pick, r.pool, r.parent);
  }

  lemma DeadStaysDead(s: Sel, pick: Pick, key: string)
    requires Holds(s, pick) && Fits(s, RowAt(s, pick)) && key in s.rows && Dead(s, key)
    ensures Dead(Taken(s, pick), key)
  {
    assert pick.key != key;
    forall i | 0 <= i < |s.rows[key]| ensures !Fits(Taken(s, pick), s.rows[key][i]) {
      FitsFades(s, pick, s.rows[key][i]);
    }
  }

  /* Quotas over a whole run. */

  function InPool(tasks: seq<Row>, p: Pool): nat {
    if tasks == [] then 0 else InPool(tasks[..|tasks| - 1], p) + One(tasks[|tasks| - 1].pool == p)
  }

  function OfParent(tasks: seq<Row>, key: string, p: Pool): nat {
    if tasks == [] then 0
    else
      var r := tasks[|tasks| - 1];
      OfParent(tasks[..|tasks| - 1], key, p) + One(r.parent != "" && r.parent == key && r.pool == p)
  }

  /** What was picked and what is left make up what was granted, by pool and by parent. */
  lemma {:induction false} QuotasAreSpent(s: Sel, picks: seq<Pick>, key: string, p: Pool)
    requires IsRun(s, picks)
    ensures InPool(TasksOf(s, picks), p) + After(s, picks).left.At(p) == s.left.At(p)
    ensures OfParent(TasksOf(s, picks), key, p) + Queued(After(s, picks).quota, key).At(p) == Queued(s.quota, key).At(p)
  {
    if picks != [] {
      var init, last := picks[..|picks| - 1], picks[|picks| - 1];
      QuotasAreSpent(s, init, key, p);
      TakenQuota(After(s, init), last, p, key);
      assert TasksOf(s, picks)[..|init|] == TasksOf(s, init);
    }
  }

  lemma {:induction false} TwoPoolsAreAll(tasks: seq<Row>)
    ensures InPool(tasks, V4) + InPool(tasks, K3) == |tasks|
  {
    if tasks != [] {
      TwoPoolsAreAll(tasks[..|tasks| - 1]);
    }
  }

  /* Where the tasks come from, and that they differ. */

  ghost predicate Holding(s: Sel, id: string) {
    exists key, i :: key in s.rows && 0 <= i < |s.rows[key]| && s.rows[key][i].id == id
  }

  predicate DistinctRows(s: Sel) {
    forall k1, i1, k2, i2 ::
      (&& k1 in s.rows && 0 <= i1 < |s.rows[k1]| && k2 in s.rows && 0 <= i2 < |s.rows[k2]|
       && s.rows[k1][i1].id == s.rows[k2][i2].id) ==>
        k1 == k2 && i1 == i2
  }

  /** Where a row of the state after a pick was before it. */
  function Was(pick: Pick, key: string, i: nat): nat {
    if key == pick.key && i >= pick.index then i + 1 else i
  }

  lemma TakenRow(s: Sel, pick: Pick, key: string, i: nat)
    requires Holds(s, pick) && Fits(s, RowAt(s, pick)) && key in s.rows
    requires i < |Taken(s, pick).rows[key]|
    ensures Was(pick, key, i) < |s.rows[key]| && Taken(s, pick).rows[key][i] == s.rows[key][Was(pick, key, i)]
    ensures !(key == pick.key && Was(pick, key, i) == pick.index)
  {}

  lemma TakenIsDistinct(s: Sel, pick: Pick)
    requires DistinctRows(s) && Filed(s) && Holds(s, pick) && Fits(s, RowAt(s, pick))
    ensures DistinctRows(Taken(s, pick)) && Filed(Taken(s, pick))
    ensures !Holding(Taken(s, pick), RowAt(s, pick).id)
  {
    var t := Taken(s, pick);
    forall key, i | key in t.rows && 0 <= i < |t.rows[key]|
      ensures t.rows[key][i].parent == key && t.rows[key][i].id != RowAt(s, pick).id
    {
      TakenRow(s, pick, key, i);
    }
    forall k1, i1, k2, i2 | k1 in t.rows && 0 <= i1 < |t.rows[k1]| && k2 in t.rows && 0 <= i2 < |t.rows[k2]|
                            && t.rows[k1][i1].id == t.rows[k2][i2].id
      ensures k1 == k2 && i1 == i2
    {
      TakenRow(s, pick, k1, i1);
      TakenRow(s, pick, k2, i2);
    }
  }

  lemma {:induction false} RunIsDistinct(s: Sel, picks: seq<Pick>)
    requires IsRun(s, picks) && DistinctRows(s) && Filed(s)
    ensures DistinctRows(After(s, picks)) && Filed(After(s, picks)) && After(s, picks).rows.Keys == s.rows.Keys
    ensures forall i :: 0 <= i < |picks| ==> !Holding(After(s, picks), TasksOf(s, picks)[i].id)
    ensures forall i, j :: 0 <= i < j < |picks| ==> TasksOf(s, picks)[i].id != TasksOf(s, picks)[j].id
  {
    if picks != [] {
      var init, last := picks[..|picks| - 1], picks[|picks| - 1];
      var before, after := After(s, init), After(s, picks);
      RunIsDistinct(s, init);
      TakenIsDistinct(before, last);
      assert Holding(before, RowAt(before, last).id);
      forall id | !Holding(before, id) ensures !Holding(after, id) {
        if Holding(after, id) {
          var key, i :| key in after.rows && 0 <= i < |after.rows[key]| && after.rows[key][i].id == id;
          TakenRow(before, last, key, i);
          assert false;
        }
      }
    }
  }

  /** A row is still in its bucket or was picked. */
  lemma {:induction false} KeptOrPicked(s: Sel, picks: seq<Pick>, key: string, r: Row)
    requires IsRun(s, picks) && key in s.rows && r in s.rows[key]
    ensures key in After(s, picks).rows
    ensures r in After(s, picks).rows[key] || r in TasksOf(s, picks)
  {
    if picks != [] {
      var init, last := picks[..|picks| - 1], picks[|picks| - 1];
      KeptOrPicked(s, init, key, r);
      var before := After(s, init);
      if key == last.key && r in before.rows[key] {
        var rows := before.rows[key];
        assert rows == rows[..last.index] + [rows[last.index]] + rows[last.index + 1..];
      }
    }
  }

  /** What is picked was there to pick. */
  lemma {:induction false} PickedWasThere(s: Sel, picks: seq<Pick>, key: string, r: Row)
    requires IsRun(s, picks) && key in s.rows
    ensures key in After(s, picks).rows
    ensures r in After(s, picks).rows[key] ==> r in s.rows[key]
    ensures Filed(s) && r in TasksOf(s, picks) && r.parent == key ==> r in s.rows[key]
  {
    if picks != [] {
      var init, last := picks[..|picks| - 1], picks[|picks| - 1];
      PickedWasThere(s, init, key, r);
      if Filed(s) {
        RunIsFiled(s, init);
      }
    }
  }

  lemma {:induction false} RunIsFiled(s: Sel, picks: seq<Pick>)
    requires IsRun(s, picks) && Filed(s)
    ensures Filed(After(s, picks)) && After(s, picks).rows.Keys == s.rows.Keys
  {
    if picks != [] {
      var init, last := picks[..|picks| - 1], picks[|picks| - 1];
      RunIsFiled(s, init);
      forall key, i | key in After(s, picks).rows && 0 <= i < |After(s, picks).rows[key]|
        ensures After(s, picks).rows[key][i].parent == key
      {
        TakenRow(After(s, init), last, key, i);
      }
    }
  }

  /* The buckets at the start. */

  /** The packet belongs into the bucket. */
  predicate Files(p: Packet, registry: map<string, Parent>, spawn: map<string, Counts>, key: string) {
    Eligible(p.entry, registry, spawn) && p.entry.parent == key
  }

  predicate DistinctIds(packets: seq<Packet>) {
    forall i, j :: 0 <= i < j < |packets| ==> packets[i].id != packets[j].id
  }

  lemma {:induction false} BucketHolds(packets: seq<Packet>, registry: map<string, Parent>, spawn: map<string, Counts>,
                                       key: string, r: Row)
    ensures r in BucketOf(packets, registry, spawn, key) <==>
      exists i :: 0 <= i < |packets| && Files(packets[i], registry, spawn, key) && RowOf(packets[i]) == r
  {
    if packets != [] {
      var init := packets[..|packets| - 1];
      BucketHolds(init, registry, spawn, key, r);
      forall i | 0 <= i < |init| ensures init[i] == packets[i] {}
    }
  }

  lemma {:induction false} BucketIsDistinct(packets: seq<Packet>, registry: map<string, Parent>,
                                            spawn: map<string, Counts>, key: string)
    requires DistinctIds(packets)
    ensures var b := BucketOf(packets, registry, spawn, key);
      forall i, j :: 0 <= i < j < |b| ==> b[i].id != b[j].id
  {
    if packets != [] {
      var init := packets[..|packets| - 1];
      BucketIsDistinct(init, registry, spawn, key);
      var b := BucketOf(init, registry, spawn, key);
      forall i | 0 <= i < |b| ensures b[i].id != packets[|packets| - 1].id {
        BucketHolds(init, registry, spawn, key, b[i]);
      }
    }
  }

  lemma StartIsDistinct(packets: seq<Packet>, registry: map<string, Parent>, keys: seq<string>,
                        deficit: Counts, spawn: map<string, Counts>)
    requires DistinctIds(packets)
    ensures DistinctRows(Start(packets, registry, keys, deficit, spawn))
    ensures Filed(Start(packets, registry, keys, deficit, spawn))
  {
    var s := Start(packets, registry, keys, deficit, spawn);
    forall key, i | key in s.rows && 0 <= i < |s.rows[key]|
      ensures s.rows[key][i].parent == key
    {
      BucketHolds(packets, registry, spawn, key, s.rows[key][i]);
    }
    forall k1, i1, k2, i2 | k1 in s.rows && 0 <= i1 < |s.rows[k1]| && k2 in s.rows && 0 <= i2 < |s.rows[k2]|
                            && s.rows[k1][i1].id == s.rows[k2][i2].id
      ensures k1 == k2 && i1 == i2
    {
      BucketHolds(packets, registry, spawn, k1, s.rows[k1][i1]);
      BucketHolds(packets, registry, spawn, k2, s.rows[k2][i2]);
      BucketIsDistinct(packets, registry, spawn, k1);
    }
  }

  /* The theorems about a run. */

  /** Nothing that is left in any bucket can be taken. */
  predicate Exhausted(s: Sel) {
    forall key :: key in s.rows ==> Dead(s, key)
  }

  lemma {:induction false} PrefixIsRun(s: Sel, picks: seq<Pick>, i: nat)
    requires IsRun(s, picks) && i <= |picks|
    ensures IsRun(s, picks[..i])
    ensures i < |picks| ==> IsNext(After(s, picks[..i]), picks[i])
  {
    if i == |picks| {
      assert picks[..i] == picks;
    } else if i < |picks| - 1 {
      PrefixIsRun(s, picks[..|picks| - 1], i);
      assert picks[..|picks| - 1][..i] == picks[..i];
    }
  }

  /** The pick is the first row of its bucket that fits, and every bucket with fewer tasks so far has
      none that fits. */
  predicate InTurn(s: Sel, picks: seq<Pick>, pick: Pick)
    requires Holds(s, pick)
  {
    && (forall i :: 0 <= i < pick.index ==> !Fits(s, s.rows[pick.key][i]))
    && (forall key :: key in s.rows && Share(picks, key) < Share(picks, pick.key) ==> Dead(s, key))
  }

  /** Every pick of the run was in turn; `Round` and `SelectTasks` produce such runs. */
  ghost predicate Fair(s: Sel, picks: seq<Pick>)
    requires IsRun(s, picks)
    decreases |picks|
  {
    picks == [] ||
    (var init := picks[..|picks| - 1];
     Fair(s, init) && InTurn(After(s, init), init, picks[|picks| - 1]))
  }

  lemma FairAppend(s: Sel, picks: seq<Pick>, pick: Pick)
    requires IsRun(s, picks) && Fair(s, picks) && IsNext(After(s, picks), pick) && InTurn(After(s, picks), picks, pick)
    ensures IsRun(s, picks + [pick]) && Fair(s, picks + [pick])
  {
    RunAppend(s, picks, pick);
    assert (picks + [pick])[..|picks|] == picks;
  }

  lemma {:induction false} FairAt(s: Sel, picks: seq<Pick>, i: nat)
    requires IsRun(s, picks) && Fair(s, picks) && i < |picks|
    ensures IsRun(s, picks[..i]) && IsNext(After(s, picks[..i]), picks[i])
    ensures InTurn(After(s, picks[..i]), picks[..i], picks[i])
  {
    if i < |picks| - 1 {
      FairAt(s, picks[..|picks| - 1], i);
      assert picks[..|picks| - 1][..i] == picks[..i];
    }
  }

  /** In a fair run a bucket ahead of another got its next task only when the other was dead. */
  lemma NextMeansOthersDead(s: Sel, picks: seq<Pick>, i: nat, key: string)
    requires IsRun(s, picks) && Fair(s, picks) && i < |picks| && key in s.rows
    requires Share(picks[..i], key) < Share(picks[..i], picks[i].key)
    ensures IsRun(s, picks[..i]) && key in After(s, picks[..i]).rows && Dead(After(s, picks[..i]), key)
  {
    FairAt(s, picks, i);
    RunKeepsKeys(s, picks[..i]);
  }

  /** No bucket gets its (k+2)-th task while one holding k tasks still has a row that fits. */
  lemma RoundRobinIsFair(s: Sel, picks: seq<Pick>, i: nat, key: string, k: nat)
    requires IsRun(s, picks) && Fair(s, picks) && i < |picks| && key in s.rows
    requires Share(picks[..i + 1], picks[i].key) == k + 2 && Share(picks[..i], key) <= k
    ensures IsRun(s, picks[..i]) && key in After(s, picks[..i]).rows && Dead(After(s, picks[..i]), key)
  {
    assert picks[..i + 1] == picks[..i] + [picks[i]];
    ShareAppend(picks[..i], picks[i], picks[i].key);
    NextMeansOthersDead(s, picks, i, key);
  }

  lemma {:induction false} RunKeepsKeys(s: Sel, picks: seq<Pick>)
    requires IsRun(s, picks)
    ensures After(s, picks).rows.Keys == s.rows.Keys
  {
    if picks != [] {
      RunKeepsKeys(s, picks[..|picks| - 1]);
    }
  }

  /** The tasks of a selection are distinct eligible rows, within each pool's deficit and each
      parent's quota. */
  lemma TasksAreAllowed(packets: seq<Packet>, registry: map<string, Parent>, keys: seq<string>, deficit: Counts,
                        spawn: map<string, Counts>, picks: seq<Pick>, key: string, p: Pool)
    requires DistinctIds(packets) && IsRun(Start(packets, registry, keys, deficit, spawn), picks)
    ensures var tasks := TasksOf(Start(packets, registry, keys, deficit, spawn), picks);
      && (forall i, j :: 0 <= i < j < |tasks| ==> tasks[i].id != tasks[j].id)
      && InPool(tasks, p) <= deficit.At(p) && |tasks| <= deficit.v4 + deficit.k3
      && OfParent(tasks, key, p) <= Queued(spawn, key).At(p)
  {
    var s := Start(packets, registry, keys, deficit, spawn);
    StartIsDistinct(packets, registry, keys, deficit, spawn);
    RunIsDistinct(s, picks);
    QuotasAreSpent(s, picks, key, p);
    QuotasAreSpent(s, picks, key, V4);
    QuotasAreSpent(s, picks, key, K3);
    TwoPoolsAreAll(TasksOf(s, picks));
  }

  lemma ParentQuotasAreKept(packets: seq<Packet>, registry: map<string, Parent>, keys: seq<string>, deficit: Counts,
                            spawn: map<string, Counts>, picks: seq<Pick>, id: string)
    requires DistinctIds(packets) && IsRun(Start(packets, registry, keys, deficit, spawn), picks)
    ensures var tasks := TasksOf(Start(packets, registry, keys, deficit, spawn), picks);
      OfParent(tasks, id, V4) + OfParent(tasks, id, K3) <= Queued(spawn, id).v4 + Queued(spawn, id).k3
  {
    TasksAreAllowed(packets, registry, keys, deficit, spawn, picks, id, V4);
    TasksAreAllowed(packets, registry, keys, deficit, spawn, picks, id, K3);
  }

  lemma {:induction false} TasksAreFiled(s: Sel, picks: seq<Pick>, r: Row)
    requires IsRun(s, picks) && Filed(s) && r in TasksOf(s, picks)
    ensures r.parent in s.rows && r in s.rows[r.parent]
  {
    var init, last := picks[..|picks| - 1], picks[|picks| - 1];
    if r in TasksOf(s, init) {
      TasksAreFiled(s, init, r);
    } else {
      RunIsFiled(s, init);
      PickedWasThere(s, init, last.key, r);
    }
  }

  /** Every task is an eligible packet of the ledger. */
  lemma TasksAreEligible(packets: seq<Packet>, registry: map<string, Parent>, keys: seq<string>, deficit: Counts,
                         spawn: map<string, Counts>, picks: seq<Pick>, r: Row)
    requires DistinctIds(packets) && IsRun(Start(packets, registry, keys, deficit, spawn), picks)
    requires r in TasksOf(Start(packets, registry, keys, deficit, spawn), picks)
    ensures exists i :: 0 <= i < |packets| && Eligible(packets[i].entry, registry, spawn) && RowOf(packets[i]) == r
  {
    StartIsDistinct(packets, registry, keys, deficit, spawn);
    TasksAreFiled(Start(packets, registry, keys, deficit, spawn), picks, r);
    BucketHolds(packets, registry, spawn, r.parent, r);
  }

  /** When a selection ends, every eligible packet was taken or fits no more. */
  lemma SelectionIsMaximal(packets: seq<Packet>, registry: map<string, Parent>, keys: seq<string>, deficit: Counts,
                           spawn: map<string, Counts>, picks: seq<Pick>, i: nat)
    requires ListsBuckets(keys, packets, registry, spawn)
    requires IsRun(Start(packets, registry, keys, deficit, spawn), picks)
    requires Exhausted(After(Start(packets, registry, keys, deficit, spawn), picks))
    requires i < |packets| && Eligible(packets[i].entry, registry, spawn)
    ensures var s := Start(packets, registry, keys, deficit, spawn);
      RowOf(packets[i]) in TasksOf(s, picks) || !Fits(After(s, picks), RowOf(packets[i]))
  {
    var s, r := Start(packets, registry, keys, deficit, spawn), RowOf(packets[i]);
    BucketHolds(packets, registry, spawn, r.parent, r);
    KeptOrPicked(s, picks, r.parent, r);
  }

  /** Which packets may be selected, into which pool and bucket, in terms of their ledger entry. */
  lemma EligibleWhen(p: Packet, registry: map<string, Parent>, spawn: map<string, Counts>)
    ensures Eligible(p.entry, registry, spawn) <==>
      && p.entry.Entry? && p.entry.state == "DISPATCHABLE" && !p.entry.releaseReview
      && (p.entry.parent == "" ||
            (&& p.entry.parent in registry && registry[p.entry.parent].active
             && registry[p.entry.parent].manifest == p.entry.manifest && p.entry.parent in spawn))
    ensures Eligible(p.entry, registry, spawn) ==>
      var r, unhinted := RowOf(p), p.entry.hint != Some("k3") && p.entry.hint != Some("v4");
      && r.id == p.id && r.entry == p.entry && r.parent == p.entry.parent
      && (p.entry.hint == Some("k3") ==> r.pool == K3)
      && (p.entry.hint == Some("v4") ==> r.pool == V4)
      && (unhinted ==> (r.pool == K3 <==> p.entry.role in {"verifier", "reviewer", "plan_expander"}))
  {}

  /** What an accepted row is: its packet file is sound, its role is named, and it is the pool's. */
  lemma SoundWhen(r: Row, files: set<string>)
    ensures Sound(r, files) <==>
      && r.id in files && r.entry.Entry?
      && r.entry.role in {"worker", "verifier", "reviewer", "plan_expander"}
      && (r.pool == K3 <==> r.entry.role != "worker")
  {}

  /** When a selection ends, an eligible packet that was not taken finds the deficit of its pool spent by
      the tasks, or the quota of its parent in that pool. */
  lemma LeftOversFindNoRoom(packets: seq<Packet>, registry: map<string, Parent>, keys: seq<string>, deficit: Counts,
                            spawn: map<string, Counts>, picks: seq<Pick>, i: nat)
    requires ListsBuckets(keys, packets, registry, spawn)
    requires IsRun(Start(packets, registry, keys, deficit, spawn), picks)
    requires Exhausted(After(Start(packets, registry, keys, deficit, spawn), picks))
    requires i < |packets| && Eligible(packets[i].entry, registry, spawn)
    ensures var tasks, r := TasksOf(Start(packets, registry, keys, deficit, spawn), picks), RowOf(packets[i]);
      || r in tasks
      || InPool(tasks, r.pool) == deficit.At(r.pool)
      || (r.parent != "" && OfParent(tasks, r.parent, r.pool) == spawn[r.parent].At(r.pool))
  {
    var s, r := Start(packets, registry, keys, deficit, spawn), RowOf(packets[i]);
    SelectionIsMaximal(packets, registry, keys, deficit, spawn, picks, i);
    QuotasAreSpent(s, picks, r.parent, r.pool);
  }

  /** Rows stand in their bucket in the order of the ledger. */
  lemma {:induction false} BucketIsInOrder(packets: seq<Packet>, registry: map<string, Parent>,
                                           spawn: map<string, Counts>,
                                           key: string, i: nat, j: nat)
    returns (a: nat, b: nat)
    requires i < j < |BucketOf(packets, registry, spawn, key)|
    ensures a < b < |packets| && packets[a].entry.Entry? && packets[b].entry.Entry?
    ensures RowOf(packets[a]) == BucketOf(packets, registry, spawn, key)[i]
    ensures RowOf(packets[b]) == BucketOf(packets, registry, spawn, key)[j]
  {
    var init := packets[..|packets| - 1];
    if j < |BucketOf(init, registry, spawn, key)| {
      a, b := BucketIsInOrder(init, registry, spawn, key, i, j);
    } else {
      b := |packets| - 1;
      BucketHolds(init, registry, spawn, key, BucketOf(init, registry, spawn, key)[i]);
      a :| 0 <= a < |init| && Files(init[a], registry, spawn, key)
           && RowOf(init[a]) == BucketOf(init, registry, spawn, key)[i];
    }
  }

  /** What the selection takes is demand the ledger sync counted, in the same pool. */
  lemma TasksAreDemand(e: Entry, registry: map<string, Parent>, spawn: map<string, Counts>)
    requires Eligible(e, registry, spawn)
    ensures DemandPool(e, registry) == Some(PoolOf(e))
    ensures e.parent != "" ==> IsDemandOf(e, registry, e.parent, PoolOf(e))
  {}

  /* End to end: from a recomputed state. */

  ghost function SpawnQuotas(x: Inputs): map<string, Counts> {
    map id | id in x.registry :: SpawnOf(x, id)
  }

  /** With the selected tasks on top of everything running and starting, the total is not passed. */
  lemma NoOvershoot(x: Inputs, demand: Counts, packets: seq<Packet>, keys: seq<string>, picks: seq<Pick>)
    requires DistinctIds(packets)
    requires IsRun(Start(packets, x.registry, keys, DeficitOf(x, demand), SpawnQuotas(x)), picks)
    ensures var live := x.seen.running.Total() + x.seen.initializing.Total();
      live + |picks| <= Max(x.policy.total, live)
  {
    TasksAreAllowed(packets, x.registry, keys, DeficitOf(x, demand), SpawnQuotas(x), picks, "", V4);
    DeficitFits(x, demand);
  }

  /** Nor is any parent's own target, by the tasks selected for it. */
  lemma NoParentOvershoot(x: Inputs, demand: Counts, packets: seq<Packet>, keys: seq<string>, picks: seq<Pick>,
                          id: string)
    requires DistinctIds(packets) && id in x.registry
    requires IsRun(Start(packets, x.registry, keys, DeficitOf(x, demand), SpawnQuotas(x)), picks)
    ensures var tasks := TasksOf(Start(packets, x.registry, keys, DeficitOf(x, demand), SpawnQuotas(x)), picks);
      var live := LoadOf(x, id).running + LoadOf(x, id).initializing;
      live + OfParent(tasks, id, V4) + OfParent(tasks, id, K3) <= Max(ParentTarget(x, id), live)
  {
    ParentQuotasAreKept(packets, x.registry, keys, DeficitOf(x, demand), SpawnQuotas(x), picks, id);
    assert Queued(SpawnQuotas(x), id) == SpawnOf(x, id);
    ParentFits(x, id);
  }

  /* The selection as it empties its buckets. */

  datatype Outcome = Selected(tasks: seq<Row>) | Refused(id: string)

  /** The packet file is sound, the role is named, and it belongs to the pool. */
  predicate Sound(r: Row, files: set<string>) {
    r.id in files && r.entry.Entry? && IsRole(r.entry.role) && r.pool == (if IsK3Role(r.entry.role) then K3 else V4)
  }

  lemma BucketsOneMore(packets: seq<Packet>, registry: map<string, Parent>, spawn: map<string, Counts>, i: nat,
                       key: string)
    requires i < |packets|
    ensures BucketOf(packets[..i + 1], registry, spawn, key) == BucketOf(packets[..i], registry, spawn, key)
      + (if Files(packets[i], registry, spawn, key) then [RowOf(packets[i])] else [])
  {
    assert packets[..i + 1][..i] == packets[..i];
  }

  method Buckets(packets: seq<Packet>, registry: map<string, Parent>, keys: seq<string>, spawn: map<string, Counts>)
    returns (rows: map<string, seq<Row>>)
    requires ListsBuckets(keys, packets, registry, spawn)
    ensures rows == map key | key in keys :: BucketOf(packets, registry, spawn, key)
  {
    rows := map key | key in keys :: [];
    for i := 0 to |packets|
      invariant forall key :: key in rows <==> key in keys
      invariant forall key :: key in keys ==> rows[key] == BucketOf(packets[..i], registry, spawn, key)
    {
      forall key | key in keys
        ensures BucketOf(packets[..i + 1], registry, spawn, key) == BucketOf(packets[..i], registry, spawn, key)
          + (if Files(packets[i], registry, spawn, key) then [RowOf(packets[i])] else [])
      {
        BucketsOneMore(packets, registry, spawn, i, key);
      }
      var e := packets[i].entry;
      if Eligible(e, registry, spawn) {
        rows := rows[e.parent := rows[e.parent] + [RowOf(packets[i])]];
      }
    }
    assert packets[..|packets|] == packets;
  }

  method FirstFit(s: Sel, key: string) returns (chosen: Option<nat>)
    requires key in s.rows
    ensures chosen.None? <==> Dead(s, key)
    ensures chosen.Some? ==> chosen.value < |s.rows[key]| && Fits(s, s.rows[key][chosen.value])
    ensures chosen.Some? ==> forall i :: 0 <= i < chosen.value ==> !Fits(s, s.rows[key][i])
  {
    for index := 0 to |s.rows[key]|
      invariant forall i :: 0 <= i < index ==> !Fits(s, s.rows[key][i])
    {
      if Fits(s, s.rows[key][index]) {
        return Some(index);
      }
    }
    return None;
  }

  /** A bucket in round `round`: it has its task of the round, or none of its rows fits. */
  predicate Served(s: Sel, picks: seq<Pick>, key: string, round: nat)
    requires key in s.rows
  {
    Share(picks, key) == round || (Share(picks, key) <= round && Dead(s, key))
  }

  lemma ServedStays(s: Sel, picks: seq<Pick>, pick: Pick, key: string, round: nat)
    requires Holds(s, pick) && Fits(s, RowAt(s, pick)) && key in s.rows
    requires Served(s, picks, key, round)
    ensures key != pick.key ==> Served(Taken(s, pick), picks + [pick], key, round)
    ensures key == pick.key ==> Served(Taken(s, pick), picks + [pick], key, round + 1)
  {
    ShareAppend(picks, pick, key);
    if Dead(s, key) {
      DeadStaysDead(s, pick, key);
    }
  }

  /** A selection under way: what was picked, fairly, what is left, and the tasks so far, all sound. */
  ghost predicate Going(s0: Sel, picks: seq<Pick>, s: Sel, tasks: seq<Row>, files: set<string>) {
    && IsRun(s0, picks) && Fair(s0, picks) && After(s0, picks) == s && TasksOf(s0, picks) == tasks
    && s.rows.Keys == s0.rows.Keys
    && (forall i :: 0 <= i < |tasks| ==> Sound(tasks[i], files))
  }

  /** The pick whose turn it was is of an unsound packet. */
  predicate Stops(s: Sel, picks: seq<Pick>, pick: Pick, id: string, files: set<string>) {
    IsNext(s, pick) && InTurn(s, picks, pick) && RowAt(s, pick).id == id && !Sound(RowAt(s, pick), files)
  }

  /** The selection stopped because its next pick was an unsound packet. */
  ghost predicate StoppedAt(s0: Sel, picks: seq<Pick>, id: string, files: set<string>) {
    IsRun(s0, picks) && Fair(s0, picks) && exists pick :: Stops(After(s0, picks), picks, pick, id, files)
  }

  /** Buckets before the `j`-th had their turn of the round, the others not yet. */
  predicate Turn(s: Sel, picks: seq<Pick>, keys: seq<string>, j: nat, round: nat) {
    && j <= |keys| && (forall i :: 0 <= i < |keys| ==> keys[i] in s.rows)
    && (forall i :: 0 <= i < j ==> Served(s, picks, keys[i], round + 1))
    && (forall i :: j <= i < |keys| ==> Served(s, picks, keys[i], round))
  }

  lemma TurnTakes(s: Sel, picks: seq<Pick>, keys: seq<string>, j: nat, round: nat, pick: Pick)
    requires NoRepeats(keys) && Turn(s, picks, keys, j, round) && j < |keys|
    requires Holds(s, pick) && Fits(s, RowAt(s, pick)) && pick.key == keys[j]
    ensures Turn(Taken(s, pick), picks + [pick], keys, j + 1, round)
  {
    forall i | 0 <= i < |keys|
      ensures i <= j ==> Served(Taken(s, pick), picks + [pick], keys[i], round + 1)
      ensures i > j ==> Served(Taken(s, pick), picks + [pick], keys[i], round)
    {
      ServedStays(s, picks, pick, keys[i], if i < j then round + 1 else round);
    }
  }

  lemma TurnSkips(s: Sel, picks: seq<Pick>, keys: seq<string>, j: nat, round: nat)
    requires Turn(s, picks, keys, j, round) && j < |keys| && Dead(s, keys[j])
    ensures Turn(s, picks, keys, j + 1, round)
  {}

  /** None of the first `j` buckets has a row that fits. */
  predicate DeadUpTo(s: Sel, keys: seq<string>, j: nat) {
    j <= |keys| && forall i :: 0 <= i < j ==> keys[i] in s.rows && Dead(s, keys[i])
  }

  /** The first row of the bucket that fits is a next pick. */
  lemma TurnPicks(s: Sel, picks: seq<Pick>, keys: seq<string>, j: nat, round: nat, pick: Pick)
    requires Turn(s, picks, keys, j, round) && j < |keys| && pick.key == keys[j]
    requires forall key :: key in s.rows ==> key in keys
    requires Holds(s, pick) && Fits(s, RowAt(s, pick))
    requires forall i :: 0 <= i < pick.index ==> !Fits(s, s.rows[pick.key][i])
    ensures IsNext(s, pick) && InTurn(s, picks, pick)
  {
    assert !Dead(s, keys[j]);
    assert Share(picks, keys[j]) == round;
    forall key | key in s.rows && Share(picks, key) < round ensures Dead(s, key) {
      var i :| 0 <= i < |keys| && keys[i] == key;
    }
  }

  lemma GoesOn(s0: Sel, picks: seq<Pick>, s: Sel, tasks: seq<Row>, files: set<string>, pick: Pick)
    requires Going(s0, picks, s, tasks, files) && IsNext(s, pick) && InTurn(s, picks, pick)
    ensures var r := RowAt(s, pick);
      if Sound(r, files) then Going(s0, picks + [pick], Taken(s, pick), tasks + [r], files)
      else StoppedAt(s0, picks, r.id, files)
  {
    RunAppend(s0, picks, pick);
    FairAppend(s0, picks, pick);
    assert !Sound(RowAt(s, pick), files) ==> Stops(s, picks, pick, RowAt(s, pick).id, files);
  }

  /** A visit that takes a row goes on with it, or stops at it. */
  lemma VisitTakes(s0: Sel, picks: seq<Pick>, s: Sel, tasks: seq<Row>, files: set<string>, keys: seq<string>, j: nat,
                   round: nat, pick: Pick)
    requires Going(s0, picks, s, tasks, files) && NoRepeats(keys) && Turn(s, picks, keys, j, round) && j < |keys|
    requires forall key :: key in s.rows ==> key in keys
    requires Holds(s, pick) && Fits(s, RowAt(s, pick)) && pick.key == keys[j]
    requires forall i :: 0 <= i < pick.index ==> !Fits(s, s.rows[pick.key][i])
    ensures !Sound(RowAt(s, pick), files) ==> StoppedAt(s0, picks, RowAt(s, pick).id, files)
    ensures Sound(RowAt(s, pick), files) ==> Going(s0, picks + [pick], Taken(s, pick), tasks + [RowAt(s, pick)], files)
    ensures Turn(Taken(s, pick), picks + [pick], keys, j + 1, round)
  {
    TurnPicks(s, picks, keys, j, round, pick);
    GoesOn(s0, picks, s, tasks, files, pick);
    TurnTakes(s, picks, keys, j, round, pick);
  }

  lemma AllAreDead(s: Sel, keys: seq<string>)
    requires DeadUpTo(s, keys, |keys|) && (forall key :: key in s.rows ==> key in keys)
    ensures Exhausted(s)
  {
    forall key | key in s.rows ensures Dead(s, key) {
      var i :| 0 <= i < |keys| && keys[i] == key;
    }
  }

  lemma NothingLeft(s: Sel)
    requires s.left.v4 + s.left.k3 == 0
    ensures Exhausted(s)
  {}

  /** A round under way: the slots it used are the tasks it added, and while it added none the buckets
      it visited have nothing to take. */
  ghost predicate Rounding(s0: Sel, s: Sel, n: nat, t: Sel, tasks: seq<Row>, files: set<string>, picks: seq<Pick>,
                           keys: seq<string>, j: nat, round: nat) {
    && Going(s0, picks, t, tasks, files) && Turn(t, picks, keys, j, round) && t.rows.Keys == s.rows.Keys
    && t.left.v4 + t.left.k3 + |tasks| == s.left.v4 + s.left.k3 + n && |tasks| >= n
    && (|tasks| == n ==> DeadUpTo(t, keys, j))
  }

  lemma LessTotal(s: Sel, pick: Pick)
    requires IsNext(s, pick)
    ensures Taken(s, pick).left.v4 + Taken(s, pick).left.k3 + 1 == s.left.v4 + s.left.k3
  {}

  /** The visit of one bucket. */
  method Visit(ghost s0: Sel, ghost s: Sel, ghost n: nat, t: Sel, tasks: seq<Row>, files: set<string>,
               ghost picks: seq<Pick>,
               keys: seq<string>, j: nat, ghost round: nat)
    returns (u: Sel, more: seq<Row>, refused: Option<string>, ghost trace: seq<Pick>)
    requires NoRepeats(keys) && j < |keys| && (forall key :: key in s.rows ==> key in keys)
    requires Rounding(s0, s, n, t, tasks, files, picks, keys, j, round)
    ensures refused.None? ==> Rounding(s0, s, n, u, more, files, trace, keys, j + 1, round)
    ensures refused.Some? ==> StoppedAt(s0, trace, refused.value, files)
  {
    u, more, refused, trace := t, tasks, None, picks;
    var chosen := FirstFit(t, keys[j]);
    if chosen.None? {
      TurnSkips(t, trace, keys, j, round);
      return;
    }
    var pick := Pick(keys[j], chosen.value);
    var r := t.rows[keys[j]][chosen.value];
    VisitTakes(s0, trace, t, more, files, keys, j, round, pick);
    if !Sound(r, files) {
      refused := Some(r.id);
      return;
    }
    LessTotal(t, pick);
    u, more, trace := Taken(t, pick), more + [r], trace + [pick];
  }

  /** One round over the buckets: at most one task from each. */
  method Round(s0: Sel, s: Sel, keys: seq<string>, tasks: seq<Row>, files: set<string>, ghost picks: seq<Pick>,
               ghost round: nat)
    returns (t: Sel, more: seq<Row>, refused: Option<string>, ghost trace: seq<Pick>)
    requires NoRepeats(keys) && (forall key :: key in s.rows ==> key in keys)
    requires Going(s0, picks, s, tasks, files) && Turn(s, picks, keys, 0, round)
    ensures refused.None? ==> Rounding(s0, s, |tasks|, t, more, files, trace, keys, |keys|, round)
    ensures refused.Some? ==> StoppedAt(s0, trace, refused.value, files)
  {
    t, more, refused, trace := s, tasks, None, picks;
    for j := 0 to |keys|
      invariant refused.None? && Rounding(s0, s, |tasks|, t, more, files, trace, keys, j, round)
    {
      t, more, refused, trace := Visit(s0, s, |tasks|, t, more, files, trace, keys, j, round);
      if refused.Some? {
        return;
      }
    }
  }

  /** The selection: rounds over the buckets until the deficit is spent or a round takes nothing;
      an unsound packet stops it.  What it takes is a fair run. */
  method SelectTasks(packets: seq<Packet>, files: set<string>, registry: map<string, Parent>, keys: seq<string>,
                     deficit: Counts, spawn: map<string, Counts>)
    returns (outcome: Outcome, ghost picks: seq<Pick>)
    requires ListsBuckets(keys, packets, registry, spawn)
    ensures var s0 := Start(packets, registry, keys, deficit, spawn);
      match outcome
      case Selected(tasks) =>
        IsRun(s0, picks) && Going(s0, picks, After(s0, picks), tasks, files) && Exhausted(After(s0, picks))
      case Refused(id) => StoppedAt(s0, picks, id, files)
  {
    var rows := Buckets(packets, registry, keys, spawn);
    var s0 := Sel(rows, deficit, spawn);
    assert s0 == Start(packets, registry, keys, deficit, spawn);
    var s, tasks := s0, [];
    ghost var round := 0;
    picks := [];
    while s.left.v4 + s.left.k3 > 0
      invariant Going(s0, picks, s, tasks, files)
      invariant Turn(s, picks, keys, 0, round)
      decreases s.left.v4 + s.left.k3
    {
      var t, more, refused;
      t, more, refused, picks := Round(s0, s, keys, tasks, files, picks, round);
      if refused.Some? {
        return Refused(refused.value), picks;
      }
      round := round + 1;
      if |more| == |tasks| {
        AllAreDead(t, keys);
        return Selected(more), picks;
      }
      s, tasks := t, more;
    }
    NothingLeft(s);
    outcome := Selected(tasks);
  }
}
