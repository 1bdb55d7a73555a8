/** The largest-remainder split of a deficit across pools, for any number of pools. */
module Split {

  function Min(a: int, b: int): int { if a < b then a else b }

  function One(b: bool): nat { if b then 1 else 0 }

  function SumTo(s: seq<nat>, n: nat): nat
    requires n <= |s|
  {
    if n == 0 then 0 else SumTo(s, n - 1) + s[n - 1]
  }

  function Sum(s: seq<nat>): nat { SumTo(s, |s|) }

  lemma {:induction false} SumUpdate(s: seq<nat>, i: nat, x: nat, n: nat)
    requires i < |s| && n <= |s|
    ensures SumTo(s[i := x], n) == SumTo(s, n) + (if i < n then x - s[i] else 0)
  {
    if n > 0 {
      SumUpdate(s, i, x, n - 1);
    }
  }

  lemma {:induction false} SumOfZeros(s: seq<nat>, n: nat)
    requires n <= |s| && forall i :: 0 <= i < n ==> s[i] == 0
    ensures SumTo(s, n) == 0
  {
    if n > 0 {
      SumOfZeros(s, n - 1);
    }
  }

  lemma {:induction false} PartOfSum(s: seq<nat>, i: nat, n: nat)
    requires i < n <= |s|
    ensures s[i] <= SumTo(s, n)
  {
    if i < n - 1 {
      PartOfSum(s, i, n - 1);
    }
  }

  /* Products and floor division, by counting: the shares stay out of the way of linear reasoning. */

  function Times(a: nat, b: nat): nat {
    if b == 0 then 0 else a + Times(a, b - 1)
  }

  lemma {:induction false} TimesIsProduct(a: nat, b: nat)
    ensures Times(a, b) == a * b
  {
    if b > 0 {
      TimesIsProduct(a, b - 1);
      Distribute(a, b - 1, 1);
    }
  }

  function Quot(a: nat, b: nat): nat
    requires b > 0
  {
    if a < b then 0 else 1 + Quot(a - b, b)
  }

  function Rem(a: nat, b: nat): nat
    requires b > 0
  {
    if a < b then a else Rem(a - b, b)
  }

  lemma Distribute(a: int, b: int, c: int)
    ensures a * (b + c) == a * b + a * c
  {}

  lemma MulMono(a: int, b: int, c: nat)
    requires a <= b
    ensures a * c <= b * c
  {}

  lemma MulStrict(a: int, b: int, c: int)
    requires a < b && c > 0
    ensures a * c < b * c
  {}

  lemma {:induction false} QuotIsDivision(a: nat, b: nat)
    requires b > 0
    ensures Quot(a, b) == a / b && Rem(a, b) == a % b
    ensures a == b * Quot(a, b) + Rem(a, b) && Rem(a, b) < b
  {
    if a >= b {
      QuotIsDivision(a - b, b);
      Distribute(b, 1, Quot(a - b, b));
      DivisionIsUnique(a, b, Quot(a, b), Rem(a, b));
    } else {
      DivisionIsUnique(a, b, 0, a);
    }
  }

  lemma DivisionIsUnique(a: nat, b: nat, q: nat, r: nat)
    requires b > 0 && a == b * q + r && r < b
    ensures q == a / b && r == a % b
  {
    var d := q - a / b;
    Distribute(b, a / b, d);
    if d > 0 {
      MulMono(1, d, b);
      assert false;
    } else if d < 0 {
      MulMono(d, -1, b);
      assert false;
    }
  }

  /* The pieces of the split. */

  /** The whole slots of each pool's exact share, and what is left of the share. */
  function Floors(total: nat, pending: seq<nat>, grand: nat): (f: seq<nat>)
    requires grand > 0
    ensures |f| == |pending|
  {
    seq(|pending|, i requires 0 <= i < |pending| => Quot(Times(total, pending[i]), grand))
  }

  function Remainders(total: nat, pending: seq<nat>, grand: nat): (r: seq<nat>)
    requires grand > 0
    ensures |r| == |pending|
  {
    seq(|pending|, i requires 0 <= i < |pending| => Rem(Times(total, pending[i]), grand))
  }

  /** The pools with pending work among the first `n`, in their given order. */
  function Wanting(pending: seq<nat>, n: nat): (r: seq<nat>)
    requires n <= |pending|
    ensures Within(r, |pending|)
  {
    if n == 0 then []
    else Wanting(pending, n - 1) + (if pending[n - 1] > 0 then [n - 1] else [])
  }

  predicate Within(order: seq<nat>, n: nat) {
    forall k :: 0 <= k < |order| ==> order[k] < n
  }

  /** Where a key goes in a listing by descending key: after everything at least as large. */
  function Place(order: seq<nat>, x: nat, key: seq<nat>, k: nat): (p: nat)
    requires Within(order, |key|) && x < |key| && k <= |order|
    ensures k <= p <= |order|
    ensures p < |order| ==> key[order[p]] < key[x]
    ensures forall j :: k <= j < p ==> key[order[j]] >= key[x]
    decreases |order| - k
  {
    if k < |order| && key[order[k]] >= key[x] then Place(order, x, key, k + 1) else k
  }

  function Insert(order: seq<nat>, x: nat, key: seq<nat>): seq<nat>
    requires Within(order, |key|) && x < |key|
  {
    var p := Place(order, x, key, 0);
    order[..p] + [x] + order[p..]
  }

  /** A stable sort of the first `n` pools by descending key. */
  function SortedDown(pools: seq<nat>, key: seq<nat>, n: nat): (r: seq<nat>)
    requires Within(pools, |key|) && n <= |pools|
    ensures Within(r, |key|)
  {
    if n == 0 then [] else Insert(SortedDown(pools, key, n - 1), pools[n - 1], key)
  }

  /** One more for each pool of the order, from the `k`-th on, that can take it, while any remain. */
  function Awarded(parts: seq<nat>, pending: seq<nat>, order: seq<nat>, k: nat, remaining: int): (r: seq<nat>)
    requires |parts| == |pending| && Within(order, |parts|) && k <= |order|
    ensures |r| == |parts|
    decreases |order| - k
  {
    if k == |order| || remaining <= 0 then parts
    else if parts[order[k]] < pending[order[k]] then
      Awarded(parts[order[k] := parts[order[k]] + 1], pending, order, k + 1, remaining - 1)
    else Awarded(parts, pending, order, k + 1, remaining)
  }

  function Clipped(parts: seq<nat>, pending: seq<nat>): (r: seq<nat>)
    requires |parts| == |pending|
    ensures |r| == |parts|
    ensures forall i :: 0 <= i < |r| ==> r[i] == Min(parts[i], pending[i])
  {
    seq(|parts|, i requires 0 <= i < |parts| => Min(parts[i], pending[i]))
  }

  function Order(pending: seq<nat>, rems: seq<nat>): (r: seq<nat>)
    requires |rems| == |pending|
    ensures Within(r, |pending|)
  {
    var pools := Wanting(pending, |pending|);
    SortedDown(pools, rems, |pools|)
  }

  function AwardAll(pending: seq<nat>, floors: seq<nat>, rems: seq<nat>, remaining: int): (r: seq<nat>)
    requires |floors| == |rems| == |pending|
    ensures |r| == |pending|
  {
    Clipped(Awarded(floors, pending, Order(pending, rems), 0, remaining), pending)
  }

  function SplitOf(total: int, pending: seq<nat>): (r: seq<nat>)
    ensures |r| == |pending|
  {
    var grand := Sum(pending);
    if total <= 0 || grand == 0 then seq(|pending|, _ => 0)
    else
      var floors := Floors(total, pending, grand);
      AwardAll(pending, floors, Remainders(total, pending, grand), total - Sum(floors))
  }

  /* Shares: `total * pending` split into `grand` times a floor, and a remainder. */

  predicate IsShare(total: nat, p: nat, grand: nat, floor: nat, rem: nat) {
    total * p == grand * floor + rem && rem < grand
  }

  predicate AreShares(total: nat, pending: seq<nat>, grand: nat, floors: seq<nat>, rems: seq<nat>) {
    && |floors| == |rems| == |pending|
    && (forall i :: 0 <= i < |pending| ==> IsShare(total, pending[i], grand, floors[i], rems[i]))
  }

  lemma FloorsAreShares(total: nat, pending: seq<nat>, grand: nat)
    requires grand > 0
    ensures AreShares(total, pending, grand, Floors(total, pending, grand), Remainders(total, pending, grand))
  {
    forall i | 0 <= i < |pending|
      ensures IsShare(total, pending[i], grand, Floors(total, pending, grand)[i], Remainders(total, pending, grand)[i])
    {
      TimesIsProduct(total, pending[i]);
      QuotIsDivision(total * pending[i], grand);
    }
  }

  /** Below the grand total a wanting pool's floor is below what it has pending; from there on,
      it is not. */
  lemma ShareBound(total: nat, p: nat, grand: nat, floor: nat, rem: nat)
    requires IsShare(total, p, grand, floor, rem)
    ensures total >= grand ==> floor >= p
    ensures total < grand && p > 0 ==> floor < p
    ensures p == 0 ==> floor == rem == 0
  {
    if total >= grand && floor < p {
      MulMono(grand, total, p);
      MulMono(floor + 1, p, grand);
      Distribute(grand, floor, 1);
      assert false;
    }
    if total < grand && p > 0 && floor >= p {
      MulStrict(total, grand, p);
      MulMono(p, floor, grand);
      assert false;
    }
    if p == 0 && floor > 0 {
      MulMono(1, floor, grand);
      assert false;
    }
  }

  /** Nothing is lost to rounding: floors and remainders are the whole of the shares. */
  lemma {:induction false} SharesAddUp(total: nat, pending: seq<nat>, grand: nat, floors: seq<nat>, rems: seq<nat>,
                                       n: nat)
    requires AreShares(total, pending, grand, floors, rems) && n <= |pending|
    ensures total * SumTo(pending, n) == grand * SumTo(floors, n) + SumTo(rems, n)
  {
    if n > 0 {
      SharesAddUp(total, pending, grand, floors, rems, n - 1);
      assert IsShare(total, pending[n - 1], grand, floors[n - 1], rems[n - 1]);
      Distribute(total, SumTo(pending, n - 1), pending[n - 1]);
      Distribute(grand, SumTo(floors, n - 1), floors[n - 1]);
    }
  }

  function Positives(s: seq<nat>, n: nat): set<nat>
    requires n <= |s|
  {
    set i: nat | i < n && s[i] > 0
  }

  /** `n` positive remainders come to less than `n` whole slots. */
  lemma {:induction false} RemaindersAreFew(rems: seq<nat>, grand: nat, n: nat)
    requires n <= |rems| && grand > 0 && forall i :: 0 <= i < |rems| ==> rems[i] < grand
    ensures SumTo(rems, n) <= (grand - 1) * |Positives(rems, n)|
  {
    if n > 0 {
      RemaindersAreFew(rems, grand, n - 1);
      var before := Positives(rems, n - 1);
      assert Positives(rems, n) == before + (if rems[n - 1] > 0 then {n - 1} else {});
      assert |Positives(rems, n)| == |before| + One(rems[n - 1] > 0);
      Distribute(grand - 1, |before|, One(rems[n - 1] > 0));
    } else {
      assert Positives(rems, 0) == {};
    }
  }

  lemma LeftOverBound(total: nat, grand: nat, f: nat, r: nat, n: nat)
    requires grand > 0 && total * grand == grand * f + r && r <= (grand - 1) * n
    ensures 0 <= total - f <= n
  {
    if total < f {
      MulMono(total + 1, f, grand);
      assert false;
    }
    if total > f + n {
      MulMono(f + n + 1, total, grand);
      assert false;
    }
  }

  /** How many slots the floors leave over: at most one for each positive remainder. */
  lemma LeftOver(total: nat, pending: seq<nat>, floors: seq<nat>, rems: seq<nat>)
    requires AreShares(total, pending, Sum(pending), floors, rems) && Sum(pending) > 0
    ensures 0 <= total - Sum(floors) <= |Positives(rems, |rems|)|
  {
    SharesAddUp(total, pending, Sum(pending), floors, rems, |pending|);
    forall i | 0 <= i < |rems| ensures rems[i] < Sum(pending) {
      assert IsShare(total, pending[i], Sum(pending), floors[i], rems[i]);
    }
    RemaindersAreFew(rems, Sum(pending), |rems|);
    LeftOverBound(total, Sum(pending), Sum(floors), Sum(rems), |Positives(rems, |rems|)|);
  }

  /* The order. */

  predicate NoRepeats(s: seq<nat>) {
    forall i, j :: 0 <= i < j < |s| ==> s[i] != s[j]
  }

  predicate Descending(s: seq<nat>, key: seq<nat>) {
    && Within(s, |key|)
    && (forall i, j :: 0 <= i < j < |s| ==> key[s[i]] >= key[s[j]])
  }

  lemma OneMoreAtEnd(s: seq<nat>, x: nat)
    requires NoRepeats(s) && Within(s, x)
    ensures NoRepeats(s + [x]) && Within(s + [x], x + 1)
    ensures forall i :: i in s + [x] <==> i in s || i == x
  {}

  lemma {:induction false} WantingAre(pending: seq<nat>, n: nat)
    requires n <= |pending|
    ensures NoRepeats(Wanting(pending, n)) && Within(Wanting(pending, n), n)
    ensures forall i :: 0 <= i < n ==> (i in Wanting(pending, n) <==> pending[i] > 0)
  {
    if n > 0 {
      WantingAre(pending, n - 1);
      OneMoreAtEnd(Wanting(pending, n - 1), n - 1);
    }
  }

  /** The listing with `x` put in at `p`, position by position. */
  predicate PutInAt(r: seq<nat>, order: seq<nat>, x: nat, p: nat) {
    && |r| == |order| + 1 && p <= |order|
    && (forall k :: 0 <= k < p ==> r[k] == order[k])
    && r[p] == x
    && (forall k :: p < k < |r| ==> r[k] == order[k - 1])
  }

  lemma PutInKeepsOrder(r: seq<nat>, order: seq<nat>, x: nat, key: seq<nat>, p: nat)
    requires PutInAt(r, order, x, p) && Descending(order, key) && NoRepeats(order)
    requires x < |key| && x !in order && p == Place(order, x, key, 0)
    ensures Descending(r, key) && NoRepeats(r)
  {
    forall i, j | 0 <= i < j < |r| ensures r[i] < |key| && r[j] < |key| && key[r[i]] >= key[r[j]] && r[i] != r[j] {
      var a, b := if i < p then i else i - 1, if j < p then j else j - 1;
      if i != p && j != p {
        assert r[i] == order[a] && r[j] == order[b];
      } else if i == p {
        assert key[order[b]] <= key[order[p]];
      }
    }
    assert |r| == 1 ==> r[0] == x;
  }

  lemma PutInKeepsMembers(r: seq<nat>, order: seq<nat>, x: nat, p: nat)
    requires PutInAt(r, order, x, p)
    ensures forall i :: i in r <==> i in order || i == x
  {
    forall i | i in order ensures i in r {
      var k :| 0 <= k < |order| && order[k] == i;
      assert r[if k < p then k else k + 1] == i;
    }
  }

  lemma InsertIs(order: seq<nat>, x: nat, key: seq<nat>)
    requires Descending(order, key) && x < |key| && x !in order && NoRepeats(order)
    ensures Descending(Insert(order, x, key), key) && NoRepeats(Insert(order, x, key))
    ensures |Insert(order, x, key)| == |order| + 1
    ensures forall i :: i in Insert(order, x, key) <==> i in order || i == x
  {
    var p := Place(order, x, key, 0);
    PutInKeepsOrder(Insert(order, x, key), order, x, key, p);
    PutInKeepsMembers(Insert(order, x, key), order, x, p);
  }

  lemma OneMorePool(pools: seq<nat>, n: nat)
    requires n < |pools|
    ensures forall i :: i in pools[..n + 1] <==> i in pools[..n] || i == pools[n]
    ensures NoRepeats(pools) ==> pools[n] !in pools[..n]
  {
    assert pools[..n + 1] == pools[..n] + [pools[n]];
  }

  /** The sort keeps its pools, once each, and orders them. */
  lemma {:induction false} SortIs(pools: seq<nat>, key: seq<nat>, n: nat)
    requires Within(pools, |key|) && NoRepeats(pools) && n <= |pools|
    ensures Descending(SortedDown(pools, key, n), key) && NoRepeats(SortedDown(pools, key, n))
    ensures |SortedDown(pools, key, n)| == n
    ensures forall i :: i in SortedDown(pools, key, n) <==> i in pools[..n]
  {
    if n > 0 {
      var x, before := pools[n - 1], SortedDown(pools, key, n - 1);
      SortIs(pools, key, n - 1);
      OneMorePool(pools, n - 1);
      assert x in before <==> x in pools[..n - 1];
      InsertIs(before, x, key);
    }
  }

  lemma {:induction false} SetOfSeq(s: seq<nat>, t: set<nat>, n: nat)
    requires n <= |s| && forall i :: i in t ==> i in s[..n]
    ensures |t| <= n
  {
    if n == 0 {
      assert t == {};
    } else {
      assert s[..n] == s[..n - 1] + [s[n - 1]];
      SetOfSeq(s, t - {s[n - 1]}, n - 1);
    }
  }

  /** The first pools of the order, as many as there are positive remainders, have one. */
  lemma AwardedHaveRemainders(rems: seq<nat>, order: seq<nat>, j: nat)
    requires Descending(order, rems) && j < |order| && j < |Positives(rems, |rems|)|
    requires forall i :: i in Positives(rems, |rems|) ==> i in order
    ensures rems[order[j]] > 0
  {
    if rems[order[j]] == 0 {
      forall i | i in Positives(rems, |rems|) ensures i in order[..j] {
        var m :| 0 <= m < |order| && order[m] == i;
        assert m < j;
      }
      SetOfSeq(order, Positives(rems, |rems|), j);
      assert false;
    }
  }

  /** The order lists the wanting pools, the largest remainders first. */
  lemma OrderIs(pending: seq<nat>, rems: seq<nat>)
    requires |rems| == |pending|
    requires forall i :: 0 <= i < |pending| && rems[i] > 0 ==> pending[i] > 0
    ensures Descending(Order(pending, rems), rems) && NoRepeats(Order(pending, rems))
    ensures forall i :: 0 <= i < |pending| ==> (i in Order(pending, rems) <==> pending[i] > 0)
    ensures forall i :: i in Positives(rems, |rems|) ==> i in Order(pending, rems)
    ensures |Positives(rems, |rems|)| <= |Order(pending, rems)|
  {
    var pools, order := Wanting(pending, |pending|), Order(pending, rems);
    WantingAre(pending, |pending|);
    SortIs(pools, rems, |pools|);
    assert pools[..|pools|] == pools;
    assert order[..|order|] == order;
    SetOfSeq(order, Positives(rems, |rems|), |order|);
  }

  /* The award. */

  predicate Room(parts: seq<nat>, pending: seq<nat>, order: seq<nat>, k: nat)
    requires |parts| == |pending| && Within(order, |parts|)
  {
    forall j :: k <= j < |order| ==> parts[order[j]] < pending[order[j]]
  }

  lemma RoomStays(parts: seq<nat>, pending: seq<nat>, order: seq<nat>, k: nat)
    requires |parts| == |pending| && Within(order, |parts|) && NoRepeats(order) && k < |order|
    requires Room(parts, pending, order, k)
    ensures Room(parts[order[k] := parts[order[k]] + 1], pending, order, k + 1)
  {}

  /** With room everywhere, the award is one more for the next `remaining` of the order. */
  lemma {:induction false} AwardIsPrefix(parts: seq<nat>, pending: seq<nat>, order: seq<nat>, k: nat, remaining: nat,
                                         i: nat)
    requires |parts| == |pending| && Within(order, |parts|) && NoRepeats(order) && i < |parts|
    requires k + remaining <= |order| && Room(parts, pending, order, k)
    ensures Awarded(parts, pending, order, k, remaining)[i] == parts[i] + One(i in order[k..k + remaining])
    decreases remaining
  {
    if remaining > 0 {
      RoomStays(parts, pending, order, k);
      AwardIsPrefix(parts[order[k] := parts[order[k]] + 1], pending, order, k + 1, remaining - 1, i);
      assert order[k..k + remaining] == [order[k]] + order[k + 1..k + remaining];
      assert order[k] !in order[k + 1..k + remaining];
    }
  }

  lemma {:induction false} AwardSum(parts: seq<nat>, pending: seq<nat>, order: seq<nat>, k: nat, remaining: nat)
    requires |parts| == |pending| && Within(order, |parts|) && NoRepeats(order)
    requires k + remaining <= |order| && Room(parts, pending, order, k)
    ensures Sum(Awarded(parts, pending, order, k, remaining)) == Sum(parts) + remaining
    decreases remaining
  {
    if remaining > 0 {
      RoomStays(parts, pending, order, k);
      AwardSum(parts[order[k] := parts[order[k]] + 1], pending, order, k + 1, remaining - 1);
      SumUpdate(parts, order[k], parts[order[k]] + 1, |parts|);
    }
  }

  lemma {:induction false} NoAward(parts: seq<nat>, pending: seq<nat>, order: seq<nat>, k: nat, remaining: int)
    requires |parts| == |pending| && Within(order, |parts|) && k <= |order|
    requires forall i :: 0 <= i < |parts| ==> parts[i] >= pending[i]
    ensures Awarded(parts, pending, order, k, remaining) == parts
    decreases |order| - k
  {
    if k < |order| && remaining > 0 {
      NoAward(parts, pending, order, k + 1, remaining);
    }
  }

  /** Each part is its floor or, for a pool with a remainder, one more; the pools rounded up are
      those with the larger remainders; and no part exceeds what is pending. */
  predicate RoundedFrom(pending: seq<nat>, floors: seq<nat>, rems: seq<nat>, r: seq<nat>)
    requires |r| == |floors| == |rems| == |pending|
  {
    && (forall i :: 0 <= i < |pending| ==> r[i] == floors[i] || (r[i] == floors[i] + 1 && rems[i] > 0))
    && (forall i :: 0 <= i < |pending| ==> r[i] <= pending[i])
    && (forall i, j :: 0 <= i < |pending| && 0 <= j < |pending| && r[i] > floors[i] && r[j] == floors[j] ==>
          pending[j] > 0 ==> rems[i] >= rems[j])
  }

  predicate BelowPending(pending: seq<nat>, floors: seq<nat>, rems: seq<nat>)
    requires |floors| == |rems| == |pending|
  {
    && (forall i :: 0 <= i < |pending| ==> floors[i] <= pending[i] && (pending[i] > 0 ==> floors[i] < pending[i]))
    && (forall i :: 0 <= i < |pending| && rems[i] > 0 ==> pending[i] > 0)
  }

  /** The award itself, before it is clipped. */
  lemma AwardAt(pending: seq<nat>, floors: seq<nat>, rems: seq<nat>, order: seq<nat>, k: nat, i: nat)
    requires |floors| == |rems| == |pending| && BelowPending(pending, floors, rems) && order == Order(pending, rems)
    requires k <= |Positives(rems, |rems|)| && i < |pending|
    ensures k <= |order| && NoRepeats(order) && Room(floors, pending, order, 0)
    ensures Awarded(floors, pending, order, 0, k)[i] == floors[i] + One(i in order[..k])
    ensures i in order[..k] ==> i in order && rems[i] > 0
    ensures Awarded(floors, pending, order, 0, k)[i] <= pending[i]
  {
    OrderIs(pending, rems);
    forall j | 0 <= j < |order| ensures floors[order[j]] < pending[order[j]] {
      assert order[j] in order;
    }
    AwardIsPrefix(floors, pending, order, 0, k, i);
    assert order[0..k] == order[..k];
    if i in order[..k] {
      var j :| 0 <= j < k && order[j] == i;
      AwardedHaveRemainders(rems, order, j);
    }
  }

  lemma FirstHaveMost(order: seq<nat>, rems: seq<nat>, k: nat, i: nat, j: nat)
    requires Descending(order, rems) && k <= |order|
    requires i in order[..k] && j in order && j !in order[..k]
    ensures i < |rems| && j < |rems| && rems[i] >= rems[j]
  {
    var a :| 0 <= a < k && order[a] == i;
    var b :| 0 <= b < |order| && order[b] == j;
    if b < k {
      assert false;
    }
  }

  /** What the award of `k` slots makes of one floor; the clip changes nothing. */
  lemma AwardAllAt(pending: seq<nat>, floors: seq<nat>, rems: seq<nat>, k: nat, i: nat)
    requires |floors| == |rems| == |pending| && BelowPending(pending, floors, rems)
    requires k <= |Positives(rems, |rems|)| && i < |pending|
    ensures k <= |Order(pending, rems)|
    ensures var r := AwardAll(pending, floors, rems, k);
      && r[i] == Awarded(floors, pending, Order(pending, rems), 0, k)[i] <= pending[i]
      && r[i] == floors[i] + One(i in Order(pending, rems)[..k])
      && (i in Order(pending, rems)[..k] ==> rems[i] > 0)
  {
    AwardAt(pending, floors, rems, Order(pending, rems), k, i);
  }

  lemma AwardAllSum(pending: seq<nat>, floors: seq<nat>, rems: seq<nat>, k: nat)
    requires |floors| == |rems| == |pending| && BelowPending(pending, floors, rems)
    requires k <= |Positives(rems, |rems|)|
    ensures Sum(AwardAll(pending, floors, rems, k)) == Sum(floors) + k
  {
    var order, r := Order(pending, rems), AwardAll(pending, floors, rems, k);
    OrderIs(pending, rems);
    forall i | 0 <= i < |pending| ensures r[i] == Awarded(floors, pending, order, 0, k)[i] {
      AwardAllAt(pending, floors, rems, k, i);
    }
    assert r == Awarded(floors, pending, order, 0, k);
    if |pending| > 0 {
      AwardAt(pending, floors, rems, order, k, 0);
    }
    AwardSum(floors, pending, order, 0, k);
  }

  /** No pool left out has a larger remainder than one awarded a slot. */
  lemma AwardedHadMore(pending: seq<nat>, floors: seq<nat>, rems: seq<nat>, k: nat, i: nat, j: nat)
    requires |floors| == |rems| == |pending| && BelowPending(pending, floors, rems)
    requires k <= |Positives(rems, |rems|)| && i < |pending| && j < |pending| && pending[j] > 0
    requires AwardAll(pending, floors, rems, k)[i] > floors[i] && AwardAll(pending, floors, rems, k)[j] == floors[j]
    ensures rems[i] >= rems[j]
  {
    OrderIs(pending, rems);
    AwardAllAt(pending, floors, rems, k, i);
    AwardAllAt(pending, floors, rems, k, j);
    FirstHaveMost(Order(pending, rems), rems, k, i, j);
  }

  /** What the award of `k` slots makes of floors below what is pending. */
  lemma AwardAllIs(pending: seq<nat>, floors: seq<nat>, rems: seq<nat>, k: nat)
    requires |floors| == |rems| == |pending| && BelowPending(pending, floors, rems)
    requires k <= |Positives(rems, |rems|)|
    ensures Sum(AwardAll(pending, floors, rems, k)) == Sum(floors) + k
    ensures RoundedFrom(pending, floors, rems, AwardAll(pending, floors, rems, k))
  {
    var r := AwardAll(pending, floors, rems, k);
    AwardAllSum(pending, floors, rems, k);
    forall i | 0 <= i < |pending|
      ensures (r[i] == floors[i] || (r[i] == floors[i] + 1 && rems[i] > 0)) && r[i] <= pending[i]
    {
      AwardAllAt(pending, floors, rems, k, i);
    }
    forall i, j | 0 <= i < |pending| && 0 <= j < |pending| && r[i] > floors[i] && r[j] == floors[j] && pending[j] > 0
      ensures rems[i] >= rems[j]
    {
      AwardedHadMore(pending, floors, rems, k, i, j);
    }
  }

  /* The theorems. */

  lemma SmallSplitOf(total: nat, pending: seq<nat>, floors: seq<nat>, rems: seq<nat>)
    requires total < Sum(pending) && AreShares(total, pending, Sum(pending), floors, rems)
    ensures Sum(AwardAll(pending, floors, rems, total - Sum(floors))) == total
    ensures RoundedFrom(pending, floors, rems, AwardAll(pending, floors, rems, total - Sum(floors)))
  {
    LeftOver(total, pending, floors, rems);
    forall i | 0 <= i < |pending|
      ensures floors[i] <= pending[i] && (pending[i] > 0 ==> floors[i] < pending[i])
      ensures rems[i] > 0 ==> pending[i] > 0
    {
      ShareBound(total, pending[i], Sum(pending), floors[i], rems[i]);
    }
    AwardAllIs(pending, floors, rems, total - Sum(floors));
  }

  lemma FullSplitOf(total: nat, pending: seq<nat>, floors: seq<nat>, rems: seq<nat>)
    requires total >= Sum(pending) && AreShares(total, pending, Sum(pending), floors, rems)
    ensures AwardAll(pending, floors, rems, total - Sum(floors)) == pending
  {
    forall i | 0 <= i < |pending| ensures floors[i] >= pending[i] {
      ShareBound(total, pending[i], Sum(pending), floors[i], rems[i]);
    }
    NoAward(floors, pending, Order(pending, rems), 0, total - Sum(floors));
  }

  lemma SplitUnfolds(total: nat, pending: seq<nat>, floors: seq<nat>, rems: seq<nat>)
    requires 0 < total && 0 < Sum(pending)
    requires floors == Floors(total, pending, Sum(pending)) && rems == Remainders(total, pending, Sum(pending))
    ensures SplitOf(total, pending) == AwardAll(pending, floors, rems, total - Sum(floors))
  {}

  /** Below the grand total: the shares rounded, the larger remainders up, to exactly the total. */
  lemma SmallSplit(total: nat, pending: seq<nat>)
    requires 0 < total < Sum(pending)
    ensures Sum(SplitOf(total, pending)) == total
    ensures var grand := Sum(pending);
      RoundedFrom(pending, Floors(total, pending, grand), Remainders(total, pending, grand), SplitOf(total, pending))
  {
    var floors, rems := Floors(total, pending, Sum(pending)), Remainders(total, pending, Sum(pending));
    FloorsAreShares(total, pending, Sum(pending));
    SmallSplitOf(total, pending, floors, rems);
    SplitUnfolds(total, pending, floors, rems);
  }

  /** From the grand total on, every pool gets all it asks for. */
  lemma FullSplit(total: nat, pending: seq<nat>)
    requires total >= Sum(pending) > 0
    ensures SplitOf(total, pending) == pending
  {
    var floors, rems := Floors(total, pending, Sum(pending)), Remainders(total, pending, Sum(pending));
    FloorsAreShares(total, pending, Sum(pending));
    FullSplitOf(total, pending, floors, rems);
    SplitUnfolds(total, pending, floors, rems);
  }

  /** The parts sum to exactly min(total, pending), none exceeds what is pending, and so a pool
      without pending work gets nothing. */
  lemma SplitIsExact(total: int, pending: seq<nat>)
    ensures Sum(SplitOf(total, pending)) == Min(if total < 0 then 0 else total, Sum(pending))
    ensures forall i :: 0 <= i < |pending| ==> SplitOf(total, pending)[i] <= pending[i]
  {
    if total <= 0 || Sum(pending) == 0 {
      SumOfZeros(SplitOf(total, pending), |pending|);
    } else if total < Sum(pending) {
      SmallSplit(total, pending);
    } else {
      FullSplit(total, pending);
    }
  }

  lemma RoundedIsNear(total: nat, p: nat, grand: nat, floor: nat, rem: nat, part: nat)
    requires IsShare(total, p, grand, floor, rem)
    requires part == floor || (part == floor + 1 && rem > 0)
    ensures total * p - grand < part * grand < total * p + grand
  {
    Distribute(grand, floor, 1);
  }

  /** Each part is within one of its exact quota `total * pending[i] / grand`. */
  lemma SplitIsFair(total: nat, pending: seq<nat>, i: nat)
    requires 0 < total <= Sum(pending) && i < |pending|
    ensures var grand := Sum(pending);
      total * pending[i] - grand < SplitOf(total, pending)[i] * grand < total * pending[i] + grand
  {
    var grand := Sum(pending);
    var floors, rems := Floors(total, pending, grand), Remainders(total, pending, grand);
    if total == grand {
      FullSplit(total, pending);
    } else {
      SmallSplit(total, pending);
      FloorsAreShares(total, pending, grand);
      RoundedIsNear(total, pending[i], grand, floors[i], rems[i], SplitOf(total, pending)[i]);
    }
  }

  /** No pool that was rounded down has a larger remainder than one that was rounded up. */
  lemma RoundedUpHadMore(total: nat, pending: seq<nat>, i: nat, j: nat)
    requires 0 < total < Sum(pending) && i < |pending| && j < |pending| && pending[j] > 0
    requires SplitOf(total, pending)[i] > Floors(total, pending, Sum(pending))[i]
    requires SplitOf(total, pending)[j] == Floors(total, pending, Sum(pending))[j]
    ensures Remainders(total, pending, Sum(pending))[i] >= Remainders(total, pending, Sum(pending))[j]
  {
    SmallSplit(total, pending);
  }

  /* Ties. */

  /** Among equal keys the earlier pool comes first. */
  predicate Stable(order: seq<nat>, key: seq<nat>) {
    && Within(order, |key|)
    && (forall a, b :: 0 <= a < b < |order| && key[order[a]] == key[order[b]] ==> order[a] < order[b])
  }

  predicate Increasing(s: seq<nat>) {
    forall a, b :: 0 <= a < b < |s| ==> s[a] < s[b]
  }

  lemma InsertIsStable(order: seq<nat>, x: nat, key: seq<nat>)
    requires Stable(order, key) && Descending(order, key) && x < |key| && forall a :: 0 <= a < |order| ==> order[a] < x
    ensures Stable(Insert(order, x, key), key)
  {
    var r := Insert(order, x, key);
    forall a, b | 0 <= a < b < |r| && key[r[a]] == key[r[b]] ensures r[a] < r[b] {}
  }

  lemma {:induction false} SortIsStable(pools: seq<nat>, key: seq<nat>, n: nat)
    requires Within(pools, |key|) && Increasing(pools) && n <= |pools|
    ensures Stable(SortedDown(pools, key, n), key)
  {
    if n > 0 {
      var before := SortedDown(pools, key, n - 1);
      SortIsStable(pools, key, n - 1);
      SortIs(pools, key, n - 1);
      forall a | 0 <= a < |before| ensures before[a] < pools[n - 1] {
        assert before[a] in pools[..n - 1];
      }
      InsertIsStable(before, pools[n - 1], key);
    }
  }

  lemma {:induction false} WantingIncreases(pending: seq<nat>, n: nat)
    requires n <= |pending|
    ensures Increasing(Wanting(pending, n)) && Within(Wanting(pending, n), n)
  {
    if n > 0 {
      WantingIncreases(pending, n - 1);
    }
  }

  lemma FirstOfEquals(order: seq<nat>, key: seq<nat>, k: nat, i: nat, j: nat)
    requires Stable(order, key) && k <= |order| && i in order[..k] && j in order && j !in order[..k]
    requires i < |key| && j < |key| && key[i] == key[j]
    ensures i < j
  {
    var a :| 0 <= a < k && order[a] == i;
    var b :| 0 <= b < |order| && order[b] == j;
  }

  /** Of two pools with the same remainder the earlier one is rounded up first. */
  lemma TiesGoFirst(total: nat, pending: seq<nat>, i: nat, j: nat)
    requires 0 < total < Sum(pending) && i < |pending| && j < |pending| && pending[j] > 0
    requires SplitOf(total, pending)[i] > Floors(total, pending, Sum(pending))[i]
    requires SplitOf(total, pending)[j] == Floors(total, pending, Sum(pending))[j]
    requires Remainders(total, pending, Sum(pending))[i] == Remainders(total, pending, Sum(pending))[j]
    ensures i < j
  {
    var grand := Sum(pending);
    var floors, rems := Floors(total, pending, grand), Remainders(total, pending, grand);
    SplitUnfolds(total, pending, floors, rems);
    FloorsAreShares(total, pending, grand);
    TieOfShares(total, pending, floors, rems, i, j);
  }

  lemma TieOfShares(total: nat, pending: seq<nat>, floors: seq<nat>, rems: seq<nat>, i: nat, j: nat)
    requires total < Sum(pending) && AreShares(total, pending, Sum(pending), floors, rems)
    requires i < |pending| && j < |pending| && pending[j] > 0 && rems[i] == rems[j]
    requires AwardAll(pending, floors, rems, total - Sum(floors))[i] > floors[i]
    requires AwardAll(pending, floors, rems, total - Sum(floors))[j] == floors[j]
    ensures i < j
  {
    LeftOver(total, pending, floors, rems);
    SharesAreBelow(total, pending, floors, rems);
    TieOfAwards(pending, floors, rems, total - Sum(floors), i, j);
  }

  lemma SharesAreBelow(total: nat, pending: seq<nat>, floors: seq<nat>, rems: seq<nat>)
    requires total < Sum(pending) && AreShares(total, pending, Sum(pending), floors, rems)
    ensures BelowPending(pending, floors, rems)
  {
    forall i | 0 <= i < |pending|
      ensures floors[i] <= pending[i] && (pending[i] > 0 ==> floors[i] < pending[i])
      ensures rems[i] > 0 ==> pending[i] > 0
    {
      ShareBound(total, pending[i], Sum(pending), floors[i], rems[i]);
    }
  }

  lemma TieOfAwards(pending: seq<nat>, floors: seq<nat>, rems: seq<nat>, k: nat, i: nat, j: nat)
    requires |floors| == |rems| == |pending| && BelowPending(pending, floors, rems)
    requires k <= |Positives(rems, |rems|)| && i < |pending| && j < |pending| && pending[j] > 0 && rems[i] == rems[j]
    requires AwardAll(pending, floors, rems, k)[i] > floors[i] && AwardAll(pending, floors, rems, k)[j] == floors[j]
    ensures i < j
  {
    var pools := Wanting(pending, |pending|);
    OrderIs(pending, rems);
    AwardAllAt(pending, floors, rems, k, i);
    AwardAllAt(pending, floors, rems, k, j);
    WantingIncreases(pending, |pending|);
    SortIsStable(pools, rems, |pools|);
    FirstOfEquals(Order(pending, rems), rems, k, i, j);
  }

  /* The split as it updates its dictionaries. */

  lemma {:induction false} AnyWanting(pending: seq<nat>, n: nat)
    requires n <= |pending|
    ensures Wanting(pending, n) == [] <==> SumTo(pending, n) == 0
  {
    if n > 0 {
      AnyWanting(pending, n - 1);
    }
  }

  /** Adds up what the pools ask for. */
  method SumOf(pending: seq<nat>) returns (grand: nat)
    ensures grand == Sum(pending)
  {
    grand := 0;
    for i := 0 to |pending|
      invariant grand == SumTo(pending, i)
    {
      grand := grand + pending[i];
    }
  }

  method SplitDeficit(total: int, pending: seq<nat>) returns (out: seq<nat>)
    ensures out == SplitOf(total, pending)
  {
    var grand := SumOf(pending);
    AnyWanting(pending, |pending|);
    if total <= 0 || |Wanting(pending, |pending|)| == 0 {
      return seq(|pending|, _ => 0);
    }
    var floors, rems := Shares(total, pending, grand);
    var given := SumOf(floors);
    out := Award(pending, floors, rems, total - given);
  }

  method Shares(total: nat, pending: seq<nat>, grand: nat) returns (floors: seq<nat>, rems: seq<nat>)
    requires grand > 0
    ensures floors == Floors(total, pending, grand) && rems == Remainders(total, pending, grand)
  {
    floors, rems := [], [];
    for i := 0 to |pending|
      invariant |floors| == |rems| == i
      invariant forall k :: 0 <= k < i ==> floors[k] == Floors(total, pending, grand)[k]
      invariant forall k :: 0 <= k < i ==> rems[k] == Remainders(total, pending, grand)[k]
    {
      TimesIsProduct(total, pending[i]);
      QuotIsDivision(total * pending[i], grand);
      floors := floors + [total * pending[i] / grand];
      rems := rems + [total * pending[i] % grand];
    }
  }

  /** The loop that hands out the slots left over, in the order of the remainders. */
  method Award(pending: seq<nat>, floors: seq<nat>, rems: seq<nat>, slots: int) returns (out: seq<nat>)
    requires |floors| == |rems| == |pending|
    ensures out == AwardAll(pending, floors, rems, slots)
  {
    var order := Order(pending, rems);
    var remaining, parts := slots, floors;
    for k := 0 to |order|
      invariant |parts| == |pending|
      invariant Awarded(parts, pending, order, k, remaining) == Awarded(floors, pending, order, 0, slots)
    {
      if remaining <= 0 {
        break;
      }
      if parts[order[k]] < pending[order[k]] {
        parts := parts[order[k] := parts[order[k]] + 1];
        remaining := remaining - 1;
      }
    }
    out := Clipped(parts, pending);
  }
}
