/** The result reducer: deduplicated inputs, the strictest verdict, and an adjudication packet cut to
    a token budget. */
module Reducer {
  import opened Wrappers

  /** Strictness-ascending. */
  datatype Verdict = PASS | REDO | ESCALATE_L2_5 | ESCALATE_L3

  function Rank(v: Verdict): nat {
    match v
    case PASS => 0
    case REDO => 1
    case ESCALATE_L2_5 => 2
    case ESCALATE_L3 => 3
  }

  datatype Status = Completed | Failed | Blocked | StaleRevision | Cancelled | OtherStatus(text: string)

  /** One contribution: a completion marker of the queue, or a validated short result. */
  datatype Record =
    | Completion(verdict: Option<Verdict>, valid: bool)
    | Short(packet: string, status: Status, explicit: Option<Verdict>, findings: seq<string>,
            paths: seq<string>, needsDecision: bool)

  /** What a record weighs in with; an unknown verdict of a completion weighs most. */
  function VerdictsOf(r: Record): seq<Verdict> {
    match r
    case Completion(verdict, _) => [if verdict.Some? then verdict.value else ESCALATE_L3]
    case Short(_, status, explicit, _, _, needsDecision) =>
      (if explicit.Some? then [explicit.value]
       else match status
         case Completed => [PASS]
         case Failed => [REDO]
         case Blocked => [REDO]
         case StaleRevision => [REDO]
         case Cancelled => [ESCALATE_L3]
         case OtherStatus(_) => [])
      + (if needsDecision then [ESCALATE_L3] else [])
  }

  /** An invalid completion, or a negative verdict that cites nothing. */
  predicate Inconsistent(r: Record) {
    match r
    case Completion(_, valid) => !valid
    case Short(_, _, explicit, findings, _, _) => explicit.Some? && explicit.value != PASS && findings == []
  }

  function AllVerdicts(records: seq<Record>): seq<Verdict> {
    if records == [] then [] else AllVerdicts(records[..|records| - 1]) + VerdictsOf(records[|records| - 1])
  }

  function Strictest(vs: seq<Verdict>): Verdict {
    if vs == [] then PASS
    else
      var worst, last := Strictest(vs[..|vs| - 1]), vs[|vs| - 1];
      if Rank(last) > Rank(worst) then last else worst
  }

  predicate Flagged(records: seq<Record>) {
    records != [] && (Flagged(records[..|records| - 1]) || Inconsistent(records[|records| - 1]))
  }

  /** Reducing nothing counts as inconsistent. */
  predicate AnyInconsistent(records: seq<Record>) {
    records == [] || Flagged(records)
  }

  function Weighed(vs: seq<Verdict>, inconsistent: bool): Verdict {
    if inconsistent || vs == [] then ESCALATE_L3 else Strictest(vs)
  }

  function Consolidated(records: seq<Record>): Verdict {
    Weighed(AllVerdicts(records), AnyInconsistent(records))
  }

  /* What the consolidated verdict is. */

  lemma {:induction false} StrictestBounds(vs: seq<Verdict>)
    ensures forall i :: 0 <= i < |vs| ==> Rank(vs[i]) <= Rank(Strictest(vs))
    ensures vs != [] ==> Strictest(vs) in vs
  {
    if vs != [] {
      StrictestBounds(vs[..|vs| - 1]);
    }
  }

  predicate Says(r: Record, v: Verdict) {
    v in VerdictsOf(r)
  }

  predicate SomeSays(records: seq<Record>, v: Verdict) {
    exists i :: 0 <= i < |records| && Says(records[i], v)
  }

  lemma SomeSaysAppend(records: seq<Record>, r: Record, v: Verdict)
    ensures SomeSays(records + [r], v) <==> SomeSays(records, v) || Says(r, v)
  {
    var more := records + [r];
    assert more[|records|] == r;
    if SomeSays(records, v) {
      var i :| 0 <= i < |records| && Says(records[i], v);
      assert more[i] == records[i];
    }
  }

  lemma InJoin(v: Verdict, a: seq<Verdict>, b: seq<Verdict>)
    ensures v in a + b <==> v in a || v in b
  {}

  lemma OneMoreSays(records: seq<Record>, r: Record, v: Verdict)
    ensures v in AllVerdicts(records + [r]) <==> v in AllVerdicts(records) || Says(r, v)
  {
    OneMoreRecord(records, r);
    InJoin(v, AllVerdicts(records), VerdictsOf(r));
  }

  lemma {:induction false} FlaggedIs(records: seq<Record>)
    ensures Flagged(records) <==> exists i :: 0 <= i < |records| && Inconsistent(records[i])
  {
    if records != [] {
      var init := records[..|records| - 1];
      FlaggedIs(init);
      assert forall i :: 0 <= i < |init| ==> init[i] == records[i];
    }
  }

  lemma {:induction false} VerdictsAreOfRecords(records: seq<Record>, v: Verdict)
    ensures v in AllVerdicts(records) <==> SomeSays(records, v)
  {
    if records != [] {
      var init, last := records[..|records| - 1], records[|records| - 1];
      VerdictsAreOfRecords(init, v);
      assert records == init + [last];
      SomeSaysAppend(init, last, v);
      OneMoreSays(init, last, v);
    }
  }

  /** A pass is never silent: it needs a verdict, all verdicts pass, and no inconsistency. */
  lemma PassMeansAllPass(records: seq<Record>)
    ensures Consolidated(records) == PASS <==>
      && !AnyInconsistent(records)
      && AllVerdicts(records) != []
      && (forall v :: v in AllVerdicts(records) ==> v == PASS)
  {
    var vs := AllVerdicts(records);
    StrictestBounds(vs);
    if forall v :: v in vs ==> v == PASS {
      assert vs != [] ==> Strictest(vs) == PASS;
    } else {
      var v :| v in vs && v != PASS;
      var i :| 0 <= i < |vs| && vs[i] == v;
    }
  }

  /* The verdict in terms of the records. */

  /** What a record judges: a completion its verdict, an unknown one escalated; a short result its
      explicit verdict or else its status; and a needed decision is escalated besides. */
  predicate Judges(r: Record, v: Verdict) {
    match r
    case Completion(verdict, _) => if verdict.Some? then v == verdict.value else v == ESCALATE_L3
    case Short(_, status, explicit, _, _, needsDecision) =>
      || (explicit == Some(v))
      || (explicit.None? && status == Completed && v == PASS)
      || (explicit.None? && status in {Failed, Blocked, StaleRevision} && v == REDO)
      || (explicit.None? && status == Cancelled && v == ESCALATE_L3)
      || (needsDecision && v == ESCALATE_L3)
  }

  /** An invalid completion, or a negative verdict without findings. */
  predicate Unsound(r: Record) {
    match r
    case Completion(_, valid) => !valid
    case Short(_, _, explicit, findings, _, _) => explicit.Some? && explicit.value != PASS && findings == []
  }

  predicate SomeJudges(records: seq<Record>, v: Verdict) {
    exists i :: 0 <= i < |records| && Judges(records[i], v)
  }

  predicate SomeUnsound(records: seq<Record>) {
    records == [] || exists i :: 0 <= i < |records| && Unsound(records[i])
  }

  lemma SaysIsJudges(r: Record, v: Verdict)
    ensures Says(r, v) <==> Judges(r, v)
  {}

  lemma SomeSaysIsJudges(records: seq<Record>, v: Verdict)
    ensures v in AllVerdicts(records) <==> SomeJudges(records, v)
  {
    VerdictsAreOfRecords(records, v);
    forall i | 0 <= i < |records| ensures Says(records[i], v) <==> Judges(records[i], v) {
      SaysIsJudges(records[i], v);
    }
  }

  lemma FlagIsUnsound(records: seq<Record>)
    ensures AnyInconsistent(records) <==> SomeUnsound(records)
  {
    FlaggedIs(records);
    forall i | 0 <= i < |records| ensures Inconsistent(records[i]) <==> Unsound(records[i]) {}
  }

  lemma StrictestIs(vs: seq<Verdict>)
    ensures Strictest(vs) == ESCALATE_L3 <==> ESCALATE_L3 in vs
    ensures Strictest(vs) == ESCALATE_L2_5 <==> ESCALATE_L3 !in vs && ESCALATE_L2_5 in vs
    ensures Strictest(vs) == REDO <==> ESCALATE_L3 !in vs && ESCALATE_L2_5 !in vs && REDO in vs
  {
    StrictestBounds(vs);
  }

  /** The verdict is the strictest any record judges; unsound records, or none that judges, escalate. */
  lemma VerdictIsStrictest(records: seq<Record>)
    ensures var v := Consolidated(records);
      var bad := SomeUnsound(records) || SomeJudges(records, ESCALATE_L3);
      var negative := SomeJudges(records, ESCALATE_L2_5) || SomeJudges(records, REDO);
      && (v == ESCALATE_L2_5 <==> !bad && SomeJudges(records, ESCALATE_L2_5))
      && (v == REDO <==> !bad && !SomeJudges(records, ESCALATE_L2_5) && SomeJudges(records, REDO))
      && (v == PASS <==> !bad && !negative && SomeJudges(records, PASS))
  {
    FlagIsUnsound(records);
    StrictestIs(AllVerdicts(records));
    StrictestBounds(AllVerdicts(records));
    forall v ensures v in AllVerdicts(records) <==> SomeJudges(records, v) {
      SomeSaysIsJudges(records, v);
    }
    if AllVerdicts(records) != [] {
      assert SomeJudges(records, AllVerdicts(records)[0]);
    }
  }

  /** One failed, blocked, stale or cancelled result without an explicit verdict is enough for no pass; so
      is one unsound record, or one needed decision. */
  lemma OneFailureIsEnough(records: seq<Record>, i: nat)
    requires i < |records|
    requires Unsound(records[i]) || (records[i].Short? && (records[i].needsDecision ||
      (records[i].explicit.None? && records[i].status in {Failed, Blocked, StaleRevision, Cancelled})))
    ensures Consolidated(records) != PASS
  {
    VerdictIsStrictest(records);
    assert Unsound(records[i]) || Judges(records[i], REDO) || Judges(records[i], ESCALATE_L3);
  }

  /** The verdict is decided by what is in the set, not by the order of arrival. */
  lemma OrderDoesNotMatter(a: seq<Record>, b: seq<Record>)
    requires multiset(a) == multiset(b)
    ensures Consolidated(a) == Consolidated(b)
  {
    SameFlag(a, b);
    forall v ensures v in AllVerdicts(a) <==> v in AllVerdicts(b) {
      VerdictsAreOfRecords(a, v);
      VerdictsAreOfRecords(b, v);
      if SomeSays(a, v) { SameSayers(a, b, v); }
      if SomeSays(b, v) { SameSayers(b, a, v); }
    }
    StrictestBounds(AllVerdicts(a));
    StrictestBounds(AllVerdicts(b));
    SameStrictest(AllVerdicts(a), AllVerdicts(b));
  }

  lemma SameMembers(a: seq<Record>, b: seq<Record>)
    requires multiset(a) == multiset(b)
    ensures |a| == |b|
    ensures forall i :: 0 <= i < |a| ==> exists j :: 0 <= j < |b| && b[j] == a[i]
  {
    assert |multiset(a)| == |multiset(b)|;
    forall i | 0 <= i < |a| ensures exists j :: 0 <= j < |b| && b[j] == a[i] {
      assert a[i] in multiset(a);
      assert a[i] in multiset(b);
    }
  }

  lemma SameFlag(a: seq<Record>, b: seq<Record>)
    requires multiset(a) == multiset(b)
    ensures AnyInconsistent(a) == AnyInconsistent(b)
  {
    FlaggedIs(a);
    FlaggedIs(b);
    SameMembers(a, b);
    SameMembers(b, a);
  }

  lemma SameSayers(a: seq<Record>, b: seq<Record>, v: Verdict)
    requires multiset(a) == multiset(b) && SomeSays(a, v)
    ensures SomeSays(b, v)
  {
    SameMembers(a, b);
    var i :| 0 <= i < |a| && Says(a[i], v);
    var j :| 0 <= j < |b| && b[j] == a[i];
  }

  lemma SameStrictest(a: seq<Verdict>, b: seq<Verdict>)
    requires forall v :: v in a <==> v in b
    ensures Strictest(a) == Strictest(b) && (a == [] <==> b == [])
  {
    StrictestBounds(a);
    StrictestBounds(b);
    if a != [] {
      assert a[0] in b;
      var i :| 0 <= i < |b| && b[i] == Strictest(a);
      var j :| 0 <= j < |a| && a[j] == Strictest(b);
      assert Rank(Strictest(a)) == Rank(Strictest(b));
    }
    NotEmptyEither(a, b);
    NotEmptyEither(b, a);
  }

  lemma NotEmptyEither(a: seq<Verdict>, b: seq<Verdict>)
    requires forall v :: v in a ==> v in b
    ensures a != [] ==> b != []
  {
    if a != [] {
      assert a[0] in b;
    }
  }

  /** A record more never softens the verdict unless it is the first with a verdict: a set without
      any is escalated, and only then may a sound record that is not escalated itself soften it. */
  lemma MoreIsStricter(records: seq<Record>, r: Record)
    ensures Rank(Consolidated(records)) <= Rank(Consolidated(records + [r])) <==>
      || AllVerdicts(records) != []
      || Flagged(records) || Inconsistent(r)
      || VerdictsOf(r) == [] || ESCALATE_L3 in VerdictsOf(r)
  {
    OneMoreRecord(records, r);
    WeighedMore(AllVerdicts(records), AnyInconsistent(records), VerdictsOf(r), Flagged(records) || Inconsistent(r));
    if records == [] {
      assert AllVerdicts(records) == [];
    }
  }

  lemma WeighedMore(vs: seq<Verdict>, inconsistent: bool, more: seq<Verdict>, flagged: bool)
    requires inconsistent ==> flagged || vs == []
    ensures Rank(Weighed(vs, inconsistent)) <= Rank(Weighed(vs + more, flagged)) <==>
      vs != [] || flagged || more == [] || ESCALATE_L3 in more
  {
    StrictestBounds(vs);
    StrictestBounds(vs + more);
    if vs != [] {
      var i :| 0 <= i < |vs| && vs[i] == Strictest(vs);
      assert (vs + more)[i] == Strictest(vs);
    } else {
      assert vs + more == more;
    }
  }

  /** Without the condition it is false: an unknown status alone is escalated, with a pass it passes. */
  lemma FirstVerdictMaySoften(packet: string, text: string)
    ensures var odd := Short(packet, OtherStatus(text), None, [], [], false);
      && Consolidated([odd]) == ESCALATE_L3
      && Consolidated([odd] + [Completion(Some(PASS), true)]) == PASS
  {
    var odd, good := Short(packet, OtherStatus(text), None, [], [], false), Completion(Some(PASS), true);
    OneMoreRecord([], odd);
    OneMoreRecord([odd], good);
    assert [] + [odd] == [odd];
    assert Strictest([PASS]) == PASS;
  }

  lemma OneMoreRecord(records: seq<Record>, r: Record)
    ensures AllVerdicts(records + [r]) == AllVerdicts(records) + VerdictsOf(r)
    ensures Flagged(records + [r]) == (Flagged(records) || Inconsistent(r))
  {
    assert (records + [r])[..|records|] == records;
  }

  /* The adjudication packet. */

  /** What was kept of the artifact paths: a prefix, the last one replaced by a count when some were
      cut. */
  datatype Shown = Shown(paths: seq<string>, omitted: Option<nat>)

  predicate ShowsPrefix(s: Shown, all: seq<string>) {
    match s.omitted
    case None => s.paths == all || s.paths == []
    case Some(n) => s.paths <= all && |s.paths| + n == |all| && n > 0
  }

  function Slots(s: Shown): nat { |s.paths| + (if s.omitted.Some? then 1 else 0) }

  function Max(a: nat, b: nat): nat { if a > b then a else b }

  /** One cut: a quarter of the entries, at least one, and the count in the last place left. */
  function CutPaths(s: Shown, all: seq<string>): Shown
    requires Slots(s) > 0 && ShowsPrefix(s, all)
  {
    var left := Slots(s) - Max(1, Slots(s) / 4);
    if left == 0 then Shown([], None) else Shown(all[..left - 1], Some(|all| - left + 1))
  }

  lemma CutKeepsPrefix(s: Shown, all: seq<string>)
    requires Slots(s) > 0 && ShowsPrefix(s, all) && Slots(s) <= |all|
    ensures ShowsPrefix(CutPaths(s, all), all)
    ensures Slots(CutPaths(s, all)) == Slots(s) - Max(1, Slots(s) / 4) && Slots(CutPaths(s, all)) <= |all|
  {}

  /** The size estimate of a packet; never below that of one with neither paths nor findings. */
  ghost predicate Estimates(est: (seq<string>, Shown) -> nat) {
    forall fids, s :: est([], Shown([], None)) <= est(fids, s)
  }

  /** What the truncation keeps of findings and paths. */
  function Truncated(fids: seq<string>, s: Shown, all: seq<string>, est: (seq<string>, Shown) -> nat, maxTokens: nat)
    : (r: (seq<string>, Shown))
    requires ShowsPrefix(s, all) && Slots(s) <= |all|
    ensures r.0 <= fids && ShowsPrefix(r.1, all)
    decreases |fids| + Slots(s)
  {
    if est(fids, s) <= maxTokens || (fids == [] && Slots(s) == 0) then (fids, s)
    else if Slots(s) > 0 then
      CutKeepsPrefix(s, all);
      Truncated(fids, CutPaths(s, all), all, est, maxTokens)
    else Truncated(fids[..|fids| - 1], s, all, est, maxTokens)
  }

  /** With one path too many for the budget the path goes, and no count says so. */
  lemma SentinelMayBeLost(path: string, est: (seq<string>, Shown) -> nat, maxTokens: nat)
    requires est([], Shown([path], None)) > maxTokens >= est([], Shown([], None))
    ensures Truncated([], Shown([path], None), [path], est, maxTokens) == ([], Shown([], None))
  {
    assert CutPaths(Shown([path], None), [path]) == Shown([], None);
  }

  /** A finding too many goes without a trace, too. */
  lemma FindingsAreCutSilently(finding: string, est: (seq<string>, Shown) -> nat, maxTokens: nat)
    requires est([finding], Shown([], None)) > maxTokens >= est([], Shown([], None))
    ensures Truncated([finding], Shown([], None), [], est, maxTokens) == ([], Shown([], None))
  {}

  /** A question that is too long by itself leaves a packet over its budget. */
  lemma LongQuestionDoesNotFit(question: nat, est: (seq<string>, Shown) -> nat, maxTokens: nat)
    requires est([], Shown([], None)) == question > maxTokens
    ensures var r := Truncated([], Shown([], None), [], est, maxTokens);
      est(r.0, r.1) > maxTokens
  {}

  class ResultReducer {
    var results: seq<(string, Record)>
    var duplicates: nat
    const maxTokens: nat

    predicate Valid()
      reads this
    {
      forall i, j :: 0 <= i < j < |results| ==> results[i].0 != results[j].0
    }

    constructor (maxTokens: nat)
      ensures Valid() && results == [] && duplicates == 0 && this.maxTokens == maxTokens
    {
      this.maxTokens := maxTokens;
      results, duplicates := [], 0;
    }

    /** Adds a record under its key, once; a record that fails validation is dropped first. */
    method Add(key: string, r: Record, sound: bool) returns (added: bool)
      requires Valid()
      modifies this`results, this`duplicates
      ensures Valid()
      ensures added <==> sound && forall i :: 0 <= i < |old(results)| ==> old(results)[i].0 != key
      ensures results == if added then old(results) + [(key, r)] else old(results)
      ensures |results| + duplicates == |old(results)| + old(duplicates) + (if sound then 1 else 0)
    {
      if !sound {
        return false;
      }
      for i := 0 to |results|
        invariant forall k :: 0 <= k < i ==> results[k].0 != key
        invariant results == old(results) && duplicates == old(duplicates)
      {
        if results[i].0 == key {
          duplicates := duplicates + 1;
          return false;
        }
      }
      results := results + [(key, r)];
      return true;
    }

    /** The first `n` records, in the order they arrived. */
    function Records(n: nat): (r: seq<Record>)
      requires n <= |results|
      reads this
      ensures |r| == n && forall i :: 0 <= i < n ==> r[i] == results[i].1
    {
      if n == 0 then [] else Records(n - 1) + [results[n - 1].1]
    }

    method CollectVerdicts() returns (verdicts: seq<Verdict>, inconsistent: bool)
      ensures verdicts == AllVerdicts(Records(|results|))
      ensures inconsistent <==> AnyInconsistent(Records(|results|))
    {
      verdicts, inconsistent := [], false;
      ghost var seen: seq<Record> := [];
      for i := 0 to |results|
        invariant seen == Records(i)
        invariant verdicts == AllVerdicts(seen) && inconsistent == Flagged(seen)
      {
        var r := results[i].1;
        OneMoreRecord(seen, r);
        verdicts := verdicts + VerdictsOf(r);
        inconsistent := inconsistent || Inconsistent(r);
        seen := seen + [r];
      }
      if results == [] {
        inconsistent := true;
      }
    }

    static method StrictestOf(verdicts: seq<Verdict>) returns (worst: Verdict)
      ensures worst == Strictest(verdicts)
    {
      worst := PASS;
      for i := 0 to |verdicts|
        invariant worst == Strictest(verdicts[..i])
      {
        assert verdicts[..i + 1][..i] == verdicts[..i];
        if Rank(verdicts[i]) > Rank(worst) {
          worst := verdicts[i];
        }
      }
      assert verdicts[..|verdicts|] == verdicts;
    }

    /** The strictest verdict over everything collected. */
    method Consolidate() returns (verdict: Verdict)
      ensures verdict == Consolidated(Records(|results|))
    {
      var verdicts, inconsistent := CollectVerdicts();
      verdict := ESCALATE_L3;
      if verdicts != [] {
        verdict := StrictestOf(verdicts);
      }
      if inconsistent && Rank(verdict) < Rank(ESCALATE_L3) {
        verdict := ESCALATE_L3;
      }
    }

    /** Cuts paths, then findings, until the packet fits or nothing is left to cut.  It fits exactly
        when the packet without either fits; a shown count is exactly the number of paths left out;
        findings are shown from the first on. */
    method Truncate(findings: seq<string>, artifacts: seq<string>, est: (seq<string>, Shown) -> nat)
      returns (fids: seq<string>, arts: Shown)
      requires Estimates(est)
      ensures (fids, arts) == Truncated(findings, Shown(artifacts, None), artifacts, est, maxTokens)
      ensures est(fids, arts) <= maxTokens <==> est([], Shown([], None)) <= maxTokens
      ensures fids <= findings && ShowsPrefix(arts, artifacts)
      ensures fids != findings ==> arts == Shown([], None)
      ensures est(findings, Shown(artifacts, None)) <= maxTokens ==> fids == findings && arts == Shown(artifacts, None)
    {
      fids, arts := findings, Shown(artifacts, None);
      while est(fids, arts) > maxTokens && (fids != [] || Slots(arts) > 0)
        invariant fids <= findings && ShowsPrefix(arts, artifacts) && Slots(arts) <= |artifacts|
        invariant Truncated(fids, arts, artifacts, est, maxTokens)
               == Truncated(findings, Shown(artifacts, None), artifacts, est, maxTokens)
        invariant fids != findings ==> arts == Shown([], None)
        invariant est(findings, Shown(artifacts, None)) <= maxTokens ==>
          fids == findings && arts == Shown(artifacts, None)
        decreases |fids| + Slots(arts)
      {
        if Slots(arts) > 0 {
          CutKeepsPrefix(arts, artifacts);
          arts := CutPaths(arts, artifacts);
        } else {
          assert arts == Shown([], None);
          fids := fids[..|fids| - 1];
        }
      }
      if Slots(arts) == 0 && fids == [] {
        assert arts == Shown([], None);
      }
    }
  }
}
