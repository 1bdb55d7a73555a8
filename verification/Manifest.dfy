/** Parent-manifest admission: the whole batch is planned before the first write, packet files are
    written one by one, the ledger once, the parent registry last.  A crash may cut an import off
    after any write. */
module Manifest {
  import opened Wrappers

  /** A packet id is a digest of manifest id and task id, taken to be injective; other packets of
      the ledger have other ids. */
  datatype Pid = Imported(manifest: string, task: string) | Foreign(name: string)

  datatype Body = Body(name: string, goal: string, paths: seq<string>, acceptance: seq<string>,
                       role: string, cwd: string)

  datatype Task = Task(id: string, body: Body)

  datatype Manifest = Manifest(id: string, parent: string, target: int, enabled: bool, tasks: seq<Task>)

  /** What a packet file and the immutable part of a ledger entry say. */
  datatype Contract = Contract(manifest: string, parent: string, body: Body)

  /** A ledger entry; `contract` is missing on one that is not an object. */
  datatype Entry = Entry(contract: Option<Contract>, state: string, history: seq<string>, attempts: nat)

  datatype Parent = Parent(active: bool, manifest: string, target: int)

  datatype Disk = Disk(packets: map<Pid, Contract>, ledger: map<Pid, Entry>, parents: map<string, Parent>)

  const ROLES: set<string> := {"worker", "verifier", "reviewer", "plan_expander"}

  /** The text whose digest names a packet: the two ids around a NUL. */
  function PidText(manifest: string, task: string): string { manifest + ['\0'] + task }

  /** Ids never hold a NUL, so different pairs of ids have different texts. */
  lemma PidTextIsInjective(m1: string, t1: string, m2: string, t2: string)
    requires '\0' !in m1 && '\0' !in m2
    requires PidText(m1, t1) == PidText(m2, t2)
    ensures m1 == m2 && t1 == t2
  {
    var s := PidText(m1, t1);
    assert s[|m1|] == '\0' && PidText(m2, t2)[|m2|] == '\0';
    assert |m1| == |m2|;
    assert m1 == s[..|m1|] == PidText(m2, t2)[..|m2|] == m2;
    assert t1 == s[|m1| + 1..] == PidText(m2, t2)[|m2| + 1..] == t2;
  }

  function PidOf(m: Manifest, t: Task): Pid { Imported(m.id, t.id) }

  function ContractOf(m: Manifest, t: Task): Contract { Contract(m.id, m.parent, t.body) }

  function FreshEntry(m: Manifest, t: Task): Entry { Entry(Some(ContractOf(m, t)), "DISPATCHABLE", [], 0) }

  /* Filling a map: what is there stays, what is missing is added in order. */

  function Fill<V>(m: map<Pid, V>, adds: seq<(Pid, V)>): map<Pid, V> {
    if adds == [] then m
    else
      var r, last := Fill(m, adds[..|adds| - 1]), adds[|adds| - 1];
      if last.0 in r then r else r[last.0 := last.1]
  }

  lemma FillAppend<V>(m: map<Pid, V>, adds: seq<(Pid, V)>, last: (Pid, V))
    ensures Fill(m, adds + [last]) == if last.0 in Fill(m, adds) then Fill(m, adds) else Fill(m, adds)[last.0 := last.1]
  {
    assert (adds + [last])[..|adds|] == adds;
  }

  lemma {:induction false} FillJoin<V>(m: map<Pid, V>, a: seq<(Pid, V)>, b: seq<(Pid, V)>)
    ensures Fill(m, a + b) == Fill(Fill(m, a), b)
  {
    if b == [] {
      assert a + b == a;
    } else {
      var init, last := b[..|b| - 1], b[|b| - 1];
      FillJoin(m, a, init);
      FillAppend(m, a + init, last);
      assert a + b == (a + init) + [last];
    }
  }

  /** Nothing that was there is changed, and everything asked for is there. */
  lemma {:induction false} FillKeeps<V>(m: map<Pid, V>, adds: seq<(Pid, V)>)
    ensures forall k :: k in m ==> k in Fill(m, adds) && Fill(m, adds)[k] == m[k]
    ensures forall i :: 0 <= i < |adds| ==> adds[i].0 in Fill(m, adds)
  {
    if adds != [] {
      FillKeeps(m, adds[..|adds| - 1]);
    }
  }

  /** What is new is one of the additions. */
  lemma {:induction false} FillAdds<V>(m: map<Pid, V>, adds: seq<(Pid, V)>, k: Pid)
    requires k in Fill(m, adds) && k !in m
    ensures exists i :: 0 <= i < |adds| && adds[i] == (k, Fill(m, adds)[k])
  {
    var init, last := adds[..|adds| - 1], adds[|adds| - 1];
    if k in Fill(m, init) {
      FillAdds(m, init, k);
      var i :| 0 <= i < |init| && init[i] == (k, Fill(m, init)[k]);
      assert adds[i] == init[i];
    } else {
      assert adds[|adds| - 1] == (k, Fill(m, adds)[k]);
    }
  }

  lemma {:induction false} FullFillIsIdle<V>(m: map<Pid, V>, adds: seq<(Pid, V)>)
    requires forall i :: 0 <= i < |adds| ==> adds[i].0 in m
    ensures Fill(m, adds) == m
  {
    if adds != [] {
      FullFillIsIdle(m, adds[..|adds| - 1]);
    }
  }

  /** Filling a prefix first makes no difference. */
  lemma PrefixFillIsAbsorbed<V>(m: map<Pid, V>, adds: seq<(Pid, V)>, n: nat)
    requires n <= |adds|
    ensures Fill(Fill(m, adds[..n]), adds) == Fill(m, adds)
  {
    assert adds == adds[..n] + adds[n..];
    FillJoin(Fill(m, adds[..n]), adds[..n], adds[n..]);
    FillKeeps(m, adds[..n]);
    FullFillIsIdle(Fill(m, adds[..n]), adds[..n]);
    FillJoin(m, adds[..n], adds[n..]);
  }

  /* One import. */

  function PacketsOf(m: Manifest): (r: seq<(Pid, Contract)>)
    ensures |r| == |m.tasks| && forall i :: 0 <= i < |r| ==> r[i] == (PidOf(m, m.tasks[i]), ContractOf(m, m.tasks[i]))
  {
    seq(|m.tasks|, i requires 0 <= i < |m.tasks| => (PidOf(m, m.tasks[i]), ContractOf(m, m.tasks[i])))
  }

  function EntriesOf(m: Manifest): (r: seq<(Pid, Entry)>)
    ensures |r| == |m.tasks| && forall i :: 0 <= i < |r| ==> r[i] == (PidOf(m, m.tasks[i]), FreshEntry(m, m.tasks[i]))
  {
    seq(|m.tasks|, i requires 0 <= i < |m.tasks| => (PidOf(m, m.tasks[i]), FreshEntry(m, m.tasks[i])))
  }

  predicate DistinctTasks(m: Manifest) {
    forall i, j :: 0 <= i < j < |m.tasks| ==> m.tasks[i].id != m.tasks[j].id
  }

  datatype Limits = Limits(dialogue: int, backlog: int)

  /** The checks on the document that concern admission. */
  predicate Valid(m: Manifest, limits: Limits) {
    && m.enabled
    && 1 <= m.target <= limits.dialogue
    && 1 <= |m.tasks| <= limits.backlog
    && DistinctTasks(m)
    && (forall i :: 0 <= i < |m.tasks| ==> m.tasks[i].body.role in ROLES)
  }

  /** A file or entry is already there with other content. */
  predicate Collides(d: Disk, m: Manifest, t: Task) {
    || (PidOf(m, t) in d.packets && d.packets[PidOf(m, t)] != ContractOf(m, t))
    || (PidOf(m, t) in d.ledger && d.ledger[PidOf(m, t)].contract != Some(ContractOf(m, t)))
  }

  predicate AnyCollision(d: Disk, m: Manifest) {
    exists i :: 0 <= i < |m.tasks| && Collides(d, m, m.tasks[i])
  }

  predicate Present(d: Disk, m: Manifest, t: Task) {
    PidOf(m, t) in d.packets && PidOf(m, t) in d.ledger
  }

  predicate Stopped(d: Disk, m: Manifest) {
    m.parent in d.parents && !d.parents[m.parent].active
  }

  /** Where an import was cut off: after packet files of the first `n` tasks, after the ledger, or
      nowhere. */
  datatype Cut = AtPackets(n: nat) | AtLedger | Nowhere

  predicate Admissible(d: Disk, m: Manifest, limits: Limits) {
    Valid(m, limits) && !Stopped(d, m) && !AnyCollision(d, m)
  }

  /** The packet files written before the cut. */
  function Reached(m: Manifest, cut: Cut): (r: seq<(Pid, Contract)>)
    ensures r <= PacketsOf(m)
  {
    if cut.AtPackets? && cut.n < |m.tasks| then PacketsOf(m)[..cut.n] else PacketsOf(m)
  }

  function Written(d: Disk, m: Manifest, cut: Cut): Disk {
    Disk(Fill(d.packets, Reached(m, cut)),
         if cut.AtPackets? then d.ledger else Fill(d.ledger, EntriesOf(m)),
         if cut.Nowhere? then d.parents[m.parent := Parent(true, m.id, m.target)] else d.parents)
  }

  function ImportOf(d: Disk, m: Manifest, limits: Limits, cut: Cut): Disk {
    if Admissible(d, m, limits) then Written(d, m, cut) else d
  }

  /* The theorems. */

  /** An import never changes an entry or packet that is already there: no state, history or
      attempt count of an admitted packet is touched, wherever it is cut off. */
  lemma ImportAltersNothing(d: Disk, m: Manifest, limits: Limits, cut: Cut, pid: Pid)
    ensures var r := ImportOf(d, m, limits, cut);
      && (pid in d.ledger ==> pid in r.ledger && r.ledger[pid] == d.ledger[pid])
      && (pid in d.packets ==> pid in r.packets && r.packets[pid] == d.packets[pid])
  {
    FillKeeps(d.packets, Reached(m, cut));
    FillKeeps(d.ledger, EntriesOf(m));
  }

  predicate IsTaskPacket(m: Manifest, pid: Pid, c: Contract) {
    exists i :: 0 <= i < |m.tasks| && pid == PidOf(m, m.tasks[i]) && c == ContractOf(m, m.tasks[i])
  }

  predicate IsTaskEntry(m: Manifest, pid: Pid, e: Entry) {
    exists i :: 0 <= i < |m.tasks| && pid == PidOf(m, m.tasks[i]) && e == FreshEntry(m, m.tasks[i])
  }

  /** What an import adds is a task of the manifest: a fresh entry, and never before its packet. */
  lemma ImportAddsTasks(d: Disk, m: Manifest, limits: Limits, cut: Cut, pid: Pid)
    ensures var r := ImportOf(d, m, limits, cut);
      && (pid in r.packets && pid !in d.packets ==> IsTaskPacket(m, pid, r.packets[pid]))
      && (pid in r.ledger && pid !in d.ledger ==> pid in r.packets && IsTaskEntry(m, pid, r.ledger[pid]))
  {
    var r := ImportOf(d, m, limits, cut);
    if pid in r.packets && pid !in d.packets {
      var adds := Reached(m, cut);
      FillAdds(d.packets, adds, pid);
      var i :| 0 <= i < |adds| && adds[i] == (pid, r.packets[pid]);
      assert adds[i] == PacketsOf(m)[i];
    }
    if pid in r.ledger && pid !in d.ledger {
      FillAdds(d.ledger, EntriesOf(m), pid);
      var i :| 0 <= i < |m.tasks| && EntriesOf(m)[i] == (pid, r.ledger[pid]);
      FillKeeps(d.packets, PacketsOf(m));
      assert PacketsOf(m)[i].0 == pid;
    }
  }

  /** A cut-off import never turns into a collision later. */
  lemma CutKeepsAdmissible(d: Disk, m: Manifest, limits: Limits, n: nat)
    requires Valid(m, limits)
    ensures Admissible(ImportOf(d, m, limits, AtPackets(n)), m, limits) == Admissible(d, m, limits)
    ensures Admissible(ImportOf(d, m, limits, AtLedger), m, limits) == Admissible(d, m, limits)
  {
    if Admissible(d, m, limits) {
      CutCollidesNot(d, m, limits, AtPackets(n));
      CutCollidesNot(d, m, limits, AtLedger);
    }
  }

  lemma CutCollidesNot(d: Disk, m: Manifest, limits: Limits, cut: Cut)
    requires Admissible(d, m, limits)
    ensures !AnyCollision(ImportOf(d, m, limits, cut), m)
  {
    var r := ImportOf(d, m, limits, cut);
    forall i | 0 <= i < |m.tasks| ensures !Collides(r, m, m.tasks[i]) {
      var pid := PidOf(m, m.tasks[i]);
      assert !Collides(d, m, m.tasks[i]);
      ImportAltersNothing(d, m, limits, cut, pid);
      ImportAddsTasks(d, m, limits, cut, pid);
    }
  }

  lemma CutIsAbsorbed(d: Disk, m: Manifest, limits: Limits, cut: Cut)
    requires Valid(m, limits)
    ensures ImportOf(ImportOf(d, m, limits, cut), m, limits, Nowhere).packets == ImportOf(d, m, limits, Nowhere).packets
    ensures ImportOf(ImportOf(d, m, limits, cut), m, limits, Nowhere).ledger == ImportOf(d, m, limits, Nowhere).ledger
  {
    if Admissible(d, m, limits) {
      CutCollidesNot(d, m, limits, cut);
      assert PacketsOf(m)[..|Reached(m, cut)|] == Reached(m, cut) && EntriesOf(m)[..|m.tasks|] == EntriesOf(m);
      PrefixFillIsAbsorbed(d.packets, PacketsOf(m), |Reached(m, cut)|);
      PrefixFillIsAbsorbed(d.ledger, EntriesOf(m), |m.tasks|);
    }
  }

  /** What happens around the imports of one manifest: one of them is cut off somewhere, the lifecycle
      of an admitted packet moves on, a parent is stopped, another manifest is imported. */
  datatype Step =
    | Attempt(cut: Cut)
    | Evolve(pid: Pid, state: string, history: seq<string>, attempts: nat)
    | Stop(parent: string)
    | Other(m: Manifest, cut: Cut)

  function Next(d: Disk, m: Manifest, limits: Limits, step: Step): Disk {
    match step
    case Attempt(cut) => ImportOf(d, m, limits, cut)
    case Evolve(pid, state, history, attempts) =>
      if pid !in d.ledger then d
      else d.(ledger := d.ledger[pid := Entry(d.ledger[pid].contract, state, history, attempts)])
    case Stop(parent) => StopParent(d, parent)
    case Other(other, cut) => ImportOf(d, other, limits, cut)
  }

  /** A parent session ends: it stays registered, inactive. */
  function StopParent(d: Disk, parent: string): Disk {
    if parent in d.parents then d.(parents := d.parents[parent := d.parents[parent].(active := false)]) else d
  }

  /** The steps of the manifest itself and of its packets. */
  predicate IsOwn(step: Step) {
    step.Attempt? || step.Evolve?
  }

  function Run(d: Disk, m: Manifest, limits: Limits, steps: seq<Step>): Disk {
    if steps == [] then d
    else Next(Run(d, m, limits, steps[..|steps| - 1]), m, limits, steps[|steps| - 1])
  }

  /** The same packets are admitted under the same contracts. */
  predicate SameAdmissions(d: Disk, e: Disk) {
    && d.packets == e.packets
    && d.ledger.Keys == e.ledger.Keys
    && (forall pid :: pid in d.ledger ==> d.ledger[pid].contract == e.ledger[pid].contract)
  }

  lemma {:induction false} FillKeepsContracts(a: map<Pid, Entry>, b: map<Pid, Entry>, adds: seq<(Pid, Entry)>)
    requires a.Keys == b.Keys && forall pid :: pid in a ==> a[pid].contract == b[pid].contract
    ensures Fill(a, adds).Keys == Fill(b, adds).Keys
    ensures forall pid :: pid in Fill(a, adds) ==> Fill(a, adds)[pid].contract == Fill(b, adds)[pid].contract
  {
    if adds != [] {
      FillKeepsContracts(a, b, adds[..|adds| - 1]);
    }
  }

  /** An import sees contracts only. */
  lemma ImportSeesContracts(d: Disk, e: Disk, m: Manifest, limits: Limits, cut: Cut)
    requires SameAdmissions(d, e) && d.parents == e.parents
    ensures SameAdmissions(ImportOf(d, m, limits, cut), ImportOf(e, m, limits, cut))
  {
    FillKeepsContracts(d.ledger, e.ledger, EntriesOf(m));
    forall i | 0 <= i < |m.tasks| ensures Collides(d, m, m.tasks[i]) == Collides(e, m, m.tasks[i]) {
      var pid := PidOf(m, m.tasks[i]);
      assert pid in d.ledger <==> pid in d.ledger.Keys;
    }
  }

  /** However many imports were cut off at whatever write, and however the lifecycle of admitted
      packets moved meanwhile, one completed import leaves the packets and admissions of one that
      was never interrupted. */
  lemma {:induction false} AdmissionSurvivesCrashes(d: Disk, m: Manifest, limits: Limits, steps: seq<Step>)
    requires Valid(m, limits) && forall i :: 0 <= i < |steps| ==> IsOwn(steps[i])
    ensures SameAdmissions(ImportOf(Run(d, m, limits, steps), m, limits, Nowhere), ImportOf(d, m, limits, Nowhere))
  {
    if steps != [] {
      var before, last := Run(d, m, limits, steps[..|steps| - 1]), steps[|steps| - 1];
      AdmissionSurvivesCrashes(d, m, limits, steps[..|steps| - 1]);
      if last.Attempt? {
        CutIsAbsorbed(before, m, limits, last.cut);
      } else {
        ImportSeesContracts(Next(before, m, limits, last), before, m, limits, Nowhere);
      }
    }
  }

  /** Without lifecycle steps in between, the ledger is the same to the last field. */
  lemma {:induction false} CrashesAloneLeaveNoTrace(d: Disk, m: Manifest, limits: Limits, steps: seq<Step>)
    requires Valid(m, limits) && forall i :: 0 <= i < |steps| ==> steps[i].Attempt?
    ensures ImportOf(Run(d, m, limits, steps), m, limits, Nowhere).packets == ImportOf(d, m, limits, Nowhere).packets
    ensures ImportOf(Run(d, m, limits, steps), m, limits, Nowhere).ledger == ImportOf(d, m, limits, Nowhere).ledger
  {
    if steps != [] {
      var before, last := Run(d, m, limits, steps[..|steps| - 1]), steps[|steps| - 1];
      CrashesAloneLeaveNoTrace(d, m, limits, steps[..|steps| - 1]);
      CutIsAbsorbed(before, m, limits, last.cut);
    }
  }

  /* One import, in terms of the manifest and the disk. */

  /** Exactly when a manifest is admitted: it is enabled, asks for a target within the dialogue's limit,
      has some tasks within the backlog's, each with its own id and a known role, its parent was not
      stopped, and nothing is on disk under the id of a task with other content. */
  lemma AdmissibleWhen(d: Disk, m: Manifest, limits: Limits)
    ensures Admissible(d, m, limits) <==>
      && m.enabled && 1 <= m.target <= limits.dialogue && 1 <= |m.tasks| <= limits.backlog
      && (forall i, j :: 0 <= i < j < |m.tasks| ==> m.tasks[i].id != m.tasks[j].id)
      && (forall i :: 0 <= i < |m.tasks| ==>
            m.tasks[i].body.role in {"worker", "verifier", "reviewer", "plan_expander"})
      && (m.parent in d.parents ==> d.parents[m.parent].active)
      && (forall i :: 0 <= i < |m.tasks| ==> MatchesDisk(d, m, m.tasks[i]))
  {
    forall i | 0 <= i < |m.tasks| ensures Collides(d, m, m.tasks[i]) <==> !MatchesDisk(d, m, m.tasks[i]) {}
  }

  /** What is on disk under the task's id, packet or entry, is this task of this manifest. */
  predicate MatchesDisk(d: Disk, m: Manifest, t: Task) {
    var pid, contract := Imported(m.id, t.id), Contract(m.id, m.parent, t.body);
    && (pid in d.packets ==> d.packets[pid] == contract)
    && (pid in d.ledger ==> d.ledger[pid].contract == Some(contract))
  }

  /** The task is admitted: its packet and its entry hold it, and a new entry is dispatchable, with no
      history and no attempts, while one that was there is as it was. */
  predicate IsAdmitted(before: Disk, now: Disk, m: Manifest, t: Task) {
    var pid, contract := Imported(m.id, t.id), Contract(m.id, m.parent, t.body);
    && pid in now.packets && now.packets[pid] == contract
    && pid in now.ledger && now.ledger[pid].contract == Some(contract)
    && now.ledger[pid] == (if pid in before.ledger then before.ledger[pid]
                           else Entry(Some(contract), "DISPATCHABLE", [], 0))
  }

  lemma {:induction false} FillHolds<V>(m: map<Pid, V>, adds: seq<(Pid, V)>, i: nat)
    requires i < |adds| && forall j :: 0 <= j < |adds| && adds[j].0 == adds[i].0 ==> adds[j] == adds[i]
    ensures var pid := adds[i].0;
      pid in Fill(m, adds) && Fill(m, adds)[pid] == if pid in m then m[pid] else adds[i].1
  {
    FillKeeps(m, adds);
    if adds[i].0 !in m {
      FillAdds(m, adds, adds[i].0);
    }
  }

  /** After a completed import every task is admitted and the parent is registered with it. */
  lemma DoneMeansAdmitted(d: Disk, m: Manifest, limits: Limits, i: nat)
    requires Admissible(d, m, limits) && i < |m.tasks|
    ensures var r := Written(d, m, Nowhere);
      && IsAdmitted(d, r, m, m.tasks[i])
      && m.parent in r.parents && r.parents[m.parent] == Parent(true, m.id, m.target)
  {
    AdmissibleWhen(d, m, limits);
    assert MatchesDisk(d, m, m.tasks[i]);
    FillHolds(d.packets, PacketsOf(m), i);
    FillHolds(d.ledger, EntriesOf(m), i);
  }

  /* The same among stops and other imports. */

  predicate SameAt<V(==)>(a: map<Pid, V>, b: map<Pid, V>, pid: Pid) {
    (pid in a <==> pid in b) && (pid in a ==> a[pid] == b[pid])
  }

  predicate SameContractAt(a: map<Pid, Entry>, b: map<Pid, Entry>, pid: Pid) {
    (pid in a <==> pid in b) && (pid in a ==> a[pid].contract == b[pid].contract)
  }

  /** The packets of one manifest are admitted alike. */
  ghost predicate SameFor(d: Disk, e: Disk, id: string) {
    forall pid: Pid :: pid.Imported? && pid.manifest == id ==>
      SameAt(d.packets, e.packets, pid) && SameContractAt(d.ledger, e.ledger, pid)
  }

  lemma {:induction false} FillSeesOne<V>(a: map<Pid, V>, b: map<Pid, V>, adds: seq<(Pid, V)>, pid: Pid)
    requires SameAt(a, b, pid)
    ensures SameAt(Fill(a, adds), Fill(b, adds), pid)
  {
    if adds != [] {
      FillSeesOne(a, b, adds[..|adds| - 1], pid);
    }
  }

  lemma {:induction false} FillSeesContract(a: map<Pid, Entry>, b: map<Pid, Entry>, adds: seq<(Pid, Entry)>, pid: Pid)
    requires SameContractAt(a, b, pid)
    ensures SameContractAt(Fill(a, adds), Fill(b, adds), pid)
  {
    if adds != [] {
      FillSeesContract(a, b, adds[..|adds| - 1], pid);
    }
  }

  lemma SameCollisions(d: Disk, e: Disk, m: Manifest)
    requires SameFor(d, e, m.id)
    ensures AnyCollision(d, m) == AnyCollision(e, m)
  {
    forall i | 0 <= i < |m.tasks| ensures Collides(d, m, m.tasks[i]) == Collides(e, m, m.tasks[i]) {
      var pid := PidOf(m, m.tasks[i]);
      assert SameAt(d.packets, e.packets, pid) && SameContractAt(d.ledger, e.ledger, pid);
    }
  }

  /** An import sees its own packets and whether its parent was stopped, nothing else. */
  lemma ImportSeesItsOwn(d: Disk, e: Disk, m: Manifest, limits: Limits, cut: Cut)
    requires SameFor(d, e, m.id) && Stopped(d, m) == Stopped(e, m)
    ensures SameFor(ImportOf(d, m, limits, cut), ImportOf(e, m, limits, cut), m.id)
  {
    SameCollisions(d, e, m);
    forall pid: Pid | pid.Imported? && pid.manifest == m.id
      ensures SameAt(ImportOf(d, m, limits, cut).packets, ImportOf(e, m, limits, cut).packets, pid)
      ensures SameContractAt(ImportOf(d, m, limits, cut).ledger, ImportOf(e, m, limits, cut).ledger, pid)
    {
      assert SameAt(d.packets, e.packets, pid) && SameContractAt(d.ledger, e.ledger, pid);
      FillSeesOne(d.packets, e.packets, Reached(m, cut), pid);
      FillSeesContract(d.ledger, e.ledger, EntriesOf(m), pid);
    }
  }

  /** Another manifest's import leaves the packets of this one alone. */
  lemma OtherImportIsUnseen(d: Disk, m: Manifest, other: Manifest, limits: Limits, cut: Cut)
    requires other.id != m.id
    ensures SameFor(ImportOf(d, other, limits, cut), d, m.id)
  {
    var r := ImportOf(d, other, limits, cut);
    forall pid: Pid | pid.Imported? && pid.manifest == m.id
      ensures SameAt(r.packets, d.packets, pid) && SameContractAt(r.ledger, d.ledger, pid)
    {
      ImportAltersNothing(d, other, limits, cut, pid);
      ImportAddsTasks(d, other, limits, cut, pid);
    }
  }

  /** No step but the stop of the parent itself stops it, and none restarts it. */
  lemma StopsStay(d: Disk, m: Manifest, limits: Limits, step: Step)
    ensures Stopped(d, m) ==> Stopped(Next(d, m, limits, step), m)
  {}

  /** A step between the imports of the manifest changes none of its admissions. */
  lemma StepIsUnseen(d: Disk, m: Manifest, limits: Limits, step: Step)
    requires !step.Attempt? && (step.Other? ==> step.m.id != m.id)
    ensures SameFor(Next(d, m, limits, step), d, m.id)
  {
    if step.Other? {
      OtherImportIsUnseen(d, m, step.m, limits, step.cut);
    }
  }

  /** However many imports were cut off, packets moved, parents were stopped and other manifests were
      imported in between: if the parent is still active, one completed import leaves the packets and
      admissions of its manifest as one that was never interrupted. */
  lemma {:induction false} AdmissionSurvivesOthers(d: Disk, m: Manifest, limits: Limits, steps: seq<Step>)
    requires Valid(m, limits) && !Stopped(Run(d, m, limits, steps), m)
    requires forall i :: 0 <= i < |steps| ==> steps[i].Other? ==> steps[i].m.id != m.id
    ensures !Stopped(d, m)
    ensures SameFor(ImportOf(Run(d, m, limits, steps), m, limits, Nowhere), ImportOf(d, m, limits, Nowhere), m.id)
  {
    if steps != [] {
      var before, last := Run(d, m, limits, steps[..|steps| - 1]), steps[|steps| - 1];
      StopsStay(before, m, limits, last);
      AdmissionSurvivesOthers(d, m, limits, steps[..|steps| - 1]);
      if last.Attempt? {
        CutIsAbsorbed(before, m, limits, last.cut);
      } else {
        StepIsUnseen(before, m, limits, last);
        ImportSeesItsOwn(Next(before, m, limits, last), before, m, limits, Nowhere);
      }
    }
  }

  /** And if it was stopped, the import is refused and changes nothing. */
  lemma StoppedParentsAdmitNothing(d: Disk, m: Manifest, limits: Limits, steps: seq<Step>, cut: Cut)
    requires Stopped(d, m)
    ensures Stopped(Run(d, m, limits, steps), m)
    ensures ImportOf(Run(d, m, limits, steps), m, limits, cut) == Run(d, m, limits, steps)
  {
    StopsLast(d, m, limits, steps);
  }

  lemma {:induction false} StopsLast(d: Disk, m: Manifest, limits: Limits, steps: seq<Step>)
    requires Stopped(d, m)
    ensures Stopped(Run(d, m, limits, steps), m)
  {
    if steps != [] {
      StopsLast(d, m, limits, steps[..|steps| - 1]);
      StopsStay(Run(d, m, limits, steps[..|steps| - 1]), m, limits, steps[|steps| - 1]);
    }
  }

  function CountPresent(d: Disk, m: Manifest, n: nat): nat
    requires n <= |m.tasks|
  {
    if n == 0 then 0 else CountPresent(d, m, n - 1) + (if Present(d, m, m.tasks[n - 1]) then 1 else 0)
  }

  /** After a completed import every task is admitted, so the next one counts them all existing. */
  lemma {:induction false} AllArePresent(d: Disk, m: Manifest, n: nat)
    requires n <= |m.tasks|
    ensures CountPresent(Written(d, m, Nowhere), m, n) == n
  {
    if n > 0 {
      AllArePresent(d, m, n - 1);
      FillKeeps(d.packets, PacketsOf(m));
      FillKeeps(d.ledger, EntriesOf(m));
      assert PacketsOf(m)[n - 1].0 == EntriesOf(m)[n - 1].0 == PidOf(m, m.tasks[n - 1]);
    }
  }

  /** Manifests with different ids do not see each other's packets: their imports commute. */
  lemma ImportsCommute(d: Disk, m1: Manifest, m2: Manifest, cut1: Cut, cut2: Cut)
    requires m1.id != m2.id
    ensures Written(Written(d, m1, cut1), m2, cut2).packets == Written(Written(d, m2, cut2), m1, cut1).packets
    ensures Written(Written(d, m1, cut1), m2, cut2).ledger == Written(Written(d, m2, cut2), m1, cut1).ledger
  {
    FillsCommute(d.packets, Reached(m1, cut1), Reached(m2, cut2));
    FillsCommute(d.ledger, EntriesOf(m1), EntriesOf(m2));
  }

  lemma {:induction false} FillPasses<V>(m: map<Pid, V>, a: seq<(Pid, V)>, k: Pid, v: V)
    requires forall i :: 0 <= i < |a| ==> a[i].0 != k
    ensures Fill(m[k := v], a) == Fill(m, a)[k := v]
    ensures k in Fill(m, a) <==> k in m
  {
    if a != [] {
      FillPasses(m, a[..|a| - 1], k, v);
    }
  }

  lemma {:induction false} FillsCommute<V>(m: map<Pid, V>, a: seq<(Pid, V)>, b: seq<(Pid, V)>)
    requires forall i, j :: 0 <= i < |a| && 0 <= j < |b| ==> a[i].0 != b[j].0
    ensures Fill(Fill(m, a), b) == Fill(Fill(m, b), a)
  {
    if b != [] {
      var init, last := b[..|b| - 1], b[|b| - 1];
      FillsCommute(m, a, init);
      FillPasses(Fill(m, init), a, last.0, last.1);
    }
  }

  /* The importer as it writes. */

  datatype Outcome = Refused | Died | ParentGone | Done(imported: nat, existing: nat)

  datatype Plan = Plan(pid: Pid, contract: Contract, entry: Entry, writePacket: bool, writeEntry: bool)

  function PlanOf(d: Disk, m: Manifest, t: Task): Plan {
    Plan(PidOf(m, t), ContractOf(m, t), FreshEntry(m, t), PidOf(m, t) !in d.packets, PidOf(m, t) !in d.ledger)
  }

  function Planned(d: Disk, m: Manifest, n: nat): seq<Plan>
    requires n <= |m.tasks|
  {
    if n == 0 then []
    else
      var t := m.tasks[n - 1];
      Planned(d, m, n - 1)
      + (if Present(d, m, t) then [] else [PlanOf(d, m, t)])
  }

  function PutPackets(packets: map<Pid, Contract>, plans: seq<Plan>): map<Pid, Contract> {
    if plans == [] then packets
    else
      var r, last := PutPackets(packets, plans[..|plans| - 1]), plans[|plans| - 1];
      if last.writePacket then r[last.pid := last.contract] else r
  }

  function PutEntries(ledger: map<Pid, Entry>, plans: seq<Plan>): map<Pid, Entry> {
    if plans == [] then ledger
    else
      var r, last := PutEntries(ledger, plans[..|plans| - 1]), plans[|plans| - 1];
      if last.writeEntry then r[last.pid := last.entry] else r
  }

  lemma NotAddedBefore<V>(m: map<Pid, V>, adds: seq<(Pid, V)>, k: Pid)
    requires forall i :: 0 <= i < |adds| ==> adds[i].0 != k
    ensures k in Fill(m, adds) <==> k in m
  {
    FillKeeps(m, adds);
    if k in Fill(m, adds) && k !in m {
      FillAdds(m, adds, k);
    }
  }

  lemma PutAppend(packets: map<Pid, Contract>, ledger: map<Pid, Entry>, plans: seq<Plan>, p: Plan)
    ensures PutPackets(packets, plans + [p])
      == if p.writePacket then PutPackets(packets, plans)[p.pid := p.contract] else PutPackets(packets, plans)
    ensures PutEntries(ledger, plans + [p])
      == if p.writeEntry then PutEntries(ledger, plans)[p.pid := p.entry] else PutEntries(ledger, plans)
  {
    assert (plans + [p])[..|plans|] == plans;
  }

  /** A map with one more entry, unless it is there already. */
  function PutOne<V>(m: map<Pid, V>, there: bool, pid: Pid, v: V): map<Pid, V> {
    if there then m else m[pid := v]
  }

  /** The plan of one more task writes what that task lacks. */
  lemma PlanOneMorePacket(d: Disk, m: Manifest, n: nat)
    requires n < |m.tasks|
    ensures var pid := PidOf(m, m.tasks[n]);
      PutPackets(d.packets, Planned(d, m, n + 1))
      == PutOne(PutPackets(d.packets, Planned(d, m, n)), pid in d.packets, pid, ContractOf(m, m.tasks[n]))
  {
    var t, plans := m.tasks[n], Planned(d, m, n);
    if Present(d, m, t) {
      assert Planned(d, m, n + 1) == plans;
    } else {
      PutAppend(d.packets, d.ledger, plans, PlanOf(d, m, t));
      assert Planned(d, m, n + 1) == plans + [PlanOf(d, m, t)];
    }
  }

  lemma PlanOneMoreEntry(d: Disk, m: Manifest, n: nat)
    requires n < |m.tasks|
    ensures var pid := PidOf(m, m.tasks[n]);
      PutEntries(d.ledger, Planned(d, m, n + 1))
      == PutOne(PutEntries(d.ledger, Planned(d, m, n)), pid in d.ledger, pid, FreshEntry(m, m.tasks[n]))
  {
    var t, plans := m.tasks[n], Planned(d, m, n);
    if Present(d, m, t) {
      assert Planned(d, m, n + 1) == plans;
    } else {
      PutAppend(d.packets, d.ledger, plans, PlanOf(d, m, t));
      assert Planned(d, m, n + 1) == plans + [PlanOf(d, m, t)];
    }
  }

  /** Adding what the map already held, or else what nothing before added. */
  lemma FillOne<V>(m: map<Pid, V>, adds: seq<(Pid, V)>, n: nat)
    requires n < |adds| && forall i :: 0 <= i < n ==> adds[i].0 != adds[n].0
    ensures Fill(m, adds[..n + 1]) == PutOne(Fill(m, adds[..n]), adds[n].0 in m, adds[n].0, adds[n].1)
  {
    assert adds[..n + 1] == adds[..n] + [adds[n]];
    FillAppend(m, adds[..n], adds[n]);
    NotAddedBefore(m, adds[..n], adds[n].0);
  }

  lemma FillPacket(d: Disk, m: Manifest, n: nat)
    requires n < |m.tasks| && DistinctTasks(m)
    ensures var pid := PidOf(m, m.tasks[n]);
      Fill(d.packets, PacketsOf(m)[..n + 1])
      == PutOne(Fill(d.packets, PacketsOf(m)[..n]), pid in d.packets, pid, ContractOf(m, m.tasks[n]))
  {
    FillOne(d.packets, PacketsOf(m), n);
  }

  lemma FillEntry(d: Disk, m: Manifest, n: nat)
    requires n < |m.tasks| && DistinctTasks(m)
    ensures var pid := PidOf(m, m.tasks[n]);
      Fill(d.ledger, EntriesOf(m)[..n + 1])
      == PutOne(Fill(d.ledger, EntriesOf(m)[..n]), pid in d.ledger, pid, FreshEntry(m, m.tasks[n]))
  {
    FillOne(d.ledger, EntriesOf(m), n);
  }

  lemma PlanFillsOneMore(d: Disk, m: Manifest, n: nat)
    requires n < |m.tasks| && DistinctTasks(m)
    ensures PutPackets(d.packets, Planned(d, m, n)) == Fill(d.packets, PacketsOf(m)[..n]) ==>
      PutPackets(d.packets, Planned(d, m, n + 1)) == Fill(d.packets, PacketsOf(m)[..n + 1])
  {
    PlanOneMorePacket(d, m, n);
    FillPacket(d, m, n);
  }

  lemma {:induction false} PlanFillsPackets(d: Disk, m: Manifest, n: nat)
    requires n <= |m.tasks| && DistinctTasks(m)
    ensures PutPackets(d.packets, Planned(d, m, n)) == Fill(d.packets, PacketsOf(m)[..n])
  {
    if n > 0 {
      PlanFillsPackets(d, m, n - 1);
      PlanFillsOneMore(d, m, n - 1);
    }
  }

  lemma PlanEntersOneMore(d: Disk, m: Manifest, n: nat)
    requires n < |m.tasks| && DistinctTasks(m)
    ensures PutEntries(d.ledger, Planned(d, m, n)) == Fill(d.ledger, EntriesOf(m)[..n]) ==>
      PutEntries(d.ledger, Planned(d, m, n + 1)) == Fill(d.ledger, EntriesOf(m)[..n + 1])
  {
    PlanOneMoreEntry(d, m, n);
    FillEntry(d, m, n);
  }

  lemma {:induction false} PlanFillsEntries(d: Disk, m: Manifest, n: nat)
    requires n <= |m.tasks| && DistinctTasks(m)
    ensures PutEntries(d.ledger, Planned(d, m, n)) == Fill(d.ledger, EntriesOf(m)[..n])
  {
    if n > 0 {
      PlanFillsEntries(d, m, n - 1);
      PlanEntersOneMore(d, m, n - 1);
    }
  }

  /** A prefix of the plan is the plan of a prefix of the tasks. */
  lemma {:induction false} PlanPrefix(d: Disk, m: Manifest, n: nat, k: nat) returns (j: nat)
    requires n <= |m.tasks| && k <= |Planned(d, m, n)|
    ensures j <= n && Planned(d, m, j) == Planned(d, m, n)[..k]
  {
    if k == |Planned(d, m, n)| {
      j := n;
      assert Planned(d, m, n)[..k] == Planned(d, m, n);
    } else {
      j := PlanPrefix(d, m, n - 1, k);
      assert Planned(d, m, n)[..k] == Planned(d, m, n - 1)[..k];
    }
  }

  /** A process death after `k` planned writes, after the ledger, or none. */
  datatype Death = AfterWrites(k: nat) | AfterLedger | Never

  class Importer {
    var packets: map<Pid, Contract>
    var ledger: map<Pid, Entry>
    var parents: map<string, Parent>

    function View(): Disk
      reads this
    {
      Disk(packets, ledger, parents)
    }

    constructor ()
      ensures View() == Disk(map[], map[], map[])
    {
      packets, ledger, parents := map[], map[], map[];
    }

    /** The document checks, with the duplicate scan. */
    method Check(m: Manifest, limits: Limits) returns (ok: bool)
      ensures ok == Valid(m, limits)
    {
      if !m.enabled || !(1 <= m.target <= limits.dialogue) || m.tasks == [] || |m.tasks| > limits.backlog {
        return false;
      }
      var seen: set<string> := {};
      for i := 0 to |m.tasks|
        invariant forall s :: s in seen <==> exists j :: 0 <= j < i && m.tasks[j].id == s
        invariant forall j, k :: 0 <= j < k < i ==> m.tasks[j].id != m.tasks[k].id
        invariant forall j :: 0 <= j < i ==> m.tasks[j].body.role in ROLES
      {
        if m.tasks[i].id in seen {
          return false;
        }
        seen := seen + {m.tasks[i].id};
        if m.tasks[i].body.role !in ROLES {
          return false;
        }
      }
      return true;
    }

    /** Plans the whole batch; a collision anywhere refuses it before the first write. */
    method PlanBatch(m: Manifest) returns (ok: bool, planned: seq<Plan>, existing: nat)
      ensures ok == !AnyCollision(View(), m)
      ensures ok ==> planned == Planned(View(), m, |m.tasks|) && existing == CountPresent(View(), m, |m.tasks|)
      ensures ok ==> |planned| + existing == |m.tasks|
    {
      planned, existing := [], 0;
      for i := 0 to |m.tasks|
        invariant planned == Planned(View(), m, i) && existing == CountPresent(View(), m, i)
        invariant |planned| + existing == i
        invariant forall j :: 0 <= j < i ==> !Collides(View(), m, m.tasks[j])
      {
        var t := m.tasks[i];
        var pid := PidOf(m, t);
        if pid in packets || pid in ledger {
          if pid in packets && packets[pid] != ContractOf(m, t) {
            return false, [], 0;
          }
          if pid in ledger && ledger[pid].contract != Some(ContractOf(m, t)) {
            return false, [], 0;
          }
          if pid in packets && pid in ledger {
            existing := existing + 1;
            continue;
          }
        }
        planned := planned + [Plan(pid, ContractOf(m, t), FreshEntry(m, t), pid !in packets, pid !in ledger)];
      }
      return true, planned, existing;
    }

    /** Writes the packet files of a plan and collects the ledger it will commit. */
    method WriteBatch(planned: seq<Plan>, death: Death) returns (died: bool, entries: map<Pid, Entry>)
      modifies this`packets
      ensures died <==> death.AfterWrites? && death.k < |planned|
      ensures packets == PutPackets(old(packets), if died then planned[..death.k] else planned)
      ensures !died ==> entries == PutEntries(ledger, planned)
    {
      entries, died := ledger, false;
      for k := 0 to |planned|
        invariant packets == PutPackets(old(packets), planned[..k]) && entries == PutEntries(ledger, planned[..k])
        invariant death.AfterWrites? ==> death.k >= k
      {
        if death == AfterWrites(k) {
          return true, entries;
        }
        assert planned[..k + 1][..k] == planned[..k];
        if planned[k].writePacket {
          packets := packets[planned[k].pid := planned[k].contract];
        }
        if planned[k].writeEntry {
          entries := entries[planned[k].pid := planned[k].entry];
        }
      }
      assert planned[..|planned|] == planned;
    }

    /** The block under the ledger lock: plan, packet files, then the ledger in one replace. */
    method AdmitBatch(m: Manifest, death: Death) returns (outcome: Outcome)
      requires DistinctTasks(m)
      modifies this`packets, this`ledger
      ensures outcome.Refused? <==> AnyCollision(old(View()), m)
      ensures outcome.Refused? ==> View() == old(View())
      ensures outcome.Died? ==> death.AfterWrites?
      ensures outcome.Died? ==> exists n :: 0 <= n <= |m.tasks| && View() == Written(old(View()), m, AtPackets(n))
      ensures outcome.Done? ==> View() == Written(old(View()), m, AtLedger) && !death.AfterWrites?
      ensures outcome.Done? ==> outcome.imported + outcome.existing == |m.tasks|
      ensures outcome.Done? ==> outcome.existing == CountPresent(old(View()), m, |m.tasks|)
      ensures !outcome.ParentGone?
    {
      ghost var d := View();
      var ok, planned, existing := PlanBatch(m);
      if !ok {
        return Refused;
      }
      var died, entries := WriteBatch(planned, death);
      if died {
        DeathIsSomeCut(d, m, death.k);
        return Died;
      }
      DeathIsCut(d, m, |m.tasks|);
      if death.AfterWrites? {
        assert View() == Written(d, m, AtPackets(|m.tasks|));
        return Died;
      }
      ledger := entries;
      return Done(|planned|, existing);
    }

    /** One import: checks, the batch, the registry.  `stopped` is a Stop of the parent that lands
        between the admission check and the registry commit. */
    method ImportManifest(m: Manifest, limits: Limits, death: Death, stopped: bool) returns (outcome: Outcome)
      modifies this
      ensures outcome.Refused? <==> !Admissible(old(View()), m, limits)
      ensures outcome.Refused? ==> View() == old(View())
      ensures outcome.Died? ==> death != Never && exists cut :: cut != Nowhere && View() == Written(old(View()), m, cut)
      ensures outcome.ParentGone? ==> View() == Written(old(View()), m, AtLedger).(parents := parents)
      ensures outcome.ParentGone? ==> Stopped(View(), m)
      ensures outcome.Done? ==> View() == Written(old(View()), m, Nowhere)
      ensures outcome.Done? ==> forall i :: 0 <= i < |m.tasks| ==> IsAdmitted(old(View()), View(), m, m.tasks[i])
      ensures outcome.Done? ==> outcome.imported + outcome.existing == |m.tasks|
      ensures outcome.Done? ==> outcome.existing == CountPresent(old(View()), m, |m.tasks|)
    {
      ghost var d := View();
      var valid := Check(m, limits);
      if !valid || (m.parent in parents && !parents[m.parent].active) {
        return Refused;
      }
      outcome := AdmitBatch(m, death);
      if !outcome.Done? {
        return;
      }
      if death.AfterLedger? {
        assert View() == Written(d, m, AtLedger);
        return Died;
      }
      if stopped {
        parents := parents[m.parent := Parent(false, m.id, m.target)];
      }
      if m.parent in parents && !parents[m.parent].active {
        return ParentGone;
      }
      parents := parents[m.parent := Parent(true, m.id, m.target)];
      forall i | 0 <= i < |m.tasks| ensures IsAdmitted(d, View(), m, m.tasks[i]) {
        DoneMeansAdmitted(d, m, limits, i);
      }
    }
  }

  /** What is on disk after any prefix of the whole plan. */
  lemma DeathIsSomeCut(d: Disk, m: Manifest, k: nat)
    requires DistinctTasks(m) && k <= |Planned(d, m, |m.tasks|)|
    ensures var written := PutPackets(d.packets, Planned(d, m, |m.tasks|)[..k]);
      exists n :: 0 <= n <= |m.tasks| && Disk(written, d.ledger, d.parents) == Written(d, m, AtPackets(n))
  {
    var n := PlanPrefix(d, m, |m.tasks|, k);
    DeathIsCut(d, m, n);
  }

  /** What is on disk once the plan of the first `n` tasks was written. */
  lemma DeathIsCut(d: Disk, m: Manifest, n: nat)
    requires n <= |m.tasks| && DistinctTasks(m)
    ensures Disk(PutPackets(d.packets, Planned(d, m, n)), d.ledger, d.parents) == Written(d, m, AtPackets(n))
    ensures var plans := Planned(d, m, n);
      n == |m.tasks| ==>
        Disk(PutPackets(d.packets, plans), PutEntries(d.ledger, plans), d.parents) == Written(d, m, AtLedger)
  {
    PlanFillsPackets(d, m, n);
    PlanFillsEntries(d, m, n);
    assert PacketsOf(m)[..|m.tasks|] == PacketsOf(m) && EntriesOf(m)[..|m.tasks|] == EntriesOf(m);
  }
}
