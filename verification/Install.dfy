/** Installing agent files and config keys into a user's home, and taking them out again.

    The restore ledger remembers, for every file an install ever touched, what was there before the
    first one; digests are taken to be injective, so they are kept as contents. */
module Install {
  import opened Wrappers

  type Files = map<string, string>

  /** A managed file: its backup file and the digest it must have, and what was installed last. */
  datatype Entry = Entry(existed: bool, backup: string, original: string, installed: Option<string>)

  datatype Ledger = Missing | Foreign | Owned(entries: map<string, Entry>)

  datatype Home = Home(files: Files, ledger: Ledger)

  type Target = (string, string)

  const CONFIG := "config.toml"

  /* One install. */

  /** The agent sources that are absent or differ, then the config if keys were added. */
  function TargetsOf(files: Files, agents: seq<Target>, config: Option<string>): seq<Target> {
    Changed(files, agents) + (if config.Some? then [(CONFIG, config.value)] else [])
  }

  function Changed(files: Files, agents: seq<Target>): seq<Target> {
    if agents == [] then []
    else
      var last := agents[|agents| - 1];
      Changed(files, agents[..|agents| - 1])
      + (if last.0 in files && files[last.0] == last.1 then [] else [last])
  }

  /** Agent files have different names, none of them the config's. */
  predicate DistinctNames(agents: seq<Target>) {
    && (forall i, j :: 0 <= i < j < |agents| ==> agents[i].0 != agents[j].0)
    && (forall i :: 0 <= i < |agents| ==> agents[i].0 != CONFIG)
  }

  predicate DistinctTargets(targets: seq<Target>) {
    forall i, j :: 0 <= i < j < |targets| ==> targets[i].0 != targets[j].0
  }

  function Put(files: Files, targets: seq<Target>): Files {
    if targets == [] then files
    else Put(files, targets[..|targets| - 1])[targets[|targets| - 1].0 := targets[|targets| - 1].1]
  }

  function EntriesOf(ledger: Ledger): map<string, Entry> {
    if ledger.Owned? then ledger.entries else map[]
  }

  /** A first touch remembers the original; a later one only what was installed. */
  function Touched(entries: map<string, Entry>, files: Files, t: Target): Entry {
    if t.0 in entries then entries[t.0].(installed := Some(t.1))
    else if t.0 in files then Entry(true, files[t.0], files[t.0], Some(t.1))
    else Entry(false, "", "", Some(t.1))
  }

  function Recorded(entries: map<string, Entry>, files: Files, targets: seq<Target>): map<string, Entry> {
    if targets == [] then entries
    else
      var last := targets[|targets| - 1];
      Recorded(entries, files, targets[..|targets| - 1])[last.0 := Touched(entries, files, last)]
  }

  function Installed(h: Home, agents: seq<Target>, config: Option<string>): Home {
    var targets := TargetsOf(h.files, agents, config);
    if h.ledger.Foreign? then h
    else Home(Put(h.files, targets), Owned(Recorded(EntriesOf(h.ledger), h.files, targets)))
  }

  /* One restore. */

  /** The file is still what was installed. */
  predicate Untouched(h: Home, e: Entry, rel: string) {
    rel in h.files && e.installed == Some(h.files[rel])
  }

  function PutBack(files: Files, e: Entry, rel: string): Files {
    if e.existed then files[rel := e.backup] else files - {rel}
  }

  /** Puts back the first `n` listed entries whose files are untouched, until a backup has a wrong
      digest. */
  function RestoredFiles(h: Home, entries: map<string, Entry>, rels: seq<string>, n: nat): Files
    requires n <= |rels| && forall i :: 0 <= i < |rels| ==> rels[i] in entries
  {
    if n == 0 then h.files
    else
      var files, rel := RestoredFiles(h, entries, rels, n - 1), rels[n - 1];
      var e := entries[rel];
      if !Stopped(h, entries, rels, n - 1) && Untouched(h, e, rel) && SoundBackup(e) then PutBack(files, e, rel)
      else files
  }

  predicate SameAt(a: Files, b: Files, rel: string) {
    (rel in a <==> rel in b) && (rel in a ==> a[rel] == b[rel])
  }

  predicate SoundBackup(e: Entry) {
    e.existed ==> e.backup == e.original
  }

  /** A file to put back whose backup has a wrong digest stops the restore. */
  predicate Stopped(h: Home, entries: map<string, Entry>, rels: seq<string>, n: nat)
    requires n <= |rels| && forall i :: 0 <= i < |rels| ==> rels[i] in entries
  {
    exists i :: 0 <= i < n && Untouched(h, entries[rels[i]], rels[i]) && !SoundBackup(entries[rels[i]])
  }

  predicate Lists(rels: seq<string>, entries: map<string, Entry>) {
    && (forall i, j :: 0 <= i < j < |rels| ==> rels[i] != rels[j])
    && (forall i :: 0 <= i < |rels| ==> rels[i] in entries)
    && (forall rel :: rel in entries ==> rel in rels)
  }

  /* What every install keeps. */

  /** The ledger remembers `orig` for every file it knows, and every other file is still `orig`'s. */
  predicate Tracks(h: Home, orig: Files) {
    && !h.ledger.Foreign?
    && (forall rel :: rel in EntriesOf(h.ledger) ==>
          Remembers(EntriesOf(h.ledger)[rel], orig, rel) && Untouched(h, EntriesOf(h.ledger)[rel], rel))
    && (forall rel :: rel in h.files && rel !in EntriesOf(h.ledger) ==> rel in orig && orig[rel] == h.files[rel])
    && (forall rel :: rel in orig && rel !in EntriesOf(h.ledger) ==> rel in h.files)
  }

  predicate Remembers(e: Entry, orig: Files, rel: string) {
    && (e.existed <==> rel in orig)
    && (e.existed ==> e.backup == e.original == orig[rel])
  }

  lemma {:induction false} PutIs(files: Files, targets: seq<Target>, rel: string)
    requires DistinctTargets(targets)
    ensures (exists i :: 0 <= i < |targets| && targets[i].0 == rel) ==> rel in Put(files, targets)
    ensures forall i :: 0 <= i < |targets| && targets[i].0 == rel ==> Put(files, targets)[rel] == targets[i].1
    ensures (forall i :: 0 <= i < |targets| ==> targets[i].0 != rel) ==>
      (rel in Put(files, targets) <==> rel in files) && (rel in files ==> Put(files, targets)[rel] == files[rel])
  {
    if targets != [] {
      PutIs(files, targets[..|targets| - 1], rel);
    }
  }

  predicate SameEntryAt(a: map<string, Entry>, b: map<string, Entry>, rel: string) {
    (rel in a <==> rel in b) && (rel in a ==> a[rel] == b[rel])
  }

  lemma {:induction false} RecordedIs(entries: map<string, Entry>, files: Files, targets: seq<Target>, rel: string)
    requires DistinctTargets(targets)
    ensures (exists i :: 0 <= i < |targets| && targets[i].0 == rel) ==> rel in Recorded(entries, files, targets)
    ensures forall i :: 0 <= i < |targets| && targets[i].0 == rel ==>
      Recorded(entries, files, targets)[rel] == Touched(entries, files, targets[i])
    ensures (forall i :: 0 <= i < |targets| ==> targets[i].0 != rel) ==>
      SameEntryAt(Recorded(entries, files, targets), entries, rel)
  {
    if targets != [] {
      RecordedIs(entries, files, targets[..|targets| - 1], rel);
    }
  }

  lemma {:induction false} ChangedAreAgents(files: Files, agents: seq<Target>, i: nat)
    requires i < |Changed(files, agents)|
    ensures Changed(files, agents)[i] in agents
  {
    var init := agents[..|agents| - 1];
    if i < |Changed(files, init)| {
      ChangedAreAgents(files, init, i);
    }
  }

  lemma {:induction false} ChangedAreDistinct(files: Files, agents: seq<Target>)
    requires DistinctNames(agents)
    ensures DistinctNames(Changed(files, agents))
  {
    if agents != [] {
      var init := agents[..|agents| - 1];
      ChangedAreDistinct(files, init);
      forall i | 0 <= i < |Changed(files, init)|
        ensures Changed(files, init)[i].0 != agents[|agents| - 1].0
      {
        ChangedAreAgents(files, init, i);
      }
    }
  }

  lemma TargetsAreDistinct(files: Files, agents: seq<Target>, config: Option<string>)
    requires DistinctNames(agents)
    ensures DistinctTargets(TargetsOf(files, agents, config))
  {
    ChangedAreDistinct(files, agents);
  }

  lemma InstallTracksAt(h: Home, orig: Files, targets: seq<Target>, rel: string)
    requires Tracks(h, orig) && DistinctTargets(targets)
    ensures var entries := Recorded(EntriesOf(h.ledger), h.files, targets);
      var after := Home(Put(h.files, targets), Owned(entries));
      && (rel in entries ==> Remembers(entries[rel], orig, rel) && Untouched(after, entries[rel], rel))
      && (rel in after.files && rel !in entries ==> rel in orig && orig[rel] == after.files[rel])
      && (rel in orig && rel !in entries ==> rel in after.files)
  {
    PutIs(h.files, targets, rel);
    RecordedIs(EntriesOf(h.ledger), h.files, targets, rel);
  }

  lemma InstallTracks(h: Home, orig: Files, agents: seq<Target>, config: Option<string>)
    requires Tracks(h, orig) && DistinctNames(agents)
    ensures Tracks(Installed(h, agents, config), orig)
  {
    var targets := TargetsOf(h.files, agents, config);
    TargetsAreDistinct(h.files, agents, config);
    var after := Installed(h, agents, config);
    forall rel
      ensures rel in EntriesOf(after.ledger) ==>
        Remembers(EntriesOf(after.ledger)[rel], orig, rel) && Untouched(after, EntriesOf(after.ledger)[rel], rel)
      ensures rel in after.files && rel !in EntriesOf(after.ledger) ==> rel in orig && orig[rel] == after.files[rel]
      ensures rel in orig && rel !in EntriesOf(after.ledger) ==> rel in after.files
    {
      InstallTracksAt(h, orig, targets, rel);
    }
  }

  /** One install attempt with its sources; a failing one was rolled back. */
  datatype Attempt = Attempt(agents: seq<Target>, config: Option<string>, fails: bool)

  function AfterInstalls(h: Home, attempts: seq<Attempt>): Home {
    if attempts == [] then h
    else
      var before, last := AfterInstalls(h, attempts[..|attempts| - 1]), attempts[|attempts| - 1];
      if last.fails then before else Installed(before, last.agents, last.config)
  }

  lemma {:induction false} InstallsTrack(orig: Files, attempts: seq<Attempt>)
    requires forall i :: 0 <= i < |attempts| ==> DistinctNames(attempts[i].agents)
    ensures Tracks(AfterInstalls(Home(orig, Missing), attempts), orig)
  {
    if attempts != [] {
      InstallsTrack(orig, attempts[..|attempts| - 1]);
      var last := attempts[|attempts| - 1];
      if !last.fails {
        InstallTracks(AfterInstalls(Home(orig, Missing), attempts[..|attempts| - 1]), orig, last.agents, last.config);
      }
    }
  }

  /** What a restore makes of one file. */
  lemma {:induction false} RestoredAt(h: Home, entries: map<string, Entry>, rels: seq<string>, n: nat, rel: string)
    requires n <= |rels| && forall i :: 0 <= i < |rels| ==> rels[i] in entries
    requires forall i, j :: 0 <= i < j < |rels| ==> rels[i] != rels[j]
    requires !Stopped(h, entries, rels, n)
    ensures var files := RestoredFiles(h, entries, rels, n);
      if rel in rels[..n] && Untouched(h, entries[rel], rel) then
        (rel in files <==> entries[rel].existed) && (rel in files ==> files[rel] == entries[rel].backup)
      else SameAt(files, h.files, rel)
  {
    if n > 0 {
      RestoredAt(h, entries, rels, n - 1, rel);
      assert rels[..n] == rels[..n - 1] + [rels[n - 1]] && rels[n - 1] !in rels[..n - 1];
    }
  }

  /** A file is as it was until its turn comes. */
  lemma NotYetRestored(h: Home, entries: map<string, Entry>, rels: seq<string>, n: nat, rel: string)
    requires n <= |rels| && forall i :: 0 <= i < |rels| ==> rels[i] in entries
    requires forall i, j :: 0 <= i < j < |rels| ==> rels[i] != rels[j]
    requires !Stopped(h, entries, rels, n) && n < |rels| && rel == rels[n]
    ensures SameAt(RestoredFiles(h, entries, rels, n), h.files, rel)
  {
    RestoredAt(h, entries, rels, n, rel);
  }

  /** Any number of installs with changing sources, some of them failing, and one restore bring
      every file back to its bytes, or its absence, before the first. */
  lemma InstallRoundTrip(orig: Files, attempts: seq<Attempt>, rels: seq<string>)
    requires forall i :: 0 <= i < |attempts| ==> DistinctNames(attempts[i].agents)
    requires Lists(rels, EntriesOf(AfterInstalls(Home(orig, Missing), attempts).ledger))
    ensures var h := AfterInstalls(Home(orig, Missing), attempts);
      RestoredFiles(h, EntriesOf(h.ledger), rels, |rels|) == orig
  {
    InstallsTrack(orig, attempts);
    var h := AfterInstalls(Home(orig, Missing), attempts);
    var entries := EntriesOf(h.ledger);
    forall i | 0 <= i < |rels| ensures SoundBackup(entries[rels[i]]) {
      assert Remembers(entries[rels[i]], orig, rels[i]);
    }
    var files := RestoredFiles(h, entries, rels, |rels|);
    assert rels[..|rels|] == rels;
    forall rel ensures (rel in files <==> rel in orig) && (rel in files ==> files[rel] == orig[rel]) {
      RestoredAt(h, entries, rels, |rels|, rel);
      if rel in entries {
        assert Remembers(entries[rel], orig, rel) && Untouched(h, entries[rel], rel);
      }
    }
  }

  /** A user's own edit of a managed file is never overwritten, and every other managed file goes
      back to its original. */
  lemma RestoreKeepsEdits(h: Home, orig: Files, edits: Files, rels: seq<string>, rel: string)
    requires Tracks(h, orig) && Lists(rels, EntriesOf(h.ledger))
    ensures var edited := Home(h.files + edits, h.ledger);
      var files := RestoredFiles(edited, EntriesOf(h.ledger), rels, |rels|);
      && (rel in edits && (rel !in h.files || edits[rel] != h.files[rel]) ==> rel in files && files[rel] == edits[rel])
      && (rel !in edits ==> (rel in files <==> rel in orig) && (rel in files ==> files[rel] == orig[rel]))
  {
    var entries, edited := EntriesOf(h.ledger), Home(h.files + edits, h.ledger);
    forall i | 0 <= i < |rels| ensures SoundBackup(entries[rels[i]]) {
      assert Remembers(entries[rels[i]], orig, rels[i]);
    }
    assert rels[..|rels|] == rels;
    RestoredAt(edited, entries, rels, |rels|, rel);
    if rel in entries {
      assert Remembers(entries[rel], orig, rel) && Untouched(h, entries[rel], rel);
    }
  }

  /* What one install makes of one file, in terms of its sources and the files before. */

  lemma {:induction false} ChangedIs(files: Files, agents: seq<Target>, t: Target)
    ensures t in Changed(files, agents) <==> t in agents && !(t.0 in files && files[t.0] == t.1)
  {
    if agents != [] {
      var init, last := agents[..|agents| - 1], agents[|agents| - 1];
      ChangedIs(files, init, t);
      assert agents == init + [last];
    }
  }

  /** The file is the config of an install that renders one. */
  predicate IsConfig(config: Option<string>, rel: string) {
    rel == CONFIG && config.Some?
  }

  /** What an install writes to a file: its agent's source, if the file is absent or different, or the
      rendered config. */
  predicate Writes(files: Files, agents: seq<Target>, config: Option<string>, t: Target) {
    || (t in agents && (t.0 !in files || files[t.0] != t.1))
    || (IsConfig(config, t.0) && t.1 == config.value)
  }

  lemma TargetsAre(files: Files, agents: seq<Target>, config: Option<string>, t: Target)
    ensures t in TargetsOf(files, agents, config) <==> Writes(files, agents, config, t)
  {
    ChangedIs(files, agents, t);
  }

  /** A file that is written holds what was written, and its entry says so; the first touch remembers
      what was there. */
  lemma WrittenAt(h: Home, agents: seq<Target>, config: Option<string>, t: Target)
    requires DistinctNames(agents) && !h.ledger.Foreign? && Writes(h.files, agents, config, t)
    ensures var r := Installed(h, agents, config);
      && t.0 in r.files && r.files[t.0] == t.1
      && t.0 in EntriesOf(r.ledger) && EntriesOf(r.ledger)[t.0] == Touched(EntriesOf(h.ledger), h.files, t)
  {
    var targets := TargetsOf(h.files, agents, config);
    TargetsAre(h.files, agents, config, t);
    TargetsAreDistinct(h.files, agents, config);
    PutIs(h.files, targets, t.0);
    RecordedIs(EntriesOf(h.ledger), h.files, targets, t.0);
    var i :| 0 <= i < |targets| && targets[i] == t;
  }

  /** A file that is not written is as it was, and so is its entry. */
  lemma UnwrittenAt(h: Home, agents: seq<Target>, config: Option<string>, rel: string)
    requires DistinctNames(agents) && !h.ledger.Foreign?
    requires forall text :: !Writes(h.files, agents, config, (rel, text))
    ensures var r := Installed(h, agents, config);
      SameAt(r.files, h.files, rel) && SameEntryAt(EntriesOf(r.ledger), EntriesOf(h.ledger), rel)
  {
    var targets := TargetsOf(h.files, agents, config);
    TargetsAreDistinct(h.files, agents, config);
    forall i | 0 <= i < |targets| ensures targets[i].0 != rel {
      TargetsAre(h.files, agents, config, targets[i]);
      assert !Writes(h.files, agents, config, (rel, targets[i].1));
    }
    PutIs(h.files, targets, rel);
    RecordedIs(EntriesOf(h.ledger), h.files, targets, rel);
  }

  /** Every agent file holds exactly its source after an install, whether it had to be written or not. */
  lemma AgentsHoldSources(h: Home, agents: seq<Target>, config: Option<string>, i: nat)
    requires DistinctNames(agents) && !h.ledger.Foreign? && i < |agents|
    ensures var r := Installed(h, agents, config);
      agents[i].0 in r.files && r.files[agents[i].0] == agents[i].1
  {
    var t := agents[i];
    if t.0 in h.files && h.files[t.0] == t.1 {
      UnchangedIsUnwritten(h.files, agents, config, i);
      UnwrittenAt(h, agents, config, t.0);
    } else {
      WrittenAt(h, agents, config, t);
    }
  }

  lemma UnchangedIsUnwritten(files: Files, agents: seq<Target>, config: Option<string>, i: nat)
    requires DistinctNames(agents) && i < |agents| && agents[i].0 in files && files[agents[i].0] == agents[i].1
    ensures forall text :: !Writes(files, agents, config, (agents[i].0, text))
  {
    forall text ensures !Writes(files, agents, config, (agents[i].0, text)) {
      if (agents[i].0, text) in agents {
        var j :| 0 <= j < |agents| && agents[j] == (agents[i].0, text);
        assert i == j;
      }
    }
  }

  /** The file belongs to an agent whose source it does not hold. */
  predicate NeedsAgent(files: Files, agents: seq<Target>, rel: string) {
    exists i :: 0 <= i < |agents| && agents[i].0 == rel && (rel !in files || files[rel] != agents[i].1)
  }

  lemma FileIsWrittenWhen(h: Home, agents: seq<Target>, config: Option<string>, rel: string)
    requires DistinctNames(agents) && !h.ledger.Foreign?
    ensures (exists text :: Writes(h.files, agents, config, (rel, text))) <==>
      NeedsAgent(h.files, agents, rel) || IsConfig(config, rel)
  {
    if exists text :: Writes(h.files, agents, config, (rel, text)) {
      var text :| Writes(h.files, agents, config, (rel, text));
      if !IsConfig(config, rel) {
        var j :| 0 <= j < |agents| && agents[j] == (rel, text);
      }
    }
    if NeedsAgent(h.files, agents, rel) {
      var i :| 0 <= i < |agents| && agents[i].0 == rel && (rel !in h.files || h.files[rel] != agents[i].1);
      assert Writes(h.files, agents, config, (rel, agents[i].1));
    }
    if IsConfig(config, rel) {
      assert Writes(h.files, agents, config, (rel, config.value));
    }
  }

  /** An entry for a first touch: what was there before, and what is there now. */
  predicate Remembered(e: Entry, before: Files, now: Files, rel: string) {
    && (e.existed <==> rel in before)
    && (e.existed ==> e.backup == before[rel] && e.original == before[rel])
    && rel in now && e.installed == Some(now[rel])
  }

  /** The file is the one it was, or is an agent's or the config's. */
  predicate IsSource(agents: seq<Target>, config: Option<string>, rel: string) {
    IsConfig(config, rel) || exists i :: 0 <= i < |agents| && agents[i].0 == rel
  }

  /** A finished install: every agent file holds its source and the config its rendered text, every other
      file is as it was; the ledger gains an entry for exactly the agents that were absent or different
      and the config when written, so an identical file of the user's is not taken over. */
  ghost predicate InstalledAll(before: Files, known: map<string, Entry>, now: Files, entries: map<string, Entry>,
                               agents: seq<Target>, config: Option<string>) {
    && (forall i :: 0 <= i < |agents| ==> agents[i].0 in now && now[agents[i].0] == agents[i].1)
    && (config.Some? ==> CONFIG in now && now[CONFIG] == config.value)
    && (forall rel :: !IsSource(agents, config, rel) ==> SameAt(now, before, rel))
    && (forall rel :: rel in entries <==> rel in known || NeedsAgent(before, agents, rel) || IsConfig(config, rel))
    && (forall rel :: rel in entries && rel !in known ==> Remembered(entries[rel], before, now, rel))
    && (forall rel :: rel in known ==>
          && entries[rel].existed == known[rel].existed
          && entries[rel].backup == known[rel].backup && entries[rel].original == known[rel].original)
  }

  lemma InstalledFileIs(h: Home, agents: seq<Target>, config: Option<string>, rel: string)
    requires DistinctNames(agents) && !h.ledger.Foreign?
    ensures var r := Installed(h, agents, config);
      var known, entries := EntriesOf(h.ledger), EntriesOf(r.ledger);
      && (!IsSource(agents, config, rel) ==> SameAt(r.files, h.files, rel))
      && (rel in entries <==> rel in known || NeedsAgent(h.files, agents, rel) || IsConfig(config, rel))
      && (rel in entries && rel !in known ==> Remembered(entries[rel], h.files, r.files, rel))
      && (rel in known ==>
            && entries[rel].existed == known[rel].existed
            && entries[rel].backup == known[rel].backup && entries[rel].original == known[rel].original)
  {
    FileIsWrittenWhen(h, agents, config, rel);
    if text :| Writes(h.files, agents, config, (rel, text)) {
      WrittenAt(h, agents, config, (rel, text));
    } else {
      UnwrittenAt(h, agents, config, rel);
    }
  }

  lemma InstalledIsAll(h: Home, agents: seq<Target>, config: Option<string>)
    requires DistinctNames(agents) && !h.ledger.Foreign?
    ensures var r := Installed(h, agents, config);
      InstalledAll(h.files, EntriesOf(h.ledger), r.files, EntriesOf(r.ledger), agents, config)
  {
    var r := Installed(h, agents, config);
    forall i | 0 <= i < |agents| ensures agents[i].0 in r.files && r.files[agents[i].0] == agents[i].1 {
      AgentsHoldSources(h, agents, config, i);
    }
    if config.Some? {
      WrittenAt(h, agents, config, (CONFIG, config.value));
    }
    forall rel
      ensures !IsSource(agents, config, rel) ==> SameAt(r.files, h.files, rel)
      ensures rel in EntriesOf(r.ledger) <==>
        rel in EntriesOf(h.ledger) || NeedsAgent(h.files, agents, rel) || IsConfig(config, rel)
      ensures rel in EntriesOf(r.ledger) && rel !in EntriesOf(h.ledger) ==>
        Remembered(EntriesOf(r.ledger)[rel], h.files, r.files, rel)
      ensures rel in EntriesOf(h.ledger) ==>
        && EntriesOf(r.ledger)[rel].existed == EntriesOf(h.ledger)[rel].existed
        && EntriesOf(r.ledger)[rel].backup == EntriesOf(h.ledger)[rel].backup
        && EntriesOf(r.ledger)[rel].original == EntriesOf(h.ledger)[rel].original
    {
      InstalledFileIs(h, agents, config, rel);
    }
  }

  /* The home as it is written. */

  datatype Result = Done | Refused | RolledBack | BadBackup(rel: string)

  /** None of the first `n` targets is this file. */
  predicate Free(targets: seq<Target>, n: nat, rel: string)
    requires n <= |targets|
  {
    forall k :: 0 <= k < n ==> targets[k].0 != rel
  }

  lemma SameEverywhere(a: Files, b: Files)
    requires forall rel :: SameAt(a, b, rel)
    ensures a == b
  {
    forall rel ensures (rel in a <==> rel in b) && (rel in a ==> a[rel] == b[rel]) {
      assert SameAt(a, b, rel);
    }
  }

  class UserConfig {
    var files: Files
    var ledger: Ledger

    function View(): Home
      reads this
    {
      Home(files, ledger)
    }

    constructor (files: Files)
      ensures View() == Home(files, Missing)
    {
      this.files, ledger := files, Missing;
    }

    /** Plans the changed agents before the first write. */
    method PlanAgents(agents: seq<Target>) returns (targets: seq<Target>)
      ensures targets == Changed(files, agents)
      ensures forall t :: t in targets <==> t in agents && (t.0 !in files || files[t.0] != t.1)
    {
      forall t ensures t in Changed(files, agents) <==> t in agents && (t.0 !in files || files[t.0] != t.1) {
        ChangedIs(files, agents, t);
      }
      targets := [];
      for i := 0 to |agents|
        invariant targets == Changed(files, agents[..i])
      {
        assert agents[..i + 1][..i] == agents[..i];
        if agents[i].0 !in files || files[agents[i].0] != agents[i].1 {
          targets := targets + [agents[i]];
        }
      }
      assert agents[..|agents|] == agents;
    }

    /** Backs up, writes, and commits the ledger; a failure at write `failAt`, the last one being the
        ledger's, rolls every target back. */
    method InstallFiles(agents: seq<Target>, config: Option<string>, failAt: Option<nat>) returns (result: Result)
      requires DistinctNames(agents)
      modifies this
      ensures result.Refused? <==> old(ledger).Foreign?
      ensures result.Done? ==> View() == Installed(old(View()), agents, config) && ledger.Owned?
      ensures result.Done? ==>
        InstalledAll(old(files), EntriesOf(old(ledger)), files, EntriesOf(ledger), agents, config)
      ensures !result.Done? ==> View() == old(View())
      ensures !result.BadBackup? && (failAt.None? ==> !result.RolledBack?)
    {
      if !ledger.Foreign? {
        InstalledIsAll(View(), agents, config);
      }
      var targets := PlanAgents(agents);
      if config.Some? {
        targets := targets + [(CONFIG, config.value)];
      }
      assert targets == TargetsOf(files, agents, config);
      TargetsAreDistinct(files, agents, config);
      if ledger.Foreign? {
        return Refused;
      }
      var entries := BackUp(targets);
      var failed := WriteTargets(targets, failAt);
      if failed {
        return RolledBack;
      }
      ledger := Owned(entries);
      return Done;
    }

    /** Writes the targets; a failure at write `failAt`, the last one being the ledger's, rolls all
        of them back. */
    method WriteTargets(targets: seq<Target>, failAt: Option<nat>) returns (failed: bool)
      requires DistinctTargets(targets)
      modifies this`files
      ensures failed <==> failAt.Some? && failAt.value <= |targets|
      ensures files == if failed then old(files) else Put(old(files), targets)
    {
      var originals := files;
      for i := 0 to |targets|
        invariant files == Put(originals, targets[..i])
        invariant failAt.Some? ==> failAt.value >= i
      {
        if failAt == Some(i) {
          RollBack(targets, originals, i);
          return true;
        }
        assert targets[..i + 1][..i] == targets[..i];
        files := files[targets[i].0 := targets[i].1];
      }
      assert targets[..|targets|] == targets;
      if failAt == Some(|targets|) {
        RollBack(targets, originals, |targets|);
        return true;
      }
      return false;
    }

    /** Remembers what each target held before its first install, and what it will hold. */
    method BackUp(targets: seq<Target>) returns (entries: map<string, Entry>)
      requires DistinctTargets(targets)
      ensures entries == Recorded(EntriesOf(ledger), files, targets)
    {
      entries := if ledger.Owned? then ledger.entries else map[];
      for i := 0 to |targets|
        invariant entries == Recorded(EntriesOf(ledger), files, targets[..i])
      {
        assert targets[..i + 1][..i] == targets[..i];
        RecordedIs(EntriesOf(ledger), files, targets[..i], targets[i].0);
        var rel := targets[i].0;
        var e := if rel in entries then entries[rel]
                 else if rel in files then Entry(true, files[rel], files[rel], None) else Entry(false, "", "", None);
        entries := entries[rel := e.(installed := Some(targets[i].1))];
      }
      assert targets[..|targets|] == targets;
    }

    /** Puts every target back, the last one first. */
    method RollBack(targets: seq<Target>, originals: Files, written: nat)
      requires written <= |targets| && files == Put(originals, targets[..written]) && DistinctTargets(targets)
      modifies this`files
      ensures files == originals
    {
      var i := |targets|;
      forall rel | Free(targets, i, rel) ensures SameAt(files, originals, rel) {
        PutIs(originals, targets[..written], rel);
      }
      while i > 0
        invariant 0 <= i <= |targets|
        invariant forall rel :: Free(targets, i, rel) ==> SameAt(files, originals, rel)
      {
        i := i - 1;
        ghost var before := files;
        var rel := targets[i].0;
        if rel in originals {
          files := files[rel := originals[rel]];
        } else {
          files := files - {rel};
        }
        forall other | Free(targets, i, other) ensures SameAt(files, originals, other) {
          assert other == rel || Free(targets, i + 1, other);
        }
      }
      forall rel ensures SameAt(files, originals, rel) {
        assert Free(targets, 0, rel);
      }
      SameEverywhere(files, originals);
    }

    /** Puts one managed file back unless the user changed it or its backup has a wrong digest. */
    method RestoreOne(rel: string, e: Entry) returns (skip: bool, bad: bool)
      modifies this`files
      ensures skip <==> rel !in old(files) || e.installed != Some(old(files)[rel])
      ensures bad <==> !skip && e.existed && e.backup != e.original
      ensures !skip && !bad && e.existed ==> rel in files && files[rel] == e.original
      ensures !skip && !bad && !e.existed ==> rel !in files
      ensures skip || bad ==> files == old(files)
      ensures forall other :: other != rel ==> SameAt(files, old(files), other)
      ensures files == if skip || bad then old(files) else PutBack(old(files), e, rel)
    {
      skip := rel !in files || e.installed != Some(files[rel]);
      bad := !skip && e.existed && e.backup != e.original;
      if skip || bad {
        return;
      }
      if e.existed {
        files := files[rel := e.backup];
      } else {
        files := files - {rel};
      }
    }

    /** Puts untouched managed files back; with nothing skipped the ledger is dropped. */
    method Restore(rels: seq<string>) returns (result: Result, skipped: seq<string>)
      requires Lists(rels, EntriesOf(ledger))
      modifies this
      ensures result.Refused? <==> !old(ledger).Owned?
      ensures result.Refused? ==> View() == old(View())
      ensures !result.Refused? ==> files == RestoredFiles(old(View()), EntriesOf(old(ledger)), rels, |rels|)
      ensures result.Done? <==> old(ledger).Owned? && !Stopped(old(View()), EntriesOf(old(ledger)), rels, |rels|)
      ensures result.Done? ==> skipped == Skipped(old(View()), EntriesOf(old(ledger)), rels, |rels|)
      ensures ledger == if result.Done? && skipped == [] then Missing else old(ledger)
    {
      skipped := [];
      if !ledger.Owned? {
        return Refused, skipped;
      }
      var entries := ledger.entries;
      ghost var h := View();
      for i := 0 to |rels|
        invariant files == RestoredFiles(h, entries, rels, i) && ledger == h.ledger
        invariant !Stopped(h, entries, rels, i)
        invariant skipped == Skipped(h, entries, rels, i)
      {
        NotYetRestored(h, entries, rels, i, rels[i]);
        var skip, bad := RestoreOne(rels[i], entries[rels[i]]);
        if bad {
          StopIsFinal(h, entries, rels, i, |rels|);
          return BadBackup(rels[i]), skipped;
        }
        if skip {
          skipped := skipped + [rels[i]];
        }
      }
      if skipped == [] {
        ledger := Missing;
      }
      return Done, skipped;
    }
  }

  /** The listed files a restore leaves to the user. */
  function Skipped(h: Home, entries: map<string, Entry>, rels: seq<string>, n: nat): seq<string>
    requires n <= |rels| && forall i :: 0 <= i < |rels| ==> rels[i] in entries
  {
    if n == 0 then []
    else
      var rel := rels[n - 1];
      Skipped(h, entries, rels, n - 1) + (if Untouched(h, entries[rel], rel) then [] else [rel])
  }

  lemma {:induction false} SkippedAre(h: Home, entries: map<string, Entry>, rels: seq<string>, n: nat, rel: string)
    requires n <= |rels| && forall i :: 0 <= i < |rels| ==> rels[i] in entries
    ensures rel in Skipped(h, entries, rels, n) <==> rel in rels[..n] && !Untouched(h, entries[rel], rel)
  {
    if n > 0 {
      SkippedAre(h, entries, rels, n - 1, rel);
      assert rels[..n] == rels[..n - 1] + [rels[n - 1]];
    }
  }

  /** Nothing is put back from the first bad backup on. */
  lemma {:induction false} StopIsFinal(h: Home, entries: map<string, Entry>, rels: seq<string>, i: nat, n: nat)
    requires i < n <= |rels| && forall k :: 0 <= k < |rels| ==> rels[k] in entries
    requires Untouched(h, entries[rels[i]], rels[i]) && !SoundBackup(entries[rels[i]])
    ensures RestoredFiles(h, entries, rels, n) == RestoredFiles(h, entries, rels, i)
    ensures Stopped(h, entries, rels, n)
  {
    if i < n - 1 {
      StopIsFinal(h, entries, rels, i, n - 1);
    }
  }
}
