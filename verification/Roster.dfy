/** The generation-aware execution roster: who owns a packet's row, what its history keeps, and
    what a parent wave may conclude from it. */
module Roster {
  import opened Wrappers

  /** Terminal for the store, and for a waiting wave, which also accepts a lost supervisor. */
  const TERMINAL_STATES: set<string> := {"completed", "failed", "timed_out", "cancelled", "spawn_failed"}
  const WAVE_TERMINAL: set<string> := {"completed", "failed", "timed_out", "cancelled", "spawn_failed", "lost"}

  /** Diagnostics of one generation: kept in its history row, cleared by the next generation. */
  const EVIDENCE: set<string> := {"exit_code", "failure", "stop_reason", "published_report"}
  const CLEARED: set<string> :=
    {"exit_code", "failure", "stop_reason", "published_report", "cleanup_status", "cleanup_failed_at"}

  const STARTING := "starting"
  const GENERATION := "generation_started"

  /** One `update` call: the run it speaks for and the fields it sets. */
  datatype Update = Update(run: Option<string>, attempt: Option<int>, state: Option<string>,
                           started: Option<int>, fields: map<string, string>)

  datatype HistoryRow = HistoryRow(state: string, run: Option<string>, attempt: Option<int>,
                                   evidence: map<string, string>)

  /** The live row of a packet; `started` is 0 until some run names its start. */
  datatype Item = Item(owner: Option<string>, attempt: Option<int>, state: Option<string>, started: int,
                       fields: map<string, string>, history: seq<HistoryRow>)

  const FRESH := Item(None, None, None, 0, map[], [])

  function StartOf(u: Update): int {
    if u.started.Some? then u.started.value else 0
  }

  predicate IsOther(i: Item, u: Update) {
    u.run.Some? && i.owner != u.run
  }

  /** Another run may only take an owned row with a fresh `starting` that is not older. */
  predicate Rejected(i: Item, u: Update) {
    IsOther(i, u) && i.owner.Some? && !(u.state == Some(STARTING) && StartOf(u) >= i.started)
  }

  function Without(fields: map<string, string>, keys: set<string>): map<string, string> {
    map k | k in fields && k !in keys :: fields[k]
  }

  function Only(fields: map<string, string>, keys: set<string>): map<string, string> {
    map k | k in fields && k in keys :: fields[k]
  }

  /** The row after a new generation took it. */
  function Generation(i: Item, u: Update): Item {
    i.(owner := u.run, attempt := u.attempt, fields := Without(i.fields, CLEARED),
       history := i.history + [HistoryRow(GENERATION, u.run, u.attempt, map[])])
  }

  /** The history row of a state change. */
  function Change(i: Item, u: Update): HistoryRow
    requires u.state.Some?
  {
    HistoryRow(u.state.value, if u.run.Some? then u.run else i.owner, if u.attempt.Some? then u.attempt else i.attempt,
               if u.state.value in TERMINAL_STATES then Only(u.fields, EVIDENCE) else map[])
  }

  function Written(i: Item, u: Update): Item {
    i.(state := if u.state.Some? then u.state else i.state,
       started := if u.started.Some? then u.started.value else i.started,
       fields := i.fields + u.fields,
       history := if u.state.Some? && u.state != i.state then i.history + [Change(i, u)] else i.history)
  }

  function Updated(i: Item, u: Update): Item {
    if Rejected(i, u) then i
    else if IsOther(i, u) then Written(Generation(i, u), u)
    else Written(i, u)
  }

  function After(i: Item, us: seq<Update>): Item {
    if us == [] then i else Updated(After(i, us[..|us| - 1]), us[|us| - 1])
  }

  lemma AfterAppend(i: Item, us: seq<Update>, u: Update)
    ensures After(i, us + [u]) == Updated(After(i, us), u)
  {
    assert (us + [u])[..|us|] == us;
  }

  lemma {:induction false} AfterJoin(i: Item, us: seq<Update>, more: seq<Update>)
    ensures After(i, us + more) == After(After(i, us), more)
  {
    if more == [] {
      assert us + more == us;
    } else {
      var init, last := more[..|more| - 1], more[|more| - 1];
      AfterJoin(i, us, init);
      AfterAppend(i, us + init, last);
      assert us + more == (us + init) + [last];
    }
  }

  /* One update, in terms of its fields. */

  /** A run other than the owner is refused, unless the row has no owner or it announces itself with a
      start not before the owner's. */
  lemma LateRunsAreRefused(i: Item, u: Update)
    requires u.run.Some? && i.owner.Some? && i.owner != u.run
    requires u.state != Some("starting") || (if u.started.Some? then u.started.value else 0) < i.started
    ensures Updated(i, u) == i
  {}

  /** A run that takes the row over owns it with its own attempt: no diagnostics of another run are left
      on it, whatever else was there is, its own fields are set, and the history says so. */
  lemma TakeOverStartsClean(i: Item, u: Update, key: string)
    requires u.run.Some? && i.owner != u.run
    requires i.owner.None? ||
      (u.state == Some("starting") && (if u.started.Some? then u.started.value else 0) >= i.started)
    ensures var j := Updated(i, u);
      var diagnostics :=
        {"exit_code", "failure", "stop_reason", "published_report", "cleanup_status", "cleanup_failed_at"};
      && j.owner == u.run && j.attempt == u.attempt
      && (key in u.fields ==> key in j.fields && j.fields[key] == u.fields[key])
      && (key !in u.fields && key in diagnostics ==> key !in j.fields)
      && (key !in u.fields && key !in diagnostics ==> (key in j.fields <==> key in i.fields))
      && (key !in u.fields && key !in diagnostics && key in i.fields ==> j.fields[key] == i.fields[key])
      && |j.history| > |i.history| && i.history <= j.history
      && j.history[|i.history|] == HistoryRow("generation_started", u.run, u.attempt, map[])
  {}

  /** An update of the owner, or of nobody in particular, sets its fields and keeps all others; a change of
      state leaves one history row, and a terminal one holds the evidence of the update. */
  lemma OwnUpdatesApply(i: Item, u: Update, key: string)
    requires u.run.None? || i.owner == u.run
    ensures var j := Updated(i, u);
      && j.owner == i.owner && j.attempt == i.attempt && j.fields == i.fields + u.fields
      && j.state == (if u.state.Some? then u.state else i.state)
      && j.started == (if u.started.Some? then u.started.value else i.started)
      && (u.state.None? || u.state == i.state ==> j.history == i.history)
      && (u.state.Some? && u.state != i.state ==>
            && |j.history| == |i.history| + 1 && i.history <= j.history
            && j.history[|i.history|].state == u.state.value && j.history[|i.history|].run == i.owner
            && (key in j.history[|i.history|].evidence <==>
                  && u.state.value in {"completed", "failed", "timed_out", "cancelled", "spawn_failed"}
                  && key in {"exit_code", "failure", "stop_reason", "published_report"} && key in u.fields)
            && (key in j.history[|i.history|].evidence ==> j.history[|i.history|].evidence[key] == u.fields[key]))
  {}

  /* Ownership. */

  /** Updates as supervisors make them: each names its run; a run names its start only when it
      announces itself, always the same one, and announces itself before anything else. */
  predicate Honest(i: Item, u: Update, starts: map<string, int>) {
    && u.run.Some? && u.run.value in starts
    && (u.state == Some(STARTING) <==> u.started.Some?)
    && (u.started.Some? ==> u.started.value == starts[u.run.value])
    && (i.owner.None? ==> u.state == Some(STARTING))
  }

  predicate AllHonest(i: Item, us: seq<Update>, starts: map<string, int>) {
    us == [] ||
    (AllHonest(i, us[..|us| - 1], starts) && Honest(After(i, us[..|us| - 1]), us[|us| - 1], starts))
  }

  /** An owned row carries its owner's start. */
  predicate Stamped(i: Item, starts: map<string, int>) {
    i.owner.Some? ==> i.owner.value in starts && i.started == starts[i.owner.value]
  }

  lemma UpdateKeepsStamp(i: Item, u: Update, starts: map<string, int>)
    requires Stamped(i, starts) && Honest(i, u, starts)
    ensures Stamped(Updated(i, u), starts) && Updated(i, u).owner.Some?
    ensures i.owner.Some? ==> Updated(i, u).started >= i.started
  {}

  lemma {:induction false} RunKeepsStamp(i: Item, us: seq<Update>, starts: map<string, int>)
    requires Stamped(i, starts) && AllHonest(i, us, starts)
    ensures Stamped(After(i, us), starts)
    ensures i.owner.Some? ==> After(i, us).owner.Some? && After(i, us).started >= i.started
  {
    if us != [] {
      RunKeepsStamp(i, us[..|us| - 1], starts);
      UpdateKeepsStamp(After(i, us[..|us| - 1]), us[|us| - 1], starts);
    }
  }

  /** Once a strictly newer run owns the row, no update of an older run ever changes it again,
      whatever other runs do in between. */
  lemma OlderRunsAreShutOut(i: Item, us: seq<Update>, starts: map<string, int>, u: Update)
    requires Stamped(i, starts) && i.owner.Some? && AllHonest(i, us, starts)
    requires Honest(After(i, us), u, starts) && starts[u.run.value] < starts[i.owner.value]
    ensures After(i, us + [u]) == After(i, us)
  {
    RunKeepsStamp(i, us, starts);
    AfterAppend(i, us, u);
  }

  /** A run not older than the owner can still announce itself and take the row: equal start
      times do not protect an owner. */
  lemma PeersMayTakeOver(i: Item, starts: map<string, int>, u: Update)
    requires Stamped(i, starts) && i.owner.Some? && Honest(i, u, starts) && u.state == Some(STARTING)
    ensures Updated(i, u).owner == u.run <==> i.owner == u.run || starts[u.run.value] >= starts[i.owner.value]
  {}

  /** So of two runs that start at the same time the second to announce itself takes the row of the
      first, and the first may take it back. */
  lemma PeersTakeTurns(first: string, second: string, started: int)
    requires first != second
    ensures var a := Update(Some(first), None, Some(STARTING), Some(started), map[]);
      var b := Update(Some(second), None, Some(STARTING), Some(started), map[]);
      && Updated(FRESH, a).owner == Some(first)
      && Updated(Updated(FRESH, a), b).owner == Some(second)
      && Updated(Updated(Updated(FRESH, a), b), a).owner == Some(first)
  {}

  /* Histories. */

  predicate AllNamed(us: seq<Update>) {
    forall k :: 0 <= k < |us| ==> us[k].run.Some?
  }

  /** Some update of run `run` set this state. */
  predicate Recorded(us: seq<Update>, run: string, state: string) {
    exists k :: 0 <= k < |us| && us[k].run == Some(run) && us[k].state == Some(state)
  }

  predicate RecordedField(us: seq<Update>, run: string, key: string, value: string) {
    exists k :: 0 <= k < |us| && us[k].run == Some(run) && key in us[k].fields && us[k].fields[key] == value
  }

  predicate FieldsRecorded(us: seq<Update>, run: string, fields: map<string, string>) {
    forall key :: key in fields && key in EVIDENCE ==> RecordedField(us, run, key, fields[key])
  }

  predicate RowRecorded(us: seq<Update>, h: HistoryRow) {
    && h.run.Some?
    && (h.state != GENERATION ==> Recorded(us, h.run.value, h.state))
    && FieldsRecorded(us, h.run.value, h.evidence)
  }

  /** The live row speaks for its owner, and every history row for the run it names. */
  predicate SpeaksForRuns(us: seq<Update>, i: Item) {
    && (i.owner.None? ==> i.state.None? && i.fields == map[])
    && (i.owner.Some? && i.state.Some? ==> Recorded(us, i.owner.value, i.state.value))
    && (i.owner.Some? ==> FieldsRecorded(us, i.owner.value, i.fields))
    && (forall h :: 0 <= h < |i.history| ==> RowRecorded(us, i.history[h]))
  }

  lemma RecordsGrow(us: seq<Update>, u: Update, run: string, state: string, fields: map<string, string>)
    ensures Recorded(us, run, state) ==> Recorded(us + [u], run, state)
    ensures FieldsRecorded(us, run, fields) ==> FieldsRecorded(us + [u], run, fields)
  {
    if Recorded(us, run, state) {
      var k :| 0 <= k < |us| && us[k].run == Some(run) && us[k].state == Some(state);
      assert (us + [u])[k] == us[k];
    }
    if FieldsRecorded(us, run, fields) {
      forall key | key in fields && key in EVIDENCE
        ensures RecordedField(us + [u], run, key, fields[key])
      {
        assert RecordedField(us, run, key, fields[key]);
        var k :| 0 <= k < |us| && us[k].run == Some(run) && key in us[k].fields && us[k].fields[key] == fields[key];
        assert (us + [u])[k] == us[k];
      }
    }
  }

  /** What an update says is recorded by it. */
  lemma OwnRecord(us: seq<Update>, u: Update)
    requires u.run.Some?
    ensures u.state.Some? ==> Recorded(us + [u], u.run.value, u.state.value)
    ensures FieldsRecorded(us + [u], u.run.value, u.fields)
    ensures FieldsRecorded(us + [u], u.run.value, Only(u.fields, EVIDENCE))
  {
    assert (us + [u])[|us|] == u;
    forall key | key in u.fields
      ensures RecordedField(us + [u], u.run.value, key, u.fields[key])
    {}
  }

  lemma MergedFields(us: seq<Update>, run: string, a: map<string, string>, b: map<string, string>)
    requires FieldsRecorded(us, run, a) && FieldsRecorded(us, run, b)
    ensures FieldsRecorded(us, run, a + b)
  {}

  lemma HistoryGrows(us: seq<Update>, u: Update, history: seq<HistoryRow>)
    requires forall h :: 0 <= h < |history| ==> RowRecorded(us, history[h])
    ensures forall h :: 0 <= h < |history| ==> RowRecorded(us + [u], history[h])
  {
    forall h | 0 <= h < |history| ensures RowRecorded(us + [u], history[h]) {
      RecordsGrow(us, u, history[h].run.value, history[h].state, history[h].evidence);
    }
  }

  /** A row of the owner written by its own run. */
  lemma WriteSpeaks(us: seq<Update>, i: Item, u: Update)
    requires u.run.Some? && i.owner == u.run
    requires i.state.Some? && u.state.None? ==> Recorded(us + [u], u.run.value, i.state.value)
    requires FieldsRecorded(us + [u], u.run.value, i.fields)
    requires forall h :: 0 <= h < |i.history| ==> RowRecorded(us + [u], i.history[h])
    ensures SpeaksForRuns(us + [u], Written(i, u))
  {
    OwnRecord(us, u);
    MergedFields(us + [u], u.run.value, i.fields, u.fields);
  }

  lemma UpdateSpeaks(us: seq<Update>, i: Item, u: Update)
    requires SpeaksForRuns(us, i) && u.run.Some?
    ensures SpeaksForRuns(us + [u], Updated(i, u))
  {
    HistoryGrows(us, u, i.history);
    if i.owner.Some? {
      RecordsGrow(us, u, i.owner.value, if i.state.Some? then i.state.value else "", i.fields);
    }
    if Rejected(i, u) {
    } else if IsOther(i, u) {
      assert FieldsRecorded(us + [u], u.run.value, Without(i.fields, CLEARED));
      WriteSpeaks(us, Generation(i, u), u);
    } else {
      WriteSpeaks(us, i, u);
    }
  }

  lemma {:induction false} RunSpeaks(us: seq<Update>)
    requires AllNamed(us)
    ensures SpeaksForRuns(us, After(FRESH, us))
  {
    if us != [] {
      var init, last := us[..|us| - 1], us[|us| - 1];
      RunSpeaks(init);
      UpdateSpeaks(init, After(FRESH, init), last);
      assert us == init + [last];
    }
  }

  /** Histories only ever grow at their end. */
  lemma {:induction false} HistoryIsAppendOnly(i: Item, us: seq<Update>)
    ensures i.history <= After(i, us).history
  {
    if us != [] {
      HistoryIsAppendOnly(i, us[..|us| - 1]);
    }
  }

  predicate HasTerminal(history: seq<HistoryRow>, run: string) {
    exists h :: 0 <= h < |history| && history[h].run == Some(run) && history[h].state in TERMINAL_STATES
  }

  /** An owner that is terminal on the live row left a terminal history row. */
  predicate LeavesEvidence(i: Item) {
    && (i.owner.None? ==> i.state.None?)
    && (i.owner.Some? && i.state.Some? && i.state.value in TERMINAL_STATES ==> HasTerminal(i.history, i.owner.value))
  }

  lemma UpdateLeavesEvidence(i: Item, u: Update)
    requires LeavesEvidence(i) && u.run.Some?
    ensures LeavesEvidence(Updated(i, u))
  {
    var j := Updated(i, u);
    if !Rejected(i, u) && u.state.Some? && u.state.value in TERMINAL_STATES && u.state != i.state {
      assert j.history[|j.history| - 1].run == u.run;
    }
  }

  lemma {:induction false} RunLeavesEvidence(i: Item, us: seq<Update>)
    requires LeavesEvidence(i) && AllNamed(us)
    ensures LeavesEvidence(After(i, us))
  {
    if us != [] {
      RunLeavesEvidence(i, us[..|us| - 1]);
      UpdateLeavesEvidence(After(i, us[..|us| - 1]), us[|us| - 1]);
    }
  }

  /** A run that turned terminal while it owned the packet keeps a terminal history row for ever. */
  lemma TerminalEvidenceIsKept(us: seq<Update>, more: seq<Update>, run: string)
    requires AllNamed(us)
    requires After(FRESH, us).owner == Some(run)
    requires After(FRESH, us).state.Some? && After(FRESH, us).state.value in TERMINAL_STATES
    ensures HasTerminal(After(FRESH, us + more).history, run)
  {
    RunLeavesEvidence(FRESH, us);
    AfterJoin(FRESH, us, more);
    HistoryIsAppendOnly(After(FRESH, us), more);
    var h :| 0 <= h < |After(FRESH, us).history| && After(FRESH, us).history[h].run == Some(run)
             && After(FRESH, us).history[h].state in TERMINAL_STATES;
    assert After(FRESH, us + more).history[h] == After(FRESH, us).history[h];
  }

  /* What a waiting wave concludes. */

  datatype Report = Report(state: string, published: Option<string>)

  /** The report file of a row: its published one, else a `report` field. */
  function Published(fields: map<string, string>): Option<string> {
    if "published_report" in fields && fields["published_report"] != "" then Some(fields["published_report"])
    else if "report" in fields && fields["report"] != "" then Some(fields["report"])
    else None
  }

  /** The last terminal history row of the run, searched from the end. */
  function LastTerminal(history: seq<HistoryRow>, run: string): Option<HistoryRow> {
    if history == [] then None
    else
      var h := history[|history| - 1];
      if h.run == Some(run) && h.state in WAVE_TERMINAL then Some(h)
      else LastTerminal(history[..|history| - 1], run)
  }

  /** What one poll reports about an expected run, if it is terminal. */
  function Reported(i: Item, run: string): Option<Report> {
    if i.owner == Some(run) then
      if i.state.Some? && i.state.value in WAVE_TERMINAL then Some(Report(i.state.value, Published(i.fields))) else None
    else match LastTerminal(i.history, run)
      case Some(h) => Some(Report(h.state, Published(h.evidence)))
      case None => None
  }

  lemma {:induction false} LastTerminalIs(history: seq<HistoryRow>, run: string)
    ensures match LastTerminal(history, run)
      case Some(h) => h in history && h.run == Some(run) && h.state in WAVE_TERMINAL
      case None =>
        forall k :: 0 <= k < |history| ==> !(history[k].run == Some(run) && history[k].state in WAVE_TERMINAL)
  {
    if history != [] {
      LastTerminalIs(history[..|history| - 1], run);
    }
  }

  /** Some update, of whatever run, set this `report` field. */
  predicate ReportSet(us: seq<Update>, value: string) {
    exists k :: 0 <= k < |us| && "report" in us[k].fields && us[k].fields["report"] == value
  }

  lemma ReportStaysSet(us: seq<Update>, u: Update, value: string)
    requires ReportSet(us, value)
    ensures ReportSet(us + [u], value)
  {
    var k :| 0 <= k < |us| && "report" in us[k].fields && us[k].fields["report"] == value;
    assert (us + [u])[k] == us[k];
  }

  predicate HasReport(fields: map<string, string>, value: string) {
    "report" in fields && fields["report"] == value
  }

  lemma UpdateSetsReport(i: Item, u: Update)
    ensures var f := Updated(i, u).fields;
      "report" in f ==> HasReport(u.fields, f["report"]) || HasReport(i.fields, f["report"])
  {}

  lemma {:induction false} ReportWasSet(us: seq<Update>)
    ensures "report" in After(FRESH, us).fields ==> ReportSet(us, After(FRESH, us).fields["report"])
  {
    if us != [] {
      var init, last := us[..|us| - 1], us[|us| - 1];
      var i := After(FRESH, init);
      ReportWasSet(init);
      UpdateSetsReport(i, last);
      assert us == init + [last];
      if "report" in i.fields && ReportSet(init, i.fields["report"]) {
        ReportStaysSet(init, last, i.fields["report"]);
      }
    }
  }

  /** Evidence of a history row holds no `report` field. */
  lemma {:induction false} HistoryHoldsEvidence(i: Item, us: seq<Update>)
    requires forall h :: 0 <= h < |i.history| ==> "report" !in i.history[h].evidence
    ensures forall h :: 0 <= h < |After(i, us).history| ==> "report" !in After(i, us).history[h].evidence
  {
    if us != [] {
      HistoryHoldsEvidence(i, us[..|us| - 1]);
    }
  }

  /** A reported status was set by an update of that same run.  So was the reported file, unless it is
      the `report` field of the live row, which any run may have set. */
  lemma ReportIsOwn(us: seq<Update>, run: string)
    requires AllNamed(us) && Reported(After(FRESH, us), run).Some?
    ensures var i, r := After(FRESH, us), Reported(After(FRESH, us), run).value;
      && r.state in WAVE_TERMINAL
      && Recorded(us, run, r.state)
      && (r.published.Some? ==>
            || RecordedField(us, run, "published_report", r.published.value)
            || (i.owner == Some(run) && ReportSet(us, r.published.value)))
  {
    RunSpeaks(us);
    var i := After(FRESH, us);
    assert "published_report" in EVIDENCE;
    if i.owner == Some(run) {
      ReportWasSet(us);
    } else {
      LastTerminalIs(i.history, run);
      HistoryHoldsEvidence(FRESH, us);
      var h := LastTerminal(i.history, run).value;
      var k :| 0 <= k < |i.history| && i.history[k] == h;
      assert RowRecorded(us, i.history[k]);
    }
  }

  /** As long as no run sets that field, as supervisors do not, the reported file is the run's own. */
  lemma ReportIsOwnFile(us: seq<Update>, run: string)
    requires AllNamed(us) && Reported(After(FRESH, us), run).Some?
    requires forall k :: 0 <= k < |us| ==> "report" !in us[k].fields
    ensures var r := Reported(After(FRESH, us), run).value;
      r.published.Some? ==> RecordedField(us, run, "published_report", r.published.value)
  {
    ReportIsOwn(us, run);
  }

  /** A run that did set it leaves its file to the next one, since no new generation clears it. */
  lemma LeftoverReport(first: string, second: string, file: string)
    requires first != second && file != ""
    ensures var us := [Update(Some(first), None, Some(STARTING), Some(1), map["report" := file]),
                       Update(Some(second), None, Some(STARTING), Some(2), map[]),
                       Update(Some(second), None, Some("completed"), None, map[])];
      Reported(After(FRESH, us), second) == Some(Report("completed", Some(file)))
  {
    var a := Update(Some(first), None, Some(STARTING), Some(1), map["report" := file]);
    var b := Update(Some(second), None, Some(STARTING), Some(2), map[]);
    var c := Update(Some(second), None, Some("completed"), None, map[]);
    assert After(FRESH, []) == FRESH;
    AfterAppend(FRESH, [], a);
    AfterAppend(FRESH, [a], b);
    AfterAppend(FRESH, [a] + [b], c);
    assert [] + [a] == [a] && [a] + [b] + [c] == [a, b, c];
  }

  /** No completion is lost to a retry: once a run that turned terminal has been replaced, every
      poll reports it terminal. */
  lemma ReplacedRunIsReported(us: seq<Update>, more: seq<Update>, run: string)
    requires AllNamed(us)
    requires After(FRESH, us).owner == Some(run)
    requires After(FRESH, us).state.Some? && After(FRESH, us).state.value in TERMINAL_STATES
    requires After(FRESH, us + more).owner != Some(run)
    ensures Reported(After(FRESH, us + more), run).Some?
  {
    TerminalEvidenceIsKept(us, more, run);
    LastTerminalIs(After(FRESH, us + more).history, run);
  }

  /** A poll reports the owner's live row as soon as it is terminal, a lost supervisor included, and not
      before. */
  lemma LiveRowsAreReported(i: Item, run: string)
    requires i.owner == Some(run)
    ensures var terminal := {"completed", "failed", "timed_out", "cancelled", "spawn_failed", "lost"};
      Reported(i, run).Some? <==> i.state.Some? && i.state.value in terminal
    ensures Reported(i, run).Some? ==> Reported(i, run).value.state == i.state.value
    ensures Reported(i, run).Some? && "published_report" in i.fields && i.fields["published_report"] != "" ==>
      Reported(i, run).value.published == Some(i.fields["published_report"])
  {}

  lemma {:induction false} LastTerminalAt(history: seq<HistoryRow>, run: string, h: nat)
    requires h < |history| && history[h].run == Some(run) && history[h].state in WAVE_TERMINAL
    requires forall k :: h < k < |history| ==> history[k].run != Some(run) || history[k].state !in WAVE_TERMINAL
    ensures LastTerminal(history, run) == Some(history[h])
  {
    if h < |history| - 1 {
      LastTerminalAt(history[..|history| - 1], run, h);
    }
  }

  /** A replaced run is reported by its last terminal history row: that status, and the file published
      with it. */
  lemma ReplacedRunsAreReportedLast(i: Item, run: string, h: nat)
    requires i.owner != Some(run) && h < |i.history|
    requires i.history[h].run == Some(run)
    requires i.history[h].state in {"completed", "failed", "timed_out", "cancelled", "spawn_failed", "lost"}
    requires forall k :: h < k < |i.history| ==> i.history[k].run != Some(run) || i.history[k].state !in WAVE_TERMINAL
    ensures var r, evidence := Reported(i, run), i.history[h].evidence;
      && r.Some? && r.value.state == i.history[h].state
      && ("published_report" in evidence && evidence["published_report"] != "" ==>
            r.value.published == Some(evidence["published_report"]))
      && ("published_report" !in evidence && "report" !in evidence ==> r.value.published.None?)
  {
    LastTerminalAt(i.history, run, h);
  }

  /* Events written once per run. */

  datatype Event = Event(packet: string, run: string, name: string)

  function AppendOnce(events: seq<Event>, e: Event): seq<Event> {
    if e in events then events else events + [e]
  }

  function AppendAll(events: seq<Event>, es: seq<Event>): seq<Event> {
    if es == [] then events else AppendOnce(AppendAll(events, es[..|es| - 1]), es[|es| - 1])
  }

  /** Whatever is appended, each event of a run is in the log exactly once. */
  lemma {:induction false} EventsAreUnique(es: seq<Event>)
    ensures forall e :: e in AppendAll([], es) <==> e in es
    ensures forall i, j :: 0 <= i < j < |AppendAll([], es)| ==> AppendAll([], es)[i] != AppendAll([], es)[j]
  {
    if es != [] {
      var init, last := es[..|es| - 1], es[|es| - 1];
      EventsAreUnique(init);
      assert es == init + [last];
    }
  }

  /* The store as it rewrites its roster, and the wave that waits on it. */

  class Store {
    var jobs: map<string, Item>
    var events: seq<Event>

    function ItemOf(packet: string): Item
      reads this
    {
      if packet in jobs then jobs[packet] else FRESH
    }

    constructor ()
      ensures jobs == map[] && events == []
    {
      jobs, events := map[], [];
    }

    /** One locked read-modify-write of the roster. */
    method Update(packet: string, u: Update) returns (row: Item)
      modifies this`jobs
      ensures row == Updated(old(ItemOf(packet)), u)
      ensures ItemOf(packet) == row
      ensures forall other :: other != packet ==> ItemOf(other) == old(ItemOf(other))
    {
      var item := ItemOf(packet);
      if u.run.Some? && item.owner != u.run {
        if item.owner.Some? && !(u.state == Some(STARTING) && StartOf(u) >= item.started) {
          return item;
        }
        item := item.(history := item.history + [HistoryRow(GENERATION, u.run, u.attempt, map[])]);
        item := item.(fields := Without(item.fields, CLEARED));
        item := item.(owner := u.run, attempt := u.attempt);
      }
      if u.state.Some? && u.state != item.state {
        item := item.(history := item.history + [Change(item, u)]);
      }
      item := item.(fields := item.fields + u.fields);
      if u.state.Some? {
        item := item.(state := u.state);
      }
      if u.started.Some? {
        item := item.(started := u.started.value);
      }
      jobs := jobs[packet := item];
      return item;
    }

    /** Scans and appends under one lock. */
    method AppendEventOnce(e: Event) returns (added: bool)
      modifies this`events
      ensures events == AppendOnce(old(events), e)
      ensures added <==> e !in old(events)
    {
      for i := 0 to |events|
        invariant e !in events[..i]
      {
        if events[i] == e {
          return false;
        }
      }
      events := events + [e];
      return true;
    }
  }

  datatype Result = Pending | Done(report: Report) | WaitTimeout

  /** Pass `q` is the first that reports the run. */
  predicate FirstReport(report: Report, run: string, k: nat, views: seq<seq<Item>>, q: nat)
    requires q < |views| && forall q :: 0 <= q < |views| ==> k < |views[q]|
  {
    && Reported(views[q][k], run) == Some(report)
    && (forall earlier :: 0 <= earlier < q ==> Reported(views[earlier][k], run).None?)
  }

  /** What is known of the `k`-th waited run after `p` passes over the roster. */
  predicate Known(r: Result, run: string, k: nat, views: seq<seq<Item>>, p: nat)
    requires p <= |views| && forall q :: 0 <= q < |views| ==> k < |views[q]|
  {
    match r
    case Done(report) =>
      exists q :: 0 <= q < |views| && FirstReport(report, run, k, views, q)
    case Pending => forall q :: 0 <= q < p ==> Reported(views[q][k], run).None?
    case WaitTimeout => p == |views| && forall q :: 0 <= q < |views| ==> Reported(views[q][k], run).None?
  }

  /** One pass over the runs still waited for. */
  method Poll(results: seq<Result>, runs: seq<string>, views: seq<seq<Item>>, p: nat) returns (next: seq<Result>)
    requires |results| == |runs| && p < |views| && forall q :: 0 <= q < |views| ==> |views[q]| == |runs|
    requires forall k :: 0 <= k < |runs| ==> !results[k].WaitTimeout? && Known(results[k], runs[k], k, views, p)
    ensures |next| == |runs|
    ensures forall k :: 0 <= k < |runs| ==> !next[k].WaitTimeout? && Known(next[k], runs[k], k, views, p + 1)
  {
    next := results;
    for k := 0 to |runs|
      invariant |next| == |runs|
      invariant forall j :: 0 <= j < k ==> !next[j].WaitTimeout? && Known(next[j], runs[j], j, views, p + 1)
      invariant forall j :: k <= j < |runs| ==> next[j] == results[j]
    {
      assert Known(results[k], runs[k], k, views, p);
      if next[k].Pending? {
        var report := Reported(views[p][k], runs[k]);
        if report.Some? {
          assert FirstReport(report.value, runs[k], k, views, p);
          next := next[k := Done(report.value)];
        }
      }
    }
  }

  /** The wave's wait: `views[p][k]` is the row that pass `p` reads for the `k`-th waited run; it
      ends when every run was reported, and the passes end at the deadline. */
  method WaitForTerminal(runs: seq<string>, views: seq<seq<Item>>) returns (results: seq<Result>)
    requires forall p :: 0 <= p < |views| ==> |views[p]| == |runs|
    ensures |results| == |runs|
    ensures forall k :: 0 <= k < |runs| ==> !results[k].Pending? && Known(results[k], runs[k], k, views, |views|)
  {
    results := seq(|runs|, _ => Pending);
    var p := 0;
    while p < |views| && Pending in results
      invariant 0 <= p <= |views| && |results| == |runs|
      invariant forall k :: 0 <= k < |runs| ==> !results[k].WaitTimeout? && Known(results[k], runs[k], k, views, p)
    {
      results := Poll(results, runs, views, p);
      p := p + 1;
    }
    var last := results;
    results := seq(|runs|, k requires 0 <= k < |runs| => if last[k].Pending? then WaitTimeout else last[k]);
    forall k | 0 <= k < |runs| ensures Known(results[k], runs[k], k, views, |views|) {
      assert Known(last[k], runs[k], k, views, p);
      assert last[k].Pending? ==> Pending in last;
    }
  }
}
