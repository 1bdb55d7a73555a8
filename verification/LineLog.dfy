/** The two views of the event log joined: the bytes that `EventLog` scans and the lines that
    `LifecycleWorld` counts.  A parser makes one event of each line that is not blank. */
module LineLog {
  import opened Wrappers
  import opened Lifecycle
  import opened LifecycleWorld
  import opened LifecycleMachine
  import Bytes = EventLog

  type Parser = string -> Event

  /** All complete lines with text. */
  function TextOf(bytes: string): seq<string> {
    Bytes.WithText(Bytes.Lines(bytes, 0, |bytes|))
  }

  function Parsed(lines: seq<string>, parse: Parser): (log: seq<Event>)
    ensures |log| == |lines| && forall i :: 0 <= i < |lines| ==> log[i] == parse(lines[i])
  {
    seq(|lines|, i requires 0 <= i < |lines| => parse(lines[i]))
  }

  /** The system of bytes and the system of lines are in the same place. */
  predicate Joined(s: Bytes.Log, w: World, parse: Parser) {
    && w.log == Parsed(TextOf(s.bytes), parse)
    && w.ledger.cursor == |s.ledger.folded|
  }

  lemma {:induction false} LinesGrow(b: string, i: nat, j: nat, k: nat)
    requires i <= j <= k <= |b|
    ensures Bytes.Lines(b, i, j) <= Bytes.Lines(b, i, k)
  {
    if j < k {
      LinesGrow(b, i, j, k - 1);
    }
  }

  lemma TextGrows(a: seq<string>, b: seq<string>)
    requires a <= b
    ensures Bytes.WithText(a) <= Bytes.WithText(b)
  {
    assert b == a + b[|a|..];
    Bytes.TextOfJoin(a, b[|a|..]);
  }

  /** Whatever is appended, whole or torn, lines that were there stay, and new ones come after. */
  lemma ChunksExtendLines(bytes: string, chunk: string, parse: Parser)
    ensures Parsed(TextOf(bytes), parse) <= Parsed(TextOf(bytes + chunk), parse)
  {
    Bytes.AppendKeepsScan(bytes, chunk, 0, |bytes|);
    LinesGrow(bytes + chunk, 0, |bytes|, |bytes + chunk|);
    TextGrows(Bytes.Lines(bytes, 0, |bytes|), Bytes.Lines(bytes + chunk, 0, |bytes + chunk|));
    assert TextOf(bytes) <= TextOf(bytes + chunk);
  }

  /** One newline, at the end, after a closed stretch: one more line. */
  lemma OneMoreLineOfBytes(b: string, m: nat, n: nat)
    requires m <= n < |b| && n + 1 == |b| && Bytes.Tail(b, 0, m) == []
    requires b[n] == Bytes.NEWLINE && !Bytes.HasNewline(b, m, n)
    ensures Bytes.ScanOf(b, 0, |b|) == Bytes.Scan(Bytes.Lines(b, 0, m) + [b[m..n + 1]], [])
  {
    Bytes.TornThenNewline(b, m, n);
    Bytes.LinesOfJoin(b, 0, m, |b|);
  }

  lemma LineHasNoNewline(bytes: string, line: string)
    requires Bytes.NEWLINE !in line
    ensures !Bytes.HasNewline(bytes + (line + [Bytes.NEWLINE]), |bytes|, |bytes| + |line|)
  {
    var more := bytes + (line + [Bytes.NEWLINE]);
    forall k | |bytes| <= k < |bytes| + |line| ensures more[k] != Bytes.NEWLINE {
      assert more[k] == line[k - |bytes|];
    }
  }

  lemma WholeLineIsOneMore(bytes: string, line: string)
    requires Bytes.Tail(bytes, 0, |bytes|) == [] && Bytes.NEWLINE !in line
    ensures var more := bytes + (line + [Bytes.NEWLINE]);
      Bytes.ScanOf(more, 0, |more|) == Bytes.Scan(Bytes.Lines(bytes, 0, |bytes|) + [line + [Bytes.NEWLINE]], [])
  {
    var closed := line + [Bytes.NEWLINE];
    var more := bytes + closed;
    Bytes.AppendKeepsScan(bytes, closed, 0, |bytes|);
    LineHasNoNewline(bytes, line);
    assert more[|bytes|..|more|] == closed && closed[|line|] == Bytes.NEWLINE;
    OneMoreLineOfBytes(more, |bytes|, |bytes| + |line|);
  }

  /** A whole line after a whole line is exactly one more event. */
  lemma WholeLineIsOneEvent(bytes: string, line: string, parse: Parser)
    requires Bytes.Tail(bytes, 0, |bytes|) == [] && !Bytes.Blank(line + [Bytes.NEWLINE]) && Bytes.NEWLINE !in line
    ensures var more := bytes + (line + [Bytes.NEWLINE]);
      && Parsed(TextOf(more), parse) == Parsed(TextOf(bytes), parse) + [parse(line + [Bytes.NEWLINE])]
      && Bytes.Tail(more, 0, |more|) == []
  {
    WholeLineIsOneMore(bytes, line);
    Bytes.TextOneMore(Bytes.Lines(bytes, 0, |bytes|), line + [Bytes.NEWLINE]);
  }

  /** In every run of the byte log, what a step reads from the byte cursor on are exactly the lines
      from the line cursor on. */
  lemma CursorsAgree(steps: seq<Bytes.Step>, n: nat, parse: Parser)
    requires n <= |steps|
    ensures var s := Bytes.Run(steps, n);
      var log := Parsed(TextOf(s.bytes), parse);
      && |s.ledger.folded| <= |log|
      && Parsed(s.ledger.folded, parse) == log[..|s.ledger.folded|]
      && Parsed(Bytes.WithText(Bytes.Lines(s.bytes, s.ledger.cursor, |s.bytes|)), parse) == log[|s.ledger.folded|..]
  {
    Bytes.RunIsSound(steps, n);
    SoundCursorsAgree(Bytes.Run(steps, n).bytes, Bytes.Run(steps, n).ledger, parse);
  }

  lemma SoundCursorsAgree(bytes: string, l: Bytes.Commit, parse: Parser)
    requires Bytes.SoundAt(bytes, l)
    ensures var log := Parsed(TextOf(bytes), parse);
      && |l.folded| <= |log|
      && Parsed(l.folded, parse) == log[..|l.folded|]
      && Parsed(Bytes.WithText(Bytes.Lines(bytes, l.cursor, |bytes|)), parse) == log[|l.folded|..]
  {
    Bytes.JoinedText(bytes, 0, l.cursor, |bytes|);
    assert TextOf(bytes) == l.folded + Bytes.WithText(Bytes.Lines(bytes, l.cursor, |bytes|));
  }

  /** A committed fold of the bytes is a step that reads every line; so the step of the machine and
      the read loop over the bytes stay joined. */
  lemma FoldsStayJoined(s: Bytes.Log, w: World, parse: Parser, w': World)
    requires Bytes.Sound(s) && Joined(s, w, parse)
    requires w'.log == w.log && w'.ledger.cursor == |w.log|
    ensures Joined(Bytes.FoldOnce(s), w', parse)
  {
    Bytes.FoldReachesTheEnd(s);
  }

  /** An old ledger that is put back is in the same place in both, too. */
  lemma PutBackStaysJoined(s: Bytes.Log, w: World, parse: Parser, w': World)
    requires Bytes.Sound(s) && s.read.Some? && w.log == Parsed(TextOf(s.bytes), parse)
    requires w'.log == w.log && w'.ledger.cursor == |s.read.value.folded|
    ensures Joined(Bytes.Next(s, Bytes.PutBack), w', parse)
    ensures w'.ledger.cursor <= |w'.log|
  {
    SoundCursorsAgree(s.bytes, s.read.value, parse);
  }

  /** The lines the byte loop returns are the lines the machine's loop handles. */
  method ReadEvents(bytes: string, l: Bytes.Commit, parse: Parser) returns (events: seq<Event>, cursor: nat)
    requires Bytes.SoundAt(bytes, l)
    ensures |l.folded| <= |TextOf(bytes)| && events == Parsed(TextOf(bytes), parse)[|l.folded|..]
    ensures cursor == Bytes.Folding(bytes, l).cursor
  {
    var lines;
    lines, cursor := Bytes.ReadLoop(bytes, l.cursor);
    SoundCursorsAgree(bytes, l, parse);
    events := [];
    for i := 0 to |lines|
      invariant events == Parsed(lines[..i], parse)
    {
      events := events + [parse(lines[i])];
    }
    assert lines[..|lines|] == lines;
  }

  /* A line that halts. */

  ghost predicate Clear(w: World) {
    && ClearTo(w.log, w.ledger)
    && (w.work.Some? ==> ClearTo(w.log, w.work.value))
    && (w.admission.Some? ==> ClearTo(w.log, w.admission.value.read))
  }

  ghost predicate ClearTo(log: seq<Event>, l: Ledger) {
    l.cursor <= |log| && AllSafe(log, 0, l.cursor)
  }

  lemma ProducerKeepsClear(w: World, step: Produce)
    requires Clear(w) && CanProduce(w, step)
    ensures Clear(Produced(w, step))
  {
    match step
    case _ =>
  }

  lemma MachineKeepsClear(w: World, step: Machine)
    requires Clear(w) && CanMove(w, step)
    ensures Clear(Moved(w, step))
  {
    match step
    case Handle(env) => UnsafeIdsHalt(WorkBooks(w), NextLine(w), env);
    case _ =>
  }

  lemma {:induction false} RunKeepsClear(w: World, steps: seq<Step>, limit: nat)
    requires Clear(w) && IsRun(w, steps, limit)
    ensures Clear(After(w, steps, limit))
    decreases |steps|
  {
    if steps != [] {
      if steps[0].ByProducer? {
        ProducerKeepsClear(w, steps[0].produce);
      } else {
        MachineKeepsClear(w, steps[0].machine);
      }
      RunKeepsClear(Next(w, steps[0]), steps[1..], limit);
    }
  }

  /** In every run no committed ledger ever passes a line with an unsafe id: nothing behind such a
      line is folded any more. */
  lemma NothingPassesAnUnsafeId(steps: seq<Step>, limit: nat, i: nat)
    requires IsRun(INITIAL, steps, limit)
    requires i < |After(INITIAL, steps, limit).log| && Unsafe(After(INITIAL, steps, limit).log[i])
    ensures After(INITIAL, steps, limit).ledger.cursor <= i
  {
    RunKeepsClear(INITIAL, steps, limit);
  }
}
