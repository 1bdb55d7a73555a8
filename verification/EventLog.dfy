/** The torn-line cursor over the shared event log.

    Writers append bytes in chunks of any shape; a state-machine step reads complete lines from the
    committed cursor, leaves a last line without its newline for later, and commits the lines it
    folded together with the new cursor, or dies before the commit.  The admission of a packet may
    put back a ledger it has read before, cursor included. */
module EventLog {
  import opened Wrappers

  const NEWLINE: char := '\n'

  /** The lines closed so far, each with its newline, and what follows the last newline. */
  datatype Scan = Scan(lines: seq<string>, tail: string)

  function Push(s: Scan, c: char): Scan {
    if c == NEWLINE then Scan(s.lines + [s.tail + [c]], []) else Scan(s.lines, s.tail + [c])
  }

  /** The bytes from `i` up to `j`, one at a time. */
  function ScanOf(b: string, i: nat, j: nat): Scan
    requires i <= j <= |b|
  {
    if i == j then Scan([], []) else Push(ScanOf(b, i, j - 1), b[j - 1])
  }

  function Lines(b: string, i: nat, j: nat): seq<string>
    requires i <= j <= |b|
  {
    ScanOf(b, i, j).lines
  }

  function Tail(b: string, i: nat, j: nat): string
    requires i <= j <= |b|
  {
    ScanOf(b, i, j).tail
  }

  function Flatten(lines: seq<string>): string {
    if lines == [] then [] else Flatten(lines[..|lines| - 1]) + lines[|lines| - 1]
  }

  predicate Whitespace(c: char) {
    c == ' ' || '\t' <= c <= '\r' || '\U{1C}' <= c <= '\U{1F}'
  }

  predicate Blank(line: string) {
    forall i :: 0 <= i < |line| ==> Whitespace(line[i])
  }

  /** Blank lines move the cursor but carry no event. */
  function WithText(lines: seq<string>): seq<string> {
    if lines == [] then []
    else
      var last := lines[|lines| - 1];
      WithText(lines[..|lines| - 1]) + (if Blank(last) then [] else [last])
  }

  lemma FlattenOneMore(lines: seq<string>, line: string)
    ensures Flatten(lines + [line]) == Flatten(lines) + line
  {
    assert (lines + [line])[..|lines|] == lines;
  }

  lemma TextOneMore(lines: seq<string>, line: string)
    ensures WithText(lines + [line]) == WithText(lines) + (if Blank(line) then [] else [line])
  {
    assert (lines + [line])[..|lines|] == lines;
  }

  lemma {:induction false} TextOfJoin(a: seq<string>, c: seq<string>)
    ensures WithText(a + c) == WithText(a) + WithText(c)
  {
    if c == [] {
      assert a + c == a;
    } else {
      var init, last := c[..|c| - 1], c[|c| - 1];
      TextOfJoin(a, init);
      TextOneMore(a + init, last);
      assert a + c == (a + init) + [last];
    }
  }

  predicate HasNewline(b: string, i: nat, j: nat)
    requires i <= j <= |b|
  {
    exists k :: i <= k < j && b[k] == NEWLINE
  }

  lemma Regroup(a: string, b: string, c: string)
    ensures a + (b + c) == (a + b) + c
  {}

  /** One more byte, wherever it goes. */
  lemma PushKeepsBytes(s: Scan, c: char)
    ensures Flatten(Push(s, c).lines) + Push(s, c).tail == (Flatten(s.lines) + s.tail) + [c]
  {
    Regroup(Flatten(s.lines), s.tail, [c]);
    FlattenOneMore(s.lines, s.tail + [c]);
  }

  /** Nothing is lost or invented: the lines and the tail are the bytes. */
  lemma {:induction false} LinesAreTheBytes(b: string, i: nat, j: nat)
    requires i <= j <= |b|
    ensures Flatten(Lines(b, i, j)) + Tail(b, i, j) == b[i..j]
  {
    if i < j {
      LinesAreTheBytes(b, i, j - 1);
      PushKeepsBytes(ScanOf(b, i, j - 1), b[j - 1]);
      assert b[i..j] == b[i..j - 1] + [b[j - 1]];
    }
  }

  /** Where the last complete line ends. */
  function EndOf(b: string, i: nat, j: nat): (e: nat)
    requires i <= j <= |b|
    ensures i <= e <= j
    ensures e == j - |Tail(b, i, j)|
    ensures e == i || b[e - 1] == NEWLINE
    ensures !HasNewline(b, e, j)
  {
    if i == j then i else if b[j - 1] == NEWLINE then j else EndOf(b, i, j - 1)
  }

  /** Up to there the same lines are read, with nothing after them. */
  lemma {:induction false} LinesEndThere(b: string, i: nat, j: nat)
    requires i <= j <= |b|
    ensures ScanOf(b, i, EndOf(b, i, j)) == Scan(Lines(b, i, j), [])
  {
    if i < j && b[j - 1] != NEWLINE {
      LinesEndThere(b, i, j - 1);
    }
  }

  /** Lines of a closed stretch are not disturbed by what follows it. */
  lemma {:induction false} LinesOfJoin(b: string, i: nat, m: nat, j: nat)
    requires i <= m <= j <= |b| && Tail(b, i, m) == []
    ensures Lines(b, i, j) == Lines(b, i, m) + Lines(b, m, j)
    ensures Tail(b, i, j) == Tail(b, m, j)
  {
    if m < j {
      LinesOfJoin(b, i, m, j - 1);
    }
  }

  lemma JoinedText(b: string, i: nat, m: nat, j: nat)
    requires i <= m <= j <= |b| && Tail(b, i, m) == []
    ensures WithText(Lines(b, i, j)) == WithText(Lines(b, i, m)) + WithText(Lines(b, m, j))
    ensures Tail(b, i, j) == Tail(b, m, j)
  {
    LinesOfJoin(b, i, m, j);
    TextOfJoin(Lines(b, i, m), Lines(b, m, j));
  }

  /** What is appended later does not change what was read. */
  lemma {:induction false} AppendKeepsScan(b: string, more: string, i: nat, j: nat)
    requires i <= j <= |b|
    ensures ScanOf(b + more, i, j) == ScanOf(b, i, j)
  {
    if i < j {
      AppendKeepsScan(b, more, i, j - 1);
    }
  }

  /* The system of writers and steps. */

  /** A ledger's cursor and the lines folded into it. */
  datatype Commit = Commit(cursor: nat, folded: seq<string>)

  /** The log's bytes, the committed ledger, and the copy an admission has read. */
  datatype Log = Log(bytes: string, ledger: Commit, read: Option<Commit>)

  const EMPTY := Log([], Commit(0, []), None)

  /** A step commits, or dies before its commit; an admission reads, and puts back what it read. */
  datatype Step = AppendChunk(chunk: string) | Fold | FoldAndDie | ReadLedger | PutBack

  predicate InRange(s: Log) {
    s.ledger.cursor <= |s.bytes| && (s.read.Some? ==> s.read.value.cursor <= |s.bytes|)
  }

  /** The ledger after the lines from its cursor on. */
  function Folding(bytes: string, l: Commit): (r: Commit)
    requires l.cursor <= |bytes|
    ensures l.cursor <= r.cursor <= |bytes|
  {
    Commit(EndOf(bytes, l.cursor, |bytes|), l.folded + WithText(Lines(bytes, l.cursor, |bytes|)))
  }

  function FoldOnce(s: Log): (r: Log)
    requires InRange(s)
    ensures InRange(r) && r.bytes == s.bytes
  {
    s.(ledger := Folding(s.bytes, s.ledger))
  }

  /** The ledger has folded exactly the complete lines before its cursor. */
  predicate SoundAt(bytes: string, l: Commit) {
    && l.cursor <= |bytes|
    && Tail(bytes, 0, l.cursor) == []
    && l.folded == WithText(Lines(bytes, 0, l.cursor))
  }

  predicate Sound(s: Log) {
    SoundAt(s.bytes, s.ledger) && (s.read.Some? ==> SoundAt(s.bytes, s.read.value))
  }

  lemma FoldKeepsSound(s: Log)
    requires Sound(s)
    ensures Sound(FoldOnce(s))
  {
    LinesEndThere(s.bytes, s.ledger.cursor, |s.bytes|);
    JoinedText(s.bytes, 0, s.ledger.cursor, FoldOnce(s).ledger.cursor);
  }

  function Next(s: Log, step: Step): (r: Log)
    requires InRange(s)
    ensures InRange(r)
  {
    match step
    case AppendChunk(chunk) => s.(bytes := s.bytes + chunk)
    case Fold => FoldOnce(s)
    case FoldAndDie => s
    case ReadLedger => s.(read := Some(s.ledger))
    case PutBack => if s.read.Some? then s.(ledger := s.read.value, read := None) else s
  }

  lemma StepKeepsSound(s: Log, step: Step)
    requires Sound(s)
    ensures Sound(Next(s, step))
  {
    match step
    case AppendChunk(chunk) =>
      AppendKeepsScan(s.bytes, chunk, 0, s.ledger.cursor);
      if s.read.Some? { AppendKeepsScan(s.bytes, chunk, 0, s.read.value.cursor); }
    case Fold => FoldKeepsSound(s);
    case FoldAndDie =>
    case ReadLedger =>
    case PutBack =>
  }

  function Run(steps: seq<Step>, n: nat): (r: Log)
    requires n <= |steps|
    ensures InRange(r)
  {
    if n == 0 then EMPTY else Next(Run(steps, n - 1), steps[n - 1])
  }

  function Appended(steps: seq<Step>, n: nat): string
    requires n <= |steps|
  {
    if n == 0 then []
    else Appended(steps, n - 1) + (if steps[n - 1].AppendChunk? then steps[n - 1].chunk else [])
  }

  lemma NextBytes(s: Log, step: Step)
    requires InRange(s)
    ensures Next(s, step).bytes == s.bytes + (if step.AppendChunk? then step.chunk else [])
  {
    assert s.bytes + [] == s.bytes;
  }

  lemma {:induction false} RunIsSound(steps: seq<Step>, n: nat)
    requires n <= |steps|
    ensures Sound(Run(steps, n)) && Run(steps, n).bytes == Appended(steps, n)
  {
    if n > 0 {
      RunIsSound(steps, n - 1);
      StepKeepsSound(Run(steps, n - 1), steps[n - 1]);
      NextBytes(Run(steps, n - 1), steps[n - 1]);
    }
  }

  lemma {:induction false} ClosedEndsInNewline(b: string, j: nat)
    requires j <= |b| && Tail(b, 0, j) == []
    ensures j == 0 || b[j - 1] == NEWLINE
  {}

  /** However writers cut their bytes into chunks, wherever steps die and whatever older ledger an
      admission puts back, the committed ledger has folded exactly the complete lines of the bytes
      before its cursor, once each and in order, and the cursor is 0 or just after a newline. */
  lemma FoldedExactlyOnce(steps: seq<Step>, n: nat)
    requires n <= |steps|
    ensures var s := Run(steps, n);
      && s.bytes == Appended(steps, n)
      && (s.ledger.cursor == 0 || s.bytes[s.ledger.cursor - 1] == NEWLINE)
      && s.ledger.folded == WithText(Lines(s.bytes, 0, s.ledger.cursor))
      && Flatten(Lines(s.bytes, 0, s.ledger.cursor)) == s.bytes[..s.ledger.cursor]
  {
    RunIsSound(steps, n);
    var s := Run(steps, n);
    ClosedEndsInNewline(s.bytes, s.ledger.cursor);
    LinesAreTheBytes(s.bytes, 0, s.ledger.cursor);
  }

  /** One committed step catches up with every complete line of the log. */
  lemma FoldReachesTheEnd(s: Log)
    requires Sound(s)
    ensures FoldOnce(s).ledger == Commit(EndOf(s.bytes, 0, |s.bytes|), WithText(Lines(s.bytes, 0, |s.bytes|)))
    ensures !HasNewline(s.bytes, FoldOnce(s).ledger.cursor, |s.bytes|)
  {
    JoinedText(s.bytes, 0, s.ledger.cursor, |s.bytes|);
  }

  /** Chunking, dying, old ledgers put back and the moments of the steps do not matter: two runs that
      append the same bytes agree on cursor and ledger after one more committed step. */
  lemma ChunkingIsInvisible(steps1: seq<Step>, steps2: seq<Step>)
    requires Appended(steps1, |steps1|) == Appended(steps2, |steps2|)
    ensures FoldOnce(Run(steps1, |steps1|)).ledger == FoldOnce(Run(steps2, |steps2|)).ledger
  {
    RunIsSound(steps1, |steps1|);
    RunIsSound(steps2, |steps2|);
    FoldReachesTheEnd(Run(steps1, |steps1|));
    FoldReachesTheEnd(Run(steps2, |steps2|));
  }

  /* Which lines are folded. */

  /** A line with a visible character is folded; one of spaces, tabs and its newline is not. */
  lemma OneLineText(line: string, k: nat)
    requires k < |line|
    ensures '!' <= line[k] <= '~' ==> WithText([line]) == [line]
    ensures (forall i :: 0 <= i < |line| ==> line[i] in {' ', '\t', '\n'}) ==> WithText([line]) == []
  {
    assert [line][..0] == [];
    if '!' <= line[k] <= '~' {
      assert !Whitespace(line[k]);
    }
  }

  lemma {:induction false} TextKeepsVisible(lines: seq<string>, i: nat, k: nat)
    requires i < |lines| && k < |lines[i]| && '!' <= lines[i][k] <= '~'
    ensures lines[i] in WithText(lines)
  {
    if i < |lines| - 1 {
      TextKeepsVisible(lines[..|lines| - 1], i, k);
    } else {
      assert !Whitespace(lines[i][k]);
    }
  }

  /** In every run, every complete line before the cursor that has a visible character was folded. */
  lemma VisibleLinesAreFolded(steps: seq<Step>, n: nat, i: nat, k: nat)
    requires n <= |steps|
    requires i < |Lines(Run(steps, n).bytes, 0, Run(steps, n).ledger.cursor)|
    requires var line := Lines(Run(steps, n).bytes, 0, Run(steps, n).ledger.cursor)[i];
      k < |line| && '!' <= line[k] <= '~'
    ensures Lines(Run(steps, n).bytes, 0, Run(steps, n).ledger.cursor)[i] in Run(steps, n).ledger.folded
  {
    RunIsSound(steps, n);
    TextKeepsVisible(Lines(Run(steps, n).bytes, 0, Run(steps, n).ledger.cursor), i, k);
  }

  predicate NoNewline(s: string) {
    forall k :: 0 <= k < |s| ==> s[k] != '\n'
  }

  lemma {:induction false} TailHasNoNewline(b: string, i: nat, j: nat)
    requires i <= j <= |b|
    ensures NoNewline(Tail(b, i, j))
  {
    if i < j {
      TailHasNoNewline(b, i, j - 1);
      if b[j - 1] != NEWLINE {
        assert Tail(b, i, j) == Tail(b, i, j - 1) + [b[j - 1]];
      }
    }
  }

  /** Every line is one: its only newline is its last character. */
  lemma {:induction false} LinesAreSingle(b: string, i: nat, j: nat, m: nat)
    requires i <= j <= |b| && m < |Lines(b, i, j)|
    ensures var line := Lines(b, i, j)[m];
      line != "" && line[|line| - 1] == '\n' && NoNewline(line[..|line| - 1])
  {
    if m < |Lines(b, i, j - 1)| {
      LinesAreSingle(b, i, j - 1, m);
    } else {
      var tail := Tail(b, i, j - 1);
      TailHasNoNewline(b, i, j - 1);
      assert Lines(b, i, j)[m] == tail + [NEWLINE] && (tail + [NEWLINE])[..|tail|] == tail;
    }
  }

  /* The read loop itself. */

  /** Without a newline there is only a tail. */
  lemma {:induction false} TornHasNoLines(b: string, i: nat, j: nat)
    requires i <= j <= |b| && !HasNewline(b, i, j)
    ensures Lines(b, i, j) == [] && Tail(b, i, j) == b[i..j]
  {
    if i < j {
      TornHasNoLines(b, i, j - 1);
      assert b[i..j] == b[i..j - 1] + [b[j - 1]];
    }
  }

  lemma TornThenNewline(b: string, i: nat, j: nat)
    requires i <= j < |b| && !HasNewline(b, i, j) && b[j] == NEWLINE
    ensures Lines(b, i, j + 1) == [b[i..j + 1]] && Tail(b, i, j + 1) == []
  {
    TornHasNoLines(b, i, j);
    assert b[i..j + 1] == b[i..j] + [b[j]];
  }

  /** One `readline`: up to and including the next newline, or to the end without one. */
  method ReadLine(bytes: string, off: nat) returns (end: nat, whole: bool)
    requires off <= |bytes|
    ensures off <= end <= |bytes|
    ensures whole ==> off < end && Lines(bytes, off, end) == [bytes[off..end]] && Tail(bytes, off, end) == []
    ensures !whole ==> end == |bytes| && !HasNewline(bytes, off, end)
  {
    end := off;
    while end < |bytes|
      invariant off <= end <= |bytes| && !HasNewline(bytes, off, end)
    {
      if bytes[end] == NEWLINE {
        TornThenNewline(bytes, off, end);
        return end + 1, true;
      }
      end := end + 1;
    }
    return end, false;
  }

  /** Reads from the cursor until the end or a torn line, skipping blanks. */
  method ReadLoop(bytes: string, off: nat) returns (lines: seq<string>, consumed: nat)
    requires off <= |bytes|
    ensures lines == WithText(Lines(bytes, off, |bytes|)) && consumed == EndOf(bytes, off, |bytes|)
  {
    lines, consumed := [], off;
    while true
      invariant off <= consumed <= |bytes|
      invariant Tail(bytes, off, consumed) == [] && lines == WithText(Lines(bytes, off, consumed))
      decreases |bytes| - consumed
    {
      var end, whole := ReadLine(bytes, consumed);
      LinesOfJoin(bytes, off, consumed, end);
      if !whole {
        TornHasNoLines(bytes, consumed, end);
        assert Lines(bytes, off, consumed) + [] == Lines(bytes, off, consumed);
        return;
      }
      var line := bytes[consumed..end];
      TextOneMore(Lines(bytes, off, consumed), line);
      if !Blank(line) {
        lines := lines + [line];
      }
      consumed := end;
    }
  }
}
