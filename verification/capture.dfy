/**
 The capture loop of src/logs.rs: every chunk read from the PTY goes to the raw
 log, through the cleaner to the clean log, and through the terminal to the screen
 snapshot. Each sink is best-effort and reports its first failure only.
 */
module Capture {
  import opened Wrappers
  import opened Cleaner
  import Lines
  import opened Text

  /** The terminal emulator, as a fold over bytes. */
  datatype Vt<!S> = Vt(blank: S, feed: (S, byte) -> S, contents: S -> string)

  function Fed<S>(vt: Vt<S>, at: S, bytes: seq<byte>): S
    decreases |bytes|
  {
    if bytes == [] then at else Fed(vt, vt.feed(at, bytes[0]), bytes[1..])
  }

  lemma {:induction false} FedConcat<S>(vt: Vt<S>, at: S, a: seq<byte>, b: seq<byte>)
    ensures Fed(vt, at, a + b) == Fed(vt, Fed(vt, at, a), b)
    decreases |a|
  {
    if a == [] {
      assert a + b == b;
    } else {
      assert (a + b)[1..] == a[1..] + b;
      FedConcat(vt, vt.feed(at, a[0]), a[1..], b);
    }
  }

  // -------------------------------------------------- trim_screen_snapshot

  function TrimEnd(line: string): string {
    if line != "" && White(line[|line| - 1]) then TrimEnd(line[..|line| - 1]) else line
  }

  function TrimAll(lines: seq<string>): seq<string> {
    seq(|lines|, i requires 0 <= i < |lines| => TrimEnd(lines[i]))
  }

  function DropBlank(lines: seq<string>): seq<string> {
    if lines != [] && lines[|lines| - 1] == "" then DropBlank(lines[..|lines| - 1]) else lines
  }

  function TrimSnapshot(contents: string): string {
    Lines.Join(DropBlank(TrimAll(Lines.Split(contents, '\n', '\r'))), '\n')
  }

  /** `trim_screen_snapshot` */
  method TrimScreen(contents: string) returns (snapshot: string)
    ensures snapshot == TrimSnapshot(contents)
  {
    var lines := TrimAll(Lines.Split(contents, '\n', '\r'));
    while |lines| > 0 && lines[|lines| - 1] == ""
      invariant DropBlank(lines) == DropBlank(TrimAll(Lines.Split(contents, '\n', '\r')))
      decreases |lines|
    {
      lines := lines[..|lines| - 1];
    }
    snapshot := Lines.Join(lines, '\n');
  }

  /** A snapshot's lines: no white space at a line's end, no blank line at the end. */
  ghost predicate Trimmed(lines: seq<string>) {
    && (forall i | 0 <= i < |lines| && lines[i] != "" :: !White(lines[i][|lines[i]| - 1]))
    && (lines != [] ==> lines[|lines| - 1] != "")
    && Lines.Unbroken(lines, '\n')
  }

  ghost predicate AllWhite(s: string) {
    forall i | 0 <= i < |s| :: White(s[i])
  }

  lemma {:induction false} TrimEndTrims(line: string)
    ensures TrimEnd(line) <= line
    ensures TrimEnd(line) != "" ==> !White(TrimEnd(line)[|TrimEnd(line)| - 1])
    ensures AllWhite(line[|TrimEnd(line)|..])
  {
    if line != "" && White(line[|line| - 1]) {
      var n := |line| - 1;
      TrimEndTrims(line[..n]);
      assert line[|TrimEnd(line)|..] == line[..n][|TrimEnd(line)|..] + [line[n]];
    }
  }

  lemma {:induction false} DropBlankDrops(lines: seq<string>)
    ensures DropBlank(lines) <= lines
    ensures DropBlank(lines) != [] ==> DropBlank(lines)[|DropBlank(lines)| - 1] != ""
    ensures forall i | |DropBlank(lines)| <= i < |lines| :: lines[i] == ""
  {
    if lines != [] && lines[|lines| - 1] == "" { DropBlankDrops(lines[..|lines| - 1]); }
  }

  /** `lines` are the lines `all`, without white space at their ends and blank lines at the end. */
  ghost predicate TrimmedFrom(lines: seq<string>, all: seq<string>) {
    && |lines| <= |all|
    && (forall i | 0 <= i < |lines| :: lines[i] <= all[i] && AllWhite(all[i][|lines[i]|..]))
    && (forall i | |lines| <= i < |all| :: AllWhite(all[i]))
  }

  /** A snapshot is trimmed, and only white space has gone. */
  lemma SnapshotLines(contents: string) returns (lines: seq<string>)
    ensures Trimmed(lines) && TrimSnapshot(contents) == Lines.Join(lines, '\n')
    ensures TrimmedFrom(lines, Lines.Split(contents, '\n', '\r'))
  {
    var all := Lines.Split(contents, '\n', '\r');
    Lines.SplitIsUnbroken(contents, '\n', '\r');
    lines := DropBlank(TrimAll(all));
    DropBlankDrops(TrimAll(all));
    forall i | 0 <= i < |lines|
      ensures (lines[i] != "" ==> !White(lines[i][|lines[i]| - 1])) && '\n' !in lines[i]
      ensures lines[i] <= all[i] && AllWhite(all[i][|lines[i]|..])
    {
      assert lines[i] == TrimAll(all)[i];
      TrimEndTrims(all[i]);
    }
    forall i | |lines| <= i < |all| ensures AllWhite(all[i]) {
      assert TrimAll(all)[i] == "";
      TrimEndTrims(all[i]);
    }
  }

  lemma TrimmedIsBare(lines: seq<string>)
    requires Trimmed(lines)
    ensures Lines.StripAll(lines, '\r') == lines && TrimAll(lines) == lines && DropBlank(lines) == lines
  {
    forall i | 0 <= i < |lines| ensures Lines.Strip(lines[i], '\r') == lines[i] == TrimEnd(lines[i]) {
      assert lines[i] != "" ==> !White(lines[i][|lines[i]| - 1]);
    }
  }

  lemma TrimmedStays(lines: seq<string>)
    requires Trimmed(lines)
    ensures TrimSnapshot(Lines.Join(lines, '\n')) == Lines.Join(lines, '\n')
  {
    Lines.SplitOfJoin(lines, '\n', '\r');
    TrimmedIsBare(lines);
  }

  /** Trimming a snapshot again changes nothing. */
  lemma TrimIsIdempotent(contents: string)
    ensures TrimSnapshot(TrimSnapshot(contents)) == TrimSnapshot(contents)
  {
    var lines := SnapshotLines(contents);
    TrimmedStays(lines);
  }

  // --------------------------------------------------------------- the loop

  /** The outcome of one log write; a failed one may have left a prefix behind. */
  datatype LogWrite = Whole | Failed(kept: nat)

  function Kept(bytes: seq<byte>, r: LogWrite): seq<byte> {
    if r.Failed? && r.kept < |bytes| then bytes[..r.kept] else bytes
  }

  /** One turn of the loop. */
  datatype Turn =
    | StopRequested | PollInterrupted | PollTimedOut | PollFailed | ReadFailed
    | Read(chunk: seq<byte>, raw: LogWrite, clean: LogWrite, screen: bool)

  predicate EndsLoop(t: Turn) {
    t.StopRequested? || t.PollFailed? || t.ReadFailed? || (t.Read? && t.chunk == [])
  }

  /** The reads that the loop gets to handle, in order. */
  function Handled(turns: seq<Turn>): (got: seq<Turn>)
    ensures forall i | 0 <= i < |got| :: got[i].Read?
  {
    if turns == [] || EndsLoop(turns[0]) then []
    else if turns[0].Read? then [turns[0]] + Handled(turns[1..])
    else Handled(turns[1..])
  }

  ghost predicate AllReads(got: seq<Turn>) {
    forall i | 0 <= i < |got| :: got[i].Read?
  }

  function Stream(got: seq<Turn>): seq<byte>
    requires AllReads(got)
  {
    if got == [] then [] else got[0].chunk + Stream(got[1..])
  }

  function RawLog(got: seq<Turn>): seq<byte>
    requires AllReads(got)
  {
    if got == [] then [] else Kept(got[0].chunk, got[0].raw) + RawLog(got[1..])
  }

  function CleanLog(s: State, got: seq<Turn>): seq<byte>
    requires AllReads(got)
    decreases |got|
  {
    if got == [] then []
    else Kept(Out(s, got[0].chunk), got[0].clean) + CleanLog(Run(s, got[0].chunk), got[1..])
  }

  /** The snapshot file after the reads, given the one before. */
  function Screen<S>(vt: Vt<S>, at: S, was: string, got: seq<Turn>): string
    requires AllReads(got)
    decreases |got|
  {
    if got == [] then was
    else
      var next := Fed(vt, at, got[0].chunk);
      Screen(vt, next, if got[0].screen then TrimSnapshot(vt.contents(next)) else was, got[1..])
  }

  datatype Sink = RawSink | CleanSink | ScreenSink

  predicate Fails(sink: Sink, t: Turn)
    requires t.Read?
  {
    match sink
    case RawSink => t.raw.Failed?
    case CleanSink => t.clean.Failed?
    case ScreenSink => !t.screen
  }

  ghost predicate EverFails(sink: Sink, got: seq<Turn>)
    requires AllReads(got)
  {
    exists i | 0 <= i < |got| :: Fails(sink, got[i])
  }

  function Warnings(log: seq<Sink>, sink: Sink): nat {
    if log == [] then 0 else (if log[|log| - 1] == sink then 1 else 0) + Warnings(log[..|log| - 1], sink)
  }

  /** The session's files and the daemon's error output. */
  class Sinks {
    var raw: seq<byte>
    var clean: seq<byte>
    var screen: string
    var warnings: seq<Sink>

    constructor ()
      ensures raw == [] && clean == [] && screen == "" && warnings == []
    {
      raw, clean, screen, warnings := [], [], "", [];
    }

    function Contents(): Files
      reads this
    {
      Files(raw, clean, screen, warnings)
    }

    /** `warn_once` */
    method WarnOnce(warned: bool, sink: Sink, failed: bool) returns (now: bool)
      modifies this`warnings
      ensures now == (warned || failed)
      ensures warnings == if failed && !warned then old(warnings) + [sink] else old(warnings)
    {
      now := warned;
      if failed {
        if !warned {
          now := true;
          warnings := warnings + [sink];
        }
      }
    }
  }

  /** Each sink has warned once if it has failed, and not at all otherwise. */
  ghost predicate WarnedOnce(log: seq<Sink>, got: seq<Turn>, sink: Sink)
    requires AllReads(got)
  {
    Warnings(log, sink) == if EverFails(sink, got) then 1 else 0
  }

  lemma {:induction false} AppendStream(got: seq<Turn>, t: Turn)
    requires AllReads(got) && t.Read?
    ensures AllReads(got + [t]) && Stream(got + [t]) == Stream(got) + t.chunk
  {
    if got == [] {
      assert [t][1..] == [] && got + [t] == [t];
    } else {
      assert (got + [t])[1..] == got[1..] + [t];
      AppendStream(got[1..], t);
    }
  }

  lemma {:induction false} AppendRaw(got: seq<Turn>, t: Turn)
    requires AllReads(got) && t.Read? && AllReads(got + [t])
    ensures RawLog(got + [t]) == RawLog(got) + Kept(t.chunk, t.raw)
  {
    if got == [] {
      assert [t][1..] == [] && got + [t] == [t];
    } else {
      assert (got + [t])[1..] == got[1..] + [t];
      AppendRaw(got[1..], t);
    }
  }

  lemma {:induction false} AppendClean(s: State, got: seq<Turn>, t: Turn)
    requires AllReads(got) && t.Read? && AllReads(got + [t])
    ensures CleanLog(s, got + [t]) == CleanLog(s, got) + Kept(Out(Run(s, Stream(got)), t.chunk), t.clean)
    decreases |got|
  {
    if got == [] {
      assert [t][1..] == [] && got + [t] == [t];
    } else {
      var h, rest := got[0], got[1..];
      var next := Run(s, h.chunk);
      assert (got + [t])[1..] == rest + [t];
      AppendClean(next, rest, t);
      Concat(s, h.chunk, Stream(rest));
      var more := Kept(Out(Run(next, Stream(rest)), t.chunk), t.clean);
      Associate(Kept(Out(s, h.chunk), h.clean), CleanLog(next, rest), more);
    }
  }

  lemma {:induction false} AppendScreen<S>(vt: Vt<S>, at: S, was: string, got: seq<Turn>, t: Turn)
    requires AllReads(got) && t.Read? && AllReads(got + [t])
    ensures Screen(vt, at, was, got + [t])
            == if t.screen then TrimSnapshot(vt.contents(Fed(vt, Fed(vt, at, Stream(got)), t.chunk)))
               else Screen(vt, at, was, got)
    decreases |got|
  {
    if got == [] {
      assert [t][1..] == [] && got + [t] == [t];
    } else {
      var h, rest := got[0], got[1..];
      assert (got + [t])[1..] == rest + [t];
      var next := Fed(vt, at, h.chunk);
      AppendScreen(vt, next, if h.screen then TrimSnapshot(vt.contents(next)) else was, rest, t);
      FedConcat(vt, at, h.chunk, Stream(rest));
    }
  }

  lemma FailsAppend(got: seq<Turn>, t: Turn, sink: Sink)
    requires AllReads(got) && t.Read?
    ensures EverFails(sink, got + [t]) <==> EverFails(sink, got) || Fails(sink, t)
  {
    if EverFails(sink, got) {
      var i :| 0 <= i < |got| && Fails(sink, got[i]);
      assert (got + [t])[i] == got[i];
    }
    assert (got + [t])[|got|] == t;
  }

  /** Which sinks have warned so far: raw log, clean log, screen snapshot. */
  datatype Warned = Warned(raw: bool, clean: bool, screen: bool)

  /** The error output after one chunk. */
  function Warn(log: seq<Sink>, warned: Warned, t: Turn): seq<Sink>
    requires t.Read?
  {
    var log1 := if t.raw.Failed? && !warned.raw then log + [RawSink] else log;
    var log2 := if t.clean.Failed? && !warned.clean then log1 + [CleanSink] else log1;
    if !t.screen && !warned.screen then log2 + [ScreenSink] else log2
  }

  /** What the session's files and the error output hold. */
  datatype Files = Files(raw: seq<byte>, clean: seq<byte>, screen: string, warnings: seq<Sink>)

  /** The files after handling `got`, starting from `was` with nothing reported. */
  ghost predicate FilesAre<S>(vt: Vt<S>, was: Files, got: seq<Turn>, now: Files)
    requires AllReads(got)
  {
    && now.raw == was.raw + RawLog(got)
    && now.clean == was.clean + CleanLog(START, got)
    && now.screen == Screen(vt, vt.blank, was.screen, got)
    && forall sink :: WarnedOnce(now.warnings, got, sink)
  }

  ghost predicate WarnedAre(warned: Warned, got: seq<Turn>)
    requires AllReads(got)
  {
    warned == Warned(EverFails(RawSink, got), EverFails(CleanSink, got), EverFails(ScreenSink, got))
  }

  /** The state of the loop after handling `got`. */
  ghost predicate Captured<S>(
    vt: Vt<S>, was: Files, got: seq<Turn>, s: State, terminal: S, warned: Warned, now: Files) {
    && AllReads(got)
    && s == Run(START, Stream(got))
    && terminal == Fed(vt, vt.blank, Stream(got))
    && WarnedAre(warned, got)
    && FilesAre(vt, was, got, now)
  }

  /** What one chunk makes of the files. */
  function HandleFiles<S>(vt: Vt<S>, t: Turn, s: State, next: S, warned: Warned, f: Files): Files
    requires t.Read?
  {
    Files(
      f.raw + Kept(t.chunk, t.raw),
      f.clean + Kept(Out(s, t.chunk), t.clean),
      if t.screen then TrimSnapshot(vt.contents(next)) else f.screen,
      Warn(f.warnings, warned, t))
  }

  function WarnedAfter(warned: Warned, t: Turn): Warned
    requires t.Read?
  {
    Warned(warned.raw || t.raw.Failed?, warned.clean || t.clean.Failed?, warned.screen || !t.screen)
  }

  lemma CapturedStep<S>(
    vt: Vt<S>, was: Files, got: seq<Turn>, s: State, terminal: S, warned: Warned, now: Files, t: Turn)
    requires Captured(vt, was, got, s, terminal, warned, now) && t.Read?
    ensures var next := Fed(vt, terminal, t.chunk);
            Captured(vt, was, got + [t], Run(s, t.chunk), next, WarnedAfter(warned, t),
                     HandleFiles(vt, t, s, next, warned, now))
  {
    AppendTurn(vt, was.screen, got, t);
    WarningsAppend(now.warnings, warned, got, t);
    Associate(was.raw, RawLog(got), Kept(t.chunk, t.raw));
    Associate(was.clean, CleanLog(START, got), Kept(Out(s, t.chunk), t.clean));
  }

  lemma AppendTurn<S>(vt: Vt<S>, screen: string, got: seq<Turn>, t: Turn)
    requires AllReads(got) && t.Read?
    ensures AllReads(got + [t]) && Stream(got + [t]) == Stream(got) + t.chunk
    ensures Run(START, Stream(got + [t])) == Run(Run(START, Stream(got)), t.chunk)
    ensures Fed(vt, vt.blank, Stream(got + [t])) == Fed(vt, Fed(vt, vt.blank, Stream(got)), t.chunk)
    ensures RawLog(got + [t]) == RawLog(got) + Kept(t.chunk, t.raw)
    ensures CleanLog(START, got + [t]) == CleanLog(START, got) + Kept(Out(Run(START, Stream(got)), t.chunk), t.clean)
    ensures Screen(vt, vt.blank, screen, got + [t])
            == if t.screen then TrimSnapshot(vt.contents(Fed(vt, Fed(vt, vt.blank, Stream(got)), t.chunk)))
               else Screen(vt, vt.blank, screen, got)
  {
    AppendStream(got, t);
    AppendRaw(got, t);
    AppendClean(START, got, t);
    AppendScreen(vt, vt.blank, screen, got, t);
    Concat(START, Stream(got), t.chunk);
    FedConcat(vt, vt.blank, Stream(got), t.chunk);
  }

  /** The loop's part for one chunk: the three sinks, in order. */
  method HandleChunk<S>(vt: Vt<S>, t: Turn, cleaner: AnsiCleaner, terminal: S, warned: Warned, sinks: Sinks)
    returns (next: S, now: Warned)
    requires t.Read?
    modifies cleaner, sinks
    ensures cleaner.Snapshot() == Run(old(cleaner.Snapshot()), t.chunk)
    ensures next == Fed(vt, terminal, t.chunk) && now == WarnedAfter(warned, t)
    ensures sinks.Contents() == HandleFiles(vt, t, old(cleaner.Snapshot()), next, warned, old(sinks.Contents()))
  {
    sinks.raw := sinks.raw + Kept(t.chunk, t.raw);
    var warnedRaw := sinks.WarnOnce(warned.raw, RawSink, t.raw.Failed?);

    var clean := new ByteBuffer();
    cleaner.CleanChunk(t.chunk, clean);
    assert clean.bytes == Out(old(cleaner.Snapshot()), t.chunk);
    sinks.clean := sinks.clean + Kept(clean.bytes, t.clean);
    var warnedClean := sinks.WarnOnce(warned.clean, CleanSink, t.clean.Failed?);

    next := Fed(vt, terminal, t.chunk);
    if t.screen {
      sinks.screen := TrimScreen(vt.contents(next));
    }
    var warnedScreen := sinks.WarnOnce(warned.screen, ScreenSink, !t.screen);
    now := Warned(warnedRaw, warnedClean, warnedScreen);
  }

  /** The loop ends on an error. */
  predicate EndsBadly(turns: seq<Turn>) {
    turns != [] && (if EndsLoop(turns[0]) then turns[0].PollFailed? || turns[0].ReadFailed? else EndsBadly(turns[1..]))
  }

  /** Of the first `n` turns the loop has handled the reads `got`, and it has not ended. */
  predicate SoFar(turns: seq<Turn>, n: nat, got: seq<Turn>)
    requires n <= |turns|
  {
    Handled(turns) == got + Handled(turns[n..]) && EndsBadly(turns) == EndsBadly(turns[n..])
  }

  lemma NextTurn(turns: seq<Turn>, n: nat, got: seq<Turn>)
    requires n < |turns| && SoFar(turns, n, got)
    ensures EndsLoop(turns[n]) ==>
              Handled(turns) == got && EndsBadly(turns) == (turns[n].PollFailed? || turns[n].ReadFailed?)
    ensures !EndsLoop(turns[n]) ==> SoFar(turns, n + 1, if turns[n].Read? then got + [turns[n]] else got)
  {
    assert turns[n..][0] == turns[n] && turns[n..][1..] == turns[n + 1..];
    if EndsLoop(turns[n]) { assert got + [] == got; } else { Associate(got, [turns[n]], Handled(turns[n + 1..])); }
  }

  lemma NoMoreTurns(turns: seq<Turn>, got: seq<Turn>)
    requires SoFar(turns, |turns|, got)
    ensures Handled(turns) == got && !EndsBadly(turns)
  {
    assert turns[|turns|..] == [] && got + [] == got;
  }

  /** A turn after which the loop goes on. */
  predicate LoopsOn(t: Turn) {
    t.PollTimedOut? || t.PollInterrupted? || (t.Read? && t.chunk != [])
  }

  /** A turn that ends the loop. */
  predicate LeavesLoop(t: Turn) {
    t.StopRequested? || t.PollFailed? || t.ReadFailed? || (t.Read? && t.chunk == [])
  }

  function Reads(turns: seq<Turn>): seq<Turn> {
    if turns == [] then [] else (if turns[0].Read? then [turns[0]] else []) + Reads(turns[1..])
  }

  /** Turns after which the loop goes on are handled, in order, before the rest. */
  lemma {:induction false} LoopGoesOn(turns: seq<Turn>, n: nat)
    requires n <= |turns| && forall i | 0 <= i < n :: LoopsOn(turns[i])
    ensures Handled(turns) == Reads(turns[..n]) + Handled(turns[n..]) && EndsBadly(turns) == EndsBadly(turns[n..])
  {
    if n == 0 {
      assert turns[n..] == turns;
    } else {
      LoopGoesOn(turns[1..], n - 1);
      assert turns[..n][0] == turns[0] && turns[..n][1..] == turns[1..][..n - 1];
      assert turns[1..][n - 1..] == turns[n..];
      var first := if turns[0].Read? then [turns[0]] else [];
      assert Handled(turns) == first + Handled(turns[1..]);
      Associate(first, Reads(turns[1..][..n - 1]), Handled(turns[n..]));
    }
  }

  /** The loop handles exactly the reads before the first turn that ends it, and that turn decides about the error. */
  lemma LoopHandlesExactly(turns: seq<Turn>, n: nat)
    requires n <= |turns| && forall i | 0 <= i < n :: LoopsOn(turns[i])
    requires n < |turns| ==> LeavesLoop(turns[n])
    ensures Handled(turns) == Reads(turns[..n])
    ensures EndsBadly(turns) <==> n < |turns| && (turns[n].PollFailed? || turns[n].ReadFailed?)
  {
    LoopGoesOn(turns, n);
    assert Handled(turns[n..]) == [];
  }

  /**
   `capture_output`. If one of the two logs cannot be opened nothing happens.
   Otherwise, whatever the chunks and whichever writes fail, the loop handles every
   read up to its end; each log is what its own writes kept, and each sink warns
   once exactly if it ever failed.
   */
  method CaptureOutput<S>(vt: Vt<S>, rawOpens: bool, cleanOpens: bool, turns: seq<Turn>, sinks: Sinks)
    returns (ok: bool)
    requires sinks.warnings == []
    modifies sinks
    ensures var bothOpen := rawOpens && cleanOpens;
            && FilesAre(vt, old(sinks.Contents()), if bothOpen then Handled(turns) else [], sinks.Contents())
            && ok == (bothOpen && !EndsBadly(turns))
  {
    if !rawOpens { return false; }
    if !cleanOpens { return false; }
    var cleaner := new AnsiCleaner();
    var terminal := vt.blank;
    var warned := Warned(false, false, false);
    ghost var got: seq<Turn> := [];
    ghost var was := sinks.Contents();
    var n := 0;
    while n < |turns|
      invariant n <= |turns| && fresh(cleaner)
      invariant SoFar(turns, n, got)
      invariant Captured(vt, was, got, cleaner.Snapshot(), terminal, warned, sinks.Contents())
    {
      var turn := turns[n];
      NextTurn(turns, n, got);
      if EndsLoop(turn) {
        // the stop flag, end of file, or an error of poll or read
        return !(turn.PollFailed? || turn.ReadFailed?);
      }
      if turn.Read? {
        CapturedStep(vt, was, got, cleaner.Snapshot(), terminal, warned, sinks.Contents(), turn);
        terminal, warned := HandleChunk(vt, turn, cleaner, terminal, warned, sinks);
        got := got + [turn];
      }
      n := n + 1;
    }
    NoMoreTurns(turns, got);
    ok := true;
  }

  lemma CountWarning(log: seq<Sink>, s: Sink, sink: Sink)
    ensures Warnings(log + [s], sink) == Warnings(log, sink) + if s == sink then 1 else 0
  {
    assert (log + [s])[..|log|] == log;
  }

  lemma WarningsAppend(log: seq<Sink>, warned: Warned, got: seq<Turn>, t: Turn)
    requires AllReads(got) && t.Read? && WarnedAre(warned, got) && forall sink :: WarnedOnce(log, got, sink)
    ensures AllReads(got + [t]) && WarnedAre(WarnedAfter(warned, t), got + [t])
    ensures forall sink :: WarnedOnce(Warn(log, warned, t), got + [t], sink)
  {
    forall sink ensures WarnedOnce(Warn(log, warned, t), got + [t], sink) {
      assert WarnedOnce(log, got, sink);
      CountWarn(log, warned, t, sink);
      FailsAppend(got, t, sink);
    }
    FailsAppend(got, t, RawSink);
    FailsAppend(got, t, CleanSink);
    FailsAppend(got, t, ScreenSink);
  }

  /** One chunk adds one warning for a sink that fails for the first time. */
  lemma CountWarn(log: seq<Sink>, warned: Warned, t: Turn, sink: Sink)
    requires t.Read?
    ensures Warnings(Warn(log, warned, t), sink)
            == Warnings(log, sink) + if Fails(sink, t) && !HasWarned(warned, sink) then 1 else 0
  {
    var log1 := if t.raw.Failed? && !warned.raw then log + [RawSink] else log;
    var log2 := if t.clean.Failed? && !warned.clean then log1 + [CleanSink] else log1;
    CountWarning(log, RawSink, sink);
    CountWarning(log1, CleanSink, sink);
    CountWarning(log2, ScreenSink, sink);
  }

  predicate HasWarned(warned: Warned, sink: Sink) {
    match sink
    case RawSink => warned.raw
    case CleanSink => warned.clean
    case ScreenSink => warned.screen
  }

  // ------------------------------------------------------- what the logs say

  /** Without raw-log failures the raw log is the stream, whatever happens to the other sinks. */
  lemma {:induction false} RawLogIsStream(got: seq<Turn>)
    requires AllReads(got) && !EverFails(RawSink, got)
    ensures RawLog(got) == Stream(got)
  {
    if got != [] {
      assert !Fails(RawSink, got[0]);
      assert forall i | 0 <= i < |got[1..]| :: got[1..][i] == got[i + 1];
      RawLogIsStream(got[1..]);
    }
  }

  /** Without clean-log failures the clean log is the one-shot cleaning of the stream. */
  lemma {:induction false} CleanLogIsClean(s: State, got: seq<Turn>)
    requires AllReads(got) && !EverFails(CleanSink, got)
    ensures CleanLog(s, got) == Out(s, Stream(got))
    decreases |got|
  {
    if got != [] {
      assert !Fails(CleanSink, got[0]);
      assert forall i | 0 <= i < |got[1..]| :: got[1..][i] == got[i + 1];
      CleanLogIsClean(Run(s, got[0].chunk), got[1..]);
      Concat(s, got[0].chunk, Stream(got[1..]));
    }
  }

  /** If the last snapshot was written, the file is the trimmed rendering of the whole stream. */
  lemma ScreenIsRendering<S>(vt: Vt<S>, was: string, got: seq<Turn>)
    requires AllReads(got) && got != [] && got[|got| - 1].screen
    ensures Screen(vt, vt.blank, was, got) == TrimSnapshot(vt.contents(Fed(vt, vt.blank, Stream(got))))
  {
    var n := |got| - 1;
    assert got == got[..n] + [got[n]];
    AppendTurn(vt, was, got[..n], got[n]);
  }

  /**
   The three files of a session agree: with every sink intact, the clean log is
   the cleaning of the raw log and the screen is its rendering, for any chunking.
   */
  lemma LogsAgree<S>(vt: Vt<S>, was: string, got: seq<Turn>)
    requires AllReads(got) && forall sink :: !EverFails(sink, got)
    ensures RawLog(got) == Stream(got)
    ensures CleanLog(START, got) == Clean(RawLog(got))
    ensures got != [] ==> Screen(vt, vt.blank, was, got) == TrimSnapshot(vt.contents(Fed(vt, vt.blank, RawLog(got))))
  {
    assert !EverFails(RawSink, got) && !EverFails(CleanSink, got) && !EverFails(ScreenSink, got);
    RawLogIsStream(got);
    CleanLogIsClean(START, got);
    if got != [] {
      assert !Fails(ScreenSink, got[|got| - 1]);
      ScreenIsRendering(vt, was, got);
    }
  }
}
