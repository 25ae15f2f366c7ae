/**
 The streaming control-sequence stripper of src/clean.rs: the class the program
 uses, the step function it computes, and the laws of its output.
 */
module Cleaner {
  import opened Wrappers

  const ESC: byte := 0x1b
  const BEL: byte := 0x07
  const TAB: byte := 0x09
  const LF: byte := 0x0a
  const CR: byte := 0x0d

  datatype Mode = Ground | Escape | EscapeIntermediate | Csi | Osc | OscEsc | StringSeq | StringEsc

  /** The cleaner's two fields. */
  datatype State = State(mode: Mode, cr: bool)

  const START := State(Ground, false)

  /** Inside an OSC or string sequence ESC begins the terminator; elsewhere it starts over. */
  predicate InString(m: Mode) {
    m.Osc? || m.OscEsc? || m.StringSeq? || m.StringEsc?
  }

  predicate Intermediate(b: byte) { 0x20 <= b <= 0x2f }
  predicate ShortFinal(b: byte) { 0x30 <= b <= 0x7e }
  predicate CsiFinal(b: byte) { 0x40 <= b <= 0x7e }

  /** `P`, `X`, `^` and `_` open a device control, start-of, privacy or application string. */
  predicate Introducer(b: byte) { b == 0x50 || b == 0x58 || b == 0x5e || b == 0x5f }

  predicate Printable(b: byte) {
    (b >= 0x20 && b != 0x7f) || b == TAB
  }

  function AfterEscape(b: byte): Mode {
    if b == 0x5b then Csi
    else if b == 0x5d then Osc
    else if Introducer(b) then StringSeq
    else if Intermediate(b) then EscapeIntermediate
    else Ground
  }

  function Next(s: State, b: byte): State {
    if b == ESC && !InString(s.mode) then State(Escape, false)
    else
      match s.mode
      case Ground => State(Ground, b == CR)
      case Escape => State(AfterEscape(b), s.cr)
      case EscapeIntermediate => if ShortFinal(b) then State(Ground, s.cr) else s
      case Csi => if CsiFinal(b) then State(Ground, s.cr) else s
      case Osc => if b == BEL then State(Ground, s.cr) else if b == ESC then State(OscEsc, s.cr) else s
      case OscEsc => State(Ground, s.cr)
      case StringSeq => if b == ESC then State(StringEsc, s.cr) else s
      case StringEsc => State(Ground, s.cr)
  }

  function Emit(s: State, b: byte): seq<byte> {
    if b == ESC && !InString(s.mode) then (if s.cr then [LF] else [])
    else if !s.mode.Ground? then []
    else
      (if s.cr then [LF] else []) +
      (if Printable(b) || (b == LF && !s.cr) then [b] else [])
  }

  function Run(s: State, input: seq<byte>): State
    decreases |input|
  {
    if input == [] then s else Run(Next(s, input[0]), input[1..])
  }

  function Out(s: State, input: seq<byte>): seq<byte>
    decreases |input|
  {
    if input == [] then [] else Emit(s, input[0]) + Out(Next(s, input[0]), input[1..])
  }

  /** Cleaning a whole stream in one call. */
  function Clean(input: seq<byte>): seq<byte> {
    Out(START, input)
  }

  // ------------------------------------------------------------- the class

  class ByteBuffer {
    var bytes: seq<byte>

    constructor ()
      ensures bytes == []
    {
      bytes := [];
    }
  }

  class AnsiCleaner {
    var mode: Mode
    var pendingCr: bool

    function Snapshot(): State
      reads this
    {
      State(mode, pendingCr)
    }

    constructor ()
      ensures Snapshot() == START
    {
      mode := Ground;
      pendingCr := false;
    }

    /** `clean`: one call appends what the whole chunk emits, from wherever the last call stopped. */
    method CleanChunk(input: seq<byte>, out: ByteBuffer)
      modifies this, out
      ensures Snapshot() == Run(old(Snapshot()), input)
      ensures out.bytes == old(out.bytes) + Out(old(Snapshot()), input)
    {
      var i := 0;
      while i < |input|
        invariant i <= |input|
        invariant Snapshot() == Run(old(Snapshot()), input[..i])
        invariant out.bytes == old(out.bytes) + Out(old(Snapshot()), input[..i])
      {
        Snoc(old(Snapshot()), input[..i], input[i]);
        assert input[..i + 1] == input[..i] + [input[i]];
        StepByte(input[i], out);
        i := i + 1;
      }
      assert input[..i] == input;
    }

    /** `step` */
    method StepByte(b: byte, out: ByteBuffer)
      modifies this, out
      ensures Snapshot() == Next(old(Snapshot()), b)
      ensures out.bytes == old(out.bytes) + Emit(old(Snapshot()), b)
    {
      if b == ESC && !InString(mode) {
        if pendingCr {
          pendingCr := false;
          out.bytes := out.bytes + [LF];
        }
        mode := Escape;
        return;
      }
      match mode {
        case Ground => GroundByte(b, out);
        case Escape => EscapeByte(b);
        case EscapeIntermediate =>
          if ShortFinal(b) { mode := Ground; }
        case Csi =>
          if CsiFinal(b) { mode := Ground; }
        case Osc =>
          if b == BEL { mode := Ground; } else if b == ESC { mode := OscEsc; }
        case OscEsc => mode := Ground;
        case StringSeq =>
          if b == ESC { mode := StringEsc; }
        case StringEsc => mode := Ground;
      }
    }

    /** `ground` */
    method GroundByte(b: byte, out: ByteBuffer)
      requires mode == Ground && b != ESC
      modifies this, out
      ensures Snapshot() == Next(old(Snapshot()), b)
      ensures out.bytes == old(out.bytes) + Emit(old(Snapshot()), b)
    {
      if pendingCr {
        pendingCr := false;
        out.bytes := out.bytes + [LF];
        if b == LF { return; }
      }
      if b == CR {
        pendingCr := true;
      } else if b == LF || b == TAB {
        out.bytes := out.bytes + [b];
      } else if b <= 0x1f || b == 0x7f {
        // dropped
      } else {
        out.bytes := out.bytes + [b];
      }
    }

    /** `escape` */
    method EscapeByte(b: byte)
      modifies this`mode
      ensures mode == AfterEscape(b)
    {
      if b == 0x5b {
        mode := Csi;
      } else if b == 0x5d {
        mode := Osc;
      } else if Introducer(b) {
        mode := StringSeq;
      } else if Intermediate(b) {
        mode := EscapeIntermediate;
      } else {
        mode := Ground;
      }
    }
  }

  // -------------------------------------------------------------- chunking

  lemma {:induction false} Snoc(s: State, a: seq<byte>, b: byte)
    ensures Run(s, a + [b]) == Next(Run(s, a), b)
    ensures Out(s, a + [b]) == Out(s, a) + Emit(Run(s, a), b)
  {
    Concat(s, a, [b]);
    assert [b][1..] == [];
  }

  /** Where a stream is cut into chunks makes no difference. */
  lemma {:induction false} Concat(s: State, a: seq<byte>, c: seq<byte>)
    ensures Run(s, a + c) == Run(Run(s, a), c)
    ensures Out(s, a + c) == Out(s, a) + Out(Run(s, a), c)
    decreases |a|
  {
    if a == [] {
      assert a + c == c;
    } else {
      assert (a + c)[1..] == a[1..] + c;
      Concat(Next(s, a[0]), a[1..], c);
    }
  }

  // ------------------------------------------------------------------- laws

  /** A carriage return can only be pending in Ground. */
  predicate Sound(s: State) {
    s.cr ==> s.mode.Ground?
  }

  lemma {:induction false} PendingOnlyInGround(s: State, input: seq<byte>)
    requires Sound(s)
    ensures Sound(Run(s, input))
    decreases |input|
  {
    if input != [] { PendingOnlyInGround(Next(s, input[0]), input[1..]); }
  }

  function Pending(s: State): nat {
    if s.cr then 1 else 0
  }

  /** Cleaning never lengthens: what is out, with the carriage return still held back, fits the input. */
  lemma {:induction false} NeverLengthens(s: State, input: seq<byte>)
    requires Sound(s)
    ensures |Out(s, input)| + Pending(Run(s, input)) <= |input| + Pending(s)
    decreases |input|
  {
    if input != [] { NeverLengthens(Next(s, input[0]), input[1..]); }
  }

  /** No C0 control but tab and newline, and no DEL. */
  ghost predicate Plain(out: seq<byte>) {
    forall i | 0 <= i < |out| :: Printable(out[i]) || out[i] == LF
  }

  lemma {:induction false} OutputIsPlain(s: State, input: seq<byte>)
    ensures Plain(Out(s, input))
    decreases |input|
  {
    if input != [] { OutputIsPlain(Next(s, input[0]), input[1..]); }
  }

  lemma {:induction false} PlainIsKept(out: seq<byte>)
    requires Plain(out)
    ensures Clean(out) == out && Run(START, out) == START
  {
    if out != [] {
      assert Printable(out[0]) || out[0] == LF;
      PlainIsKept(out[1..]);
      assert [out[0]] + out[1..] == out;
    }
  }

  /** Cleaning twice is cleaning once, and the streams left unchanged are exactly the plain ones. */
  lemma CleaningIsIdempotent(input: seq<byte>)
    ensures Clean(Clean(input)) == Clean(input)
    ensures Clean(input) == input <==> Plain(input)
  {
    OutputIsPlain(START, input);
    PlainIsKept(Clean(input));
    if Plain(input) { PlainIsKept(input); }
  }
}
