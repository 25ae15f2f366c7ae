/**
 When the cleaner keeps UTF-8 (section 4 of RFC 3629) intact. Every multibyte
 character is kept or dropped whole, except one whose first byte is taken as the
 byte after an ESC; for valid input that is exactly what can break the output.
 */
module CleanerUtf8 {
  import opened Wrappers
  import opened Cleaner
  import opened Encoding

  /** The modes in which the next byte is taken whatever it is. */
  predicate TakesAny(m: Mode) {
    m.Escape? || m.OscEsc? || m.StringEsc?
  }

  /** Somewhere the byte taken after an ESC is not ASCII. */
  predicate TakesNonAscii(s: State, input: seq<byte>)
    decreases |input|
  {
    input != [] && ((TakesAny(s.mode) && input[0] >= 0x80) || TakesNonAscii(Next(s, input[0]), input[1..]))
  }

  lemma {:induction false} TakesConcat(s: State, a: seq<byte>, b: seq<byte>)
    ensures TakesNonAscii(s, a + b) <==> TakesNonAscii(s, a) || TakesNonAscii(Run(s, a), b)
    decreases |a|
  {
    if a == [] {
      assert a + b == b;
    } else {
      assert (a + b)[1..] == a[1..] + b;
      TakesConcat(Next(s, a[0]), a[1..], b);
    }
  }

  /** What a pending CR adds to the output. */
  function Flush(s: State): seq<byte> {
    if s.cr then [LF] else []
  }

  ghost predicate High(c: seq<byte>) {
    c != [] && forall i | 0 <= i < |c| :: c[i] >= 0x80
  }

  /** Bytes of a multibyte character, or of its tail, are text in Ground. */
  lemma {:induction false} HighBytesShow(s: State, c: seq<byte>)
    requires s.mode.Ground? && High(c)
    ensures !TakesNonAscii(s, c)
    ensures Run(s, c) == START && Out(s, c) == Flush(s) + c
    decreases |c|
  {
    assert c[0] >= 0x80;
    assert Emit(s, c[0]) == Flush(s) + [c[0]] && Next(s, c[0]) == START;
    assert [c[0]] + c[1..] == c;
    Associate(Flush(s), [c[0]], c[1..]);
    if |c| > 1 {
      HighBytesShow(START, c[1..]);
      assert [] + c[1..] == c[1..];
    }
  }

  /** They are dropped in the modes that neither show text nor take any byte. */
  lemma {:induction false} HighBytesDrop(s: State, c: seq<byte>)
    requires !s.mode.Ground? && !TakesAny(s.mode) && High(c)
    ensures !TakesNonAscii(s, c)
    ensures Run(s, c) == s && Out(s, c) == []
    decreases |c|
  {
    if |c| > 1 { HighBytesDrop(s, c[1..]); }
  }

  lemma Ascii(s: State, b: byte)
    requires b <= 0x7f
    ensures Utf8(Emit(s, b))
  {
    assert Utf8([b]) by { assert [b][..1] == [b] && [b][1..] == []; }
    LfIsValid();
    ValidPrefix([LF], [b]);
    ValidPrefix([LF], []);
  }

  /** In Ground, the bytes of a multibyte character are put out. */
  lemma TailShows(t: State, tail: seq<byte>, rest: seq<byte>)
    requires t.mode.Ground? && High(tail)
    ensures Out(t, tail + rest) == Flush(t) + (tail + Out(START, rest))
  {
    HighBytesShow(t, tail);
    Concat(t, tail, rest);
    Associate(Flush(t), tail, Out(START, rest));
  }

  /** A character whose first byte is taken leaves its tail in the output, which is then invalid. */
  lemma TakenCharBreaks(s: State, c: seq<byte>, rest: seq<byte>)
    requires IsChar(c) && |c| > 1 && TakesAny(s.mode)
    ensures TakesNonAscii(s, c + rest) && !Utf8(Out(s, c + rest))
  {
    var t, tail := Next(s, c[0]), c[1..];
    assert (c + rest)[1..] == tail + rest;
    TailShows(t, tail, rest);
    assert Out(s, c + rest) == [] + Out(t, tail + rest);
    LfIsValid();
    StrayTail(Flush(t), tail, Out(START, rest));
  }

  lemma LfIsValid()
    ensures Utf8([LF])
  {
    assert [LF][..1] == [LF] && [LF][1..] == [];
  }

  lemma StrayTail(before: seq<byte>, tail: seq<byte>, more: seq<byte>)
    requires Utf8(before) && tail != [] && Tail(tail[0])
    ensures !Utf8(before + (tail + more))
  {
    ValidPrefix(before, tail + more);
    assert Width((tail + more)[0]) == 0;
  }

  /** A character that is not taken is kept or dropped whole. */
  lemma WholeChar(s: State, c: seq<byte>)
    requires IsChar(c) && |c| > 1 && !TakesAny(s.mode)
    ensures Utf8(Out(s, c)) && !TakesNonAscii(s, c)
  {
    if s.mode.Ground? {
      HighBytesShow(s, c);
      FlushedChar(s, c);
    } else {
      HighBytesDrop(s, c);
    }
  }

  lemma FlushedChar(s: State, c: seq<byte>)
    requires IsChar(c)
    ensures Utf8(Flush(s) + c)
  {
    LfIsValid();
    ValidPrefix(Flush(s), c);
    assert c[..|c|] == c && c[|c|..] == [];
  }

  /** For valid input the output is valid if and only if no ESC took a non-ASCII byte. */
  lemma {:induction false} Utf8Exactly(s: State, input: seq<byte>)
    requires Utf8(input)
    ensures Utf8(Out(s, input)) <==> !TakesNonAscii(s, input)
    decreases |input|
  {
    if input != [] {
      var n := Width(input[0]);
      var c, rest := input[..n], input[n..];
      assert input == c + rest;
      if n > 1 && TakesAny(s.mode) {
        TakenCharBreaks(s, c, rest);
      } else {
        if n == 1 { AsciiChar(s, c); } else { WholeChar(s, c); }
        Concat(s, c, rest);
        TakesConcat(s, c, rest);
        ValidPrefix(Out(s, c), Out(Run(s, c), rest));
        Utf8Exactly(Run(s, c), rest);
      }
    }
  }

  lemma AsciiChar(s: State, c: seq<byte>)
    requires IsChar(c) && |c| == 1
    ensures Utf8(Out(s, c)) && !TakesNonAscii(s, c)
  {
    Ascii(s, c[0]);
    assert c[1..] == [];
    assert Out(s, c) == Emit(s, c[0]);
  }

  /** A concrete case: `ESC é` loses the first byte of its `é`. */
  lemma TakenByteBreaks()
    ensures Utf8([0x1b, 0xc3, 0xa9]) && Clean([0x1b, 0xc3, 0xa9]) == [0xa9] && !Utf8([0xa9])
  {
    var s: seq<byte> := [0x1b, 0xc3, 0xa9];
    assert s[..1] == [0x1b] && s[1..] == [0xc3, 0xa9] && [0xc3, 0xa9][1..] == [0xa9] && [0xa9][1..] == [];
    assert [0xc3, 0xa9][..2] == [0xc3, 0xa9] && [0xc3, 0xa9][2..] == [];
    assert Utf8([0xc3, 0xa9]);
    assert Out(State(Ground, false), [0xa9]) == [0xa9];
    assert Out(State(Escape, false), [0xc3, 0xa9]) == [0xa9];
  }

  /** No ESC is directly followed by a non-ASCII byte. */
  predicate EscBeforeAscii(input: seq<byte>) {
    forall k | 0 < k < |input| :: input[k - 1] == ESC ==> input[k] <= 0x7f
  }

  lemma {:induction false} OnlyEscTakes(s: State, input: seq<byte>)
    requires EscBeforeAscii(input)
    requires input != [] && TakesAny(s.mode) ==> input[0] <= 0x7f
    ensures !TakesNonAscii(s, input)
    decreases |input|
  {
    if |input| > 1 {
      assert input[0] == ESC ==> input[1] <= 0x7f;
      assert forall k | 0 < k < |input[1..]| :: input[1..][k - 1] == input[k] && input[1..][k] == input[k + 1];
      OnlyEscTakes(Next(s, input[0]), input[1..]);
    }
  }

  /** The condition a caller can check on the raw stream. */
  lemma Utf8IsKept(input: seq<byte>)
    requires Utf8(input) && EscBeforeAscii(input)
    ensures Utf8(Clean(input))
  {
    OnlyEscTakes(START, input);
    Utf8Exactly(START, input);
  }
}
