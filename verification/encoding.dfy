/**
 UTF-8 (section 4 of RFC 3629), and the lossy decoding of the Rust standard
 library: every maximal prefix of a character that does not go on becomes one
 replacement character. Text is a sequence of code points.
 */
module Encoding {
  import opened Wrappers
  import Lines

  predicate Tail(b: byte) { 0x80 <= b <= 0xbf }

  /** The length of a character by its first byte, 0 if it starts none. */
  function Width(b: byte): nat {
    if b <= 0x7f then 1
    else if 0xc2 <= b <= 0xdf then 2
    else if 0xe0 <= b <= 0xef then 3
    else if 0xf0 <= b <= 0xf4 then 4
    else 0
  }

  /** One well-formed character. */
  predicate IsChar(c: seq<byte>) {
    && c != [] && |c| == Width(c[0])
    && (forall i | 1 <= i < |c| :: Tail(c[i]))
    && (c[0] == 0xe0 ==> c[1] >= 0xa0)
    && (c[0] == 0xed ==> c[1] <= 0x9f)
    && (c[0] == 0xf0 ==> c[1] >= 0x90)
    && (c[0] == 0xf4 ==> c[1] <= 0x8f)
  }

  predicate Utf8(s: seq<byte>)
    decreases |s|
  {
    s == []
    || (var n := Width(s[0]);
        0 < n <= |s| && IsChar(s[..n]) && Utf8(s[n..]))
  }

  /** A valid prefix does not matter to the validity of the whole. */
  lemma {:induction false} ValidPrefix(a: seq<byte>, b: seq<byte>)
    requires Utf8(a)
    ensures Utf8(a + b) <==> Utf8(b)
    decreases |a|
  {
    if a == [] {
      assert a + b == b;
    } else {
      var n := Width(a[0]);
      assert (a + b)[..n] == a[..n] && (a + b)[n..] == a[n..] + b;
      ValidPrefix(a[n..], b);
    }
  }

  // ---------------------------------------------------------- lossy decoding

  const REPLACEMENT: nat := 0xfffd

  /** `b` may follow the first byte `lead` of a character. */
  predicate Second(lead: byte, b: byte) {
    if lead == 0xe0 then 0xa0 <= b <= 0xbf
    else if lead == 0xed then 0x80 <= b <= 0x9f
    else if lead == 0xf0 then 0x90 <= b <= 0xbf
    else if lead == 0xf4 then 0x80 <= b <= 0x8f
    else Tail(b)
  }

  /** How many bytes the decoder takes at once: a character, or as much of one as there is. */
  function Taken(s: seq<byte>): (n: nat)
    requires s != []
    ensures 1 <= n <= |s|
  {
    var w := Width(s[0]);
    if w <= 1 || |s| < 2 || !Second(s[0], s[1]) then 1
    else if w == 2 || |s| < 3 || !Tail(s[2]) then 2
    else if w == 3 || |s| < 4 || !Tail(s[3]) then 3
    else 4
  }

  function CodePoint(c: seq<byte>): nat
    requires IsChar(c)
  {
    match |c|
    case 1 => c[0]
    case 2 => Bits(c[0], 0xc0) * 0x40 + Bits(c[1], 0x80)
    case 3 => Bits(c[0], 0xe0) * 0x1000 + Bits(c[1], 0x80) * 0x40 + Bits(c[2], 0x80)
    case _ =>
      Bits(c[0], 0xf0) * 0x4_0000 + Bits(c[1], 0x80) * 0x1000 + Bits(c[2], 0x80) * 0x40 + Bits(c[3], 0x80)
  }

  /** The payload of a byte above its marker. */
  function Bits(b: byte, marker: byte): nat
    requires marker <= b
  {
    b as int - marker as int
  }

  /** What the decoder makes of the bytes it takes. */
  function Shown(c: seq<byte>): nat {
    if IsChar(c) then CodePoint(c) else REPLACEMENT
  }

  /** `String::from_utf8_lossy` */
  function Decode(s: seq<byte>): seq<nat>
    decreases |s|
  {
    if s == [] then [] else [Shown(s[..Taken(s)])] + Decode(s[Taken(s)..])
  }

  function Encode(p: nat): seq<nat> {
    if p < 0x80 then [p]
    else if p < 0x800 then [0xc0 + p / 0x40, 0x80 + p % 0x40]
    else if p < 0x1_0000 then [0xe0 + p / 0x1000, 0x80 + p / 0x40 % 0x40, 0x80 + p % 0x40]
    else [0xf0 + p / 0x4_0000, 0x80 + p / 0x1000 % 0x40, 0x80 + p / 0x40 % 0x40, 0x80 + p % 0x40]
  }

  function EncodeAll(text: seq<nat>): seq<nat> {
    if text == [] then [] else Encode(text[0]) + EncodeAll(text[1..])
  }

  lemma EncodeOfCodePoint(c: seq<byte>)
    requires IsChar(c)
    ensures Encode(CodePoint(c)) == c
  {
    assert forall i | 1 <= i < |c| :: Tail(c[i]);
    if |c| == 3 { EncodeThree(c); }
    if |c| == 4 { EncodeFour(c); }
  }

  lemma EncodeThree(c: seq<byte>)
    requires IsChar(c) && |c| == 3
    ensures Encode(CodePoint(c)) == c
  {
    assert Tail(c[1]) && Tail(c[2]);
    ThreeBytes(Bits(c[0], 0xe0), Bits(c[1], 0x80), Bits(c[2], 0x80));
  }

  lemma EncodeFour(c: seq<byte>)
    requires IsChar(c) && |c| == 4
    ensures Encode(CodePoint(c)) == c
  {
    assert Tail(c[1]) && Tail(c[2]) && Tail(c[3]);
    FourBytes(Bits(c[0], 0xf0), Bits(c[1], 0x80), Bits(c[2], 0x80), Bits(c[3], 0x80));
  }

  lemma ThreeBytes(x: nat, y: nat, z: nat)
    requires y < 0x40 && z < 0x40
    ensures var p := x * 0x1000 + y * 0x40 + z; p / 0x1000 == x && p / 0x40 % 0x40 == y && p % 0x40 == z
  {
    assert (x * 0x1000 + y * 0x40 + z) / 0x40 == x * 0x40 + y;
  }

  lemma FourBytes(v: nat, x: nat, y: nat, z: nat)
    requires x < 0x40 && y < 0x40 && z < 0x40
    ensures var p := v * 0x4_0000 + x * 0x1000 + y * 0x40 + z;
            p / 0x4_0000 == v && p / 0x1000 % 0x40 == x && p / 0x40 % 0x40 == y && p % 0x40 == z
  {
    var p := v * 0x4_0000 + x * 0x1000 + y * 0x40 + z;
    assert p / 0x40 == v * 0x1000 + x * 0x40 + y;
    assert p / 0x1000 == v * 0x40 + x;
  }

  /** The decoder takes a whole character where there is one. */
  lemma DecodeCons(c: seq<byte>, rest: seq<byte>)
    requires IsChar(c)
    ensures Decode(c + rest) == [CodePoint(c)] + Decode(rest)
  {
    var s := c + rest;
    assert forall i | 1 <= i < |c| :: Tail(c[i]) && s[i] == c[i];
    assert Taken(s) == |c|;
    assert s[..|c|] == c && s[|c|..] == rest;
  }

  lemma EncodeCons(p: nat, text: seq<nat>)
    ensures EncodeAll([p] + text) == Encode(p) + EncodeAll(text)
  {
    assert ([p] + text)[1..] == text;
  }

  /** On valid input nothing is lost: encoding the text again gives the bytes back. */
  lemma {:induction false} DecodeLosesNothing(s: seq<byte>)
    requires Utf8(s)
    ensures EncodeAll(Decode(s)) == s
    decreases |s|
  {
    if s != [] {
      var c, rest := FirstChar(s);
      DecodeLosesNothing(rest);
      CharThenRest(c, rest);
    }
  }

  lemma FirstChar(s: seq<byte>) returns (c: seq<byte>, rest: seq<byte>)
    requires Utf8(s) && s != []
    ensures s == c + rest && IsChar(c) && Utf8(rest) && |rest| < |s|
  {
    c, rest := s[..Width(s[0])], s[Width(s[0])..];
    JoinSlices(s, 0, Width(s[0]));
  }

  lemma CharThenRest(c: seq<byte>, rest: seq<byte>)
    requires IsChar(c) && EncodeAll(Decode(rest)) == rest
    ensures EncodeAll(Decode(c + rest)) == c + rest
  {
    DecodeCons(c, rest);
    EncodeCons(CodePoint(c), Decode(rest));
    EncodeOfCodePoint(c);
  }

  /** The bytes begin a character, or are one. */
  ghost predicate Begins(t: seq<byte>) {
    exists c :: IsChar(c) && t <= c
  }

  /** The shortest character that begins with `t`, if there is one. */
  function Completed(t: seq<byte>): seq<byte>
    requires t != []
  {
    var second := if t[0] == 0xe0 then 0xa0 else if t[0] == 0xf0 then 0x90 else 0x80;
    var c := if |t| == 1 then t + [second] else t;
    if Width(t[0]) <= 2 then c
    else if Width(t[0]) == 3 then (if |c| == 2 then c + [0x80] else c)
    else (if |c| == 2 then c + [0x80, 0x80] else if |c| == 3 then c + [0x80] else c)
  }

  /** The decoder takes the character at the front and shows its code point. */
  predicate TakesChar(s: seq<byte>)
    requires s != []
  {
    var t := s[..Taken(s)];
    IsChar(t) && Decode(s) == [CodePoint(t)] + Decode(s[|t|..])
  }

  /** The decoder shows U+FFFD for the longest beginning of a character, or else for one byte. */
  ghost predicate TakesPiece(s: seq<byte>)
    requires s != []
  {
    var t := s[..Taken(s)];
    && (Begins(t) || |t| == 1) && (forall n | |t| < n <= |s| :: !Begins(s[..n]))
    && Decode(s) == [0xfffd] + Decode(s[|t|..])
  }

  lemma TakesMaximally(s: seq<byte>)
    requires s != []
    ensures TakesChar(s) || TakesPiece(s)
  {
    var t := s[..Taken(s)];
    if !IsChar(t) {
      if |t| > 1 { assert IsChar(Completed(t)) && t <= Completed(t); }
      forall n | Taken(s) < n <= |s| ensures !Begins(s[..n]) {
        forall c | IsChar(c) && s[..n] <= c ensures false { NotPastTaken(s, n, c); }
      }
    }
  }

  lemma NotPastTaken(s: seq<byte>, n: nat, c: seq<byte>)
    requires s != [] && Taken(s) < n <= |s| && !IsChar(s[..Taken(s)])
    requires IsChar(c)
    ensures !(s[..n] <= c)
  {
    if s[..n] <= c {
      assert forall i | 0 <= i < n :: s[i] == s[..n][i] == c[i];
      assert forall i | 1 <= i < |c| :: Tail(c[i]);
    }
  }

  // ------------------------------------------------------------- line ends

  const NEWLINE: byte := 0x0a

  /** The decoder never takes a newline together with another byte. */
  lemma NewlineStandsAlone(s: seq<byte>)
    requires s != []
    ensures forall i | 0 <= i < Taken(s) && s[i] == NEWLINE :: Taken(s) == 1
    ensures Shown(s[..Taken(s)]) == NEWLINE <==> s[0] == NEWLINE
  {
    var c := s[..Taken(s)];
    assert IsChar(c) && |c| > 1 ==> Tail(c[1]);
  }

  lemma TakenBeforeNewline(a: seq<byte>, b: seq<byte>)
    requires a != []
    ensures Taken(a + [NEWLINE] + b) == Taken(a)
  {
  }

  /** A newline splits the text where it splits the bytes. */
  lemma {:induction false} DecodeSplits(a: seq<byte>, b: seq<byte>)
    ensures Decode(a + [NEWLINE] + b) == Decode(a) + [NEWLINE as nat] + Decode(b)
    decreases |a|
  {
    var s := a + [NEWLINE] + b;
    if a == [] {
      NewlineStandsAlone(s);
      assert s[1..] == b;
    } else {
      var n := Taken(a);
      TakenBeforeNewline(a, b);
      assert s[..n] == a[..n] && s[n..] == a[n..] + [NEWLINE] + b;
      DecodeSplits(a[n..], b);
      Associate([Shown(a[..n])], Decode(a[n..]) + [NEWLINE as nat], Decode(b));
      Associate([Shown(a[..n])], Decode(a[n..]), [NEWLINE as nat]);
    }
  }

  /** So the text has as many newlines as the bytes. */
  lemma {:induction false} DecodeKeepsNewlines(s: seq<byte>)
    ensures Lines.Count(Decode(s), NEWLINE as nat) == Lines.Count(s, NEWLINE)
    decreases |s|
  {
    if s != [] {
      var n := Taken(s);
      DecodeKeepsNewlines(s[n..]);
      CountTaken(s, n);
      CountShown(s, n);
    }
  }

  lemma CountTaken(s: seq<byte>, n: nat)
    requires s != [] && n == Taken(s)
    ensures Lines.Count(s, NEWLINE) == (if s[0] == NEWLINE then 1 else 0) + Lines.Count(s[n..], NEWLINE)
  {
    NewlineStandsAlone(s);
    if n > 1 {
      Lines.CountNone(s[..n], NEWLINE);
      Lines.CountConcat(s[..n], s[n..], NEWLINE);
      assert s == s[..n] + s[n..];
    }
  }

  lemma CountShown(s: seq<byte>, n: nat)
    requires s != [] && n == Taken(s)
    ensures Lines.Count(Decode(s), NEWLINE as nat)
            == (if s[0] == NEWLINE then 1 else 0) + Lines.Count(Decode(s[n..]), NEWLINE as nat)
  {
    NewlineStandsAlone(s);
    var text := [Shown(s[..n])] + Decode(s[n..]);
    assert text[0] == Shown(s[..n]) && text[1..] == Decode(s[n..]);
  }
}
