/** The bounded backward reader of src/logs.rs, on the bytes of a file and on the text they decode to. */
module TailFile {
  import opened Wrappers
  import opened Cleaner
  import opened Encoding
  import Lines

  const BLOCK: nat := 64 * 1024
  const MAX_BYTES: nat := 8 * 1024 * 1024

  function Suffix(file: seq<byte>, cap: nat): seq<byte> {
    if |file| <= cap then file else file[|file| - cap..]
  }

  function TailOf(s: seq<byte>, tail: nat): seq<byte> {
    Lines.Tail(s, tail, LF, CR)
  }

  /** The last lines of the decoded text. */
  function TextTail(s: seq<byte>, tail: nat): seq<nat> {
    Lines.Tail(Decode(s), tail, LF as nat, CR as nat)
  }

  /** `tail_file`: blocks are read backwards from the end until there are enough newlines or the cap is met. */
  method ReadTail(file: seq<byte>, tail: nat, block: nat, cap: nat) returns (output: seq<nat>)
    requires block > 0
    ensures output == TextTail(Suffix(file, cap), tail)
  {
    if |file| == 0 || tail == 0 {
      NothingWanted(file, tail, cap);
      return [];
    }
    var floor := if |file| < cap then 0 else |file| - cap;
    var pos := |file|;
    var collected: seq<byte> := [];
    var newlines := 0;
    while pos > floor
      invariant floor <= pos <= |file|
      invariant collected == file[pos..]
      invariant newlines == Lines.Count(collected, LF)
      decreases pos - floor
    {
      var readSize := if block < pos - floor then block else pos - floor;
      pos := pos - readSize;
      var bytes := file[pos..pos + readSize];
      newlines := newlines + Lines.Count(bytes, LF);
      BlockJoins(file, pos, pos + readSize);
      collected := bytes + collected;
      if newlines > tail { break; }
    }
    EnoughRead(file, tail, cap, floor, pos);
    output := Lines.TailLines(Decode(collected), tail, LF as nat, CR as nat);
  }

  lemma NothingWanted(file: seq<byte>, tail: nat, cap: nat)
    requires |file| == 0 || tail == 0
    ensures TextTail(Suffix(file, cap), tail) == []
  {
  }

  lemma BlockJoins(file: seq<byte>, i: nat, j: nat)
    requires i <= j <= |file|
    ensures file[i..j] + file[j..] == file[i..]
    ensures Lines.Count(file[i..], LF) == Lines.Count(file[i..j], LF) + Lines.Count(file[j..], LF)
  {
    JoinSlices(file, i, j);
    Lines.CountConcat(file[i..j], file[j..], LF);
  }

  /** `tail_file` with its own constants, and exactly when it has read enough of the file. */
  method ReadLog(file: seq<byte>, tail: nat) returns (output: seq<nat>)
    ensures output == TextTail(Suffix(file, 8388608), tail)
    ensures output == TextTail(file, tail) <==> ReadsEnough(file, tail, 8388608)
  {
    output := ReadTail(file, tail, BLOCK, MAX_BYTES);
    TailIsWholeExactly(file, tail, MAX_BYTES);
  }

  // --------------------------------------------------- when a window is enough

  function TextLines(s: seq<byte>): seq<seq<nat>> {
    Lines.Split(Decode(s), LF as nat, CR as nat)
  }

  /** What is shown of the bytes of one line. */
  function ShownLine(line: seq<byte>, ended: bool): seq<nat> {
    if ended then Lines.Strip(Decode(line), CR as nat) else Decode(line)
  }

  /** The first line of `s` reads as it does behind `part`. */
  predicate ReadsAlike(part: seq<byte>, s: seq<byte>) {
    var k := Lines.Find(s, LF);
    ShownLine(part + s[..k], k < |s|) == ShownLine(s[..k], k < |s|)
  }

  /** The first line of the window `s` reads as it does with the part of the line that `p` ends in. */
  predicate SameFirstLine(p: seq<byte>, s: seq<byte>) {
    ReadsAlike(Lines.OpenPart(p, LF), s)
  }

  /** When the last n lines of the text of the window `s` are those of the text of `p + s`. */
  predicate EnoughText(p: seq<byte>, s: seq<byte>, n: nat) {
    var lines := |Lines.Split(s, LF, CR)|;
    || n == 0
    || p == []
    || lines > n
    || (lines == n && s != [] && SameFirstLine(p, s))
    || (lines < n && s != [] && LF !in p && SameFirstLine(p, s))
  }

  /** A window of at most `cap` bytes is enough for the text of the file. */
  predicate ReadsEnough(file: seq<byte>, tail: nat, cap: nat) {
    |file| <= cap || EnoughText(file[..|file| - cap], Suffix(file, cap), tail)
  }

  lemma {:induction false} NoNewlineShown(line: seq<byte>)
    requires LF !in line
    ensures LF as nat !in Decode(line)
    decreases |line|
  {
    if line != [] {
      NewlineStandsAlone(line);
      NoNewlineShown(line[Taken(line)..]);
    }
  }

  /** The lines of a text after its first one. */
  function LaterLines(s: seq<byte>): seq<seq<nat>> {
    var k := Lines.Find(s, LF);
    if k < |s| then TextLines(s[k + 1..]) else []
  }

  lemma EndedTextLine(line: seq<byte>, rest: seq<byte>)
    requires LF !in line
    ensures TextLines(line + [LF] + rest) == [ShownLine(line, true)] + TextLines(rest)
  {
    NoNewlineShown(line);
    DecodeSplits(line, rest);
    Lines.SplitLine(Decode(line), Decode(rest), LF as nat, CR as nat);
  }

  lemma FirstTextLine(q: seq<byte>, s: seq<byte>)
    requires LF !in q && s != []
    ensures var k := Lines.Find(s, LF);
            TextLines(q + s) == [ShownLine(q + s[..k], k < |s|)] + LaterLines(s)
  {
    var k := Lines.Find(s, LF);
    if k < |s| {
      AtFirstNewline(q, s, k);
      EndedTextLine(q + s[..k], s[k + 1..]);
    } else {
      assert s[..k] == s;
      NoNewlineShown(q + s);
      OneTextLine(q + s);
    }
  }

  lemma AtFirstNewline(q: seq<byte>, s: seq<byte>, k: nat)
    requires k < |s| && s[k] == LF
    ensures q + s == (q + s[..k]) + [LF] + s[k + 1..]
  {
  }

  lemma OneTextLine(line: seq<byte>)
    requires line != [] && LF as nat !in Decode(line)
    ensures TextLines(line) == [Decode(line)]
  {
    assert Lines.Find(Decode(line), LF as nat) == |Decode(line)|;
  }

  /** Bytes up to a newline decode on their own. */
  lemma DecodeAfterNewline(a: seq<byte>, rest: seq<byte>)
    ensures Decode(a + [LF] + rest) == Decode(a + [LF]) + Decode(rest)
    ensures Decode(a + [LF]) == Decode(a) + [LF as nat]
  {
    DecodeSplits(a, rest);
    DecodeSplits(a, []);
    assert a + [LF] + [] == a + [LF];
    assert Decode(a) + [LF as nat] + [] == Decode(a) + [LF as nat];
  }

  lemma WholeTextLines(whole: seq<byte>, rest: seq<byte>)
    requires whole == [] || whole[|whole| - 1] == LF
    ensures TextLines(whole + rest) == TextLines(whole) + TextLines(rest)
    ensures TextLines(whole) == [] <==> whole == []
  {
    if whole == [] {
      assert whole + rest == rest;
    } else {
      var a := whole[..|whole| - 1];
      assert whole == a + [LF];
      DecodeAfterNewline(a, rest);
      Lines.SplitWhole(Decode(whole), Decode(rest), LF as nat, CR as nat);
    }
  }

  /** The text has as many lines as the bytes. */
  lemma {:induction false} DecodeKeepsLines(s: seq<byte>)
    ensures |TextLines(s)| == |Lines.Split(s, LF, CR)|
    decreases |s|
  {
    if s != [] {
      FirstTextLine([], s);
      assert [] + s == s;
      var k := Lines.Find(s, LF);
      if k < |s| {
        DecodeKeepsLines(s[k + 1..]);
        Lines.SplitStep(s, k, LF, CR);
      } else {
        assert Lines.Split(s, LF, CR) == [s];
      }
    }
  }

  /** The exact condition, for every window of every stream. */
  lemma WindowHasTextTailExactly(p: seq<byte>, s: seq<byte>, n: nat)
    ensures TextTail(p + s, n) == TextTail(s, n) <==> EnoughText(p, s, n)
  {
    Lines.TailsAgreeOnLines(Decode(p + s), Decode(s), n, LF as nat, CR as nat);
    if p == [] {
      assert p + s == s;
    } else if s == [] {
      assert p + s == p;
      Lines.SomeLine(Decode(p), LF as nat, CR as nat);
      Lines.LastIsEmpty(TextLines(p), n);
    } else {
      WindowHasTextLinesExactly(p, s, n);
    }
  }

  lemma WindowHasTextLinesExactly(p: seq<byte>, s: seq<byte>, n: nat)
    requires p != [] && s != []
    ensures Lines.Last(TextLines(p + s), n) == Lines.Last(TextLines(s), n) <==> EnoughText(p, s, n)
  {
    var whole, part := Lines.WholePart(p, LF), Lines.OpenPart(p, LF);
    Associate(whole, part, s);
    WholeTextLines(whole, part + s);
    FirstLinesCompare(part, s);
    DecodeKeepsLines(s);
    Lines.LastLines(TextLines(whole), TextLines(part + s), TextLines(s), n);
  }

  /** Two texts that differ at most in their first line. */
  lemma FirstLinesCompare(q: seq<byte>, s: seq<byte>)
    requires LF !in q && s != []
    ensures var a, own := TextLines(q + s), TextLines(s);
            && a != [] && own != [] && a[1..] == own[1..]
            && (a[0] == own[0] <==> ReadsAlike(q, s))
  {
    var k := Lines.Find(s, LF);
    FirstTextLine(q, s);
    FirstTextLine([], s);
    assert [] + s == s && [] + s[..k] == s[..k];
  }

  /** A window with enough of the bytes of the lines has enough of their text. */
  lemma EnoughBytesSuffice(p: seq<byte>, s: seq<byte>, n: nat)
    requires Lines.Enough(p, s, n, LF, CR)
    ensures EnoughText(p, s, n)
  {
    var lines := |Lines.Split(s, LF, CR)|;
    if n == 0 || p == [] || lines > n {
    } else if lines == n {
      Lines.SeamlessMeans(p, s, Lines.WholePart(p, LF), Lines.OpenPart(p, LF), LF, CR);
      FirstLineKept(Lines.OpenPart(p, LF), s);
    } else {
      assert Lines.OpenPart(p, LF) == [CR];
      FirstLineKept(Lines.OpenPart(p, LF), s);
    }
  }

  lemma FirstLineKept(part: seq<byte>, s: seq<byte>)
    requires part == [] || (part == [CR] && s != [] && s[0] == LF)
    ensures ReadsAlike(part, s)
  {
    var k := Lines.Find(s, LF);
    if part == [] {
      assert [] + s[..k] == s[..k];
    } else {
      assert k == 0 && s[..k] == [];
      LoneCrIsStripped();
    }
  }

  lemma LoneCrIsStripped()
    ensures ShownLine([CR] + [], true) == ShownLine([], true)
  {
    assert [CR] + [] == [CR];
    assert Taken([CR]) == 1 && [CR][..1] == [CR] && [CR][1..] == [];
    assert Decode([CR]) == [CR as nat];
  }

  /** A suffix of the bytes with more than n newlines has the last n lines of the whole text. */
  lemma SuffixHasTextTail(p: seq<byte>, s: seq<byte>, n: nat)
    requires Lines.Count(s, LF) > n
    ensures TextTail(p + s, n) == TextTail(s, n)
  {
    Lines.LinesPerLf(s, LF, CR);
    WindowHasTextTailExactly(p, s, n);
  }

  /** What has been read either is the whole window or has more newlines than needed. */
  lemma EnoughRead(file: seq<byte>, tail: nat, cap: nat, floor: nat, pos: nat)
    requires floor <= pos <= |file| && floor == if |file| < cap then 0 else |file| - cap
    requires pos == floor || Lines.Count(file[pos..], LF) > tail
    ensures TextTail(file[pos..], tail) == TextTail(Suffix(file, cap), tail)
  {
    assert Suffix(file, cap) == file[floor..];
    if pos > floor {
      JoinSlices(file, floor, pos);
      SuffixHasTextTail(file[floor..pos], file[pos..], tail);
    }
  }

  /** The tail is that of the whole file if the file fits the cap, or enough newlines do. */
  lemma TextTailIsWhole(file: seq<byte>, tail: nat, cap: nat)
    requires |file| <= cap || Lines.Count(Suffix(file, cap), LF) > tail
    ensures TextTail(Suffix(file, cap), tail) == TextTail(file, tail)
  {
    if |file| > cap {
      var p := file[..|file| - cap];
      assert file == p + Suffix(file, cap);
      SuffixHasTextTail(p, Suffix(file, cap), tail);
    }
  }

  /** The exact condition, for every file, count and cap. */
  lemma TailIsWholeExactly(file: seq<byte>, tail: nat, cap: nat)
    ensures TextTail(Suffix(file, cap), tail) == TextTail(file, tail) <==> ReadsEnough(file, tail, cap)
  {
    if |file| > cap {
      var p := file[..|file| - cap];
      assert file == p + Suffix(file, cap);
      WindowHasTextTailExactly(p, Suffix(file, cap), tail);
    }
  }

  /** A log of cleaned output has no CR, so its tails compose. */
  lemma CleanTailsCompose(raw: seq<byte>, n: nat, m: nat)
    ensures TailOf(TailOf(Clean(raw), n), m) == TailOf(Clean(raw), Lines.Min(n, m))
  {
    OutputIsPlain(START, raw);
    Lines.TailOfTailWithoutCr(Clean(raw), n, m, LF, CR);
  }

  /** ASCII without a newline. */
  predicate PlainLine(s: seq<byte>) {
    forall i | 0 <= i < |s| :: s[i] < 0x80 && s[i] != LF
  }

  lemma {:induction false} DecodePlain(s: seq<byte>)
    requires PlainLine(s)
    ensures |Decode(s)| == |s|
    decreases |s|
  {
    if s != [] {
      assert Taken(s) == 1;
      DecodePlain(s[1..]);
    }
  }

  /** Every byte of such a line shows. */
  lemma PlainLineIsCut(q: seq<byte>, s: seq<byte>)
    requires q != [] && s != [] && PlainLine(q) && PlainLine(s)
    ensures !EnoughText(q, s, 1)
  {
    DecodePlain(s);
    DecodePlain(q + s);
    assert Lines.Find(s, LF) == |s| && s[..|s|] == s && Lines.OpenPart(q, LF) == q;
    assert |Lines.Split(s, LF, CR)| == 1;
  }

  /** A file one byte over the cap, in one line: its tail is cut. */
  lemma CapCutsLongLine(cap: nat) returns (file: seq<byte>)
    requires cap > 0
    ensures |file| == cap + 1 && TextTail(Suffix(file, cap), 1) != TextTail(file, 1)
  {
    var s := seq(cap, _ => 0x61);
    file := [0x61] + s;
    assert Suffix(file, cap) == s && file[..1] == [0x61];
    PlainLineIsCut([0x61], s);
    TailIsWholeExactly(file, 1, cap);
  }

  /** A window that begins inside a broken character can read like the whole line although it is not. */
  lemma BrokenCharReadsAlike()
    ensures var file: seq<byte> := [0xe2, 0x82];
            TextTail(Suffix(file, 1), 1) == TextTail(file, 1) && !Lines.Enough(file[..1], Suffix(file, 1), 1, LF, CR)
  {
    var file: seq<byte> := [0xe2, 0x82];
    assert Suffix(file, 1) == [0x82] && file[..1] == [0xe2];
    OnePiece([0x82]);
    OnePiece(file);
    assert Lines.Find([0x82], LF) == 1;
    assert |Lines.Split([0x82], LF, CR)| == 1;
  }

  /** Bytes that the decoder takes at once. */
  lemma OnePiece(s: seq<byte>)
    requires s != [] && Taken(s) == |s|
    ensures Decode(s) == [Shown(s)]
  {
    assert s[..|s|] == s && s[|s|..] == [];
  }

  /** A line that ends in CR CR LF loses one CR at every tail. */
  lemma TailsOfCrDoNotCompose()
    ensures var s: seq<byte> := [CR, CR, LF]; TailOf(TailOf(s, 1), 1) != TailOf(s, 1)
  {
    var s: seq<byte> := [CR, CR, LF];
    Lines.FindsAtEnd([CR, CR], [], LF);
    assert [CR, CR] + [LF] + [] == s;
    Lines.SplitStep(s, 2, LF, CR);
    assert s[..2] == [CR, CR] && s[3..] == [] && Lines.Strip([CR, CR], CR) == [CR];
    assert Lines.Split(s, LF, CR) == [[CR]];
    assert Lines.Last(Lines.Split(s, LF, CR), 1)[0] == [CR];
    Lines.TailOfTail(s, 1, 1, LF, CR);
  }
}
