/**
 Line splitting and tailing (src/logs.rs). `str::lines` ends a line at LF, takes
 one CR off a line that an LF ends, and keeps a CR at the end of an unended line.
 The element type is a parameter, so the same definitions serve bytes and text.
 */
module Lines {
  import opened Wrappers

  /** One CR off the end. */
  function Strip<T(==)>(line: seq<T>, cr: T): seq<T> {
    if line != [] && line[|line| - 1] == cr then line[..|line| - 1] else line
  }

  function Find<T(==)>(s: seq<T>, x: T): (k: nat)
    ensures k <= |s|
    ensures forall i | 0 <= i < k :: s[i] != x
    ensures k < |s| ==> s[k] == x
  {
    if s == [] || s[0] == x then 0 else 1 + Find(s[1..], x)
  }

  function Split<T(==)>(s: seq<T>, lf: T, cr: T): seq<seq<T>>
    decreases |s|
  {
    if s == [] then []
    else
      var k := Find(s, lf);
      if k == |s| then [s] else [Strip(s[..k], cr)] + Split(s[k + 1..], lf, cr)
  }

  /** Every line followed by LF. */
  function Join<T>(lines: seq<seq<T>>, lf: T): seq<T> {
    if lines == [] then [] else lines[0] + [lf] + Join(lines[1..], lf)
  }

  function Last<T>(lines: seq<T>, n: nat): seq<T> {
    if |lines| <= n then lines else lines[|lines| - n..]
  }

  /** What `tail_lines` returns. */
  function Tail<T(==)>(s: seq<T>, n: nat, lf: T, cr: T): seq<T> {
    Join(Last(Split(s, lf, cr), n), lf)
  }

  function Count<T(==)>(s: seq<T>, x: T): nat {
    if s == [] then 0 else (if s[0] == x then 1 else 0) + Count(s[1..], x)
  }

  /** `tail_lines` */
  method TailLines<T(==)>(contents: seq<T>, tail: nat, lf: T, cr: T) returns (output: seq<T>)
    ensures output == Tail(contents, tail, lf, cr)
  {
    var lines := Split(contents, lf, cr);
    var start := if |lines| < tail then 0 else |lines| - tail;
    output := [];
    var i := start;
    assert lines[start..] == Last(lines, tail);
    while i < |lines|
      invariant start <= i <= |lines|
      invariant output + Join(lines[i..], lf) == Join(lines[start..], lf)
    {
      output := output + lines[i];
      output := output + [lf];
      i := i + 1;
    }
    assert lines[i..] == [];
  }

  // ------------------------------------------------------ cutting a prefix off

  lemma {:induction false} CountConcat<T>(a: seq<T>, b: seq<T>, x: T)
    ensures Count(a + b, x) == Count(a, x) + Count(b, x)
  {
    if a == [] {
      assert a + b == b;
    } else {
      assert (a + b)[1..] == a[1..] + b;
      CountConcat(a[1..], b, x);
    }
  }

  /** The first line of a stream that has an LF, and the lines after it. */
  lemma SplitStep<T>(s: seq<T>, k: nat, lf: T, cr: T)
    requires Find(s, lf) == k < |s|
    ensures Split(s, lf, cr) == [Strip(s[..k], cr)] + Split(s[k + 1..], lf, cr)
  {
  }

  lemma SplitHead<T>(s: seq<T>, k: nat, lf: T, cr: T)
    requires Find(s, lf) == k < |s|
    ensures Split(s, lf, cr) != [] && Split(s, lf, cr)[0] == Strip(s[..k], cr)
    ensures Split(s, lf, cr)[1..] == Split(s[k + 1..], lf, cr)
  {
    SplitStep(s, k, lf, cr);
  }

  /** Cutting past the end of the first part of a concatenation. */
  lemma CutSecond<T>(q: seq<T>, s: seq<T>, i: nat)
    requires i <= |s|
    ensures (q + s)[|q| + i..] == s[i..] && (q + s)[..|q| + i] == q + s[..i]
  {
  }

  lemma {:induction false} FindsAtEnd<T>(line: seq<T>, rest: seq<T>, lf: T)
    requires lf !in line
    ensures Find(line + [lf] + rest, lf) == |line|
  {
    if line != [] {
      assert (line + [lf] + rest)[1..] == line[1..] + [lf] + rest;
      FindsAtEnd(line[1..], rest, lf);
    }
  }

  /** A line without LF, before an LF and the rest. */
  lemma SplitLine<T>(line: seq<T>, rest: seq<T>, lf: T, cr: T)
    requires lf !in line
    ensures Split(line + [lf] + rest, lf, cr) == [Strip(line, cr)] + Split(rest, lf, cr)
  {
    var s := line + [lf] + rest;
    FindsAtEnd(line, rest, lf);
    SplitStep(s, |line|, lf, cr);
    assert s[..|line|] == line && s[|line| + 1..] == rest;
  }

  lemma CutAtFirstLf<T>(s: seq<T>, lf: T) returns (f: seq<T>, r: seq<T>)
    requires lf in s
    ensures s == f + [lf] + r && lf !in f && |r| < |s|
  {
    var k := Find(s, lf);
    f, r := s[..k], s[k + 1..];
  }

  lemma Regroup<T>(f: seq<T>, x: seq<T>, r: seq<T>, b: seq<T>)
    ensures (f + x + r) + b == f + x + (r + b)
  {
  }

  /** A stream cut after an LF splits into the lines of both parts. */
  lemma {:induction false} SplitAfterLf<T>(a: seq<T>, b: seq<T>, lf: T, cr: T)
    ensures Split(a + [lf] + b, lf, cr) == Split(a + [lf], lf, cr) + Split(b, lf, cr)
    decreases |a|
  {
    if lf in a {
      var f, r := CutAtFirstLf(a, lf);
      SplitAfterLf(r, b, lf, cr);
      SplitFurther(f, r, b, lf, cr);
    } else {
      SplitLine(a, b, lf, cr);
      SplitLastLine(a, lf, cr);
    }
  }

  lemma SplitLastLine<T>(a: seq<T>, lf: T, cr: T)
    requires lf !in a
    ensures Split(a + [lf], lf, cr) == [Strip(a, cr)]
  {
    SplitLine(a, [], lf, cr);
    assert a + [lf] + [] == a + [lf];
  }

  /** One line more in front. */
  lemma SplitFurther<T>(f: seq<T>, r: seq<T>, b: seq<T>, lf: T, cr: T)
    requires lf !in f && Split(r + [lf] + b, lf, cr) == Split(r + [lf], lf, cr) + Split(b, lf, cr)
    ensures var a := f + [lf] + r;
            Split(a + [lf] + b, lf, cr) == Split(a + [lf], lf, cr) + Split(b, lf, cr)
  {
    var a := f + [lf] + r;
    calc {
      Split(a + [lf] + b, lf, cr);
    ==  { Regroup(f, [lf], r, [lf]); Regroup(f, [lf], r + [lf], b); }
      Split(f + [lf] + (r + [lf] + b), lf, cr);
    ==  { SplitLine(f, r + [lf] + b, lf, cr); }
      [Strip(f, cr)] + (Split(r + [lf], lf, cr) + Split(b, lf, cr));
    ==  { Associate([Strip(f, cr)], Split(r + [lf], lf, cr), Split(b, lf, cr)); }
      ([Strip(f, cr)] + Split(r + [lf], lf, cr)) + Split(b, lf, cr);
    ==  { SplitLine(f, r + [lf], lf, cr); }
      Split(f + [lf] + (r + [lf]), lf, cr) + Split(b, lf, cr);
    ==  { Regroup(f, [lf], r, [lf]); }
      Split(a + [lf], lf, cr) + Split(b, lf, cr);
    }
  }

  lemma {:induction false} CountNone<T>(s: seq<T>, x: T)
    requires forall i | 0 <= i < |s| :: s[i] != x
    ensures Count(s, x) == 0
  {
    if s != [] { CountNone(s[1..], x); }
  }

  /** One line adds one LF. */
  lemma CountLine<T>(line: seq<T>, rest: seq<T>, lf: T)
    requires lf !in line
    ensures Count(line + [lf] + rest, lf) == 1 + Count(rest, lf)
  {
    CountConcat(line + [lf], rest, lf);
    CountConcat(line, [lf], lf);
    CountNone(line, lf);
    assert [lf][1..] == [];
  }

  lemma {:induction false} LinesPerLf<T>(s: seq<T>, lf: T, cr: T)
    ensures |Split(s, lf, cr)| == Count(s, lf) + if s == [] || s[|s| - 1] == lf then 0 else 1
    decreases |s|
  {
    if lf in s {
      var f, r := CutAtFirstLf(s, lf);
      LinesPerLf(r, lf, cr);
      SplitLine(f, r, lf, cr);
      CountLine(f, r, lf);
    } else {
      CountNone(s, lf);
    }
  }

  /** The first line end of a stream that has one. */
  lemma CutAtLf<T>(s: seq<T>, lf: T) returns (f: seq<T>, r: seq<T>)
    requires Count(s, lf) > 0
    ensures s == f + [lf] + r && Count(s, lf) == 1 + Count(r, lf)
  {
    if lf !in s { CountNone(s, lf); }
    f, r := CutAtFirstLf(s, lf);
    CountLine(f, r, lf);
  }

  /** The last n lines do not reach back over an LF that is followed by n lines. */
  lemma TailAfterLf<T>(a: seq<T>, r: seq<T>, n: nat, lf: T, cr: T)
    requires Count(r, lf) >= n
    ensures Tail(a + [lf] + r, n, lf, cr) == Tail(r, n, lf, cr)
  {
    SplitAfterLf(a, r, lf, cr);
    LinesPerLf(r, lf, cr);
    LastOfConcat(Split(a + [lf], lf, cr), Split(r, lf, cr), n);
  }

  lemma LastOfConcat<T>(a: seq<T>, b: seq<T>, n: nat)
    requires n <= |b|
    ensures Last(a + b, n) == Last(b, n)
  {
  }

  /** A suffix with more than n newlines has the last n lines of the whole stream. */
  lemma SuffixHasTail<T>(p: seq<T>, s: seq<T>, n: nat, lf: T, cr: T)
    requires Count(s, lf) > n
    ensures Tail(p + s, n, lf, cr) == Tail(s, n, lf, cr)
  {
    var f, r := CutAtLf(s, lf);
    calc {
      Tail(p + s, n, lf, cr);
    ==  { Associate(p, f + [lf], r); Associate(p, f, [lf]); }
      Tail((p + f) + [lf] + r, n, lf, cr);
    ==  { TailAfterLf(p + f, r, n, lf, cr); }
      Tail(r, n, lf, cr);
    ==  { TailAfterLf(f, r, n, lf, cr); }
      Tail(s, n, lf, cr);
    }
  }

  // ------------------------------------------------- when a window is enough

  /** Lines without LF. */
  ghost predicate Unbroken<T>(lines: seq<seq<T>>, lf: T) {
    forall i | 0 <= i < |lines| :: lf !in lines[i]
  }

  lemma {:induction false} SplitIsUnbroken<T>(s: seq<T>, lf: T, cr: T)
    ensures Unbroken(Split(s, lf, cr), lf)
    decreases |s|
  {
    if s != [] {
      var k := Find(s, lf);
      if k < |s| { SplitIsUnbroken(s[k + 1..], lf, cr); }
    }
  }

  lemma {:induction false} JoinIsInjective<T>(a: seq<seq<T>>, b: seq<seq<T>>, lf: T)
    requires Unbroken(a, lf) && Unbroken(b, lf) && Join(a, lf) == Join(b, lf)
    ensures a == b
  {
    if a != [] && b != [] {
      FindsAtEnd(a[0], Join(a[1..], lf), lf);
      FindsAtEnd(b[0], Join(b[1..], lf), lf);
      var k := |a[0]|;
      assert Join(a, lf)[..k] == a[0] && Join(b, lf)[..k] == b[0];
      assert Join(a, lf)[k + 1..] == Join(a[1..], lf) && Join(b, lf)[k + 1..] == Join(b[1..], lf);
      JoinIsInjective(a[1..], b[1..], lf);
      assert a == [a[0]] + a[1..] && b == [b[0]] + b[1..];
    }
  }

  /** The part of a stream after its last LF. */
  function OpenPart<T(==)>(p: seq<T>, lf: T): (part: seq<T>)
    ensures |part| <= |p| && lf !in part && p[|p| - |part|..] == part
    ensures |part| < |p| ==> p[|p| - |part| - 1] == lf
  {
    if p == [] || p[|p| - 1] == lf then [] else OpenPart(p[..|p| - 1], lf) + [p[|p| - 1]]
  }

  /** The part of a stream up to its last LF. */
  function WholePart<T(==)>(p: seq<T>, lf: T): (whole: seq<T>)
    ensures p == whole + OpenPart(p, lf)
    ensures whole == [] || whole[|whole| - 1] == lf
    ensures whole == [] <==> lf !in p
  {
    p[..|p| - |OpenPart(p, lf)|]
  }

  lemma {:induction false} FindSkips<T>(q: seq<T>, s: seq<T>, lf: T)
    requires lf !in q
    ensures Find(q + s, lf) == |q| + Find(s, lf)
  {
    if q == [] {
      assert q + s == s;
    } else {
      assert (q + s)[1..] == q[1..] + s;
      FindSkips(q[1..], s, lf);
    }
  }

  lemma StripShows<T>(q: seq<T>, line: seq<T>, cr: T)
    ensures Strip(q + line, cr) == Strip(line, cr) <==> q == [] || (q == [cr] && line == [])
  {
    if q == [] {
      assert q + line == line;
    } else if line == [] {
      assert q + line == q;
    } else {
      assert (q + line)[|q + line| - 1] == line[|line| - 1];
      assert |Strip(q + line, cr)| > |Strip(line, cr)|;
    }
  }

  lemma HeadBehind<T>(q: seq<T>, s: seq<T>, k: nat, lf: T, cr: T)
    requires k < |s| && Find(q + s, lf) == |q| + k
    ensures Split(q + s, lf, cr) != [] && Split(q + s, lf, cr)[0] == Strip(q + s[..k], cr)
    ensures Split(q + s, lf, cr)[1..] == Split(s[k + 1..], lf, cr)
  {
    var all, n := q + s, |q| + k;
    SplitHead(all, n, lf, cr);
    assert all[..n] == q + s[..k] by { CutSecond(q, s, k); }
    assert all[n + 1..] == s[k + 1..] by { CutSecond(q, s, k + 1); }
  }

  lemma EndedLineShows<T>(q: seq<T>, s: seq<T>, lf: T, cr: T)
    requires Find(s, lf) < |s| && Find(q + s, lf) == |q| + Find(s, lf)
    ensures var a, b := Split(q + s, lf, cr), Split(s, lf, cr);
            && a != [] && b != [] && a[1..] == b[1..]
            && (a[0] == b[0] <==> q == [] || (q == [cr] && s[0] == lf))
  {
    var k := Find(s, lf);
    HeadBehind(q, s, k, lf, cr);
    SplitHead(s, k, lf, cr);
    StripShows(q, s[..k], cr);
    assert s[..k] == [] <==> k == 0;
  }

  lemma OpenLineShows<T>(q: seq<T>, s: seq<T>, lf: T, cr: T)
    requires s != [] && Find(s, lf) == |s| && Find(q + s, lf) == |q + s|
    ensures Split(q + s, lf, cr) == [q + s] && Split(s, lf, cr) == [s] && s[0] != lf
    ensures q + s == s <==> q == []
  {
    if q != [] { assert |q + s| > |s|; }
  }

  /** Text put in front of a stream's first line shows, unless it is the lone CR of a CRLF. */
  lemma FirstLineShows<T>(q: seq<T>, s: seq<T>, lf: T, cr: T)
    requires lf != cr && lf !in q && s != []
    ensures var a, b := Split(q + s, lf, cr), Split(s, lf, cr);
            && a != [] && b != [] && a[1..] == b[1..]
            && (a[0] == b[0] <==> q == [] || (q == [cr] && s[0] == lf))
  {
    FindSkips(q, s, lf);
    if Find(s, lf) < |s| { EndedLineShows(q, s, lf, cr); } else { OpenLineShows(q, s, lf, cr); }
  }

  /** A line of the window is the file's own line, not a fragment of it. */
  predicate Seamless<T(==)>(p: seq<T>, s: seq<T>, lf: T, cr: T) {
    && p != [] && s != []
    && (|| p[|p| - 1] == lf
        || (s[0] == lf && p[|p| - 1] == cr && (|p| == 1 || p[|p| - 2] == lf)))
  }

  /** When the last n lines of the window `s` are those of the whole stream `p + s`. */
  predicate Enough<T(==)>(p: seq<T>, s: seq<T>, n: nat, lf: T, cr: T) {
    var lines := |Split(s, lf, cr)|;
    || n == 0
    || p == []
    || lines > n
    || (lines == n && Seamless(p, s, lf, cr))
    || (lines < n && p == [cr] && s != [] && s[0] == lf)
  }

  lemma WindowHasTailExactly<T>(p: seq<T>, s: seq<T>, n: nat, lf: T, cr: T)
    requires lf != cr
    ensures Tail(p + s, n, lf, cr) == Tail(s, n, lf, cr) <==> Enough(p, s, n, lf, cr)
  {
    TailsAgreeOnLines(p + s, s, n, lf, cr);
    if p == [] {
      assert p + s == s;
    } else if s == [] {
      assert p + s == p;
      SomeLine(p, lf, cr);
      LastIsEmpty(Split(p, lf, cr), n);
    } else {
      WindowHasLinesExactly(p, s, n, lf, cr);
    }
  }

  /** Tails agree exactly if their lines do. */
  lemma TailsAgreeOnLines<T>(a: seq<T>, b: seq<T>, n: nat, lf: T, cr: T)
    ensures Tail(a, n, lf, cr) == Tail(b, n, lf, cr) <==> Last(Split(a, lf, cr), n) == Last(Split(b, lf, cr), n)
  {
    SplitIsUnbroken(a, lf, cr);
    SplitIsUnbroken(b, lf, cr);
    if Tail(a, n, lf, cr) == Tail(b, n, lf, cr) {
      JoinIsInjective(Last(Split(a, lf, cr), n), Last(Split(b, lf, cr), n), lf);
    }
  }

  lemma SomeLine<T>(s: seq<T>, lf: T, cr: T)
    requires s != []
    ensures Split(s, lf, cr) != []
  {
  }

  lemma WindowHasLinesExactly<T>(p: seq<T>, s: seq<T>, n: nat, lf: T, cr: T)
    requires lf != cr && p != [] && s != []
    ensures Last(Split(p + s, lf, cr), n) == Last(Split(s, lf, cr), n) <==> Enough(p, s, n, lf, cr)
  {
    var whole, part := WholePart(p, lf), OpenPart(p, lf);
    Associate(whole, part, s);
    SplitWhole(whole, part + s, lf, cr);
    FirstLineShows(part, s, lf, cr);
    SeamlessMeans(p, s, whole, part, lf, cr);
    EnoughByLines(p, s, n, lf, cr, whole, part);
  }

  lemma EnoughByLines<T>(p: seq<T>, s: seq<T>, n: nat, lf: T, cr: T, whole: seq<T>, part: seq<T>)
    requires p != [] && s != []
    requires var a, own := Split(part + s, lf, cr), Split(s, lf, cr);
             && Split(p + s, lf, cr) == Split(whole, lf, cr) + a
             && a != [] && own != [] && a[1..] == own[1..]
             && (a[0] == own[0] <==> part == [] || (part == [cr] && s[0] == lf))
    requires Split(whole, lf, cr) == [] <==> whole == []
    requires Seamless(p, s, lf, cr) <==> part == [] || (part == [cr] && s[0] == lf)
    requires p == [cr] <==> whole == [] && part == [cr]
    requires part == [] ==> whole != []
    ensures Last(Split(p + s, lf, cr), n) == Last(Split(s, lf, cr), n) <==> Enough(p, s, n, lf, cr)
  {
    LastLines(Split(whole, lf, cr), Split(part + s, lf, cr), Split(s, lf, cr), n);
  }

  lemma LastIsEmpty<T>(lines: seq<T>, n: nat)
    requires lines != []
    ensures Last(lines, n) == [] <==> n == 0
  {
  }

  lemma SplitWhole<T>(whole: seq<T>, rest: seq<T>, lf: T, cr: T)
    requires whole == [] || whole[|whole| - 1] == lf
    ensures Split(whole + rest, lf, cr) == Split(whole, lf, cr) + Split(rest, lf, cr)
    ensures Split(whole, lf, cr) == [] <==> whole == []
  {
    if whole == [] {
      assert whole + rest == rest;
    } else {
      var a := whole[..|whole| - 1];
      assert whole == a + [lf];
      SplitAfterLf(a, rest, lf, cr);
    }
  }

  lemma SeamlessMeans<T>(p: seq<T>, s: seq<T>, whole: seq<T>, part: seq<T>, lf: T, cr: T)
    requires lf != cr && p != [] && s != []
    requires p == whole + part && lf !in part && (whole == [] || whole[|whole| - 1] == lf)
    ensures Seamless(p, s, lf, cr) <==> part == [] || (part == [cr] && s[0] == lf)
    ensures p == [cr] <==> whole == [] && part == [cr]
  {
    if part != [] {
      assert p[|p| - 1] == part[|part| - 1];
      if |part| > 1 { assert p[|p| - 2] == part[|part| - 2]; }
    }
  }

  /** `front` then `a`, where `a` differs from `own` at most in its first line. */
  lemma LastLines<T>(front: seq<T>, a: seq<T>, own: seq<T>, n: nat)
    requires a != [] && own != [] && a[1..] == own[1..]
    ensures |own| > n ==> Last(front + a, n) == Last(own, n)
    ensures |own| == n ==> (Last(front + a, n) == Last(own, n) <==> a[0] == own[0])
    ensures |own| < n ==> (Last(front + a, n) == Last(own, n) <==> front == [] && a[0] == own[0])
  {
    assert a == [a[0]] + a[1..] && own == [own[0]] + own[1..];
    assert |a| == |own|;
    if |own| > n {
      assert Last(front + a, n) == a[|a| - n..] == a[1..][|own| - 1 - n..] == own[|own| - n..];
    } else if |own| == n {
      assert Last(front + a, n) == a;
    } else if front == [] {
      assert front + a == a;
    } else {
      assert |Last(front + a, n)| > |own|;
    }
  }

  // --------------------------------------------------------- tails of tails

  function StripAll<T(==)>(lines: seq<seq<T>>, cr: T): seq<seq<T>> {
    seq(|lines|, i requires 0 <= i < |lines| => Strip(lines[i], cr))
  }

  lemma StripFirst<T>(lines: seq<seq<T>>, cr: T)
    requires lines != []
    ensures StripAll(lines, cr) == [Strip(lines[0], cr)] + StripAll(lines[1..], cr)
  {
  }

  /** Splitting a joined list again takes one more CR off each line. */
  lemma {:induction false} SplitOfJoin<T>(lines: seq<seq<T>>, lf: T, cr: T)
    requires Unbroken(lines, lf)
    ensures Split(Join(lines, lf), lf, cr) == StripAll(lines, cr)
  {
    if lines != [] {
      SplitLine(lines[0], Join(lines[1..], lf), lf, cr);
      SplitOfJoin(lines[1..], lf, cr);
      StripFirst(lines, cr);
    }
  }

  lemma {:induction false} StripShortens<T>(lines: seq<seq<T>>, lf: T, cr: T)
    ensures |Join(StripAll(lines, cr), lf)| <= |Join(lines, lf)|
    ensures |Join(StripAll(lines, cr), lf)| == |Join(lines, lf)| ==> StripAll(lines, cr) == lines
  {
    if lines != [] {
      assert StripAll(lines, cr)[1..] == StripAll(lines[1..], cr);
      StripShortens(lines[1..], lf, cr);
      assert lines == [lines[0]] + lines[1..];
      StripFirst(lines, cr);
    }
  }

  /** One of the last n lines of the stream still ends in CR. */
  ghost predicate TailHasCr<T>(s: seq<T>, n: nat, lf: T, cr: T) {
    var lines := Last(Split(s, lf, cr), n);
    exists i | 0 <= i < |lines| :: lines[i] != [] && lines[i][|lines[i]| - 1] == cr
  }

  function Min(a: nat, b: nat): nat {
    if a < b then a else b
  }

  /** Tailing twice is tailing once, exactly unless a line of the result still ends in CR. */
  lemma TailOfTail<T>(s: seq<T>, n: nat, m: nat, lf: T, cr: T)
    requires lf != cr
    ensures Tail(Tail(s, n, lf, cr), m, lf, cr) == Tail(s, Min(n, m), lf, cr) <==> !TailHasCr(s, Min(n, m), lf, cr)
  {
    TailTwice(s, n, m, lf, cr);
    StrippingShows(Last(Split(s, lf, cr), Min(n, m)), lf, cr);
  }

  /** Tailing twice strips every line of the smaller tail once more. */
  lemma TailTwice<T>(s: seq<T>, n: nat, m: nat, lf: T, cr: T)
    ensures Tail(Tail(s, n, lf, cr), m, lf, cr) == Join(StripAll(Last(Split(s, lf, cr), Min(n, m)), cr), lf)
  {
    var all := Split(s, lf, cr);
    SplitIsUnbroken(s, lf, cr);
    SplitOfTail(all, n, lf, cr);
    LastOfStripped(all, n, m, cr);
  }

  lemma SplitOfTail<T>(all: seq<seq<T>>, n: nat, lf: T, cr: T)
    requires Unbroken(all, lf)
    ensures Split(Join(Last(all, n), lf), lf, cr) == StripAll(Last(all, n), cr)
  {
    SplitOfJoin(Last(all, n), lf, cr);
  }

  lemma LastOfStripped<T>(all: seq<seq<T>>, n: nat, m: nat, cr: T)
    ensures Last(StripAll(Last(all, n), cr), m) == StripAll(Last(all, Min(n, m)), cr)
  {
    calc {
      Last(StripAll(Last(all, n), cr), m);
    ==  { LastOfStripAll(Last(all, n), m, cr); }
      StripAll(Last(Last(all, n), m), cr);
    ==  { LastOfLast(all, n, m); }
      StripAll(Last(all, Min(n, m)), cr);
    }
  }

  lemma LastOfStripAll<T>(lines: seq<seq<T>>, m: nat, cr: T)
    ensures Last(StripAll(lines, cr), m) == StripAll(Last(lines, m), cr)
  {
  }

  lemma LastOfLast<T>(lines: seq<T>, n: nat, m: nat)
    ensures Last(Last(lines, n), m) == Last(lines, Min(n, m))
  {
  }

  /** Stripping a list of lines changes its print exactly if some line ends in CR. */
  lemma StrippingShows<T>(lines: seq<seq<T>>, lf: T, cr: T)
    ensures Join(StripAll(lines, cr), lf) == Join(lines, lf)
            <==> !(exists i | 0 <= i < |lines| :: lines[i] != [] && lines[i][|lines[i]| - 1] == cr)
  {
    StripShortens(lines, lf, cr);
    if i :| 0 <= i < |lines| && lines[i] != [] && lines[i][|lines[i]| - 1] == cr {
      assert StripAll(lines, cr)[i] != lines[i];
    } else {
      assert StripAll(lines, cr) == lines;
    }
  }

  lemma {:induction false} SplitKeepsOut<T>(s: seq<T>, x: T, lf: T, cr: T)
    requires x !in s
    ensures forall i | 0 <= i < |Split(s, lf, cr)| :: x !in Split(s, lf, cr)[i]
    decreases |s|
  {
    if s != [] {
      var k := Find(s, lf);
      if k < |s| { SplitKeepsOut(s[k + 1..], x, lf, cr); }
    }
  }

  /** Without CRs, as in the clean log, tails always compose. */
  lemma TailOfTailWithoutCr<T>(s: seq<T>, n: nat, m: nat, lf: T, cr: T)
    requires lf != cr && cr !in s
    ensures Tail(Tail(s, n, lf, cr), m, lf, cr) == Tail(s, Min(n, m), lf, cr)
  {
    SplitKeepsOut(s, cr, lf, cr);
    TailOfTail(s, n, m, lf, cr);
  }
}
