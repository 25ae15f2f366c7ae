/** Process start-time tokens (src/procinfo.rs): the Linux stat line and the macOS packing. */
module ProcInfo {
  import opened Wrappers
  import opened Text

  // ----------------------------------------------------------------- Linux

  /** `rfind`: the last position of a character. */
  function FindLast(s: string, c: char): (r: Option<nat>)
    ensures r.Some? ==> r.value < |s| && s[r.value] == c && c !in s[r.value + 1..]
    ensures r.None? ==> c !in s
  {
    if s == "" then None
    else if s[|s| - 1] == c then Some(|s| - 1)
    else FindLast(s[..|s| - 1], c)
  }

  /** The length of the word at the front. */
  function WordEnd(s: string): (k: nat)
    ensures k <= |s|
    ensures forall i | 0 <= i < k :: !White(s[i])
    ensures k < |s| ==> White(s[k])
  {
    if s == "" || White(s[0]) then 0 else 1 + WordEnd(s[1..])
  }

  /** `split_whitespace` */
  function Words(s: string): seq<string>
    decreases |s|
  {
    if s == "" then []
    else if White(s[0]) then Words(s[1..])
    else
      var k := WordEnd(s);
      [s[..k]] + Words(s[k..])
  }

  /** The token of a process, from the text of its stat file. */
  function StartTimeOf(stat: string): Option<nat> {
    match FindLast(stat, ')')
    case None => None
    case Some(i) =>
      var words := Words(stat[i + 1..]);
      if |words| <= 19 then None else ParseU64(words[19])
  }

  /** Fields 3 onwards, each after a space, and the line end. */
  function Fields(fields: seq<string>): string {
    if fields == [] then "\n" else " " + fields[0] + Fields(fields[1..])
  }

  /** The line the kernel prints: pid, the command name in parentheses, and the other fields. */
  function StatLine(pid: nat, comm: string, fields: seq<string>): string {
    Show(pid) + " (" + comm + ")" + Fields(fields)
  }

  predicate Field(f: string) {
    f != "" && ')' !in f && forall i | 0 <= i < |f| :: !White(f[i])
  }

  ghost predicate AllFields(fields: seq<string>) {
    forall i | 0 <= i < |fields| :: Field(fields[i])
  }

  lemma {:induction false} LastParenthesis(a: string, b: string)
    requires ')' !in b
    ensures FindLast(a + ")" + b, ')') == Some(|a|)
    decreases |b|
  {
    var s := a + ")" + b;
    if b != "" {
      assert s[..|s| - 1] == a + ")" + b[..|b| - 1];
      LastParenthesis(a, b[..|b| - 1]);
    }
  }

  lemma {:induction false} FieldsHaveNoParenthesis(fields: seq<string>)
    requires AllFields(fields)
    ensures ')' !in Fields(fields)
  {
    if fields != [] {
      assert Field(fields[0]);
      assert forall i | 0 <= i < |fields[1..]| :: fields[1..][i] == fields[i + 1];
      FieldsHaveNoParenthesis(fields[1..]);
    }
  }

  lemma {:induction false} WordEndsThere(f: string, rest: string)
    requires (forall i | 0 <= i < |f| :: !White(f[i])) && rest != "" && White(rest[0])
    ensures WordEnd(f + rest) == |f|
  {
    if f == "" {
      assert f + rest == rest;
    } else {
      assert (f + rest)[1..] == f[1..] + rest;
      WordEndsThere(f[1..], rest);
    }
  }

  lemma WordThenRest(f: string, rest: string)
    requires Field(f) && rest != "" && White(rest[0])
    ensures Words(f + rest) == [f] + Words(rest)
  {
    var s := f + rest;
    WordEndsThere(f, rest);
    assert s[..|f|] == f && s[|f|..] == rest;
    assert !White(s[0]) && s != "";
  }

  lemma {:induction false} WordsOfFields(fields: seq<string>)
    requires AllFields(fields)
    ensures Words(Fields(fields)) == fields
  {
    if fields == [] {
      assert "\n"[1..] == "";
    } else {
      var f, rest := fields[0], Fields(fields[1..]);
      assert Field(f);
      assert forall i | 0 <= i < |fields[1..]| :: fields[1..][i] == fields[i + 1];
      WordsOfFields(fields[1..]);
      var s := Fields(fields);
      assert s[1..] == f + rest && White(s[0]);
      WordThenRest(f, rest);
      assert fields == [f] + fields[1..];
    }
  }

  /** Whatever the command name contains, the parse reads field 22 of the printed line. */
  lemma ParseReadsField22(pid: nat, comm: string, fields: seq<string>)
    requires AllFields(fields)
    ensures StartTimeOf(StatLine(pid, comm, fields)) == if |fields| <= 19 then None else ParseU64(fields[19])
  {
    var head := Show(pid) + " (" + comm;
    var stat := StatLine(pid, comm, fields);
    FieldsHaveNoParenthesis(fields);
    assert stat == head + ")" + Fields(fields);
    LastParenthesis(head, Fields(fields));
    assert stat[|head| + 1..] == Fields(fields);
    WordsOfFields(fields);
  }

  /** In particular a start time printed there comes back. */
  lemma StartTimeRoundTrip(pid: nat, comm: string, fields: seq<string>, time: nat)
    requires AllFields(fields) && |fields| > 19 && fields[19] == Show(time) && time < 0x1_0000_0000_0000_0000
    ensures StartTimeOf(StatLine(pid, comm, fields)) == Some(time)
  {
    ParseReadsField22(pid, comm, fields);
    ParseOfShow(time);
  }

  // ----------------------------------------------------------------- macOS

  /** Seconds and microseconds in one word. */
  function Pack(sec: bv64, usec: bv64): bv64 {
    (sec << 20) | (usec & 0xf_ffff)
  }

  /** The microseconds are the low 20 bits and the seconds the rest. */
  lemma PackKeepsBoth(s: bv64, u: bv64)
    ensures Pack(s, u) & 0xf_ffff == u & 0xf_ffff
    ensures Pack(s, u) >> 20 == s & 0xfff_ffff_ffff
  {
    assert (s << 20) & 0xf_ffff == 0;
  }

  /** The top 20 bits of the seconds are lost. */
  lemma PackDropsHighSeconds(s: bv64, u: bv64)
    ensures Pack(s, u) == Pack(s & 0xfff_ffff_ffff, u & 0xf_ffff)
  {
    assert s << 20 == (s & 0xfff_ffff_ffff) << 20;
  }

  /** Two tokens agree exactly if the low 44 bits of the seconds and the low 20 of the microseconds do. */
  lemma PackIsExact(s: bv64, u: bv64, s': bv64, u': bv64)
    ensures Pack(s, u) == Pack(s', u')
            <==> s & 0xfff_ffff_ffff == s' & 0xfff_ffff_ffff && u & 0xf_ffff == u' & 0xf_ffff
  {
    if s & 0xfff_ffff_ffff == s' & 0xfff_ffff_ffff && u & 0xf_ffff == u' & 0xf_ffff {
      PackDropsHighSeconds(s, u);
      PackDropsHighSeconds(s', u');
    } else if Pack(s, u) == Pack(s', u') {
      PackKeepsBoth(s, u);
      PackKeepsBoth(s', u');
      assert false;
    }
  }

  /** Seconds that differ by 2^44 share a token. */
  lemma PackCollides(u: bv64)
    ensures Pack(0, u) == Pack(0x1000_0000_0000, u)
  {
    PackIsExact(0, u, 0x1000_0000_0000, u);
  }

  /** So different start times give different tokens, for times that fit. */
  lemma PackIsInjective(s: bv64, u: bv64, s': bv64, u': bv64)
    requires s < 0x1000_0000_0000 && s' < 0x1000_0000_0000 && u < 0x10_0000 && u' < 0x10_0000
    requires Pack(s, u) == Pack(s', u')
    ensures s == s' && u == u'
  {
    PackIsExact(s, u, s', u');
  }
}
