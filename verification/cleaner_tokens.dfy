/**
 A declarative reading of a terminal byte stream, independent of the cleaner's
 eight-state machine: a stream is a list of tokens, and cleaning it means keeping
 the text tokens and normalising line ends. Control sequences follow section 5.4
 and control strings section 5.6 of ECMA-48, with the program's own choices: any
 byte may stand in the body of a sequence, BEL ends an OSC, ESC and any byte end a
 string, and ESC aborts a control sequence or a short escape.
 */
module CleanerTokens {
  import opened Wrappers
  import opened Cleaner

  datatype Token =
    | Text(b: byte)
    | Control(b: byte)
    | Return
    | Newline
    | ShortEscape(mid: seq<byte>, last: byte)           // ESC mid last
    | ControlSequence(body: seq<byte>, last: byte)      // ESC [ body last
    | OsCommand(body: seq<byte>, end: seq<byte>)        // ESC ] body end
    | ControlString(intro: byte, body: seq<byte>, last: byte) // ESC intro body ESC last
    | Aborted(head: seq<byte>)                          // cut short by the ESC that follows
    | Unfinished(head: seq<byte>)                       // cut short by the end of the stream

  function Print(t: Token): seq<byte> {
    match t
    case Text(b) => [b]
    case Control(b) => [b]
    case Return => [CR]
    case Newline => [LF]
    case ShortEscape(mid, last) => [ESC] + mid + [last]
    case ControlSequence(body, last) => [ESC, 0x5b] + body + [last]
    case OsCommand(body, end) => [ESC, 0x5d] + body + end
    case ControlString(intro, body, last) => [ESC, intro] + body + [ESC, last]
    case Aborted(head) => head
    case Unfinished(head) => head
  }

  function PrintAll(ts: seq<Token>): seq<byte> {
    if ts == [] then [] else Print(ts[0]) + PrintAll(ts[1..])
  }

  // ------------------------------------------------------------ well-formedness

  /** The bytes that end the open part of a sequence. */
  datatype Stop = AtShort | AtCsi | AtOsc | AtString

  predicate Stops(k: Stop, b: byte) {
    match k
    case AtShort => b == 0x1b || 0x30 <= b <= 0x7e
    case AtCsi => b == 0x1b || 0x40 <= b <= 0x7e
    case AtOsc => b == 0x1b || b == 0x07
    case AtString => b == 0x1b
  }

  predicate Open(k: Stop, body: seq<byte>) {
    forall i | 0 <= i < |body| :: !Stops(k, body[i])
  }

  predicate OpenShort(mid: seq<byte>) {
    mid != [] && 0x20 <= mid[0] <= 0x2f && Open(AtShort, mid[1..])
  }

  /** An escape or control sequence without its final byte. */
  predicate Abortable(head: seq<byte>) {
    && head != [] && head[0] == ESC
    && (|| |head| == 1
        || OpenShort(head[1..])
        || (head[1] == 0x5b && Open(AtCsi, head[2..])))
  }

  predicate OpensString(b: byte) {
    b == 0x50 || b == 0x58 || b == 0x5e || b == 0x5f
  }

  /** A control string without its terminator, or with half of it. */
  predicate OpenString(head: seq<byte>) {
    && |head| >= 2 && head[0] == ESC
    && (|| (head[1] == 0x5d && (Open(AtOsc, head[2..]) || HalfEnded(AtOsc, head)))
        || (OpensString(head[1]) && (Open(AtString, head[2..]) || HalfEnded(AtString, head))))
  }

  predicate HalfEnded(k: Stop, head: seq<byte>) {
    |head| >= 3 && head[|head| - 1] == ESC && Open(k, head[2..|head| - 1])
  }

  /** The bytes that make a whole escape sequence with the ESC before them. */
  predicate Direct(b: byte) {
    && !(0x20 <= b <= 0x2f)
    && b != 0x1b && b != 0x5b && b != 0x5d && !OpensString(b)
  }

  predicate Valid(t: Token) {
    match t
    case Text(b) => b == 0x09 || 0x20 <= b <= 0x7e || b >= 0x80
    case Control(b) => b <= 0x08 || b == 0x0b || b == 0x0c || 0x0e <= b <= 0x1a || 0x1c <= b <= 0x1f || b == 0x7f
    case Return => true
    case Newline => true
    case ShortEscape(mid, last) =>
      if mid == [] then Direct(last) else OpenShort(mid) && 0x30 <= last <= 0x7e
    case ControlSequence(body, last) => Open(AtCsi, body) && 0x40 <= last <= 0x7e
    case OsCommand(body, end) => Open(AtOsc, body) && (end == [0x07] || (|end| == 2 && end[0] == 0x1b))
    case ControlString(intro, body, _) => OpensString(intro) && Open(AtString, body)
    case Aborted(head) => Abortable(head)
    case Unfinished(head) => Abortable(head) || OpenString(head)
  }

  /** A token may be followed by `rest`: an aborted one needs an ESC, an unfinished one the end. */
  predicate Fits(t: Token, rest: seq<byte>) {
    && (t.Aborted? ==> rest != [] && rest[0] == ESC)
    && (t.Unfinished? ==> rest == [])
  }

  predicate ValidList(ts: seq<Token>) {
    ts == [] || (Valid(ts[0]) && Fits(ts[0], PrintAll(ts[1..])) && ValidList(ts[1..]))
  }

  // --------------------------------------------------------------- meaning

  /** The text, with CRLF as one newline, any other CR as a newline, and a final CR withheld. */
  function Render(ts: seq<Token>): seq<byte> {
    if ts == [] then []
    else
      match ts[0]
      case Text(b) => [b] + Render(ts[1..])
      case Newline => [LF] + Render(ts[1..])
      case Return =>
        if |ts| == 1 then []
        else if ts[1] == Newline then [LF] + Render(ts[2..])
        else [LF] + Render(ts[1..])
      case _ => Render(ts[1..])
  }

  // ------------------------------------------------------------- tokenising

  function Scan(k: Stop, s: seq<byte>, i: nat): (r: nat)
    requires i <= |s|
    ensures i <= r <= |s|
    ensures Open(k, s[i..r])
    ensures r < |s| ==> Stops(k, s[r])
    decreases |s| - i
  {
    if i == |s| || Stops(k, s[i]) then i
    else
      var r := Scan(k, s, i + 1);
      assert s[i..r] == [s[i]] + s[i + 1..r];
      r
  }

  /** The first token of a non-empty stream. */
  function First(s: seq<byte>): Token
    requires s != []
  {
    if s[0] != ESC then
      if s[0] == CR then Return
      else if s[0] == LF then Newline
      else if Printable(s[0]) then Text(s[0])
      else Control(s[0])
    else if |s| == 1 then Unfinished(s)
    else if s[1] == ESC then Aborted([ESC])
    else if s[1] == 0x5b then
      var k := Scan(AtCsi, s, 2);
      if k == |s| then Unfinished(s)
      else if s[k] == ESC then Aborted(s[..k])
      else ControlSequence(s[2..k], s[k])
    else if s[1] == 0x5d then
      var k := Scan(AtOsc, s, 2);
      if k == |s| then Unfinished(s)
      else if s[k] == BEL then OsCommand(s[2..k], [BEL])
      else if k + 1 == |s| then Unfinished(s)
      else OsCommand(s[2..k], s[k..k + 2])
    else if Introducer(s[1]) then
      var k := Scan(AtString, s, 2);
      if k == |s| || k + 1 == |s| then Unfinished(s)
      else ControlString(s[1], s[2..k], s[k + 1])
    else if Intermediate(s[1]) then
      var k := Scan(AtShort, s, 2);
      if k == |s| then Unfinished(s)
      else if s[k] == ESC then Aborted(s[..k])
      else ShortEscape(s[1..k], s[k])
    else ShortEscape([], s[1])
  }

  /** `t` can be the first token of `s`. */
  predicate Begins(t: Token, s: seq<byte>) {
    && Valid(t)
    && Print(t) != []
    && Print(t) <= s
    && Fits(t, s[|Print(t)|..])
  }

  lemma FirstIsToken(s: seq<byte>)
    requires s != []
    ensures Begins(First(s), s)
  {
    if s[0] == ESC && |s| > 1 && s[1] != ESC {
      if s[1] == 0x5b { FirstControl(s); }
      if s[1] == 0x5d { FirstCommand(s); }
      if Introducer(s[1]) { FirstString(s); }
      if Intermediate(s[1]) { FirstShort(s); }
    }
  }

  lemma FirstControl(s: seq<byte>)
    requires |s| > 1 && s[0] == ESC && s[1] == 0x5b
    ensures Begins(First(s), s)
  {
    var k := Scan(AtCsi, s, 2);
    assert s[..k] == [ESC, 0x5b] + s[2..k] && (s[..k])[2..] == s[2..k];
    assert k == |s| ==> s[2..k] == s[2..];
    assert k < |s| ==> s[..k + 1] == [ESC, 0x5b] + s[2..k] + [s[k]];
  }

  lemma FirstCommand(s: seq<byte>)
    requires |s| > 1 && s[0] == ESC && s[1] == 0x5d
    ensures Begins(First(s), s)
  {
    var k := Scan(AtOsc, s, 2);
    assert s[..k] == [ESC, 0x5d] + s[2..k];
    assert k == |s| ==> s[2..k] == s[2..];
    assert k + 1 == |s| ==> s[2..|s| - 1] == s[2..k];
    assert k < |s| ==> s[..k + 1] == [ESC, 0x5d] + s[2..k] + [s[k]];
    assert k + 1 < |s| ==> s[..k + 2] == [ESC, 0x5d] + s[2..k] + s[k..k + 2];
  }

  lemma FirstString(s: seq<byte>)
    requires |s| > 1 && s[0] == ESC && Introducer(s[1])
    ensures Begins(First(s), s)
  {
    var k := Scan(AtString, s, 2);
    assert s[..k] == [ESC, s[1]] + s[2..k];
    assert k == |s| ==> s[2..k] == s[2..];
    assert k + 1 == |s| ==> s[2..|s| - 1] == s[2..k];
    assert k + 1 < |s| ==> s[..k + 2] == [ESC, s[1]] + s[2..k] + [s[k], s[k + 1]];
  }

  lemma FirstShort(s: seq<byte>)
    requires |s| > 1 && s[0] == ESC && Intermediate(s[1])
    ensures Begins(First(s), s)
  {
    var k := Scan(AtShort, s, 2);
    assert s[..k] == [ESC] + s[1..k] && (s[..k])[1..] == s[1..k] && (s[1..k])[1..] == s[2..k];
    assert k < |s| ==> s[..k + 1] == [ESC] + s[1..k] + [s[k]];
  }

  function Split(s: seq<byte>): seq<Token>
    decreases |s|
  {
    if s == [] then []
    else
      FirstIsToken(s);
      [First(s)] + Split(s[|Print(First(s))|..])
  }

  /** Every stream is the print of a well-formed token list. */
  lemma {:induction false} SplitPrintsBack(s: seq<byte>)
    ensures ValidList(Split(s)) && PrintAll(Split(s)) == s
    decreases |s|
  {
    if s != [] {
      FirstIsToken(s);
      var rest := s[|Print(First(s))|..];
      SplitPrintsBack(rest);
      ConsPrints(First(s), Split(rest), s);
    }
  }

  lemma ConsPrints(t: Token, ts: seq<Token>, s: seq<byte>)
    requires Begins(t, s) && ValidList(ts) && PrintAll(ts) == s[|Print(t)|..]
    ensures ValidList([t] + ts) && PrintAll([t] + ts) == s
  {
    var all := [t] + ts;
    assert all[1..] == ts && all[0] == t;
    PrefixThenRest(Print(t), s);
  }

  lemma PrefixThenRest(p: seq<byte>, s: seq<byte>)
    requires p <= s
    ensures s == p + s[|p|..]
  {
  }

  /** The scan of a body that is followed by a stop finds exactly the body. */
  lemma {:induction false} ScanFinds(k: Stop, s: seq<byte>, i: nat, r: nat)
    requires i <= r <= |s| && Open(k, s[i..r]) && (r < |s| ==> Stops(k, s[r]))
    ensures Scan(k, s, i) == r
    decreases r - i
  {
    if i < r {
      assert s[i..r][0] == s[i] && s[i..r][1..] == s[i + 1..r];
      ScanFinds(k, s, i + 1, r);
    }
  }

  lemma FirstOfPrint(t: Token, rest: seq<byte>)
    requires Valid(t) && Fits(t, rest)
    ensures Print(t) != [] && First(Print(t) + rest) == t
  {
    match t
    case ShortEscape(_, _) => FirstOfShort(t, rest);
    case ControlSequence(_, _) => FirstOfControl(t, rest);
    case OsCommand(_, _) => FirstOfCommand(t, rest);
    case ControlString(_, _, _) => FirstOfString(t, rest);
    case Aborted(head) => FirstOfAborted(head, rest);
    case Unfinished(head) =>
      assert Print(t) + rest == head;
      FirstOfUnfinished(head);
    case _ =>
  }

  lemma FirstOfShort(t: Token, rest: seq<byte>)
    requires Valid(t) && t.ShortEscape?
    ensures First(Print(t) + rest) == t
  {
    var s := Print(t) + rest;
    if t.mid != [] {
      var k := 1 + |t.mid|;
      assert s[k] == t.last;
      assert s[1..k] == t.mid;
      assert s[2..k] == s[1..k][1..];
      ScanFinds(AtShort, s, 2, k);
    }
  }

  lemma FirstOfControl(t: Token, rest: seq<byte>)
    requires Valid(t) && t.ControlSequence?
    ensures First(Print(t) + rest) == t
  {
    var s, k := Print(t) + rest, 2 + |t.body|;
    assert s[2..k] == t.body && s[k] == t.last;
    ScanFinds(AtCsi, s, 2, k);
  }

  lemma FirstOfCommand(t: Token, rest: seq<byte>)
    requires Valid(t) && t.OsCommand?
    ensures First(Print(t) + rest) == t
  {
    var s, k := Print(t) + rest, 2 + |t.body|;
    assert s[2..k] == t.body && s[k] == t.end[0] && s[k..k + |t.end|] == t.end;
    ScanFinds(AtOsc, s, 2, k);
  }

  lemma FirstOfString(t: Token, rest: seq<byte>)
    requires Valid(t) && t.ControlString?
    ensures First(Print(t) + rest) == t
  {
    var s, k := Print(t) + rest, 2 + |t.body|;
    assert s[2..k] == t.body && s[k] == ESC && s[k + 1] == t.last;
    ScanFinds(AtString, s, 2, k);
  }

  lemma FirstOfAborted(head: seq<byte>, rest: seq<byte>)
    requires Abortable(head) && rest != [] && rest[0] == ESC
    ensures First(head + rest) == Aborted(head)
  {
    var s := head + rest;
    if |head| > 1 {
      assert s[..|head|] == head && s[2..|head|] == head[2..] && s[|head|] == ESC;
      assert OpenShort(head[1..]) ==> head[1..][1..] == head[2..];
      if head[1] == 0x5b { ScanFinds(AtCsi, s, 2, |head|); } else { ScanFinds(AtShort, s, 2, |head|); }
    }
  }

  lemma FirstOfUnfinished(s: seq<byte>)
    requires Abortable(s) || OpenString(s)
    ensures First(s) == Unfinished(s)
  {
    if |s| > 1 {
      assert s[2..|s|] == s[2..];
      assert OpenShort(s[1..]) ==> s[1..][1..] == s[2..];
      if s[1] == 0x5d {
        if Open(AtOsc, s[2..]) { ScanFinds(AtOsc, s, 2, |s|); } else { ScanFinds(AtOsc, s, 2, |s| - 1); }
      } else if Introducer(s[1]) {
        if Open(AtString, s[2..]) { ScanFinds(AtString, s, 2, |s|); } else { ScanFinds(AtString, s, 2, |s| - 1); }
      } else if s[1] == 0x5b {
        ScanFinds(AtCsi, s, 2, |s|);
      } else {
        ScanFinds(AtShort, s, 2, |s|);
      }
    }
  }

  /** A well-formed token list is the only one with its print. */
  lemma {:induction false} SplitIsUnique(ts: seq<Token>)
    requires ValidList(ts)
    ensures Split(PrintAll(ts)) == ts
  {
    if ts != [] {
      var rest := PrintAll(ts[1..]);
      var s := PrintAll(ts);
      FirstOfPrint(ts[0], rest);
      SplitIsUnique(ts[1..]);
      assert s[|Print(ts[0])|..] == rest;
    }
  }

  // ------------------------------------------------- the cleaner agrees

  /** A body runs through the cleaner without output and without leaving the sequence. */
  lemma {:induction false} BodyIsSilent(m: Mode, body: seq<byte>)
    requires !m.Ground?
    requires forall i | 0 <= i < |body| :: body[i] != ESC && Next(State(m, false), body[i]) == State(m, false)
    ensures Run(State(m, false), body) == State(m, false) && Out(State(m, false), body) == []
  {
    if body != [] { BodyIsSilent(m, body[1..]); }
  }

  /** `a` then `c` from one state, when `a` is silent and leads to `m`. */
  lemma Silently(s: State, a: seq<byte>, m: State, c: seq<byte>)
    requires Run(s, a) == m && Out(s, a) == []
    ensures Run(s, a + c) == Run(m, c) && Out(s, a + c) == Out(m, c)
  {
    Concat(s, a, c);
  }

  lemma Enter(b: byte)
    requires b != ESC
    ensures Run(START, [ESC, b]) == State(AfterEscape(b), false) && Out(START, [ESC, b]) == []
  {
    assert [ESC, b] == [ESC] + [b];
    LastByte(START, ESC);
    LastByte(State(Escape, false), b);
    Silently(START, [ESC], State(Escape, false), [b]);
  }

  /** The mode after the open part of a sequence with body `body`. */
  lemma EnterBody(b: byte, k: Stop, m: Mode, body: seq<byte>)
    requires b != ESC && m == AfterEscape(b) && Open(k, body)
    requires (m.Csi? && k.AtCsi?) || (m.Osc? && k.AtOsc?)
             || (m.StringSeq? && k.AtString?) || (m.EscapeIntermediate? && k.AtShort?)
    ensures Run(START, [ESC, b] + body) == State(m, false) && Out(START, [ESC, b] + body) == []
  {
    Enter(b);
    forall i | 0 <= i < |body| ensures body[i] != ESC && Next(State(m, false), body[i]) == State(m, false) {
      assert !Stops(k, body[i]);
    }
    BodyIsSilent(m, body);
    Silently(START, [ESC, b], State(m, false), body);
  }

  lemma LastByte(s: State, b: byte)
    ensures Run(s, [b]) == Next(s, b) && Out(s, [b]) == Emit(s, b)
  {
    assert [b][1..] == [];
  }

  predicate IsSequence(t: Token) {
    t.ShortEscape? || t.ControlSequence? || t.OsCommand? || t.ControlString?
  }

  /** A complete sequence is silent and ends in Ground. */
  lemma SequenceIsSilent(t: Token)
    requires Valid(t) && IsSequence(t)
    ensures Run(START, Print(t)) == START && Out(START, Print(t)) == []
  {
    match t
    case ShortEscape(mid, last) =>
      if mid == [] {
        Enter(last);
        assert Print(t) == [ESC, last];
      } else {
        assert Print(t) == ([ESC, mid[0]] + mid[1..]) + [last];
        BodyThenLast(mid[0], AtShort, EscapeIntermediate, mid[1..], last);
      }
    case ControlSequence(body, last) => BodyThenLast(0x5b, AtCsi, Csi, body, last);
    case OsCommand(body, end) =>
      if end == [BEL] {
        BodyThenLast(0x5d, AtOsc, Osc, body, BEL);
      } else {
        BodyThenEsc(0x5d, AtOsc, Osc, body, end[1]);
        assert end == [ESC, end[1]];
      }
    case ControlString(intro, body, last) => BodyThenEsc(intro, AtString, StringSeq, body, last);
  }

  /** The open part of a sequence and its final byte. */
  lemma BodyThenLast(b: byte, k: Stop, m: Mode, body: seq<byte>, last: byte)
    requires b != ESC && m == AfterEscape(b) && Open(k, body)
    requires (m.Csi? && k.AtCsi?) || (m.Osc? && k.AtOsc?) || (m.EscapeIntermediate? && k.AtShort?)
    requires last != ESC && Stops(k, last)
    ensures Run(START, [ESC, b] + body + [last]) == START && Out(START, [ESC, b] + body + [last]) == []
  {
    EnterBody(b, k, m, body);
    Silently(START, [ESC, b] + body, State(m, false), [last]);
    LastByte(State(m, false), last);
  }

  /** A control string ended by ESC and any byte. */
  lemma BodyThenEsc(b: byte, k: Stop, m: Mode, body: seq<byte>, last: byte)
    requires b != ESC && m == AfterEscape(b) && Open(k, body)
    requires (m.Osc? && k.AtOsc?) || (m.StringSeq? && k.AtString?)
    ensures Run(START, [ESC, b] + body + [ESC, last]) == START && Out(START, [ESC, b] + body + [ESC, last]) == []
  {
    EnterBody(b, k, m, body);
    Silently(START, [ESC, b] + body, State(m, false), [ESC, last]);
    EscEndsString(m, last);
  }

  lemma EscEndsString(m: Mode, last: byte)
    requires m.Osc? || m.StringSeq?
    ensures Run(State(m, false), [ESC, last]) == START && Out(State(m, false), [ESC, last]) == []
  {
    var s := State(m, false);
    LastByte(s, ESC);
    Silently(s, [ESC], Next(s, ESC), [last]);
    LastByte(Next(s, ESC), last);
    assert [ESC, last] == [ESC] + [last];
  }

  /** An open sequence is silent, and outside strings the next ESC starts over. */
  lemma HeadIsSilent(head: seq<byte>)
    requires Abortable(head)
    ensures Out(START, head) == [] && !Run(START, head).cr && !InString(Run(START, head).mode)
  {
    if |head| == 1 {
      LastByte(START, ESC);
      assert head == [ESC];
    } else if head[1] == 0x5b {
      EnterBody(0x5b, AtCsi, Csi, head[2..]);
      assert head == [ESC, 0x5b] + head[2..];
    } else {
      EnterBody(head[1], AtShort, EscapeIntermediate, head[1..][1..]);
      assert head == [ESC, head[1]] + head[1..][1..];
    }
  }

  lemma HalfEndedPrints(head: seq<byte>)
    requires |head| >= 3
    ensures head == [head[0], head[1]] + head[2..|head| - 1] + [head[|head| - 1]]
  {
    assert head[..2] == [head[0], head[1]] && head[|head| - 1..] == [head[|head| - 1]];
    assert head == head[..2] + head[2..|head| - 1] + head[|head| - 1..];
  }

  lemma StringHeadIsSilent(head: seq<byte>)
    requires OpenString(head)
    ensures Out(START, head) == []
  {
    var k, m := if head[1] == 0x5d then AtOsc else AtString, if head[1] == 0x5d then Osc else StringSeq;
    if Open(k, head[2..]) {
      EnterBody(head[1], k, m, head[2..]);
      assert head == [ESC, head[1]] + head[2..];
    } else {
      var body := head[2..|head| - 1];
      EnterBody(head[1], k, m, body);
      Silently(START, [ESC, head[1]] + body, State(m, false), [ESC]);
      LastByte(State(m, false), ESC);
      HalfEndedPrints(head);
    }
  }

  /** Two states outside strings with nothing pending agree on a stream that begins with ESC. */
  lemma EscStartsOver(s: State, rest: seq<byte>)
    requires !s.cr && !InString(s.mode) && rest != [] && rest[0] == ESC
    ensures Out(s, rest) == Out(START, rest)
  {
  }

  /** A pending CR becomes a newline before anything but LF. */
  lemma ReturnFlushes(rest: seq<byte>)
    requires rest != [] && rest[0] != LF
    ensures Out(State(Ground, true), rest) == [LF] + Out(START, rest)
  {
  }

  /** The cleaner computes the meaning of the token list, for every well-formed list. */
  lemma {:induction false} CleanRendersTokens(ts: seq<Token>)
    requires ValidList(ts)
    ensures Clean(PrintAll(ts)) == Render(ts)
    decreases |ts|
  {
    if ts != [] {
      CleanRendersTokens(ts[1..]);
      if ts[0].Return? {
        if |ts| > 1 {
          assert ts[1..][1..] == ts[2..];
          CleanRendersTokens(ts[2..]);
        }
        CleanRendersReturn(ts);
      } else {
        CleanRendersFirst(ts);
      }
    }
  }

  /** What one token that is not a Return puts out, and the state it leaves for what follows. */
  lemma TokenShows(t: Token, rest: seq<byte>)
    requires Valid(t) && Fits(t, rest) && !t.Return?
    ensures Out(START, Print(t)) == Render([t])
    ensures Out(Run(START, Print(t)), rest) == Clean(rest)
  {
    match t
    case Aborted(head) =>
      HeadIsSilent(head);
      EscStartsOver(Run(START, head), rest);
    case Unfinished(head) =>
      if Abortable(head) { HeadIsSilent(head); } else { StringHeadIsSilent(head); }
    case Text(b) => LastByte(START, b);
    case Control(b) => LastByte(START, b);
    case Newline => LastByte(START, LF);
    case _ => SequenceIsSilent(t);
  }

  lemma CleanRendersFirst(ts: seq<Token>)
    requires ValidList(ts) && ts != [] && !ts[0].Return? && Clean(PrintAll(ts[1..])) == Render(ts[1..])
    ensures Clean(PrintAll(ts)) == Render(ts)
  {
    var t, rest := ts[0], PrintAll(ts[1..]);
    TokenShows(t, rest);
    Concat(START, Print(t), rest);
    RenderFirst(ts);
  }

  lemma RenderFirst(ts: seq<Token>)
    requires ts != [] && !ts[0].Return?
    ensures Render(ts) == Render([ts[0]]) + Render(ts[1..])
  {
    assert [ts[0]][1..] == [];
  }

  lemma AfterReturn(ts: seq<Token>)
    requires ts != [] && ts[0] == Return
    ensures Clean(PrintAll(ts)) == Out(State(Ground, true), PrintAll(ts[1..]))
  {
    var rest := PrintAll(ts[1..]);
    Concat(START, [CR], rest);
    LastByte(START, CR);
    assert [] + Out(State(Ground, true), rest) == Out(State(Ground, true), rest);
  }

  lemma CleanRendersReturn(ts: seq<Token>)
    requires ValidList(ts) && ts != [] && ts[0] == Return && Clean(PrintAll(ts[1..])) == Render(ts[1..])
    requires |ts| > 1 && ts[1] == Newline ==> Clean(PrintAll(ts[2..])) == Render(ts[2..])
    ensures Clean(PrintAll(ts)) == Render(ts)
  {
    AfterReturn(ts);
    if |ts| == 1 {
      assert PrintAll(ts[1..]) == [];
    } else if ts[1] == Newline {
      ReturnNewline(ts[1..]);
      assert ts[1..][1..] == ts[2..];
    } else {
      ReturnOther(ts[1..]);
    }
  }

  /** After a CR, an LF completes one line end. */
  lemma ReturnNewline(ts: seq<Token>)
    requires ts != [] && ts[0] == Newline
    ensures Out(State(Ground, true), PrintAll(ts)) == [LF] + Clean(PrintAll(ts[1..]))
  {
    Concat(State(Ground, true), [LF], PrintAll(ts[1..]));
    LastByte(State(Ground, true), LF);
  }

  /** After a CR, anything else finds the line ended. */
  lemma ReturnOther(ts: seq<Token>)
    requires ValidList(ts) && ts != [] && ts[0] != Newline
    ensures Out(State(Ground, true), PrintAll(ts)) == [LF] + Clean(PrintAll(ts))
  {
    var rest := PrintAll(ts);
    FirstOfPrint(ts[0], PrintAll(ts[1..]));
    NotNewline(ts[0]);
    assert rest[0] == Print(ts[0])[0];
    ReturnFlushes(rest);
  }

  lemma NotNewline(t: Token)
    requires Valid(t) && t != Newline && Print(t) != []
    ensures Print(t)[0] != LF
  {
  }

  /**
   Every byte string is the print of exactly one well-formed token list, and what
   the cleaner puts out for it is the meaning of that list.
   */
  lemma CleanerMeaning(s: seq<byte>, ts: seq<Token>)
    ensures ValidList(ts) && PrintAll(ts) == s <==> ts == Split(s)
    ensures Clean(s) == Render(Split(s))
  {
    SplitPrintsBack(s);
    if ValidList(ts) && PrintAll(ts) == s { SplitIsUnique(ts); }
    CleanRendersTokens(Split(s));
  }
}
