/**
 PATH rewriting and program lookup (src/paths.rs). Whether a candidate is an
 executable file is a parameter, fixed during a lookup.
 */
module SearchPath {
  import opened Wrappers
  import Lines

  // -------------------------------------------------------------- entries

  /** `split(':')`: always at least one piece. */
  function SplitColon(s: string): (pieces: seq<string>)
    ensures pieces != []
    decreases |s|
  {
    var k := Lines.Find(s, ':');
    if k == |s| then [s] else [s[..k]] + SplitColon(s[k + 1..])
  }

  /** `join(":")` */
  function JoinColon(pieces: seq<string>): string {
    if pieces == [] then "" else if |pieces| == 1 then pieces[0] else pieces[0] + ":" + JoinColon(pieces[1..])
  }

  function Keep(pieces: seq<string>, local: string): seq<string> {
    if pieces == [] then []
    else (if pieces[0] != "" && pieces[0] != local then [pieces[0]] else []) + Keep(pieces[1..], local)
  }

  /** `path_with_local_bin_from`, given the local bin directory. */
  function WithLocalBin(path: string, local: string): string {
    if path == "" then local
    else
      var rest := JoinColon(Keep(SplitColon(path), local));
      if rest == "" then local else local + ":" + rest
  }

  /** `home_dir.join(".local/bin")` */
  function LocalBin(home: string): string {
    InDirectory(home, ".local/bin")
  }

  /** `Path::join` for a relative second part. */
  function InDirectory(dir: string, name: string): string {
    if dir == "" || dir[|dir| - 1] == '/' then dir + name else dir + "/" + name
  }

  function FirstExecutable(entries: seq<string>, program: string, exec: string -> bool): Option<string> {
    if entries == [] then None
    else if entries[0] != "" && exec(InDirectory(entries[0], program)) then Some(InDirectory(entries[0], program))
    else FirstExecutable(entries[1..], program, exec)
  }

  /** `resolve_program_path` */
  function Resolve(program: string, path: string, exec: string -> bool): Option<string> {
    if '/' in program then Some(program) else FirstExecutable(SplitColon(path), program, exec)
  }

  // ------------------------------------------------------------ round trip

  ghost predicate Pieces(pieces: seq<string>) {
    forall i | 0 <= i < |pieces| :: ':' !in pieces[i]
  }

  lemma {:induction false} SplitGivesPieces(s: string)
    ensures Pieces(SplitColon(s))
    decreases |s|
  {
    var k := Lines.Find(s, ':');
    if k < |s| { SplitGivesPieces(s[k + 1..]); }
  }

  lemma {:induction false} SplitOfJoin(pieces: seq<string>)
    requires pieces != [] && Pieces(pieces)
    ensures SplitColon(JoinColon(pieces)) == pieces
  {
    var s := JoinColon(pieces);
    if |pieces| == 1 {
      assert Lines.Find(s, ':') == |s|;
    } else {
      var p, rest := pieces[0], JoinColon(pieces[1..]);
      Lines.FindsAtEnd(p, rest, ':');
      assert s[..|p|] == p && s[|p| + 1..] == rest;
      SplitOfJoin(pieces[1..]);
      assert pieces == [p] + pieces[1..];
    }
  }

  lemma {:induction false} KeepKeeps(pieces: seq<string>, local: string)
    requires Pieces(pieces)
    ensures var kept := Keep(pieces, local);
            Pieces(kept) && forall i | 0 <= i < |kept| :: kept[i] != "" && kept[i] != local
  {
    if pieces != [] {
      assert Pieces(pieces[1..]) by { assert forall i | 0 <= i < |pieces[1..]| :: pieces[1..][i] == pieces[i + 1]; }
      KeepKeeps(pieces[1..], local);
    }
  }

  lemma {:induction false} KeepsAll(kept: seq<string>, local: string)
    requires forall i | 0 <= i < |kept| :: kept[i] != "" && kept[i] != local
    ensures Keep(kept, local) == kept
  {
    if kept != [] {
      assert forall i | 0 <= i < |kept[1..]| :: kept[1..][i] == kept[i + 1];
      KeepsAll(kept[1..], local);
      assert kept == [kept[0]] + kept[1..];
    }
  }

  lemma JoinIsEmpty(pieces: seq<string>)
    requires forall i | 0 <= i < |pieces| :: pieces[i] != ""
    ensures JoinColon(pieces) == "" <==> pieces == []
  {
  }

  /** The entries of the rewritten PATH: the local bin directory, then the other non-empty entries in order. */
  lemma EntriesOfRewritten(path: string, local: string)
    requires local != "" && ':' !in local
    ensures SplitColon(WithLocalBin(path, local)) == [local] + Keep(SplitColon(path), local)
  {
    var kept := Keep(SplitColon(path), local);
    SplitGivesPieces(path);
    KeepKeeps(SplitColon(path), local);
    JoinIsEmpty(kept);
    SplitOfJoin([local] + kept);
    if kept != [] { assert ([local] + kept)[1..] == kept; }
    if path == "" { assert SplitColon(path) == [""] && kept == []; }
  }

  // ---------------------------------------------------------------- lookup

  /** Dropping empty entries and a directory without the program changes no lookup. */
  lemma {:induction false} LookupIgnoresDropped(
    entries: seq<string>, local: string, program: string, exec: string -> bool)
    requires !exec(InDirectory(local, program))
    ensures FirstExecutable(Keep(entries, local), program, exec) == FirstExecutable(entries, program, exec)
  {
    if entries != [] {
      LookupIgnoresDropped(entries[1..], local, program, exec);
      var h := if entries[0] != "" && entries[0] != local then [entries[0]] else [];
      assert (h + Keep(entries[1..], local))[|h|..] == Keep(entries[1..], local);
    }
  }

  /** The local bin directory wins if it has the program; otherwise nothing changes. */
  predicate LookupLaw(local: string, path: string, program: string, exec: string -> bool)
    requires local != ""
  {
    var full := if local[|local| - 1] == '/' then local + program else local + "/" + program;
    Resolve(program, WithLocalBin(path, local), exec) == if exec(full) then Some(full) else Resolve(program, path, exec)
  }

  lemma RewritingPrefersLocalBin(local: string, path: string, program: string, exec: string -> bool)
    requires local != "" && ':' !in local && '/' !in program
    ensures LookupLaw(local, path, program, exec)
  {
    EntriesOfRewritten(path, local);
    var kept := Keep(SplitColon(path), local);
    assert ([local] + kept)[1..] == kept;
    if !exec(InDirectory(local, program)) { LookupIgnoresDropped(SplitColon(path), local, program, exec); }
  }

  lemma {:induction false} NothingFound(entries: seq<string>, program: string, exec: string -> bool)
    requires forall i | 0 <= i < |entries| :: !exec(InDirectory(entries[i], program))
    ensures FirstExecutable(entries, program, exec) == None
  {
    if entries != [] {
      assert forall i | 0 <= i < |entries[1..]| :: entries[1..][i] == entries[i + 1];
      NothingFound(entries[1..], program, exec);
    }
  }

  /** A local bin directory with a colon in its name is not found through the PATH it was put in. */
  lemma ColonBreaksLookup(local: string) returns (exec: string -> bool)
    requires ':' in local
    ensures !LookupLaw(local, "", "x", exec)
  {
    var wanted := InDirectory(local, "x");
    exec := s => s == wanted;
    var entries := SplitColon(local);
    SplitGivesPieces(local);
    assert ':' in wanted;
    forall i | 0 <= i < |entries| ensures !exec(InDirectory(entries[i], "x")) {
      assert ':' !in InDirectory(entries[i], "x");
    }
    NothingFound(entries, "x", exec);
  }

  /** The law holds for every PATH, bare program and set of executables exactly if the directory has no colon. */
  lemma LookupLawExactly(local: string)
    requires local != ""
    ensures (forall path, program, exec: string -> bool | '/' !in program :: LookupLaw(local, path, program, exec))
            <==> ':' !in local
  {
    if ':' in local {
      var exec := ColonBreaksLookup(local);
      assert !LookupLaw(local, "", "x", exec) && '/' !in "x";
    } else {
      forall path, program, exec: string -> bool | '/' !in program ensures LookupLaw(local, path, program, exec) {
        RewritingPrefersLocalBin(local, path, program, exec);
      }
    }
  }

  /** Rewriting a PATH twice is rewriting it once. */
  lemma RewritingIsIdempotent(path: string, local: string)
    requires local != "" && ':' !in local
    ensures WithLocalBin(WithLocalBin(path, local), local) == WithLocalBin(path, local)
  {
    var kept := Keep(SplitColon(path), local);
    EntriesOfRewritten(path, local);
    SplitGivesPieces(path);
    KeepKeeps(SplitColon(path), local);
    KeepsAll(kept, local);
    assert ([local] + kept)[1..] == kept;
    assert Keep([local] + kept, local) == kept;
    JoinIsEmpty(kept);
    if path == "" { assert SplitColon(path) == [""] && kept == []; }
  }

  /** A piece without colons that is kept shows in the rest of the PATH. */
  lemma {:induction false} KeptShows(pieces: seq<string>, local: string, i: nat)
    requires i < |pieces| && pieces[i] != "" && pieces[i] != local
    ensures Keep(pieces, local) != [] && exists k | 0 <= k < |Keep(pieces, local)| :: Keep(pieces, local)[k] != ""
  {
    if i > 0 {
      KeptShows(pieces[1..], local, i - 1);
      var kept := Keep(pieces[1..], local);
      var k :| 0 <= k < |kept| && kept[k] != "";
      var h := if pieces[0] != "" && pieces[0] != local then [pieces[0]] else [];
      assert (h + kept)[|h| + k] == kept[k];
    } else {
      assert Keep(pieces, local)[0] == pieces[0];
    }
  }

  lemma FirstPiece(a: string, b: string)
    requires ':' !in a
    ensures SplitColon(a + ":" + b) == [a] + SplitColon(b)
  {
    var s := a + ":" + b;
    Lines.FindsAtEnd(a, b, ':');
    assert s[..|a|] == a && s[|a| + 1..] == b;
  }

  lemma CutAtFirstColon(s: string) returns (a: string, b: string)
    requires ':' in s
    ensures s == a + ":" + b && ':' !in a
  {
    var k := Lines.Find(s, ':');
    a, b := s[..k], s[k + 1..];
  }

  lemma OnePiece(s: string)
    requires ':' !in s
    ensures SplitColon(s) == [s]
  {
  }

  lemma Regroup(a: string, b: string, c: string, d: string)
    ensures a + ((b + c) + d) == ((a + b) + c) + d
  {
    Associate(a, b + c, d);
    Associate(a, b, c);
  }

  /** The last piece of a split is what follows the last colon. */
  lemma {:induction false} LastPiece(a: string, b: string)
    requires ':' !in b
    ensures b in SplitColon(a + ":" + b)
    decreases |a|
  {
    if ':' in a {
      var f, r := CutAtFirstColon(a);
      LastPiece(r, b);
      FirstPiece(f, r + ":" + b);
      Regroup(f + ":", r, ":", b);
    } else {
      FirstPiece(a, b);
      OnePiece(b);
    }
  }

  /** A directory with a colon, and with something behind its last colon, is put in front again at every rewriting. */
  lemma ColonRepeats(a: string, b: string)
    requires ':' !in b && b != ""
    ensures var local := a + ":" + b;
            WithLocalBin(WithLocalBin("", local), local) != WithLocalBin("", local)
  {
    var local := a + ":" + b;
    LastPiece(a, b);
    var pieces := SplitColon(local);
    var i :| 0 <= i < |pieces| && pieces[i] == b;
    SplitGivesPieces(local);
    KeptShows(pieces, local, i);
    KeepKeeps(pieces, local);
    JoinIsEmpty(Keep(pieces, local));
    assert |WithLocalBin(local, local)| > |local|;
  }

  lemma {:induction false} CutAtLastColon(s: string) returns (a: string, b: string)
    requires ':' in s
    ensures s == a + ":" + b && ':' !in b
    decreases |s|
  {
    var f, r := CutAtFirstColon(s);
    if ':' in r {
      a, b := CutAtLastColon(r);
      Regroup(f + ":", a, ":", b);
      a := f + ":" + a;
    } else {
      a, b := f, r;
    }
  }

  /** With the directory the program uses, rewriting is idempotent for every PATH exactly if the home has no colon. */
  lemma RewritingIsIdempotentExactly(home: string)
    ensures var local := LocalBin(home);
            (forall path :: WithLocalBin(WithLocalBin(path, local), local) == WithLocalBin(path, local))
            <==> ':' !in home
  {
    var local := LocalBin(home);
    LocalBinHasColon(home);
    if ':' in home {
      var a, b := CutAtLastColon(local);
      assert b != "" by { assert local[|local| - 1] == 'n'; }
      ColonRepeats(a, b);
    } else {
      forall path ensures WithLocalBin(WithLocalBin(path, local), local) == WithLocalBin(path, local) {
        RewritingIsIdempotent(path, local);
      }
    }
  }

  /** The directory the program uses is never empty, so only a colon in the home directory matters. */
  lemma LocalBinHasColon(home: string)
    ensures LocalBin(home) != ""
    ensures ':' in LocalBin(home) <==> ':' in home
  {
  }

  // --------------------------------------------------------- the candidates

  /** `full` is `name` in directory `dir`, with one slash between them. */
  predicate Joined(dir: string, name: string, full: string) {
    dir != "" && (full == if dir[|dir| - 1] == '/' then dir + name else dir + "/" + name)
  }

  lemma LocalBinIsInHome(home: string)
    ensures if home == "" then LocalBin(home) == ".local/bin" else Joined(home, ".local/bin", LocalBin(home))
  {
  }

  /** A name with a slash is taken as it is. */
  lemma PathsStay(program: string, path: string, exec: string -> bool)
    requires '/' in program
    ensures Resolve(program, path, exec) == Some(program)
  {
  }

  /** The program in the non-empty entry `dir` is executable. */
  predicate Offers(dir: string, program: string, exec: string -> bool) {
    dir != "" && exec(if dir[|dir| - 1] == '/' then dir + program else dir + "/" + program)
  }

  /** Entry `i` is the first that offers the program, and `found` is its path there; or no entry offers it. */
  ghost predicate FirstOffer(
    entries: seq<string>, program: string, exec: string -> bool, i: nat, found: Option<string>) {
    && i <= |entries| && (forall j | 0 <= j < i :: !Offers(entries[j], program, exec))
    && (if i == |entries| then found == None
        else Offers(entries[i], program, exec) && found.Some? && Joined(entries[i], program, found.value))
  }

  lemma {:induction false} FindsFirst(entries: seq<string>, program: string, exec: string -> bool)
    ensures exists i: nat :: FirstOffer(entries, program, exec, i, FirstExecutable(entries, program, exec))
  {
    if entries == [] || Offers(entries[0], program, exec) {
      assert FirstOffer(entries, program, exec, 0, FirstExecutable(entries, program, exec));
    } else {
      FindsFirst(entries[1..], program, exec);
      var k: nat :| FirstOffer(entries[1..], program, exec, k, FirstExecutable(entries, program, exec));
      assert forall j | 0 < j < |entries| :: entries[j] == entries[1..][j - 1];
      assert FirstOffer(entries, program, exec, k + 1, FirstExecutable(entries, program, exec));
    }
  }

  /** Entries put together with colons. */
  predicate PathOf(path: string, entries: seq<string>) {
    entries != [] && (forall i | 0 <= i < |entries| :: ':' !in entries[i]) && path == JoinColon(entries)
  }

  /** A bare program is looked up in the entries of the PATH in order: the first one that offers it wins. */
  lemma LookupFindsFirst(entries: seq<string>, path: string, program: string, exec: string -> bool)
    requires PathOf(path, entries) && '/' !in program
    ensures exists i: nat :: FirstOffer(entries, program, exec, i, Resolve(program, path, exec))
  {
    SplitOfJoin(entries);
    FindsFirst(entries, program, exec);
    var i: nat :| FirstOffer(entries, program, exec, i, FirstExecutable(entries, program, exec));
    assert FirstOffer(entries, program, exec, i, Resolve(program, path, exec));
  }

  lemma LookupInOneDirectory(dir: string, program: string, exec: string -> bool)
    requires dir != "" && ':' !in dir && '/' !in program
    ensures var full := if dir[|dir| - 1] == '/' then dir + program else dir + "/" + program;
            Resolve(program, dir, exec) == if exec(full) then Some(full) else None
  {
    OnePiece(dir);
    FindsFirst([dir], program, exec);
    var i: nat :| FirstOffer([dir], program, exec, i, FirstExecutable([dir], program, exec));
    assert i == 0 <==> Offers([dir][0], program, exec);
  }
}
