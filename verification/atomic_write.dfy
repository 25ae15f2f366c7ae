/**
 Atomic replacement (`write_atomic` and `create_private_file` of src/paths.rs):
 any number of calls in any number of processes, each free to fail at any step,
 and processes free to be killed and their pids reused. The file system has names,
 inodes and contents, so that a write through an open handle follows a rename.
 */
module AtomicWrite {
  import opened Wrappers
  import Text

  /** A directory entry: a file the callers replace, or a temporary file of one call. */
  datatype Name = Target(file: nat) | Temp(file: nat, pid: nat, unique: nat)

  datatype Phase =
    | Creating
    | Writing(ino: nat, done: nat)
    | Renaming(ino: nat)
    | Removing
    | Returned(ok: bool)
    | Killed

  datatype Call = Call(file: nat, pid: nat, unique: nat, contents: seq<byte>, phase: Phase)

  function TempOf(c: Call): Name {
    Temp(c.file, c.pid, c.unique)
  }

  predicate InFlight(c: Call) {
    !c.phase.Returned? && !c.phase.Killed?
  }

  /** `counters` holds `TMP_COUNTER` of every live process. */
  datatype World = World(
    names: map<Name, nat>,
    data: map<nat, seq<byte>>,
    nextIno: nat,
    counters: map<nat, nat>,
    calls: map<nat, Call>)
  {
    function Set(k: nat, phase: Phase): World
      requires k in calls
    {
      this.(calls := calls[k := calls[k].(phase := phase)])
    }

    /** What a reader that opens and reads a target now gets. */
    function Read(file: nat): Option<seq<byte>> {
      if Target(file) in names && names[Target(file)] in data then Some(data[names[Target(file)]]) else None
    }
  }

  datatype Step =
    | Spawn(pid: nat)
    | Kill(pid: nat)
    | Begin(k: nat, pid: nat, file: nat, contents: seq<byte>)
    | Create(k: nat)
    | Write(k: nat, upto: nat)
    | Close(k: nat)
    | Fail(k: nat)
    | Rename(k: nat)
    | Remove(k: nat)
    | RemoveFails(k: nat)

  predicate Enabled(w: World, st: Step) {
    match st
    case Spawn(pid) => pid !in w.counters
    case Kill(pid) => pid in w.counters
    case Begin(k, pid, _, _) => k !in w.calls && pid in w.counters
    case Create(k) => k in w.calls && w.calls[k].phase.Creating?
    case Write(k, upto) =>
      && k in w.calls && w.calls[k].phase.Writing?
      && w.calls[k].phase.done < upto <= |w.calls[k].contents| && w.calls[k].phase.ino in w.data
    case Close(k) => k in w.calls && w.calls[k].phase.Writing? && w.calls[k].phase.done == |w.calls[k].contents|
    case Fail(k) =>
      k in w.calls && (w.calls[k].phase.Creating? || w.calls[k].phase.Writing? || w.calls[k].phase.Renaming?)
    case Rename(k) => k in w.calls && w.calls[k].phase.Renaming? && TempOf(w.calls[k]) in w.names
    case Remove(k) => k in w.calls && w.calls[k].phase.Removing?
    case RemoveFails(k) => k in w.calls && w.calls[k].phase.Removing?
  }

  function Apply(w: World, st: Step): World
    requires Enabled(w, st)
  {
    match st
    case Spawn(pid) => w.(counters := w.counters[pid := 0])
    case Kill(pid) =>
      w.(counters := w.counters - {pid},
         calls := map k | k in w.calls ::
           if w.calls[k].pid == pid && InFlight(w.calls[k]) then w.calls[k].(phase := Phase.Killed) else w.calls[k])
    case Begin(k, pid, file, contents) =>
      w.(counters := w.counters[pid := w.counters[pid] + 1],
         calls := w.calls[k := Call(file, pid, w.counters[pid], contents, Creating)])
    case Create(k) =>
      // O_CREAT | O_TRUNC: an entry left by an earlier process is emptied and reused
      var tmp := TempOf(w.calls[k]);
      if tmp in w.names then
        w.(data := w.data[w.names[tmp] := []]).Set(k, Writing(w.names[tmp], 0))
      else
        w.(names := w.names[tmp := w.nextIno], data := w.data[w.nextIno := []], nextIno := w.nextIno + 1)
        .Set(k, Writing(w.nextIno, 0))
    case Write(k, upto) =>
      var c := w.calls[k];
      w.(data := w.data[c.phase.ino := w.data[c.phase.ino] + c.contents[c.phase.done..upto]])
      .Set(k, Writing(c.phase.ino, upto))
    case Close(k) => w.Set(k, Renaming(w.calls[k].phase.ino))
    case Fail(k) => w.Set(k, Removing)
    case Rename(k) =>
      var c := w.calls[k];
      w.(names := (w.names - {TempOf(c)})[Target(c.file) := w.names[TempOf(c)]]).Set(k, Returned(true))
    case Remove(k) => w.(names := w.names - {TempOf(w.calls[k])}).Set(k, Returned(false))
    case RemoveFails(k) => w.Set(k, Returned(false))   // the error is discarded
  }

  // -------------------------------------------------------------- invariant

  ghost predicate NamesOk(w: World) {
    && (forall n | n in w.names :: w.names[n] < w.nextIno && w.names[n] in w.data)
    && (forall m, n | m in w.names && n in w.names && m != n :: w.names[m] != w.names[n])
  }

  /** A call still at work owns its temporary file and has written what it says. */
  predicate CallOk(w: World, c: Call) {
    && (InFlight(c) ==> c.pid in w.counters && c.unique < w.counters[c.pid])
    && (c.phase.Writing? ==>
          && TempOf(c) in w.names && w.names[TempOf(c)] == c.phase.ino && c.phase.ino in w.data
          && c.phase.done <= |c.contents| && w.data[c.phase.ino] == c.contents[..c.phase.done])
    && (c.phase.Renaming? ==>
          && TempOf(c) in w.names && w.names[TempOf(c)] == c.phase.ino && c.phase.ino in w.data
          && w.data[c.phase.ino] == c.contents)
  }

  predicate Distinct(c: Call, d: Call) {
    InFlight(c) && InFlight(d) && c.pid == d.pid ==> c.unique != d.unique
  }

  ghost predicate Inv(w: World) {
    && NamesOk(w)
    && (forall k | k in w.calls :: CallOk(w, w.calls[k]))
    && (forall j, k | j in w.calls && k in w.calls && j != k :: Distinct(w.calls[j], w.calls[k]))
  }

  /** A start: any files and any temporary files left behind, but no call under way. */
  ghost predicate Init(w: World) {
    NamesOk(w) && w.calls == map[]
  }

  /** Two calls at work never share a temporary file. */
  lemma TempsNeverCollide(w: World, j: nat, k: nat)
    requires Inv(w) && j in w.calls && k in w.calls && j != k && InFlight(w.calls[j]) && InFlight(w.calls[k])
    ensures TempOf(w.calls[j]) != TempOf(w.calls[k])
  {
    assert Distinct(w.calls[j], w.calls[k]);
  }

  lemma InvStep(w: World, st: Step)
    requires Inv(w) && Enabled(w, st)
    ensures Inv(Apply(w, st))
  {
    var v := Apply(w, st);
    match st
    case Spawn(_) => KeepsCalls(w, v);
    case Kill(pid) => KillStep(w, pid);
    case Begin(k, _, _, _) => BeginStep(w, st);
    case Create(k) => CreateStep(w, k);
    case Write(k, upto) => WriteStep(w, k, upto);
    case Close(k) => CloseStep(w, k);
    case Fail(k) => MoveStep(w, k, v);
    case Rename(k) => MoveStep(w, k, v);
    case Remove(k) => MoveStep(w, k, v);
    case RemoveFails(k) => MoveStep(w, k, v);
  }

  lemma KillStep(w: World, pid: nat)
    requires Inv(w) && Enabled(w, Kill(pid))
    ensures Inv(Apply(w, Kill(pid)))
  {
    var v := Apply(w, Kill(pid));
    forall k | k in v.calls ensures CallOk(v, v.calls[k]) { assert CallOk(w, w.calls[k]); }
    forall j, k | j in v.calls && k in v.calls && j != k ensures Distinct(v.calls[j], v.calls[k]) {
      assert Distinct(w.calls[j], w.calls[k]);
    }
  }

  lemma BeginStep(w: World, st: Step)
    requires Inv(w) && st.Begin? && Enabled(w, st)
    ensures Inv(Apply(w, st))
  {
    var v := Apply(w, st);
    forall j | j in v.calls ensures CallOk(v, v.calls[j]) { assert j != st.k ==> CallOk(w, w.calls[j]); }
    forall i, j | i in v.calls && j in v.calls && i != j ensures Distinct(v.calls[i], v.calls[j]) {
      if i in w.calls { assert CallOk(w, w.calls[i]); }
      if j in w.calls { assert CallOk(w, w.calls[j]); }
      if i in w.calls && j in w.calls { assert Distinct(w.calls[i], w.calls[j]); }
    }
  }

  lemma CreateStep(w: World, k: nat)
    requires Inv(w) && Enabled(w, Create(k))
    ensures Inv(Apply(w, Create(k)))
  {
    assert CallOk(w, w.calls[k]);
    MoveStep(w, k, Apply(w, Create(k)));
  }

  lemma CloseStep(w: World, k: nat)
    requires Inv(w) && Enabled(w, Close(k))
    ensures Inv(Apply(w, Close(k)))
  {
    assert CallOk(w, w.calls[k]);
    assert w.calls[k].contents[..|w.calls[k].contents|] == w.calls[k].contents;
    MoveStep(w, k, Apply(w, Close(k)));
  }

  lemma WriteStep(w: World, k: nat, upto: nat)
    requires Inv(w) && Enabled(w, Write(k, upto))
    ensures Inv(Apply(w, Write(k, upto)))
  {
    var c := w.calls[k];
    assert CallOk(w, c);
    assert c.contents[..c.phase.done] + c.contents[c.phase.done..upto] == c.contents[..upto];
    MoveStep(w, k, Apply(w, Write(k, upto)));
  }

  lemma KeepsCalls(w: World, v: World)
    requires Inv(w) && v.names == w.names && v.data == w.data && v.nextIno == w.nextIno && v.calls == w.calls
    requires forall p | p in w.counters :: p in v.counters && v.counters[p] == w.counters[p]
    ensures Inv(v)
  {
    forall k | k in v.calls ensures CallOk(v, v.calls[k]) { assert CallOk(w, w.calls[k]); }
    forall j, k | j in v.calls && k in v.calls && j != k ensures Distinct(v.calls[j], v.calls[k]) {
      assert Distinct(w.calls[j], w.calls[k]);
    }
  }

  /** A step of call `k` touches its own temporary file, the target's name, and nothing else. */
  ghost predicate OwnFiles(w: World, k: nat, v: World)
    requires k in w.calls
  {
    && (forall n | n in w.names && n != TempOf(w.calls[k]) && n != Target(w.calls[k].file) ::
          n in v.names && v.names[n] == w.names[n])
    && (forall n | n in w.names && n != TempOf(w.calls[k]) && w.names[n] in w.data ::
          w.names[n] in v.data && v.data[w.names[n]] == w.data[w.names[n]])
  }

  lemma MoveStep(w: World, k: nat, v: World)
    requires Inv(w) && k in w.calls && k in v.calls && InFlight(w.calls[k]) && OwnFiles(w, k, v) && NamesOk(v)
    requires v.counters == w.counters && v.calls == w.calls[k := w.calls[k].(phase := v.calls[k].phase)]
    requires CallOk(v, v.calls[k])
    ensures Inv(v)
  {
    forall j | j in v.calls ensures CallOk(v, v.calls[j]) {
      if j != k {
        assert CallOk(w, w.calls[j]);
        if InFlight(w.calls[j]) { TempsNeverCollide(w, j, k); }
      }
    }
    forall i, j | i in v.calls && j in v.calls && i != j ensures Distinct(v.calls[i], v.calls[j]) {
      assert Distinct(w.calls[i], w.calls[j]);
    }
  }

  // ------------------------------------------------------------------- runs

  ghost predicate Run(ws: seq<World>, sts: seq<Step>) {
    && |ws| == |sts| + 1
    && Init(ws[0])
    && forall i {:trigger sts[i]} | 0 <= i < |sts| :: Enabled(ws[i], sts[i]) && ws[i + 1] == Apply(ws[i], sts[i])
  }

  lemma {:induction false} AlwaysInv(ws: seq<World>, sts: seq<Step>, i: nat)
    requires Run(ws, sts) && i < |ws|
    ensures Inv(ws[i])
  {
    if i > 0 {
      AlwaysInv(ws, sts, i - 1);
      InvStep(ws[i - 1], sts[i - 1]);
    }
  }

  /** The only step that changes what readers of a file see is a rename, and it shows that call's whole contents. */
  lemma ReadsChangeByRename(w: World, st: Step, file: nat)
    requires Inv(w) && Enabled(w, st)
    ensures Apply(w, st).Read(file) ==
              if st.Rename? && w.calls[st.k].file == file then Some(w.calls[st.k].contents) else w.Read(file)
  {
    match st
    case Write(k, _) => assert CallOk(w, w.calls[k]);
    case Rename(k) => assert CallOk(w, w.calls[k]);
    case _ =>
  }

  /** Step `i` replaces `file`. */
  predicate Replaces(ws: seq<World>, sts: seq<Step>, i: nat, file: nat) {
    i < |sts| && i < |ws| && sts[i].Rename? && sts[i].k in ws[i].calls && ws[i].calls[sts[i].k].file == file
  }

  /** Step `i` is the last before `n` that replaces `file`. */
  ghost predicate LastReplacement(ws: seq<World>, sts: seq<Step>, i: nat, n: nat, file: nat) {
    i < n && Replaces(ws, sts, i, file) && forall j | i < j < n :: !Replaces(ws, sts, j, file)
  }

  lemma LastBefore(ws: seq<World>, sts: seq<Step>, i: nat, n: nat, file: nat)
    requires LastReplacement(ws, sts, i, n, file)
    ensures i < n - 1 ==> !Replaces(ws, sts, n - 1, file) && LastReplacement(ws, sts, i, n - 1, file)
  {
  }

  /** Step `i` shows its contents if it replaces `file`, and changes nothing else. */
  predicate ReadsOn(ws: seq<World>, sts: seq<Step>, i: nat, file: nat) {
    && i + 1 < |ws|
    && ws[i + 1].Read(file)
       == if Replaces(ws, sts, i, file) then Some(ws[i].calls[sts[i].k].contents) else ws[i].Read(file)
  }

  lemma ReadNext(ws: seq<World>, sts: seq<Step>, i: nat, file: nat)
    requires Run(ws, sts) && i < |sts|
    ensures ReadsOn(ws, sts, i, file)
  {
    AlwaysInv(ws, sts, i);
    ReadsChangeByRename(ws[i], sts[i], file);
  }

  lemma {:induction false} LastReplacementShows(ws: seq<World>, sts: seq<Step>, n: nat, file: nat)
    requires n < |ws| && forall i | 0 <= i < n :: ReadsOn(ws, sts, i, file)
    ensures (forall i | 0 <= i < n :: !Replaces(ws, sts, i, file)) ==> ws[n].Read(file) == ws[0].Read(file)
    ensures forall i: nat | LastReplacement(ws, sts, i, n, file) ::
              ws[n].Read(file) == Some(ws[i].calls[sts[i].k].contents)
  {
    if n > 0 {
      LastReplacementShows(ws, sts, n - 1, file);
      assert ReadsOn(ws, sts, n - 1, file);
      forall i: nat | LastReplacement(ws, sts, i, n, file)
        ensures ws[n].Read(file) == Some(ws[i].calls[sts[i].k].contents)
      {
        LastBefore(ws, sts, i, n, file);
      }
    }
  }

  /**
   At every moment of every run a reader of a target sees its initial contents, if
   no call has replaced it, or else the full contents of the last call that did.
   */
  lemma ReadersSeeWholeFiles(ws: seq<World>, sts: seq<Step>, n: nat, file: nat)
    requires Run(ws, sts) && n < |ws|
    ensures (forall i | 0 <= i < n :: !Replaces(ws, sts, i, file)) ==> ws[n].Read(file) == ws[0].Read(file)
    ensures forall i: nat | LastReplacement(ws, sts, i, n, file) ::
              ws[n].Read(file) == Some(ws[i].calls[sts[i].k].contents)
  {
    forall i | 0 <= i < n ensures ReadsOn(ws, sts, i, file) { ReadNext(ws, sts, i, file); }
    LastReplacementShows(ws, sts, n, file);
  }

  /** No temporary entry leads to this inode. */
  ghost predicate NoTemp(w: World, ino: nat) {
    ino < w.nextIno && ino in w.data && forall n | n in w.names && w.names[n] == ino :: n.Target?
  }

  lemma NoTempStep(w: World, st: Step, ino: nat)
    requires Inv(w) && Enabled(w, st) && NoTemp(w, ino)
    ensures NoTemp(Apply(w, st), ino) && Apply(w, st).data[ino] == w.data[ino]
  {
    match st
    case Write(k, _) => assert CallOk(w, w.calls[k]);
    case _ =>
  }

  /** A reader that has opened a target keeps reading the same contents, whatever replaces the file meanwhile. */
  lemma {:induction false} OpenReadersSeeOneFile(ws: seq<World>, sts: seq<Step>, i: nat, j: nat, file: nat)
    requires Run(ws, sts) && i <= j < |ws| && Target(file) in ws[i].names
    ensures var ino := ws[i].names[Target(file)];
            && ino in ws[i].data && ws[i].Read(file) == Some(ws[i].data[ino])
            && NoTemp(ws[j], ino) && ws[j].data[ino] == ws[i].data[ino]
    decreases j
  {
    AlwaysInv(ws, sts, i);
    if i < j {
      OpenReadersSeeOneFile(ws, sts, i, j - 1, file);
      AlwaysInv(ws, sts, j - 1);
      NoTempStep(ws[j - 1], sts[j - 1], ws[i].names[Target(file)]);
    }
  }

  // -------------------------------------------------- leftover temporary files

  /** The call has returned, and its process has not started another call that uses its temporary name. */
  predicate DoneWith(w: World, k: nat) {
    && k in w.calls && w.calls[k].phase.Returned?
    && w.calls[k].pid in w.counters && w.calls[k].unique < w.counters[w.calls[k].pid]
    && forall j | j in w.calls && InFlight(w.calls[j]) && w.calls[j].pid == w.calls[k].pid ::
         w.calls[j].unique != w.calls[k].unique
  }

  /** Step `st` is the return of call `k`. */
  predicate Returns(w: World, st: Step, k: nat) {
    Enabled(w, st) && (st == Rename(k) || st == Remove(k) || st == RemoveFails(k))
  }

  lemma ReturnIsDone(w: World, st: Step, k: nat)
    requires Inv(w) && Returns(w, st, k)
    ensures DoneWith(Apply(w, st), k)
    ensures TempOf(w.calls[k]) in Apply(w, st).names <==> st.RemoveFails? && TempOf(w.calls[k]) in w.names
  {
    assert CallOk(w, w.calls[k]);
    forall j | j in w.calls && j != k && InFlight(w.calls[j]) && w.calls[j].pid == w.calls[k].pid
      ensures w.calls[j].unique != w.calls[k].unique
    {
      assert Distinct(w.calls[j], w.calls[k]);
    }
  }

  /** While the process of a returned call lives, nobody touches the call's temporary entry. */
  lemma DoneStays(w: World, st: Step, k: nat)
    requires Inv(w) && Enabled(w, st) && DoneWith(w, k) && st != Kill(w.calls[k].pid)
    ensures DoneWith(Apply(w, st), k) && Apply(w, st).calls[k] == w.calls[k]
    ensures TempOf(w.calls[k]) in Apply(w, st).names <==> TempOf(w.calls[k]) in w.names
  {
    if st.Create? || st.Rename? || st.Remove? {
      assert CallOk(w, w.calls[st.k]);
      assert TempOf(w.calls[st.k]) != TempOf(w.calls[k]);
    }
  }

  /** The process of the call is not killed between two moments. */
  ghost predicate Survives(sts: seq<Step>, i: nat, j: nat, pid: nat) {
    forall n | i <= n < j && n < |sts| :: sts[n] != Kill(pid)
  }

  /**
   A returned call leaves its temporary file behind, for as long as its process
   lives, exactly if there was one and its removal failed.
   */
  lemma {:induction false} LeftoverExactly(ws: seq<World>, sts: seq<Step>, i: nat, j: nat, k: nat)
    requires Run(ws, sts) && i < j < |ws| && Returns(ws[i], sts[i], k)
    requires Survives(sts, i, j, ws[i].calls[k].pid)
    ensures DoneWith(ws[j], k) && TempOf(ws[j].calls[k]) == TempOf(ws[i].calls[k])
    ensures TempOf(ws[i].calls[k]) in ws[j].names
            <==> sts[i].RemoveFails? && TempOf(ws[i].calls[k]) in ws[i].names
    decreases j
  {
    AlwaysInv(ws, sts, j - 1);
    if i == j - 1 {
      ReturnIsDone(ws[i], sts[i], k);
    } else {
      LeftoverExactly(ws, sts, i, j - 1, k);
      DoneStays(ws[j - 1], sts[j - 1], k);
    }
  }

  /** Call `k` has replaced its target among the first `n` steps. */
  ghost predicate Renamed(sts: seq<Step>, n: nat, k: nat) {
    exists i: nat | i < n && i < |sts| :: sts[i] == Rename(k)
  }

  predicate SaysSo(w: World, k: nat, renamed: bool) {
    if k in w.calls then (w.calls[k].phase == Returned(true) <==> renamed) else !renamed
  }

  /** A call reports success exactly if it replaced its target. */
  lemma {:induction false} SuccessExactly(ws: seq<World>, sts: seq<Step>, n: nat, k: nat)
    requires Run(ws, sts) && n < |ws|
    ensures SaysSo(ws[n], k, Renamed(sts, n, k))
  {
    if n > 0 {
      SuccessExactly(ws, sts, n - 1, k);
      assert Renamed(sts, n, k) <==> Renamed(sts, n - 1, k) || sts[n - 1] == Rename(k);
      SuccessStep(ws[n - 1], sts[n - 1], k, Renamed(sts, n - 1, k));
    }
  }

  lemma SuccessStep(w: World, st: Step, k: nat, renamed: bool)
    requires Enabled(w, st) && SaysSo(w, k, renamed)
    ensures SaysSo(Apply(w, st), k, renamed || st == Rename(k))
  {
  }

  const CALL := Call(0, 1, 0, [], Creating)
  const EMPTY := World(map[], map[], 0, map[], map[])
  const ALIVE := EMPTY.(counters := map[1 := 0])
  const BEGUN := EMPTY.(counters := map[1 := 1], calls := map[0 := CALL])

  /** The temporary file of the call exists, and the call is at `phase`. */
  function WithTemp(phase: Phase): World {
    World(map[TempOf(CALL) := 0], map[0 := []], 1, map[1 := 1], map[0 := CALL.(phase := phase)])
  }

  lemma CallBegins()
    ensures Enabled(EMPTY, Spawn(1)) && Apply(EMPTY, Spawn(1)) == ALIVE
    ensures Enabled(ALIVE, Begin(0, 1, 0, [])) && Apply(ALIVE, Begin(0, 1, 0, [])) == BEGUN
  {
  }

  lemma CallCreates()
    ensures Enabled(BEGUN, Create(0)) && Apply(BEGUN, Create(0)) == WithTemp(Writing(0, 0))
  {
  }

  lemma CallFails()
    ensures var w := WithTemp(Writing(0, 0)); Enabled(w, Fail(0)) && Apply(w, Fail(0)) == WithTemp(Removing)
    ensures var w := WithTemp(Removing);
            Enabled(w, RemoveFails(0)) && Apply(w, RemoveFails(0)) == WithTemp(Returned(false))
  {
  }

  /** A run in which a write fails and the temporary file cannot be removed. */
  lemma LeftoverHappens()
    ensures exists ws: seq<World>, sts: seq<Step> :: Run(ws, sts) && ws[|sts|] == WithTemp(Returned(false))
  {
    CallBegins();
    CallCreates();
    CallFails();
    var ws := [EMPTY, ALIVE, BEGUN, WithTemp(Writing(0, 0)), WithTemp(Removing), WithTemp(Returned(false))];
    var sts := [Spawn(1), Begin(0, 1, 0, []), Create(0), Fail(0), RemoveFails(0)];
    assert Run(ws, sts);
  }

  // -------------------------------------------------------------- the names

  /** The name `write_atomic` gives its temporary file. */
  function TempName(file: string, pid: nat, unique: nat): string {
    "." + file + ".tmp." + Text.Show(pid) + "." + Text.Show(unique)
  }

  /** A text that ends in a dot and a numeral comes apart in one way. */
  lemma LastNumeral(a: string, m: nat, b: string, n: nat)
    requires a + "." + Text.Show(m) == b + "." + Text.Show(n)
    ensures a == b && m == n
  {
    var s, p, q := a + "." + Text.Show(m), Text.Show(m), Text.Show(n);
    assert '.' !in p && '.' !in q;
    assert s[|a|] == '.' && s[|b|] == '.';
    assert forall i | |a| < i < |s| :: s[i] == p[i - |a| - 1];
    assert forall i | |b| < i < |s| :: s[i] == q[i - |b| - 1];
    assert |a| == |b|;
    assert s[..|a|] == a && s[..|b|] == b;
    assert s[|a| + 1..] == p && s[|b| + 1..] == q;
    Text.ShowIsInjective(m, n);
  }

  /** Different targets of one directory, processes or counters give different names, as the entries above assume. */
  lemma TempNamesDiffer(file: string, pid: nat, unique: nat, file': string, pid': nat, unique': nat)
    requires TempName(file, pid, unique) == TempName(file', pid', unique')
    ensures file == file' && pid == pid' && unique == unique'
  {
    var head, head' := "." + file + ".tmp", "." + file' + ".tmp";
    assert TempName(file, pid, unique) == (head + "." + Text.Show(pid)) + "." + Text.Show(unique);
    assert TempName(file', pid', unique') == (head' + "." + Text.Show(pid')) + "." + Text.Show(unique');
    LastNumeral(head + "." + Text.Show(pid), unique, head' + "." + Text.Show(pid'), unique');
    LastNumeral(head, pid, head', pid');
    assert head[1..|head| - 4] == file && head'[1..|head'| - 4] == file';
  }
}
