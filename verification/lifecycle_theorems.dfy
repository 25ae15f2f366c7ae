/** What holds of whole runs of the lifecycle protocol. */
module LifecycleTheorems {
  import opened Wrappers
  import opened Metadata
  import opened Lifecycle
  import opened LifecycleLocks
  import opened LifecycleDisk
  import opened LifecycleBearers
  import opened LifecycleProcs
  import opened LifecycleIdentity
  import opened LifecycleTokens
  import opened LifecyclePoints
  import opened LifecycleSignals
  import opened LifecycleFifo
  import opened LifecycleRuns
  import opened LifecycleAnswers

  // ------------------------------------------------------- the record

  /**
   Every change of the file is either a new run's first record, or a section
   applying its job to the record that is on disk at that very moment: sections
   behave as if load and save were one step, and only for the run on disk.
   */
  lemma SectionsAreAtomic(w: World, st: Step)
    requires LockInv(w) && DiskInv(w) && Enabled(w, st) && InitExclusive(w, st)
    ensures var v := Apply(w, st);
            || v.disk == w.disk
            || (&& st.Start? && st.start.DoSaveFresh?
                && v.disk == Some(Record(Starting, if w.disk == None then 1 else w.disk.value.generation + 1,
                                         None, None, None, None, None, None)))
            || (&& st.Lock? && st.section.DoSave? && w.disk.Some? && v.disk.Some?
                && Writes(w.actors[st.a].pc.job, w.disk.value.generation, w.disk.value, v.disk.value)
                && w.actors[st.a].gen == w.disk.value.generation == v.disk.value.generation)
  {
    DiskEffect(w, st);
    if st.Lock? && st.section.DoSave? {
      var x := w.actors[st.a];
      assert ActorDisk(x, w.disk);
      WritesFollow(x.pc.job, x.gen, w.disk.value, x.pc.stage.next);
    }
    if st.Start? && st.start.DoSaveFresh? { assert ActorDisk(w.actors[st.a], w.disk); }
  }

  /** Only two kinds of step write the file. */
  lemma DiskEffect(w: World, st: Step)
    requires Enabled(w, st)
    ensures (st.Start? && st.start.DoSaveFresh?) || (st.Lock? && st.section.DoSave?) || Apply(w, st).disk == w.disk
  {
  }

  /**
   Over any stretch of any run the generation never falls; within one generation
   the status only moves forward, and the first exit information and the child
   identity of a stopped run are final, whichever actors write the file.
   */
  lemma {:induction false} RecordsOnlyMoveForward(ws: seq<World>, sts: seq<Step>, i: nat, j: nat)
    requires ExclusiveRun(ws, sts) && i <= j < |ws|
    ensures DiskFollows(ws[i].disk, ws[j].disk)
    decreases j
  {
    if i < j {
      RecordsOnlyMoveForward(ws, sts, i, j - 1);
      Always(ws, sts, j - 1);
      AlwaysDisk(ws, sts, j - 1);
      SectionsAreAtomic(ws[j - 1], sts[j - 1]);
      if ws[j - 1].disk.Some? && ws[j].disk != ws[j - 1].disk && sts[j - 1].Lock? {
        var x := ws[j - 1].actors[sts[j - 1].a];
        WritesFollow(x.pc.job, x.gen, ws[j - 1].disk.value, ws[j].disk.value);
      }
    }
  }

  /** Two different initialisations store, and return, two different generations, the later one larger. */
  lemma GenerationsAreFresh(ws: seq<World>, sts: seq<Step>, i: nat, j: nat)
    requires ExclusiveRun(ws, sts) && i < j < |sts|
    requires sts[i].Start? && sts[i].start.DoSaveFresh? && sts[j].Start? && sts[j].start.DoSaveFresh?
    ensures sts[i].a in ws[i].actors && sts[j].a in ws[j].actors
    ensures ws[i].actors[sts[i].a].gen < ws[j].actors[sts[j].a].gen
  {
    RecordsOnlyMoveForward(ws, sts, i + 1, j);
    AlwaysDisk(ws, sts, j);
    assert ActorDisk(ws[j].actors[sts[j].a], ws[j].disk);
  }

  /** A section that acts for one run leaves the record of any other run exactly as it is. */
  lemma StaleActorsAreHarmless(ws: seq<World>, sts: seq<Step>, i: nat)
    requires ExclusiveRun(ws, sts) && i < |sts|
    requires sts[i].Lock? && ws[i].disk.Some?
    requires ws[i].actors[sts[i].a].gen != ws[i].disk.value.generation
    ensures ws[i + 1].disk == ws[i].disk
  {
    Always(ws, sts, i);
    AlwaysDisk(ws, sts, i);
    SectionsAreAtomic(ws[i], sts[i]);
  }

  /** The next step can take the file back to an older generation. */
  ghost predicate CanRegress(v: World) {
    exists st :: Enabled(v, st) && Regresses(v, st)
  }

  predicate Regresses(v: World, st: Step)
    requires Enabled(v, st)
  {
    && v.disk.Some? && Apply(v, st).disk.Some?
    && Apply(v, st).disk.value.generation < v.disk.value.generation
  }

  /**
   The assumption on `initialize_session_files` is exactly what is needed: right
   after its save the generation on disk can fall, by some enabled step, if and
   only if some section was between its load and its save.
   */
  lemma InitDuringSaveRegresses(ws: seq<World>, sts: seq<Step>, k: nat, a: nat)
    requires ExclusiveRun(ws, sts) && k < |ws| && StartEnabled(ws[k], a, DoSaveFresh)
    ensures CanRegress(StartApply(ws[k], a, DoSaveFresh)) <==> PendingSave(ws[k])
  {
    Always(ws, sts, k);
    AlwaysDisk(ws, sts, k);
    AlwaysFits(ws, sts, k);
    var w, v := ws[k], StartApply(ws[k], a, DoSaveFresh);
    if PendingSave(w) {
      var b :| b in w.actors && w.actors[b].pc.Section? && w.actors[b].pc.stage.Save?;
      PendingSaveRegresses(w, a, b);
    }
    if CanRegress(v) {
      var st :| Enabled(v, st) && Regresses(v, st);
      OnlySavesRegress(w, a, st);
    }
  }

  lemma PendingSaveRegresses(w: World, a: nat, b: nat)
    requires DiskInv(w) && FitInv(w) && StartEnabled(w, a, DoSaveFresh) && b in w.actors && Saving(w.actors[b])
    ensures var v := StartApply(w, a, DoSaveFresh); Enabled(v, Lock(b, DoSave)) && Regresses(v, Lock(b, DoSave))
  {
    var x := w.actors[b];
    assert ActorDisk(w.actors[a], w.disk) && ActorDisk(x, w.disk) && FitsDisk(x, w.disk);
    WritesFollow(x.pc.job, x.gen, w.disk.value, x.pc.stage.next);
  }

  lemma OnlySavesRegress(w: World, a: nat, st: Step)
    requires LockInv(w) && StartEnabled(w, a, DoSaveFresh)
    requires var v := StartApply(w, a, DoSaveFresh); Enabled(v, st) && Regresses(v, st)
    ensures PendingSave(w)
  {
    var v := StartApply(w, a, DoSaveFresh);
    DiskEffect(v, st);
    if st.Lock? {
      assert st.a != a && w.actors[st.a] == v.actors[st.a];
    } else {
      assert HoldsStart(w.actors[a]) && HoldsStart(v.actors[st.a]);
      if st.a != a { MutualExclusion(w, a, st.a); }
    }
  }

  // ------------------------------------------------------------- starting

  /** Run `gen` was initialised by a start that could not spawn an owner for it. */
  ghost predicate Abandoned(actors: map<nat, Actor>, gen: nat) {
    exists s | s in actors :: LeftRun(actors[s]) && actors[s].gen == gen
  }

  /** A run is left Starting, with the start lock free, only by a start that could not spawn its owner. */
  lemma LeftStartingByFailedSpawn(ws: seq<World>, sts: seq<Step>, k: nat)
    requires ExclusiveRun(ws, sts) && k < |ws| && ws[k].startLock.None? && IsStarting(ws[k].disk)
    ensures Abandoned(ws[k].actors, ws[k].disk.value.generation)
  {
    var w := ws[k];
    Always(ws, sts, k);
    AlwaysDisk(ws, sts, k);
    var s :| s in w.actors && Accounts(w.actors[s], w.disk.value.generation);
    assert ActorLocks(s, w.actors[s], w.startLock, w.statusLock);
  }

  predicate IsSpawnError(st: Step, a: nat) {
    st == Start(a, SpawnError)
  }

  /** So whenever nobody holds the start lock, and no spawn has failed, no run is left Starting. */
  lemma NeverLeftStarting(ws: seq<World>, sts: seq<Step>, k: nat)
    requires ExclusiveRun(ws, sts) && k < |ws| && ws[k].startLock.None?
    requires forall i, a | 0 <= i < k :: !IsSpawnError(sts[i], a)
    ensures !IsStarting(ws[k].disk)
  {
    if IsStarting(ws[k].disk) {
      LeftStartingByFailedSpawn(ws, sts, k);
      var s :| s in ws[k].actors && LeftRun(ws[k].actors[s]);
      AnswersAreSettled(ws, sts, k, s, StartDone(NotSpawned));
      var i: nat :| i < k && SettlesAt(ws, sts, i, s, StartDone(NotSpawned));
      assert IsSpawnError(sts[i], s);
    }
  }

  /** With the start lock free, the record is Starting exactly if its run was abandoned and nobody has stopped it. */
  lemma LeftStartingExactly(ws: seq<World>, sts: seq<Step>, k: nat)
    requires AdoptingRun(ws, sts) && k < |ws| && ws[k].startLock.None? && ws[k].disk.Some?
    ensures IsStarting(ws[k].disk)
            <==> Abandoned(ws[k].actors, ws[k].disk.value.generation) && !ws[k].disk.value.status.Stopped?
  {
    var w := ws[k];
    if IsStarting(w.disk) { LeftStartingByFailedSpawn(ws, sts, k); }
    if Abandoned(w.actors, w.disk.value.generation) {
      AlwaysBearers(ws, sts, k);
      var s :| s in w.actors && LeftRun(w.actors[s]) && w.actors[s].gen == w.disk.value.generation;
      assert Ownerless(w.actors[s]);
    }
  }

  /**
   When a start that got as far as its own run returns, the record it reports was
   on disk at some moment of the run. It reports success only after seeing its run
   Running, or Stopped with exit code 0, and reports a failed or timed-out start
   only with its run's record Stopped.
   */
  lemma StartResults(ws: seq<World>, sts: seq<Step>, i: nat)
    requires ExclusiveRun(ws, sts) && i < |sts|
    requires sts[i].Start? && sts[i].start.DoUnlock?
    ensures var x := ws[i].actors[sts[i].a];
            var r := x.pc.result;
            && ws[i + 1].actors[sts[i].a].pc == Done(StartDone(r))
            && (Reported(x.pc).Some? ==> WasOnDisk(ws, i, Reported(x.pc).value))
            && (r.Ready? ==>
                  && r.seen.generation == x.gen
                  && (r.seen.status.Running? || (r.seen.status.Stopped? && r.seen.exitCode == Some(0)))
                  && DiskFollows(Some(r.seen), ws[i].disk))
            && (r.StoppedWhileStarting? ==> r.seen.status.Stopped? && r.seen.exitCode != Some(0))
            && (r.StoppedWhileStarting? || r.TimedOut? ==>
                  AtRun(ws[i].disk, x.gen) && ws[i].disk.value.status.Stopped?)
  {
    var x := ws[i].actors[sts[i].a];
    AlwaysDisk(ws, sts, i);
    ReportIsTrue(x, ws[i].disk);
    if Reported(x.pc).Some? { ReportsWereOnDisk(ws, sts, i, sts[i].a, x.pc.result); }
  }

  lemma ReportIsTrue(x: Actor, disk: Option<Record>)
    requires ActorDisk(x, disk) && x.role.Starter? && x.pc.UnlockStart?
    ensures var r := x.pc.result;
            && (r.Ready? ==>
                  && r.seen.generation == x.gen
                  && (r.seen.status.Running? || (r.seen.status.Stopped? && r.seen.exitCode == Some(0)))
                  && DiskFollows(Some(r.seen), disk))
            && (r.StoppedWhileStarting? ==> r.seen.status.Stopped? && r.seen.exitCode != Some(0))
            && (r.StoppedWhileStarting? || r.TimedOut? ==> AtRun(disk, x.gen) && disk.value.status.Stopped?)
  {
  }

  /** The record a start is about to report. */
  function Reported(pc: Pc): Option<Record> {
    match pc
    case UnlockStart(Ready(m)) => Some(m)
    case UnlockStart(StoppedWhileStarting(m)) => Some(m)
    case _ => None
  }

  ghost predicate WasOnDisk(ws: seq<World>, i: nat, m: Record) {
    exists j: nat | j < |ws| && j <= i :: ws[j].disk == Some(m)
  }

  lemma ReportsWereOnDisk(ws: seq<World>, sts: seq<Step>, k: nat, a: nat, r: StartResult)
    requires Run(ws, sts) && k < |ws| && AnswersAt(ws[k], a, StartDone(r)) && (r.Ready? || r.StoppedWhileStarting?)
    ensures WasOnDisk(ws, k, r.seen)
  {
    AnswersAreSettled(ws, sts, k, a, StartDone(r));
    var i: nat :| i < k && SettlesAt(ws, sts, i, a, StartDone(r));
    assert ws[i].disk == Some(r.seen);
  }

  /** An owner of run `gen` whose child or supervisor process still exists. */
  predicate HasProcess(x: Actor, gen: nat, procs: Procs) {
    && x.role.Owner? && x.gen == gen
    && (|| (x.child.Some? && Present(procs, x.child.value))
        || (x.supervisor.Some? && Present(procs, x.supervisor.value)))
  }

  /** A start is refused as already running only while a process of the Running run it found exists. */
  lemma RefusedStartsFoundALiveRun(ws: seq<World>, sts: seq<Step>, i: nat)
    requires ReadableRun(ws, sts) && i < |sts| && sts[i].Start? && sts[i].start.DoCheck?
    requires ws[i + 1].actors[sts[i].a].pc == UnlockStart(AlreadyRunning)
    ensures var m := ws[i].actors[sts[i].a].pc.found;
            && m.status.Running?
            && exists o | o in ws[i].actors :: HasProcess(ws[i].actors[o], m.generation, ws[i].procs)
  {
    var w := ws[i];
    Always(ws, sts, i);
    AlwaysGuarded(ws, sts, i);
    assert ActorNames(w.actors, w.actors[sts[i].a]) && CarriesGuarded(w.actors[sts[i].a]);
    var m := w.actors[sts[i].a].pc.found;
    if PidIsOurs(w.procs, true, SupervisorClaim(m)) {
      var i := Ident(m.supervisorPid.value, m.supervisorToken.value);
      var o :| o in w.actors && OwnsSupervisor(w.actors[o], m.generation, i);
      assert HasProcess(w.actors[o], m.generation, w.procs);
    } else {
      var o :| o in w.actors && OwnsChild(w.actors[o], m.generation, Ident(m.childPid.value, m.childToken.value));
      assert HasProcess(w.actors[o], m.generation, w.procs);
    }
  }

  // ------------------------------------------------------------- stopping

  /** Once a run is stopped or replaced it stays so. */
  lemma SettledForGood(ws: seq<World>, sts: seq<Step>, i: nat, j: nat, g: nat)
    requires ExclusiveRun(ws, sts) && i <= j < |ws| && Settled(ws[i].disk, g)
    ensures Settled(ws[j].disk, g) && !RunningAt(ws[j].disk, g)
  {
    RecordsOnlyMoveForward(ws, sts, i, j);
  }

  /** A stop that returned Ok on a snapshot of run g: from then on g is Stopped or a newer run is on disk. */
  lemma StopSettles(ws: seq<World>, sts: seq<Step>, i: nat, j: nat, a: nat)
    requires ExclusiveRun(ws, sts) && i <= j < |ws|
    requires a in ws[i].actors && ws[i].actors[a].pc == Done(StopOk)
    ensures Settled(ws[j].disk, ws[i].actors[a].gen) && !RunningAt(ws[j].disk, ws[i].actors[a].gen)
    ensures ws[i].actors[a].seen.Some? ==> ws[i].actors[a].seen.value.generation == ws[i].actors[a].gen
  {
    AlwaysDisk(ws, sts, i);
    assert ActorDisk(ws[i].actors[a], ws[i].disk);
    SettledForGood(ws, sts, i, j, ws[i].actors[a].gen);
  }

  /** When a stop saves its Stopped record, the child named in its snapshot is dead and reaped. */
  lemma StopKillsFirst(ws: seq<World>, sts: seq<Step>, i: nat, a: nat)
    requires ReadableRun(ws, sts) && i < |sts| && sts[i] == Lock(a, DoSave)
    requires ws[i].actors[a].role.Stopper? && ws[i].actors[a].seen.Some?
    requires ws[i].actors[a].seen.value.childToken.Some?
    ensures Gone(ws[i].procs, ws[i].actors[a].seen.value.childToken.value)
  {
    AlwaysDead(ws, sts, i);
    assert ChildDead(ws[i].actors[a], ws[i].procs);
  }

  /**
   If moreover the snapshot said Running, that child is the one the run's only
   owner spawned: a stop never marks a running session Stopped over a live child.
   */
  lemma StopOfRunningKillsOwnersChild(ws: seq<World>, sts: seq<Step>, i: nat, a: nat, o: nat)
    requires OrderlyRun(ws, sts) && i < |sts| && sts[i] == Lock(a, DoSave)
    requires ws[i].actors[a].role.Stopper? && ws[i].actors[a].seen.Some?
    requires ws[i].actors[a].seen.value.status.Running?
    requires o in ws[i].actors && ws[i].actors[o].role.Owner? && ws[i].actors[o].gen == ws[i].actors[a].gen
    ensures ws[i].actors[o].child.Some? && Gone(ws[i].procs, ws[i].actors[o].child.value.token)
  {
    AlwaysFifo(ws, sts, i);
    SnapshotNamesOwner(ws[i], a, o);
    StopKillsFirst(ws, sts, i, a);
  }

  /** The child in a Running snapshot is that of the run's one owner. */
  lemma SnapshotNamesOwner(w: World, a: nat, o: nat)
    requires Base(w) && FifoInv(w) && a in w.actors && w.actors[a].seen.Some? && w.actors[a].seen.value.status.Running?
    requires o in w.actors && w.actors[o].role.Owner? && w.actors[o].gen == w.actors[a].gen
    ensures var m := w.actors[a].seen.value;
            && m.childPid.Some? && m.childToken.Some?
            && w.actors[o].child == Some(Ident(m.childPid.value, m.childToken.value))
  {
    var x := w.actors[a];
    assert ActorFifo(x, w.disk, w.fifo) && ActorNames(w.actors, x) && ActorDisk(x, w.disk);
    var m := x.seen.value;
    var b :| b in w.actors && OwnsChild(w.actors[b], m.generation, Ident(m.childPid.value, m.childToken.value));
    assert Bearer(w.actors[b]) && Bearer(w.actors[o]);
  }

  /** An owner that can no longer promote its run. */
  predicate Doomed(x: Actor) {
    && x.role.Owner?
    && (|| x.pc.SpawnChild? || x.pc.OpenFifo? || x.pc.KillChild? || x.pc.ReapChild? || x.pc.Done? || x.pc.Dead?
        || (x.pc.Section? && (x.pc.job.RecordChild? || x.pc.job.MarkStopped?))
        || (x.pc.Section? && x.pc.job.Adopt? && (x.pc.stage.Save? || x.pc.stage.Release?))
        || (x.pc.Section? && x.pc.job.Promote?
            && (x.pc.stage.Acquire? || x.pc.stage.Load? || x.pc.stage == Release(false))))
  }

  /** Owner `o` of run `g` can no longer promote it. */
  predicate DoomedAt(actors: map<nat, Actor>, o: nat, g: nat) {
    o in actors && Doomed(actors[o]) && actors[o].gen == g
  }

  lemma DoomedStep(w: World, st: Step, o: nat, g: nat)
    requires Enabled(w, st) && DoomedAt(w.actors, o, g) && Settled(w.disk, g)
    ensures DoomedAt(Apply(w, st).actors, o, g)
  {
    if Mover(st) != Some(o) {
      OthersStay(w, st, o);
    } else {
      match st
      case Lock(_, s) => DoomedSection(w, o, s, g);
      case Own(_, s) => DoomedOwner(w, o, s, g);
    }
  }

  lemma DoomedSection(w: World, o: nat, s: SectionStep, g: nat)
    requires SectionEnabled(w, o, s) && DoomedAt(w.actors, o, g) && Settled(w.disk, g)
    ensures DoomedAt(SectionApply(w, o, s).actors, o, g)
  {
  }

  lemma DoomedOwner(w: World, o: nat, s: OwnerStep, g: nat)
    requires OwnerEnabled(w, o, s) && DoomedAt(w.actors, o, g)
    ensures DoomedAt(OwnerApply(w, o, s).actors, o, g)
  {
  }

  /**
   If run g is stopped, or replaced, once its owner is bound to it and before that
   owner's promote section has looked at the record, then g is never Running again and its owner never serves: it
   goes down the error path, for all continuations of the run.
   */
  lemma {:induction false} StoppedRunsAreNotResurrected(
    ws: seq<World>, sts: seq<Step>, i: nat, j: nat, o: nat, g: nat)
    requires ExclusiveRun(ws, sts) && i <= j < |ws|
    requires DoomedAt(ws[i].actors, o, g) && Settled(ws[i].disk, g)
    ensures DoomedAt(ws[j].actors, o, g) && Settled(ws[j].disk, g) && !RunningAt(ws[j].disk, g)
    decreases j
  {
    SettledForGood(ws, sts, i, j, g);
    if i < j {
      StoppedRunsAreNotResurrected(ws, sts, i, j - 1, o, g);
      DoomedStep(ws[j - 1], sts[j - 1], o, g);
    }
  }

  /** On every exit path a finished owner has closed its FIFO and waited for its child, whose token never comes back. */
  lemma FinishedOwnersHaveReaped(ws: seq<World>, sts: seq<Step>, k: nat, o: nat)
    requires Run(ws, sts) && k < |ws|
    requires o in ws[k].actors && ws[k].actors[o].role.Owner? && ws[k].actors[o].pc.Done?
    ensures ws[k].actors[o].reader.None?
    ensures ws[k].actors[o].child.Some? ==>
              ws[k].actors[o].reaped && Gone(ws[k].procs, ws[k].actors[o].child.value.token)
  {
    Always(ws, sts, k);
    AlwaysFits(ws, sts, k);
    assert ActorProcs(ws[k].actors[o], ws[k].procs, ws[k].nextToken) && FitsDisk(ws[k].actors[o], ws[k].disk);
  }

  // -------------------------------------------------------------- identity

  /** In every reachable record the child's pid and token appear together and name an owner's child. */
  lemma RecordsNameOwnChildren(ws: seq<World>, sts: seq<Step>, k: nat)
    requires Run(ws, sts) && k < |ws| && ws[k].disk.Some?
    ensures Named(ws[k].actors, ws[k].disk.value)
  {
    Always(ws, sts, k);
  }

  /** Some owner of run `gen` spawned the child `i`. */
  ghost predicate IsChildOf(actors: map<nat, Actor>, gen: nat, i: Ident) {
    exists o | o in actors :: OwnsChild(actors[o], gen, i)
  }

  /** Some owner of run `gen` is the supervisor process `i`. */
  ghost predicate IsSupervisorOf(actors: map<nat, Actor>, gen: nat, i: Ident) {
    exists o | o in actors :: OwnsSupervisor(actors[o], gen, i)
  }

  /**
   Whenever a stop or a timed-out start signals the child of its snapshot, or a
   supervisor recorded with a token, the process that holds the pid, if any, is
   the child or the supervisor of an owner of the snapshot's run.
   */
  lemma SignalsHitOwnProcess(ws: seq<World>, sts: seq<Step>, i: nat)
    requires NoRecyclingRun(ws, sts) && i < |sts| && Signals(sts[i])
    ensures var x := ws[i].actors[sts[i].a];
            var c, gen := x.pc.claim, if x.seen.Some? then x.seen.value.generation else 0;
            && x.seen.Some? && c.pid.Some?
            && (c == ChildClaim(x.seen.value) || c == SupervisorClaim(x.seen.value))
            && (c == ChildClaim(x.seen.value) ==> c.token.Some?)
            && (c.pid.value in ws[i].procs && c.token.Some? ==>
                  var held := Ident(c.pid.value, ws[i].procs[c.pid.value].token);
                  && (c == ChildClaim(x.seen.value) ==> IsChildOf(ws[i].actors, gen, held))
                  && (c == SupervisorClaim(x.seen.value) ==> IsSupervisorOf(ws[i].actors, gen, held)))
  {
    var w := ws[i];
    Always(ws, sts, i);
    AlwaysOnTarget(ws, sts, i);
    assert ActorNames(w.actors, w.actors[sts[i].a]) && OnTarget(w.actors[sts[i].a], w.procs);
  }

  /** If start times can be read, that holds of every signal, because no supervisor is recorded without its token. */
  lemma EverySignalHitsOwnProcess(ws: seq<World>, sts: seq<Step>, i: nat)
    requires NoRecyclingRun(ws, sts) && ReadableRun(ws, sts) && i < |sts| && Signals(sts[i])
    ensures var x := ws[i].actors[sts[i].a];
            var c := x.pc.claim;
            && c.pid.Some? && x.seen.Some?
            && (c.pid.value in ws[i].procs ==>
                  var held := Ident(c.pid.value, ws[i].procs[c.pid.value].token);
                  || IsChildOf(ws[i].actors, x.seen.value.generation, held)
                  || IsSupervisorOf(ws[i].actors, x.seen.value.generation, held))
  {
    AlwaysGuarded(ws, sts, i);
    SignalsHitOwnProcess(ws, sts, i);
    assert CarriesGuarded(ws[i].actors[sts[i].a]);
  }

  // ------------------------------------------------------------------ input

  /**
   While the disk says Running and the run's child has not been reaped, the run's
   owner holds the FIFO open unless it was killed or its own set-up or forwarding
   has failed, and then what it holds is the FIFO that senders find.
   */
  lemma OwnerHoldsFifo(ws: seq<World>, sts: seq<Step>, k: nat, o: nat)
    requires OrderlyRun(ws, sts) && k < |ws| && o in ws[k].actors && ws[k].actors[o].role.Owner?
    requires RunningAt(ws[k].disk, ws[k].actors[o].gen) && ws[k].actors[o].child.Some? && !ws[k].actors[o].reaped
    ensures ws[k].actors[o].reader.Some? <==> !ws[k].actors[o].failed && !ws[k].actors[o].pc.Dead?
    ensures ws[k].actors[o].reader.Some? ==> ws[k].actors[o].reader == ws[k].fifo && ws[k].HasReader()
  {
    var w := ws[k];
    AlwaysFifo(ws, sts, k);
    assert ActorFifo(w.actors[o], w.disk, w.fifo) && ActorProcs(w.actors[o], w.procs, w.nextToken);
  }

  /** Actor `a`'s set-up after promotion, or its input forwarding, fails. */
  predicate OwnerFails(st: Step, a: nat) {
    st.Own? && st.a == a && (st.own.ServeFails? || st.own.ForwarderFails?)
  }

  lemma {:induction false} NobodyFailed(ws: seq<World>, sts: seq<Step>, k: nat, a: nat)
    requires Run(ws, sts) && k < |ws| && a in ws[k].actors
    requires forall i | 0 <= i < k :: !OwnerFails(sts[i], a)
    ensures !ws[k].actors[a].failed
  {
    if k > 0 {
      if a in ws[k - 1].actors { NobodyFailed(ws, sts, k - 1, a); }
      FailedStep(ws[k - 1], sts[k - 1], a);
    }
  }

  lemma FailedStep(w: World, st: Step, a: nat)
    requires Enabled(w, st) && !OwnerFails(st, a) && a in Apply(w, st).actors
    requires a in w.actors ==> !w.actors[a].failed
    ensures !Apply(w, st).actors[a].failed
  {
    if Mover(st) != Some(a) {
      OthersStay(w, st, a);
    } else {
      match st
      case Start(_, s) => FailedStart(w, a, s);
      case Lock(_, s) =>
      case Own(_, s) => FailedOwner(w, a, s);
      case Terminate(_, s) =>
      case Visit(_, s) =>
    }
  }

  lemma FailedStart(w: World, a: nat, s: StartStep)
    requires StartEnabled(w, a, s) && !w.actors[a].failed
    ensures !StartApply(w, a, s).actors[a].failed
  {
  }

  lemma FailedOwner(w: World, a: nat, s: OwnerStep)
    requires OwnerEnabled(w, a, s) && !s.ServeFails? && !s.ForwarderFails? && !w.actors[a].failed
    ensures !OwnerApply(w, a, s).actors[a].failed
  {
  }

  /**
   A send that opens the FIFO while the run on disk is Running with its child
   unreaped always finds a reader, however starts, stops and owners interleave,
   unless that run's own owner has failed or was killed.
   */
  lemma SendFindsReader(ws: seq<World>, sts: seq<Step>, i: nat, a: nat, o: nat)
    requires OrderlyRun(ws, sts) && i < |sts| && sts[i] == Visit(a, OpenToSend)
    requires forall k | 0 <= k < i :: !OwnerFails(sts[k], o)
    requires o in ws[i].actors && Live(ws[i].actors[o], ws[i].disk)
    ensures ws[i + 1].actors[a].pc == Done(Sent)
  {
    NobodyFailed(ws, sts, i, o);
    OwnerHoldsFifo(ws, sts, i, o);
  }
}
