/**
 What the metadata file can hold while the actors run, provided that
 `initialize_session_files` never saves between another section's load and save.
 */
module LifecycleDisk {
  import opened Wrappers
  import opened Metadata
  import opened Lifecycle
  import opened LifecycleLocks

  /** `next` is what the section's job makes of the loaded record `m`. */
  predicate Writes(job: Job, gen: nat, m: Record, next: Record) {
    match job
    case Adopt(p) =>
      m.generation == gen && next == m.(supervisorPid := Some(p), supervisorToken := next.supervisorToken)
    case RecordChild(_) =>
      RunIsLive(m, gen) && next == m.(childPid := next.childPid, childToken := next.childToken)
    case Promote => RunIsLive(m, gen) && next == m.(status := Running)
    case MarkStopped(text, code) =>
      RunIsLive(m, gen) && next == m.(status := Stopped, exitStatus := Some(text), exitCode := code)
  }

  /** A starter that has picked a generation it has not saved yet. */
  predicate Preparing(x: Actor) {
    x.role.Starter? && (x.pc.RemoveFifo? || x.pc.MakeFifo? || x.pc.SaveFresh?)
  }

  /** A starter whose run is on disk and who has not released the start lock. */
  predicate Waiting(x: Actor) {
    && x.role.Starter?
    && (|| x.pc.SpawnOwner? || x.pc.Poll? || x.pc.LookLast? || x.pc.Aim? || x.pc.Hit? || x.pc.Section?
        || (x.pc.UnlockStart? && HadRun(x.pc.result)))
  }

  /** The outcomes of a start that had initialised a run. */
  predicate HadRun(r: StartResult) {
    r.Ready? || r.StoppedWhileStarting? || r.TimedOut? || r.NotSpawned?
  }

  /** A start that returned without ever spawning an owner for its run. */
  predicate LeftRun(x: Actor) {
    x.role.Starter? && x.pc == Done(StartDone(NotSpawned))
  }

  /** A start of run `gen` that still waits for it, or has left it without an owner. */
  predicate Accounts(x: Actor, gen: nat) {
    x.gen == gen && (Waiting(x) || LeftRun(x))
  }

  ghost predicate Accounted(actors: map<nat, Actor>, gen: nat) {
    exists s | s in actors :: Accounts(actors[s], gen)
  }

  predicate IsStarting(disk: Option<Record>) {
    disk.Some? && disk.value.status.Starting?
  }

  /** A starter about to report `r`: the record it saw, and what the file still says about its run. */
  predicate Reports(r: StartResult, gen: nat, disk: Option<Record>) {
    match r
    case Ready(m) => m.generation == gen && Verdict(m) == Some(r) && DiskFollows(Some(m), disk)
    case StoppedWhileStarting(m) => m.generation == gen && Verdict(m) == Some(r) && DiskFollows(Some(m), disk)
    case TimedOut => Settled(disk, gen)
    case _ => true
  }

  predicate ActorDisk(x: Actor, disk: Option<Record>) {
    && (Saving(x) ==> disk.Some? && Writes(x.pc.job, x.gen, disk.value, x.pc.stage.next))
    && (x.role.Owner? ==> disk.Some? && x.gen <= disk.value.generation && x.home <= disk.value.generation)
    && (x.seen.Some? ==> x.seen.value.generation == x.gen && DiskFollows(x.seen, disk))
    && (x.role.Owner? ==> x.seen.None?)
    && (x.role.Starter? && x.seen.Some? ==> Waiting(x) || x.pc.Done?)
    && ((x.pc.Aim? || x.pc.Hit? || (x.pc.Section? && !x.role.Owner?)) ==> x.seen.Some?)
    && (x.pc.Section? && x.pc.job.MarkStopped? && x.pc.stage.Release? ==> Settled(disk, x.gen))
    && (x.pc == Done(OwnerDone) || x.pc == Done(StopOk) ==> Settled(disk, x.gen))
    && (x.role.Starter? && x.pc.CheckActive? ==>
          && disk.Some?
          && x.pc.found.generation == disk.value.generation
          && Follows(x.pc.found, disk.value))
    && (Preparing(x) ==> x.gen == NextGeneration(disk))
    && (Waiting(x) ==> disk.Some? && x.gen == disk.value.generation)
    && (x.role.Starter? && x.pc.UnlockStart? ==> Reports(x.pc.result, x.gen, disk))
    && (LeftRun(x) ==> disk.Some? && x.gen <= disk.value.generation)
  }

  ghost predicate DiskInv(w: World) {
    && (IsStarting(w.disk) ==> Accounted(w.actors, w.disk.value.generation))
    && forall a | a in w.actors :: ActorDisk(w.actors[a], w.disk)
  }

  lemma WritesFollow(job: Job, gen: nat, m: Record, next: Record)
    requires Writes(job, gen, m, next)
    ensures Follows(m, next) && m.generation == next.generation == gen
  {
  }

  /** An actor outside the mover's section keeps its part when a section saves. */
  lemma KeepsSave(x: Actor, m: Record, next: Record)
    requires ActorDisk(x, Some(m)) && !Saving(x)
    requires Follows(m, next) && m.generation == next.generation
    ensures ActorDisk(x, Some(next))
  {
  }

  /** An actor without the start lock keeps its part when a new run is initialised. */
  lemma KeepsFresh(x: Actor, disk: Option<Record>)
    requires ActorDisk(x, disk) && !Saving(x) && !HoldsStart(x)
    ensures ActorDisk(x, Some(Fresh(NextGeneration(disk))))
  {
  }

  lemma DiskStep(w: World, st: Step)
    requires LockInv(w) && DiskInv(w) && Enabled(w, st) && InitExclusive(w, st)
    ensures DiskInv(Apply(w, st))
  {
    match st
    case Start(a, s) => DiskStart(w, a, s);
    case Lock(a, s) => DiskSection(w, a, s);
    case Own(a, s) => DiskOwner(w, a, s);
    case Terminate(a, s) => DiskKill(w, a, s);
    case Visit(a, s) => DiskVisit(w, a, s);
    case System(s) => DiskSystem(w, s);
  }

  /** The run on disk stays accounted for if each actor goes on accounting for it. */
  lemma StillAccounted(before: map<nat, Actor>, after: map<nat, Actor>, disk: Option<Record>)
    requires IsStarting(disk) ==> Accounted(before, disk.value.generation)
    requires IsStarting(disk) ==>
               forall s | s in before && Accounts(before[s], disk.value.generation) ::
                 s in after && Accounts(after[s], disk.value.generation)
    ensures IsStarting(disk) ==> Accounted(after, disk.value.generation)
  {
    if IsStarting(disk) {
      var s :| s in before && Accounts(before[s], disk.value.generation);
      assert Accounts(after[s], disk.value.generation);
    }
  }

  /** A step that leaves the file alone and keeps the mover's part. */
  ghost predicate DiskMove(w: World, a: nat, v: World) {
    && OnlyMoves(w, a, v) && v.disk == w.disk && ActorDisk(v.actors[a], w.disk)
    && (IsStarting(w.disk) && Accounts(w.actors[a], w.disk.value.generation)
        ==> Accounts(v.actors[a], w.disk.value.generation))
  }

  lemma DiskKeep(w: World, a: nat, v: World)
    requires DiskInv(w) && DiskMove(w, a, v)
    ensures DiskInv(v)
  {
    StillAccounted(w.actors, v.actors, w.disk);
    forall b | b in v.actors ensures ActorDisk(v.actors[b], v.disk) {
      assert ActorDisk(w.actors[b], w.disk);
    }
  }

  lemma DiskStart(w: World, a: nat, s: StartStep)
    requires LockInv(w) && DiskInv(w) && StartEnabled(w, a, s) && InitExclusive(w, Start(a, s))
    ensures DiskInv(StartApply(w, a, s))
  {
    assert ActorDisk(w.actors[a], w.disk);
    match s
    case DoSaveFresh => DiskFresh(w, a);
    case DoSpawn(o, p) => DiskSpawn(w, a, o, p);
    case DoPoll => PollMoves(w, a); DiskKeep(w, a, StartApply(w, a, s));
    case DoLookLast => LookLastMoves(w, a); DiskKeep(w, a, StartApply(w, a, s));
    case DoUnlock => UnlockMoves(w, a); DiskKeep(w, a, StartApply(w, a, s));
    case TryLock => TryLockMoves(w, a); DiskKeep(w, a, StartApply(w, a, s));
    case DoLookFirst => LookFirstMoves(w, a); DiskKeep(w, a, StartApply(w, a, s));
    case DoCheck(r) => CheckMoves(w, a, r); DiskKeep(w, a, StartApply(w, a, s));
    case DoReadGeneration => ReadMoves(w, a); DiskKeep(w, a, StartApply(w, a, s));
    case DoRemoveFifo => FifoMoves(w, a, s); DiskKeep(w, a, StartApply(w, a, s));
    case DoMakeFifo => FifoMoves(w, a, s); DiskKeep(w, a, StartApply(w, a, s));
    case _ => FailureMoves(w, a, s); DiskKeep(w, a, StartApply(w, a, s));
  }

  lemma PollMoves(w: World, a: nat)
    requires StartEnabled(w, a, DoPoll) && ActorDisk(w.actors[a], w.disk)
    ensures DiskMove(w, a, StartApply(w, a, DoPoll))
  {
  }

  lemma LookLastMoves(w: World, a: nat)
    requires StartEnabled(w, a, DoLookLast) && ActorDisk(w.actors[a], w.disk)
    ensures DiskMove(w, a, StartApply(w, a, DoLookLast))
  {
  }

  lemma UnlockMoves(w: World, a: nat)
    requires StartEnabled(w, a, DoUnlock) && ActorDisk(w.actors[a], w.disk)
    ensures DiskMove(w, a, StartApply(w, a, DoUnlock))
  {
  }

  lemma TryLockMoves(w: World, a: nat)
    requires StartEnabled(w, a, TryLock) && ActorDisk(w.actors[a], w.disk)
    ensures DiskMove(w, a, StartApply(w, a, TryLock))
  {
  }

  lemma LookFirstMoves(w: World, a: nat)
    requires StartEnabled(w, a, DoLookFirst) && ActorDisk(w.actors[a], w.disk)
    ensures DiskMove(w, a, StartApply(w, a, DoLookFirst))
  {
  }

  lemma CheckMoves(w: World, a: nat, readable: bool)
    requires StartEnabled(w, a, DoCheck(readable)) && ActorDisk(w.actors[a], w.disk)
    ensures DiskMove(w, a, StartApply(w, a, DoCheck(readable)))
  {
  }

  lemma ReadMoves(w: World, a: nat)
    requires StartEnabled(w, a, DoReadGeneration) && ActorDisk(w.actors[a], w.disk)
    ensures DiskMove(w, a, StartApply(w, a, DoReadGeneration))
  {
  }

  lemma FifoMoves(w: World, a: nat, s: StartStep)
    requires StartEnabled(w, a, s) && ActorDisk(w.actors[a], w.disk) && (s.DoRemoveFifo? || s.DoMakeFifo?)
    ensures DiskMove(w, a, StartApply(w, a, s))
  {
  }

  lemma FailureMoves(w: World, a: nat, s: StartStep)
    requires StartEnabled(w, a, s) && ActorDisk(w.actors[a], w.disk)
    requires s.RejectCommand? || s.InitFails? || s.SpawnError?
    ensures DiskMove(w, a, StartApply(w, a, s))
  {
  }

  lemma DiskSpawn(w: World, a: nat, o: nat, p: nat)
    requires DiskInv(w) && StartEnabled(w, a, DoSpawn(o, p))
    ensures DiskInv(StartApply(w, a, DoSpawn(o, p)))
  {
    var v := StartApply(w, a, DoSpawn(o, p));
    var u := w.Go(a, w.actors[a].(pc := Poll(0)));
    assert ActorDisk(w.actors[a], w.disk);
    SpawnMoves(w, a, o, p);
    DiskKeep(w, a, u);
    DiskJoin(u, o, v);
  }

  lemma SpawnMoves(w: World, a: nat, o: nat, p: nat)
    requires StartEnabled(w, a, DoSpawn(o, p)) && ActorDisk(w.actors[a], w.disk)
    ensures var u, v := w.Go(a, w.actors[a].(pc := Poll(0))), StartApply(w, a, DoSpawn(o, p));
            && DiskMove(w, a, u) && o in v.actors
            && v.disk == u.disk && v.actors == u.actors[o := v.actors[o]] && ActorDisk(v.actors[o], w.disk)
  {
  }

  lemma DiskJoin(u: World, o: nat, v: World)
    requires DiskInv(u) && o !in u.actors && o in v.actors
    requires v.disk == u.disk && v.actors == u.actors[o := v.actors[o]] && ActorDisk(v.actors[o], u.disk)
    ensures DiskInv(v)
  {
    forall b | b in v.actors ensures ActorDisk(v.actors[b], v.disk) {
      assert b in u.actors ==> ActorDisk(u.actors[b], u.disk);
    }
    StillAccounted(u.actors, v.actors, u.disk);
  }

  lemma DiskFresh(w: World, a: nat)
    requires LockInv(w) && DiskInv(w) && StartEnabled(w, a, DoSaveFresh) && InitExclusive(w, Start(a, DoSaveFresh))
    ensures DiskInv(StartApply(w, a, DoSaveFresh))
  {
    var v := StartApply(w, a, DoSaveFresh);
    assert ActorDisk(w.actors[a], w.disk) && ActorLocks(a, w.actors[a], w.startLock, w.statusLock);
    forall b | b in v.actors ensures ActorDisk(v.actors[b], v.disk) {
      assert ActorDisk(w.actors[b], w.disk);
      if b != a {
        MutualExclusion(w, a, b);
        KeepsFresh(w.actors[b], w.disk);
      }
    }
    assert Accounts(v.actors[a], v.disk.value.generation);
  }

  lemma DiskSection(w: World, a: nat, s: SectionStep)
    requires LockInv(w) && DiskInv(w) && SectionEnabled(w, a, s)
    ensures DiskInv(SectionApply(w, a, s))
  {
    match s
    case DoLoad(readable) => DiskLoad(w, a, readable);
    case DoSave => DiskSave(w, a);
    case _ => DiskEdge(w, a, s);
  }

  lemma DiskEdge(w: World, a: nat, s: SectionStep)
    requires DiskInv(w) && SectionEnabled(w, a, s) && (s.DoAcquire? || s.DoRelease?)
    ensures DiskInv(SectionApply(w, a, s))
  {
    assert ActorDisk(w.actors[a], w.disk);
    if s.DoAcquire? { AcquireMoves(w, a); } else { ReleaseMoves(w, a); }
    DiskKeep(w, a, SectionApply(w, a, s));
  }

  lemma AcquireMoves(w: World, a: nat)
    requires SectionEnabled(w, a, DoAcquire) && ActorDisk(w.actors[a], w.disk)
    ensures DiskMove(w, a, SectionApply(w, a, DoAcquire))
  {
  }

  lemma ReleaseMoves(w: World, a: nat)
    requires SectionEnabled(w, a, DoRelease) && ActorDisk(w.actors[a], w.disk)
    ensures DiskMove(w, a, SectionApply(w, a, DoRelease))
  {
  }

  lemma DiskLoad(w: World, a: nat, readable: bool)
    requires DiskInv(w) && SectionEnabled(w, a, DoLoad(readable))
    ensures DiskInv(SectionApply(w, a, DoLoad(readable)))
  {
    assert ActorDisk(w.actors[a], w.disk);
    LoadMoves(w, a, readable);
    DiskKeep(w, a, SectionApply(w, a, DoLoad(readable)));
  }

  lemma LoadMoves(w: World, a: nat, readable: bool)
    requires SectionEnabled(w, a, DoLoad(readable)) && ActorDisk(w.actors[a], w.disk)
    ensures DiskMove(w, a, SectionApply(w, a, DoLoad(readable)))
  {
  }

  lemma DiskSave(w: World, a: nat)
    requires LockInv(w) && DiskInv(w) && SectionEnabled(w, a, DoSave)
    ensures DiskInv(SectionApply(w, a, DoSave))
  {
    var v := SectionApply(w, a, DoSave);
    var x := w.actors[a];
    assert ActorDisk(x, w.disk);
    WritesFollow(x.pc.job, x.gen, w.disk.value, x.pc.stage.next);
    forall b | b in v.actors ensures ActorDisk(v.actors[b], v.disk) {
      assert ActorDisk(w.actors[b], w.disk);
      if b != a {
        MutualExclusion(w, a, b);
        KeepsSave(w.actors[b], w.disk.value, x.pc.stage.next);
      }
    }
    if IsStarting(v.disk) { StillAccounted(w.actors, v.actors, w.disk); }
  }

  lemma DiskOwner(w: World, a: nat, s: OwnerStep)
    requires DiskInv(w) && OwnerEnabled(w, a, s)
    ensures DiskInv(OwnerApply(w, a, s))
  {
    assert ActorDisk(w.actors[a], w.disk);
    OwnerMoves(w, a, s);
    DiskKeep(w, a, OwnerApply(w, a, s));
  }

  lemma OwnerMoves(w: World, a: nat, s: OwnerStep)
    requires OwnerEnabled(w, a, s) && ActorDisk(w.actors[a], w.disk)
    ensures DiskMove(w, a, OwnerApply(w, a, s))
  {
  }

  lemma DiskKill(w: World, a: nat, s: KillStep)
    requires DiskInv(w) && KillEnabled(w, a, s)
    ensures DiskInv(KillApply(w, a, s))
  {
    assert ActorDisk(w.actors[a], w.disk);
    KillMoves(w, a, s);
    DiskKeep(w, a, KillApply(w, a, s));
  }

  lemma KillMoves(w: World, a: nat, s: KillStep)
    requires KillEnabled(w, a, s) && ActorDisk(w.actors[a], w.disk)
    ensures DiskMove(w, a, KillApply(w, a, s))
  {
  }

  lemma DiskVisit(w: World, a: nat, s: VisitStep)
    requires DiskInv(w) && VisitEnabled(w, a, s)
    ensures DiskInv(VisitApply(w, a, s))
  {
    assert ActorDisk(w.actors[a], w.disk);
    VisitMoves(w, a, s);
    DiskKeep(w, a, VisitApply(w, a, s));
  }

  lemma VisitMoves(w: World, a: nat, s: VisitStep)
    requires VisitEnabled(w, a, s) && ActorDisk(w.actors[a], w.disk)
    ensures DiskMove(w, a, VisitApply(w, a, s))
  {
  }

  lemma DiskSystem(w: World, s: SystemStep)
    requires DiskInv(w) && SystemEnabled(w, s)
    ensures DiskInv(SystemApply(w, s))
  {
    var v := SystemApply(w, s);
    forall b | b in v.actors ensures ActorDisk(v.actors[b], v.disk) {
      assert b in w.actors ==> ActorDisk(w.actors[b], w.disk);
    }
    StillAccounted(w.actors, v.actors, w.disk);
  }
}
