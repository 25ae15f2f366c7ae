/**
 The input FIFO: while a run is Running and its child has not been reaped, the
 run's owner, unless it was killed, holds the current FIFO open. Besides the
 assumption on `initialize_session_files` this needs readable start times and
 supervisors that adopt the run of their own start.
 */
module LifecycleFifo {
  import opened Wrappers
  import opened Metadata
  import opened Lifecycle
  import opened LifecycleLocks
  import opened LifecycleDisk
  import opened LifecycleBearers
  import opened LifecycleProcs
  import opened LifecycleIdentity

  /** The owner of the Running run on disk, which was not killed and has not reaped its child. */
  predicate Live(x: Actor, disk: Option<Record>) {
    x.role.Owner? && !x.pc.Dead? && RunningAt(disk, x.gen) && x.child.Some? && !x.reaped
  }

  /** An owner that has not opened the FIFO. */
  predicate BeforeFifo(x: Actor) {
    || x.pc.SpawnChild? || x.pc.OpenFifo?
    || (x.pc.Section? && (x.pc.job.Adopt? || x.pc.job.RecordChild?))
  }

  /** An owner that has not promoted its run, and may never do so. */
  predicate Unpromoted(x: Actor) {
    || BeforeFifo(x)
    || (x.pc.Section? && x.pc.job.Promote? && x.pc.stage != Release(true))
    || ((x.pc.KillChild? || x.pc.ReapChild?) && !x.failed)
  }

  /** An owner whose child is in the record of its run, up to its promotion. */
  predicate ChildOnRecord(x: Actor) {
    || x.pc.OpenFifo?
    || (x.pc.Section? && x.pc.job.Promote?)
    || (x.pc.Section? && x.pc.job.RecordChild? && x.pc.stage == Release(true))
  }

  predicate NamesChild(m: Record, x: Actor) {
    x.child.Some? && ChildClaim(m) == Claim(Some(x.child.value.pid), Some(x.child.value.token))
  }

  predicate OwnerFifo(x: Actor, disk: Option<Record>, fifo: Option<nat>) {
    && (x.pc.Section? && x.pc.job.Adopt? && x.pc.stage.Release? ==> x.pc.stage.wrote)
    && (BeforeFifo(x) ==> x.reader.None? && !x.failed)
    && (x.pc.Section? && x.pc.job.Promote? ==> x.reader.Some? && !x.failed)
    && (x.pc.Serve? ==> (x.reader.Some? <==> !x.failed))
    && (x.pc.KillChild? || x.pc.ReapChild? || x.pc.Dead? ==> x.reader.None?)
    && (Unpromoted(x) ==> !RunningAt(disk, x.gen))
    && (x.pc.Section? && x.pc.job.RecordChild? && x.pc.stage.Save? ==> NamesChild(x.pc.stage.next, x))
    && (ChildOnRecord(x) && AtRun(disk, x.gen) ==> NamesChild(disk.value, x))
    && (x.reader.Some? && HasChild(x) && AtRun(disk, x.gen) && !disk.value.status.Stopped? ==> fifo == x.reader)
  }

  ghost predicate Idle(disk: Option<Record>, actors: map<nat, Actor>) {
    forall o | o in actors :: !Live(actors[o], disk)
  }

  /** A start that has found the session inactive and has not saved its own run yet. */
  predicate Clearing(x: Actor) {
    x.role.Starter? && (x.pc.ReadGeneration? || Preparing(x))
  }

  predicate ActorFifo(x: Actor, disk: Option<Record>, fifo: Option<nat>) {
    && (x.role.Owner? ==> OwnerFifo(x, disk, fifo))
    && (x.pc.CheckActive? && x.pc.found.status.Running? ==> x.pc.found.childPid.Some?)
    && (x.role.Starter? && x.pc.CheckActive? && x.pc.found.status.Starting? ==>
          !RunningAt(disk, x.pc.found.generation))
    && (x.seen.Some? && x.seen.value.status.Running? ==> x.seen.value.childPid.Some?)
  }

  /** Nobody clears the way for a new run while another is live. */
  predicate Compatible(x: Actor, y: Actor, disk: Option<Record>) {
    Clearing(x) ==> !Live(y, disk)
  }

  ghost predicate AllCompatible(actors: map<nat, Actor>, disk: Option<Record>) {
    forall a, b | a in actors && b in actors && a != b :: Compatible(actors[a], actors[b], disk)
  }

  ghost predicate AllFifo(actors: map<nat, Actor>, disk: Option<Record>, fifo: Option<nat>) {
    forall a | a in actors :: ActorFifo(actors[a], disk, fifo)
  }

  predicate NamesSome(disk: Option<Record>) {
    disk.Some? && disk.value.status.Running? ==> disk.value.childPid.Some?
  }

  ghost predicate FifoInv(w: World) {
    NamesSome(w.disk) && AllFifo(w.actors, w.disk, w.fifo) && AllCompatible(w.actors, w.disk)
  }

  /** Everything this proof assumes of a step. */
  ghost predicate Orderly(w: World, st: Step) {
    InitExclusive(w, st) && Readable(st) && AdoptsOwn(w, st)
  }

  ghost predicate Base(w: World) {
    LockInv(w) && DiskInv(w) && ProcInv(w) && NameInv(w) && BearerInv(w)
  }

  lemma FifoStep(w: World, st: Step)
    requires Base(w) && FifoInv(w) && Enabled(w, st) && Orderly(w, st)
    ensures FifoInv(Apply(w, st))
  {
    match st
    case Start(a, s) => FifoStart(w, a, s);
    case Lock(a, s) => FifoSection(w, a, s);
    case Own(a, s) => FifoOwner(w, a, s);
    case Terminate(a, s) => FifoKill(w, a, s);
    case Visit(a, s) => FifoVisit(w, a, s);
    case System(s) => FifoSystem(w, s);
  }

  /** What the mover `x`, now `y`, must keep when file and FIFO stay as they are. */
  predicate Keeps(x: Actor, y: Actor, disk: Option<Record>) {
    && (Clearing(y) ==> Clearing(x))
    && (Live(y, disk) ==> Live(x, disk))
  }

  lemma StillCompatible(actors: map<nat, Actor>, a: nat, y: Actor, disk: Option<Record>)
    requires AllCompatible(actors, disk) && a in actors
    requires Clearing(y) ==> Clearing(actors[a]) || Idle(disk, actors)
    requires Live(y, disk) ==> Live(actors[a], disk)
    ensures AllCompatible(actors[a := y], disk)
  {
    forall b, c | b in actors && c in actors && b != c
      ensures Compatible(actors[a := y][b], actors[a := y][c], disk)
    {
      assert Compatible(actors[b], actors[c], disk);
    }
  }

  /** A step that leaves file and FIFO alone only has to account for the mover. */
  lemma FifoKeep(w: World, a: nat, v: World)
    requires FifoInv(w) && OnlyMoves(w, a, v) && v.disk == w.disk && v.fifo == w.fifo
    requires ActorFifo(v.actors[a], w.disk, w.fifo) && Keeps(w.actors[a], v.actors[a], w.disk)
    ensures FifoInv(v)
  {
    StillCompatible(w.actors, a, v.actors[a], w.disk);
  }

  lemma FifoKill(w: World, a: nat, s: KillStep)
    requires FifoInv(w) && KillEnabled(w, a, s)
    ensures FifoInv(KillApply(w, a, s))
  {
    assert ActorFifo(w.actors[a], w.disk, w.fifo);
    KillKeepsFifo(w, a, s);
    FifoKeep(w, a, KillApply(w, a, s));
  }

  lemma KillKeepsFifo(w: World, a: nat, s: KillStep)
    requires KillEnabled(w, a, s)
    ensures var y := KillApply(w, a, s).actors[a];
            y == w.actors[a].(pc := y.pc) && (y.pc.Aim? || y.pc.Hit? || y.pc.Section? || y.pc == Done(StopFailed))
  {
  }

  lemma FifoVisit(w: World, a: nat, s: VisitStep)
    requires FifoInv(w) && VisitEnabled(w, a, s)
    ensures FifoInv(VisitApply(w, a, s))
  {
    assert ActorFifo(w.actors[a], w.disk, w.fifo);
    FifoKeep(w, a, VisitApply(w, a, s));
  }

  lemma FifoSystem(w: World, s: SystemStep)
    requires FifoInv(w) && SystemEnabled(w, s)
    ensures FifoInv(SystemApply(w, s))
  {
    var v := SystemApply(w, s);
    forall b, c | b in v.actors && c in v.actors && b != c ensures Compatible(v.actors[b], v.actors[c], v.disk) {
      if b in w.actors && c in w.actors { assert Compatible(w.actors[b], w.actors[c], w.disk); }
    }
  }

  // ------------------------------------------------------------------ owners

  lemma FifoOwner(w: World, a: nat, s: OwnerStep)
    requires ProcInv(w) && FifoInv(w) && OwnerEnabled(w, a, s)
    ensures FifoInv(OwnerApply(w, a, s))
  {
    assert ActorFifo(w.actors[a], w.disk, w.fifo) && ActorProcs(w.actors[a], w.procs, w.nextToken);
    if s.DoSpawnChild? || s.SpawnFails? || s.DoOpenFifo? || s.OpenFails? {
      OwnerBefore(w, a, s);
    } else if s.Killed? {
      OwnerKilled(w, a);
    } else {
      OwnerAfter(w, a, s);
    }
    FifoKeep(w, a, OwnerApply(w, a, s));
  }

  predicate OwnerKeeps(x: Actor, y: Actor, disk: Option<Record>, fifo: Option<nat>) {
    && y.role == x.role && y.gen == x.gen && y.seen == x.seen && !y.pc.CheckActive?
    && OwnerFifo(y, disk, fifo)
    && (Live(y, disk) ==> Live(x, disk))
  }

  lemma OwnerBefore(w: World, a: nat, s: OwnerStep)
    requires OwnerEnabled(w, a, s) && OwnerFifo(w.actors[a], w.disk, w.fifo)
    requires s.DoSpawnChild? || s.SpawnFails? || s.DoOpenFifo? || s.OpenFails?
    ensures OwnerKeeps(w.actors[a], OwnerApply(w, a, s).actors[a], w.disk, w.fifo)
  {
  }

  lemma OwnerKilled(w: World, a: nat)
    requires OwnerEnabled(w, a, Killed) && OwnerFifo(w.actors[a], w.disk, w.fifo)
    ensures OwnerKeeps(w.actors[a], OwnerApply(w, a, Killed).actors[a], w.disk, w.fifo)
  {
  }

  lemma OwnerAfter(w: World, a: nat, s: OwnerStep)
    requires OwnerEnabled(w, a, s) && OwnerFifo(w.actors[a], w.disk, w.fifo) && !s.Killed?
    requires !s.DoSpawnChild? && !s.SpawnFails? && !s.DoOpenFifo? && !s.OpenFails?
    ensures OwnerKeeps(w.actors[a], OwnerApply(w, a, s).actors[a], w.disk, w.fifo)
  {
  }

  // ---------------------------------------------------------------- starters

  lemma FifoStart(w: World, a: nat, s: StartStep)
    requires Base(w) && FifoInv(w) && StartEnabled(w, a, s) && Orderly(w, Start(a, s))
    ensures FifoInv(StartApply(w, a, s))
  {
    assert ActorFifo(w.actors[a], w.disk, w.fifo);
    match s
    case DoCheck(_) => FifoCheck(w, a);
    case DoRemoveFifo => FifoReplace(w, a, s);
    case DoMakeFifo => FifoReplace(w, a, s);
    case DoSaveFresh => FifoFresh(w, a);
    case DoSpawn(o, p) => FifoSpawn(w, a, o, p);
    case TryLock => TryLockFifo(w, a); FifoMoves(w, a, StartApply(w, a, s));
    case DoLookFirst => LookFirstFifo(w, a); FifoMoves(w, a, StartApply(w, a, s));
    case DoPoll => PollFifo(w, a); FifoMoves(w, a, StartApply(w, a, s));
    case DoLookLast => LookLastFifo(w, a); FifoMoves(w, a, StartApply(w, a, s));
    case _ => PrepareFifo(w, a, s); FifoMoves(w, a, StartApply(w, a, s));
  }

  /** A start's step that leaves file and FIFO alone and keeps the start's part. */
  ghost predicate FifoMove(w: World, a: nat, v: World) {
    && OnlyMoves(w, a, v) && v.disk == w.disk && v.fifo == w.fifo
    && ActorFifo(v.actors[a], w.disk, w.fifo) && v.actors[a].role.Starter?
    && (Clearing(v.actors[a]) ==> Clearing(w.actors[a]) || Idle(w.disk, w.actors))
  }

  lemma FifoMoves(w: World, a: nat, v: World)
    requires FifoInv(w) && FifoMove(w, a, v)
    ensures FifoInv(v)
  {
    StillCompatible(w.actors, a, v.actors[a], w.disk);
  }

  lemma TryLockFifo(w: World, a: nat)
    requires StartEnabled(w, a, TryLock) && ActorFifo(w.actors[a], w.disk, w.fifo)
    ensures FifoMove(w, a, StartApply(w, a, TryLock))
  {
  }

  lemma LookFirstFifo(w: World, a: nat)
    requires StartEnabled(w, a, DoLookFirst) && ActorFifo(w.actors[a], w.disk, w.fifo) && NamesSome(w.disk)
    ensures FifoMove(w, a, StartApply(w, a, DoLookFirst))
  {
  }

  lemma PollFifo(w: World, a: nat)
    requires StartEnabled(w, a, DoPoll) && ActorFifo(w.actors[a], w.disk, w.fifo)
    ensures FifoMove(w, a, StartApply(w, a, DoPoll))
  {
  }

  lemma LookLastFifo(w: World, a: nat)
    requires StartEnabled(w, a, DoLookLast) && ActorFifo(w.actors[a], w.disk, w.fifo) && NamesSome(w.disk)
    ensures FifoMove(w, a, StartApply(w, a, DoLookLast))
  {
  }

  lemma PrepareFifo(w: World, a: nat, s: StartStep)
    requires StartEnabled(w, a, s) && ActorFifo(w.actors[a], w.disk, w.fifo)
    requires s.DoReadGeneration? || s.RejectCommand? || s.InitFails? || s.SpawnError? || s.DoUnlock?
    ensures FifoMove(w, a, StartApply(w, a, s))
  {
  }

  /** While a start without a run of its own holds the lock, a Starting record has no owner. */
  lemma StartingHasNoOwner(w: World, a: nat, o: nat)
    requires LockInv(w) && BearerInv(w) && a in w.actors && o in w.actors
    requires IsStarting(w.disk) ==> Accounted(w.actors, w.disk.value.generation)
    requires HoldsStart(w.actors[a]) && !Waiting(w.actors[a]) && w.actors[o].role.Owner?
    ensures IsStarting(w.disk) ==> w.actors[o].gen != w.disk.value.generation
  {
    if IsStarting(w.disk) {
      var s :| s in w.actors && Accounts(w.actors[s], w.disk.value.generation);
      if s != a { MutualExclusion(w, a, s); }
      assert Bearer(w.actors[s]) && Bearer(w.actors[o]);
    }
  }

  /** A run found inactive has no live owner. */
  lemma InactiveIsIdle(w: World, a: nat)
    requires Base(w) && FifoInv(w) && StartEnabled(w, a, DoCheck(true))
    requires !SessionIsActive(w.procs, true, w.actors[a].pc.found)
    ensures Idle(w.disk, w.actors)
  {
    var m := w.actors[a].pc.found;
    assert ActorFifo(w.actors[a], w.disk, w.fifo) && ActorDisk(w.actors[a], w.disk);
    assert ActorNames(w.actors, w.actors[a]);
    FoundIsRunning(w.actors[a], w.disk, w.fifo);
    if RunningAt(w.disk, m.generation) {
      var i := Ident(m.childPid.value, m.childToken.value);
      var b :| b in w.actors && OwnsChild(w.actors[b], m.generation, i);
      ChildNotLive(w, b, m);
      forall o | o in w.actors ensures !Live(w.actors[o], w.disk) {
        if o != b && w.actors[o].role.Owner? { assert Bearer(w.actors[o]) && Bearer(w.actors[b]); }
      }
    }
  }

  lemma FoundIsRunning(x: Actor, disk: Option<Record>, fifo: Option<nat>)
    requires ActorFifo(x, disk, fifo) && ActorDisk(x, disk) && x.role.Starter? && x.pc.CheckActive?
    ensures disk.Some? && disk.value.generation == x.pc.found.generation
    ensures RunningAt(disk, x.pc.found.generation) ==> x.pc.found.status.Running? && x.pc.found.childPid.Some?
  {
  }

  lemma ChildNotLive(w: World, b: nat, m: Record)
    requires ProcInv(w) && b in w.actors && m.status.Running? && m.childPid.Some? && m.childToken.Some?
    requires OwnsChild(w.actors[b], m.generation, Ident(m.childPid.value, m.childToken.value))
    requires !SessionIsActive(w.procs, true, m)
    ensures !Live(w.actors[b], w.disk)
  {
    assert ActorProcs(w.actors[b], w.procs, w.nextToken);
  }

  lemma FifoCheck(w: World, a: nat)
    requires Base(w) && FifoInv(w) && StartEnabled(w, a, DoCheck(true))
    ensures FifoInv(StartApply(w, a, DoCheck(true)))
  {
    if SessionIsActive(w.procs, true, w.actors[a].pc.found) {
      FifoChecked(w, a, UnlockStart(AlreadyRunning));
    } else {
      InactiveIsIdle(w, a);
      FifoChecked(w, a, ReadGeneration);
    }
  }

  lemma FifoChecked(w: World, a: nat, pc: Pc)
    requires FifoInv(w) && a in w.actors && w.actors[a].role.Starter?
    requires pc == UnlockStart(AlreadyRunning) || (pc == ReadGeneration && Idle(w.disk, w.actors))
    ensures FifoInv(w.Go(a, w.actors[a].(pc := pc)))
  {
    assert ActorFifo(w.actors[a], w.disk, w.fifo);
    FifoMoves(w, a, w.Go(a, w.actors[a].(pc := pc)));
  }

  lemma FifoReplace(w: World, a: nat, s: StartStep)
    requires Base(w) && FifoInv(w) && StartEnabled(w, a, s) && (s.DoRemoveFifo? || s.DoMakeFifo?)
    ensures FifoInv(StartApply(w, a, s))
  {
    var v := StartApply(w, a, s);
    forall b | b in v.actors ensures ActorFifo(v.actors[b], v.disk, v.fifo) {
      assert ActorFifo(w.actors[b], w.disk, w.fifo);
      if w.actors[b].role.Owner? {
        StartingHasNoOwner(w, a, b);
        assert Compatible(w.actors[a], w.actors[b], w.disk);
        assert ActorProcs(w.actors[b], w.procs, w.nextToken);
        OwnerReplaced(w.actors[b], w.disk, w.fifo, v.fifo);
      }
    }
    StillCompatible(w.actors, a, v.actors[a], w.disk);
  }

  /** An owner that is not live, of a run that is not Starting, does not need the FIFO any more. */
  lemma OwnerReplaced(y: Actor, disk: Option<Record>, fifo: Option<nat>, fifo': Option<nat>)
    requires y.role.Owner? && OwnerFifo(y, disk, fifo) && !Live(y, disk)
    requires IsStarting(disk) ==> y.gen != disk.value.generation
    requires HasChild(y) ==> y.child.Some? && !y.reaped
    ensures OwnerFifo(y, disk, fifo')
  {
  }

  lemma FifoFresh(w: World, a: nat)
    requires LockInv(w) && DiskInv(w) && FifoInv(w) && StartEnabled(w, a, DoSaveFresh)
    ensures FifoInv(StartApply(w, a, DoSaveFresh))
  {
    var v := StartApply(w, a, DoSaveFresh);
    forall b | b in v.actors ensures ActorFifo(v.actors[b], v.disk, v.fifo) {
      assert ActorFifo(w.actors[b], w.disk, w.fifo);
      if w.actors[b].role.Owner? {
        OlderThanFresh(w, a, b);
        OwnerElsewhere(w.actors[b], w.disk, w.fifo, v.disk);
      }
    }
    forall b, c | b in v.actors && c in v.actors && b != c ensures Compatible(v.actors[b], v.actors[c], v.disk) {
      assert Compatible(w.actors[b], w.actors[c], w.disk);
      if b != a { OlderThanFresh(w, a, b); }
      if c != a { OlderThanFresh(w, a, c); }
    }
  }

  lemma FifoSpawn(w: World, a: nat, o: nat, p: nat)
    requires OwnerlessInv(w) && FifoInv(w) && StartEnabled(w, a, DoSpawn(o, p))
    ensures FifoInv(StartApply(w, a, DoSpawn(o, p)))
  {
    var v := StartApply(w, a, DoSpawn(o, p));
    SpawnedOwner(w, a, o, p);
    FifoHandOver(w, a, o, v.actors[o]);
    FifoSame(w.Go(a, w.actors[a].(pc := Poll(0))).Go(o, v.actors[o]), v);
  }

  lemma FifoSame(u: World, v: World)
    requires FifoInv(u) && v.disk == u.disk && v.fifo == u.fifo && v.actors == u.actors
    ensures FifoInv(v)
  {
  }

  lemma FifoHandOver(w: World, a: nat, o: nat, y: Actor)
    requires OwnerlessInv(w) && FifoInv(w) && a in w.actors && o !in w.actors && NewOwner(y, w.actors[a].gen)
    requires w.actors[a].role.Starter? && w.actors[a].pc.SpawnOwner?
    ensures FifoInv(w.Go(a, w.actors[a].(pc := Poll(0))).Go(o, y))
  {
    var v := w.Go(a, w.actors[a].(pc := Poll(0))).Go(o, y);
    assert ActorFifo(w.actors[a], w.disk, w.fifo) && Ownerless(w.actors[a]);
    forall b | b in v.actors ensures ActorFifo(v.actors[b], v.disk, v.fifo) {
      if b in w.actors { assert ActorFifo(w.actors[b], w.disk, w.fifo); }
    }
    forall b, c | b in v.actors && c in v.actors && b != c ensures Compatible(v.actors[b], v.actors[c], v.disk) {
      if b != o && c != o { assert Compatible(w.actors[b], w.actors[c], w.disk); }
    }
  }

  // ---------------------------------------------------------------- sections

  lemma FifoSection(w: World, a: nat, s: SectionStep)
    requires Base(w) && FifoInv(w) && SectionEnabled(w, a, s) && Orderly(w, Lock(a, s))
    ensures FifoInv(SectionApply(w, a, s))
  {
    match s
    case DoLoad(_) => FifoLoad(w, a);
    case DoSave => FifoSave(w, a);
    case _ => FifoEdge(w, a, s);
  }

  lemma FifoEdge(w: World, a: nat, s: SectionStep)
    requires FifoInv(w) && SectionEnabled(w, a, s) && (s.DoAcquire? || s.DoRelease?)
    ensures FifoInv(SectionApply(w, a, s))
  {
    assert ActorFifo(w.actors[a], w.disk, w.fifo);
    if w.actors[a].role.Owner? { OwnerEdge(w, a, s); } else { CallerEdge(w, a, s); }
    FifoKeep(w, a, SectionApply(w, a, s));
  }

  lemma OwnerEdge(w: World, a: nat, s: SectionStep)
    requires SectionEnabled(w, a, s) && (s.DoAcquire? || s.DoRelease?)
    requires w.actors[a].role.Owner? && OwnerFifo(w.actors[a], w.disk, w.fifo)
    ensures OwnerKeeps(w.actors[a], SectionApply(w, a, s).actors[a], w.disk, w.fifo)
  {
  }

  lemma CallerEdge(w: World, a: nat, s: SectionStep)
    requires SectionEnabled(w, a, s) && (s.DoAcquire? || s.DoRelease?) && !w.actors[a].role.Owner?
    ensures var y := SectionApply(w, a, s).actors[a];
            y.role == w.actors[a].role && y.seen == w.actors[a].seen && !Bearer(y) && !Clearing(y) && !y.pc.CheckActive?
  {
  }

  lemma FifoLoad(w: World, a: nat)
    requires Base(w) && FifoInv(w) && SectionEnabled(w, a, DoLoad(true)) && AdoptsOwn(w, Lock(a, DoLoad(true)))
    ensures FifoInv(SectionApply(w, a, DoLoad(true)))
  {
    var x := w.actors[a];
    assert ActorFifo(x, w.disk, w.fifo);
    if x.role.Owner? {
      assert ActorProcs(x, w.procs, w.nextToken) && ActorDisk(x, w.disk) && AtHome(x);
      OwnerLoads(w, a);
    }
    FifoKeep(w, a, SectionApply(w, a, DoLoad(true)));
  }

  lemma OwnerLoads(w: World, a: nat)
    requires SectionEnabled(w, a, DoLoad(true)) && AdoptsOwn(w, Lock(a, DoLoad(true)))
    requires w.actors[a].role.Owner? && OwnerFifo(w.actors[a], w.disk, w.fifo) && w.disk.Some?
    requires ActorProcs(w.actors[a], w.procs, w.nextToken) && AtHome(w.actors[a])
    ensures OwnerKeeps(w.actors[a], SectionApply(w, a, DoLoad(true)).actors[a], w.disk, w.fifo)
  {
  }

  /** An owner of some run other than the one on disk has nothing to lose. */
  lemma OwnerElsewhere(y: Actor, disk: Option<Record>, fifo: Option<nat>, disk': Option<Record>)
    requires OwnerFifo(y, disk, fifo) && !AtRun(disk', y.gen)
    ensures OwnerFifo(y, disk', fifo)
  {
  }

  /** Marking the run on disk Stopped relieves its owner. */
  lemma OwnerStopped(y: Actor, m: Record, fifo: Option<nat>, next: Record)
    requires OwnerFifo(y, Some(m), fifo)
    requires next.generation == m.generation && next.status.Stopped? && ChildClaim(next) == ChildClaim(m)
    ensures OwnerFifo(y, Some(next), fifo)
  {
  }

  lemma OwnerSaves(x: Actor, m: Record, fifo: Option<nat>, next: Record)
    requires x.role.Owner? && OwnerFifo(x, Some(m), fifo) && Saving(x) && x.pc.stage.next == next
    requires Writes(x.pc.job, x.gen, m, next)
    ensures OwnerFifo(x.(pc := Section(x.pc.job, Release(true))), Some(next), fifo)
  {
  }

  lemma FifoSave(w: World, a: nat)
    requires Base(w) && FifoInv(w) && SectionEnabled(w, a, DoSave)
    ensures FifoInv(SectionApply(w, a, DoSave))
  {
    var x := w.actors[a];
    assert ActorFifo(x, w.disk, w.fifo) && ActorDisk(x, w.disk);
    WritesFollow(x.pc.job, x.gen, w.disk.value, x.pc.stage.next);
    FifoSaved(w, a, w.disk.value, x.pc.stage.next, SectionApply(w, a, DoSave));
  }

  /** Actor `a` saves `next` over `m`. */
  ghost predicate Saves(w: World, a: nat, m: Record, next: Record) {
    && a in w.actors && Saving(w.actors[a]) && w.disk == Some(m)
    && (w.actors[a].role.Owner? || w.actors[a].pc.job.MarkStopped?)
    && next == w.actors[a].pc.stage.next && Writes(w.actors[a].pc.job, w.actors[a].gen, m, next)
  }

  lemma FifoSaved(w: World, a: nat, m: Record, next: Record, v: World)
    requires Base(w) && FifoInv(w) && Saves(w, a, m, next)
    requires v.disk == Some(next) && v.fifo == w.fifo
    requires v.actors == w.actors[a := Saved(w, a, a)]
    ensures FifoInv(v)
  {
    SavedNames(w, a, m, next);
    forall b | b in v.actors ensures ActorFifo(v.actors[b], v.disk, v.fifo) {
      SavedActor(w, a, b, m, next);
    }
    SavedPairs(w, a, m, next);
  }

  lemma SavedPairs(w: World, a: nat, m: Record, next: Record)
    requires Base(w) && FifoInv(w) && Saves(w, a, m, next)
    ensures AllCompatible(w.actors[a := Saved(w, a, a)], Some(next))
  {
    var after := w.actors[a := Saved(w, a, a)];
    forall b, c | b in after && c in after && b != c ensures Compatible(after[b], after[c], Some(next)) {
      SavedPair(w, a, b, c, m, next);
    }
  }

  lemma SavedNames(w: World, a: nat, m: Record, next: Record)
    requires FifoInv(w) && Saves(w, a, m, next)
    ensures NamesSome(Some(next))
  {
    assert ActorFifo(w.actors[a], w.disk, w.fifo);
  }

  /** Actor `b` after `a` has saved. */
  function Saved(w: World, a: nat, b: nat): Actor
    requires a in w.actors && b in w.actors && w.actors[a].pc.Section?
  {
    if b == a then w.actors[a].(pc := Section(w.actors[a].pc.job, Release(true))) else w.actors[b]
  }

  lemma SavedPair(w: World, a: nat, b: nat, c: nat, m: Record, next: Record)
    requires Base(w) && FifoInv(w) && Saves(w, a, m, next)
    requires b in w.actors && c in w.actors && b != c
    ensures Compatible(Saved(w, a, b), Saved(w, a, c), Some(next))
  {
    assert Compatible(w.actors[b], w.actors[c], w.disk);
    if Clearing(w.actors[b]) { PromotedWhileClearing(w, a, b, m, next); }
  }

  lemma SavedActor(w: World, a: nat, b: nat, m: Record, next: Record)
    requires Base(w) && FifoInv(w) && Saves(w, a, m, next) && b in w.actors
    ensures ActorFifo(Saved(w, a, b), Some(next), w.fifo)
  {
    assert ActorFifo(w.actors[b], w.disk, w.fifo);
    if w.actors[b].role.Owner? { SavedOwner(w, a, b, m, next); } else { SavedStarter(w, a, b, m, next); }
  }

  lemma SavedOwner(w: World, a: nat, b: nat, m: Record, next: Record)
    requires Base(w) && FifoInv(w) && Saves(w, a, m, next) && b in w.actors && w.actors[b].role.Owner?
    ensures OwnerFifo(Saved(w, a, b), Some(next), w.fifo)
  {
    var x := w.actors[a];
    assert ActorFifo(w.actors[b], w.disk, w.fifo);
    if b == a {
      OwnerSaves(x, m, w.fifo, next);
    } else if x.role.Owner? {
      assert Bearer(x) && Bearer(w.actors[b]);
      OwnerElsewhere(w.actors[b], w.disk, w.fifo, Some(next));
    } else {
      OwnerStopped(w.actors[b], m, w.fifo, next);
    }
  }

  /** A save makes no run Running that a start found Starting. */
  lemma SavedStarter(w: World, a: nat, b: nat, m: Record, next: Record)
    requires Base(w) && FifoInv(w) && Saves(w, a, m, next) && b in w.actors
    ensures w.actors[b].role.Starter? && w.actors[b].pc.CheckActive? && w.actors[b].pc.found.status.Starting? ==>
              !RunningAt(Some(next), w.actors[b].pc.found.generation)
  {
    var x, y := w.actors[a], w.actors[b];
    assert ActorFifo(y, w.disk, w.fifo);
    if next.status.Running? && !m.status.Running? {
      if y.role.Starter? && y.pc.CheckActive? { PromotedWhileClearing(w, a, b, m, next); }
    }
  }

  /** While a start without a run of its own holds the lock, nobody promotes the run on disk. */
  lemma PromotedWhileClearing(w: World, a: nat, b: nat, m: Record, next: Record)
    requires Base(w) && FifoInv(w) && Saves(w, a, m, next) && b in w.actors
    requires HoldsStart(w.actors[b]) && !Waiting(w.actors[b])
    ensures next.status.Running? ==> m.status.Running?
  {
    if w.actors[a].role.Owner? { StartingHasNoOwner(w, b, a); }
  }
}
