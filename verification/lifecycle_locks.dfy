/**
 What one step can touch, and who holds which lock.
 */
module LifecycleLocks {
  import opened Wrappers
  import opened Lifecycle

  // ------------------------------------------------------------------ frames

  /** Only `a` moved. */
  ghost predicate OnlyMoves(w: World, a: nat, v: World) {
    a in w.actors && a in v.actors && v.actors == w.actors[a := v.actors[a]]
  }

  /** The actor that takes a step. */
  function Mover(st: Step): Option<nat> {
    match st
    case Start(a, _) => Some(a)
    case Lock(a, _) => Some(a)
    case Own(a, _) => Some(a)
    case Terminate(a, _) => Some(a)
    case Visit(a, _) => Some(a)
    case System(_) => None
  }

  /** An actor that has just come into being. */
  predicate Newborn(y: Actor) {
    && y.seen.None? && y.child.None? && !y.reaped && y.reader.None? && !y.failed
    && (|| (y.role.Starter? && y.pc.LockStart?)
        || (y.role.Stopper? && y.pc.LookStop?)
        || (y.role.Sender? && y.pc.LookSend?)
        || (y.role.Owner? && (y.pc.SpawnChild? || (y.pc.Section? && y.pc.job.Adopt? && y.pc.stage.Acquire?))))
  }

  /** Actor `b` after a step of somebody else: as before, or new. */
  ghost predicate Stays(w: World, b: nat, v: World) {
    && (b in w.actors ==> b in v.actors && v.actors[b] == w.actors[b])
    && (b !in w.actors && b in v.actors ==> Newborn(v.actors[b]))
  }

  /** A step changes its own actor only. */
  lemma OthersStay(w: World, st: Step, b: nat)
    requires Enabled(w, st) && Mover(st) != Some(b)
    ensures Stays(w, b, Apply(w, st))
  {
    match st
    case Start(a, s) => OthersStayStart(w, a, s, b);
    case Lock(a, s) => OthersStaySection(w, a, s, b);
    case Own(a, s) => OthersStayOwner(w, a, s, b);
    case Terminate(a, s) => OthersStayKill(w, a, s, b);
    case Visit(a, s) => OthersStayVisit(w, a, s, b);
    case System(s) =>
  }

  lemma OthersStayStart(w: World, a: nat, s: StartStep, b: nat)
    requires StartEnabled(w, a, s) && b != a
    ensures Stays(w, b, StartApply(w, a, s))
  {
  }

  lemma OthersStaySection(w: World, a: nat, s: SectionStep, b: nat)
    requires SectionEnabled(w, a, s) && b != a
    ensures Stays(w, b, SectionApply(w, a, s))
  {
  }

  lemma OthersStayOwner(w: World, a: nat, s: OwnerStep, b: nat)
    requires OwnerEnabled(w, a, s) && b != a
    ensures Stays(w, b, OwnerApply(w, a, s))
  {
  }

  lemma OthersStayKill(w: World, a: nat, s: KillStep, b: nat)
    requires KillEnabled(w, a, s) && b != a
    ensures Stays(w, b, KillApply(w, a, s))
  {
  }

  lemma OthersStayVisit(w: World, a: nat, s: VisitStep, b: nat)
    requires VisitEnabled(w, a, s) && b != a
    ensures Stays(w, b, VisitApply(w, a, s))
  {
  }

  /** No actor changes its role. */
  lemma RoleStays(w: World, st: Step, a: nat)
    requires Enabled(w, st) && Mover(st) == Some(a)
    ensures a in w.actors && a in Apply(w, st).actors && Apply(w, st).actors[a].role == w.actors[a].role
  {
    match st
    case Start(_, s) => StartsStay(w, a, s);
    case Own(_, s) => OwnersStay(w, a, s);
    case _ =>
  }

  lemma StartsStay(w: World, a: nat, s: StartStep)
    requires StartEnabled(w, a, s)
    ensures StartApply(w, a, s).actors[a].role == w.actors[a].role
  {
  }

  lemma OwnersStay(w: World, a: nat, s: OwnerStep)
    requires OwnerEnabled(w, a, s)
    ensures OwnerApply(w, a, s).actors[a].role == w.actors[a].role
  {
  }

  // ------------------------------------------------------------------- locks

  /** The start lock is held from a successful `acquire_start_lock` to the return of the start. */
  predicate HoldsStart(x: Actor) {
    x.role.Starter? && !x.pc.LockStart? && !x.pc.Done?
  }

  predicate InSection(x: Actor) {
    x.pc.Section? && !x.pc.stage.Acquire?
  }

  predicate Saving(x: Actor) {
    x.pc.Section? && x.pc.stage.Save?
  }

  predicate ActorLocks(a: nat, x: Actor, startLock: Option<nat>, statusLock: Option<nat>) {
    && (HoldsStart(x) <==> startLock == Some(a))
    && (InSection(x) <==> statusLock == Some(a))
  }

  ghost predicate LockInv(w: World) {
    && (w.startLock.Some? ==> w.startLock.value in w.actors)
    && (w.statusLock.Some? ==> w.statusLock.value in w.actors)
    && forall a | a in w.actors :: ActorLocks(a, w.actors[a], w.startLock, w.statusLock)
  }

  /** A lock changes hands only between the mover and nobody. */
  predicate LockMoves(a: nat, before: Option<nat>, after: Option<nat>) {
    after == before || (before.None? && after == Some(a)) || (before == Some(a) && after.None?)
  }

  lemma LockStep(w: World, st: Step)
    requires LockInv(w) && Enabled(w, st)
    ensures LockInv(Apply(w, st))
  {
    match st
    case Start(a, s) => LocksStart(w, a, s);
    case Lock(a, s) => LocksSection(w, a, s);
    case Own(a, s) => LocksOwner(w, a, s);
    case Terminate(a, s) => LocksKill(w, a, s);
    case Visit(a, s) => LocksVisit(w, a, s);
    case System(s) => LocksSystem(w, s);
  }

  lemma LocksKeep(w: World, a: nat, v: World)
    requires LockInv(w) && OnlyMoves(w, a, v)
    requires ActorLocks(a, v.actors[a], v.startLock, v.statusLock)
    requires LockMoves(a, w.startLock, v.startLock) && LockMoves(a, w.statusLock, v.statusLock)
    ensures LockInv(v)
  {
    forall b | b in v.actors ensures ActorLocks(b, v.actors[b], v.startLock, v.statusLock) {
      assert ActorLocks(b, w.actors[b], w.startLock, w.statusLock);
    }
  }

  lemma LocksStart(w: World, a: nat, s: StartStep)
    requires LockInv(w) && StartEnabled(w, a, s)
    ensures LockInv(StartApply(w, a, s))
  {
    if s.DoSpawn? {
      LocksSpawn(w, a, s.o, s.p);
    } else {
      assert ActorLocks(a, w.actors[a], w.startLock, w.statusLock);
      StartLocks(w, a, s);
      LocksKeep(w, a, StartApply(w, a, s));
    }
  }

  lemma StartLocks(w: World, a: nat, s: StartStep)
    requires StartEnabled(w, a, s) && !s.DoSpawn? && ActorLocks(a, w.actors[a], w.startLock, w.statusLock)
    ensures var v := StartApply(w, a, s);
            && OnlyMoves(w, a, v) && ActorLocks(a, v.actors[a], v.startLock, v.statusLock)
            && LockMoves(a, w.startLock, v.startLock) && v.statusLock == w.statusLock
  {
  }

  lemma LocksSpawn(w: World, a: nat, o: nat, p: nat)
    requires LockInv(w) && StartEnabled(w, a, DoSpawn(o, p))
    ensures LockInv(StartApply(w, a, DoSpawn(o, p)))
  {
    var v := StartApply(w, a, DoSpawn(o, p));
    forall b | b in v.actors ensures ActorLocks(b, v.actors[b], v.startLock, v.statusLock) {
      assert b in w.actors ==> ActorLocks(b, w.actors[b], w.startLock, w.statusLock);
    }
  }

  lemma LocksSection(w: World, a: nat, s: SectionStep)
    requires LockInv(w) && SectionEnabled(w, a, s)
    ensures LockInv(SectionApply(w, a, s))
  {
    assert ActorLocks(a, w.actors[a], w.startLock, w.statusLock);
    LocksKeep(w, a, SectionApply(w, a, s));
  }

  lemma LocksOwner(w: World, a: nat, s: OwnerStep)
    requires LockInv(w) && OwnerEnabled(w, a, s)
    ensures LockInv(OwnerApply(w, a, s))
  {
    assert ActorLocks(a, w.actors[a], w.startLock, w.statusLock);
    LocksKeep(w, a, OwnerApply(w, a, s));
  }

  lemma LocksKill(w: World, a: nat, s: KillStep)
    requires LockInv(w) && KillEnabled(w, a, s)
    ensures LockInv(KillApply(w, a, s))
  {
    assert ActorLocks(a, w.actors[a], w.startLock, w.statusLock);
    LocksKeep(w, a, KillApply(w, a, s));
  }

  lemma LocksVisit(w: World, a: nat, s: VisitStep)
    requires LockInv(w) && VisitEnabled(w, a, s)
    ensures LockInv(VisitApply(w, a, s))
  {
    assert ActorLocks(a, w.actors[a], w.startLock, w.statusLock);
    LocksKeep(w, a, VisitApply(w, a, s));
  }

  lemma LocksSystem(w: World, s: SystemStep)
    requires LockInv(w) && SystemEnabled(w, s)
    ensures LockInv(SystemApply(w, s))
  {
    var v := SystemApply(w, s);
    forall b | b in v.actors ensures ActorLocks(b, v.actors[b], v.startLock, v.statusLock) {
      assert b in w.actors ==> ActorLocks(b, w.actors[b], w.startLock, w.statusLock);
    }
  }

  /** Both locks exclude: of any two actors at most one is past the start lock, at most one in a section. */
  lemma MutualExclusion(w: World, a: nat, b: nat)
    requires LockInv(w) && a in w.actors && b in w.actors && a != b
    ensures !(HoldsStart(w.actors[a]) && HoldsStart(w.actors[b]))
    ensures !(InSection(w.actors[a]) && InSection(w.actors[b]))
  {
    assert ActorLocks(a, w.actors[a], w.startLock, w.statusLock);
  }
}
