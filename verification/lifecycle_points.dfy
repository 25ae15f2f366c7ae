/**
 Which program points an actor can be at, by its role, which of them need a record
 on disk, and where a FIFO can be open.
 */
module LifecyclePoints {
  import opened Wrappers
  import opened Metadata
  import opened Lifecycle
  import opened LifecycleLocks

  predicate Fits(x: Actor) {
    match x.role
    case Starter(_) =>
      || x.pc.LockStart? || x.pc.LookFirst? || x.pc.CheckActive? || x.pc.ReadGeneration? || x.pc.RemoveFifo?
      || x.pc.MakeFifo? || x.pc.SaveFresh? || x.pc.SpawnOwner? || x.pc.Poll? || x.pc.LookLast? || x.pc.UnlockStart?
      || x.pc.Aim? || x.pc.Hit? || x.pc.Done? || (x.pc.Section? && x.pc.job == MarkStopped("start timed out", None))
    case Stopper =>
      || x.pc.LookStop? || x.pc.Aim? || x.pc.Hit? || x.pc.Done?
      || (x.pc.Section? && x.pc.job == MarkStopped("stopped by user", None))
    case Sender => x.pc.LookSend? || x.pc.OpenSend? || x.pc.Done?
    case Owner(_) =>
      || x.pc.Section? || x.pc.SpawnChild? || x.pc.OpenFifo? || x.pc.Serve? || x.pc.CloseReader?
      || x.pc.KillChild? || x.pc.ReapChild? || x.pc.Dead? || x.pc.Done?
  }

  /** A start that has initialised its run, up to its last look at the record. */
  predicate ExpectsRecord(x: Actor) {
    x.role.Starter? && (x.pc.SpawnOwner? || x.pc.Poll? || x.pc.LookLast?)
  }

  /** Only an owner between opening the FIFO and closing it holds it open. */
  predicate MayHoldFifo(x: Actor) {
    x.role.Owner? && (x.pc.Serve? || x.pc.CloseReader? || (x.pc.Section? && x.pc.job.Promote?))
  }

  predicate FitsDisk(x: Actor, disk: Option<Record>) {
    && Fits(x)
    && (ExpectsRecord(x) || x.role.Owner? ==> disk.Some?)
    && (x.reader.Some? ==> MayHoldFifo(x))
    && (x.pc.Section? && x.pc.job.Adopt? && x.pc.stage.Release? ==> x.pc.stage.wrote)
  }

  ghost predicate FitInv(w: World) {
    forall a | a in w.actors :: FitsDisk(w.actors[a], w.disk)
  }

  lemma FitStep(w: World, st: Step)
    requires FitInv(w) && Enabled(w, st)
    ensures FitInv(Apply(w, st))
  {
    match st
    case Start(a, s) => FitStart(w, a, s);
    case Lock(a, s) => FitSection(w, a, s);
    case Own(a, s) => FitOwner(w, a, s);
    case Terminate(a, s) => FitKill(w, a, s);
    case Visit(a, s) =>
    case System(s) =>
  }

  lemma FitKeep(w: World, a: nat, v: World)
    requires FitInv(w) && OnlyMoves(w, a, v) && FitsDisk(v.actors[a], v.disk) && (w.disk.Some? ==> v.disk.Some?)
    ensures FitInv(v)
  {
  }

  lemma FitStart(w: World, a: nat, s: StartStep)
    requires FitInv(w) && StartEnabled(w, a, s)
    ensures FitInv(StartApply(w, a, s))
  {
    var v := StartApply(w, a, s);
    assert FitsDisk(w.actors[a], w.disk);
    FitMover(w, a, s);
    var u := v.(actors := w.actors[a := v.actors[a]]);
    FitKeep(w, a, u);
    if s.DoSpawn? { assert v.actors == u.actors[s.o := v.actors[s.o]]; }
  }

  lemma FitMover(w: World, a: nat, s: StartStep)
    requires StartEnabled(w, a, s) && FitsDisk(w.actors[a], w.disk)
    ensures var v := StartApply(w, a, s);
            && a in v.actors && FitsDisk(v.actors[a], v.disk) && (w.disk.Some? ==> v.disk.Some?)
            && (!s.DoSpawn? ==> OnlyMoves(w, a, v))
            && (s.DoSpawn? ==> s.o in v.actors && FitsDisk(v.actors[s.o], v.disk)
                               && v.actors == w.actors[a := v.actors[a]][s.o := v.actors[s.o]])
  {
  }

  lemma FitSection(w: World, a: nat, s: SectionStep)
    requires FitInv(w) && SectionEnabled(w, a, s)
    ensures FitInv(SectionApply(w, a, s))
  {
    assert FitsDisk(w.actors[a], w.disk);
    FitKeep(w, a, SectionApply(w, a, s));
  }

  lemma FitOwner(w: World, a: nat, s: OwnerStep)
    requires FitInv(w) && OwnerEnabled(w, a, s)
    ensures FitInv(OwnerApply(w, a, s))
  {
    assert FitsDisk(w.actors[a], w.disk);
    FitKeep(w, a, OwnerApply(w, a, s));
  }

  lemma FitKill(w: World, a: nat, s: KillStep)
    requires FitInv(w) && KillEnabled(w, a, s)
    ensures FitInv(KillApply(w, a, s))
  {
    FitKeep(w, a, KillApply(w, a, s));
  }

  /** There is always a name or a pid that nobody has. */
  lemma {:induction false} Unused(s: set<nat>) returns (n: nat)
    ensures n !in s && forall k | k in s :: k < n
  {
    if s == {} {
      n := 0;
    } else {
      var k :| k in s;
      var m := Unused(s - {k});
      n := if m > k then m else k + 1;
      assert forall j | j in s :: j == k || j in s - {k};
    }
  }
}
