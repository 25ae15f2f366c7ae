/**
 Progress: a start or a stop takes a bounded number of steps of its own, and it can
 always take the next one unless it waits for the status lock, whose holder can take
 its next one. An owner may also wait for its child.
 */
module LifecycleProgress {
  import opened Wrappers
  import opened Metadata
  import opened Lifecycle
  import opened LifecycleLocks
  import opened LifecycleProcs
  import opened LifecyclePoints
  import opened LifecycleRuns

  predicate Caller(x: Actor) {
    x.role.Starter? || x.role.Stopper?
  }

  // --------------------------------------------------------- bounded steps

  const PER_TARGET: nat := 2 * PROBES + 5

  function Rest(n: nat, of: nat): nat {
    if n < of then of - n else 0
  }

  /** An upper bound on the own steps an actor can still take, for starters and stoppers. */
  function StepsLeft(pc: Pc): nat {
    match pc
    case Done(_) => 0
    case UnlockStart(_) => 1
    case Section(_, Release(_)) => 2
    case Section(_, Save(_)) => 3
    case Section(_, Load) => 4
    case Section(_, Acquire) => 5
    case Aim(todo, _) => 6 + TodoLeft(todo)
    case Hit(_, phase, rest, _) => 6 + TodoLeft(rest) + PhaseLeft(phase)
    case LookLast => AIMED + 1
    case Poll(n) => AIMED + 2 + Rest(n, POLLS)
    case SpawnOwner => AIMED + POLLS + 3
    case SaveFresh => AIMED + POLLS + 4
    case MakeFifo => AIMED + POLLS + 5
    case RemoveFifo => AIMED + POLLS + 6
    case ReadGeneration => AIMED + POLLS + 7
    case CheckActive(_) => AIMED + POLLS + 8
    case LookFirst => AIMED + POLLS + 9
    case LockStart => AIMED + POLLS + 10
    case LookStop => AIMED + 1
    case _ => 0
  }

  const AIMED: nat := 6 + 2 * PER_TARGET

  function TodoLeft(todo: seq<Claim>): nat {
    if todo == [] then 0 else PER_TARGET + TodoLeft(todo[1..])
  }

  lemma TwoLeft(c: Claim, d: Claim)
    ensures TodoLeft([c, d]) == 2 * PER_TARGET
  {
    assert [c, d][1..] == [d] && [d][1..] == [];
    assert TodoLeft([d]) == PER_TARGET + TodoLeft([]);
  }

  function PhaseLeft(phase: Phase): nat {
    match phase
    case Term => 2 * PROBES + 4
    case TermWait(n, _) => PROBES + 3 + Rest(n, PROBES)
    case Kill(_) => PROBES + 2
    case KillWait(n) => 1 + Rest(n, PROBES)
  }

  predicate RunsDown(x: Actor, y: Actor) {
    y.role == x.role && StepsLeft(y.pc) < StepsLeft(x.pc)
  }

  lemma StepTaken(w: World, st: Step, a: nat)
    requires Enabled(w, st) && a in w.actors && Caller(w.actors[a])
    ensures a in Apply(w, st).actors
    ensures if Mover(st) == Some(a) then RunsDown(w.actors[a], Apply(w, st).actors[a])
            else Apply(w, st).actors[a] == w.actors[a]
  {
    if Mover(st) != Some(a) {
      OthersStay(w, st, a);
    } else {
      match st
      case Start(_, s) => StartRunsDown(w, a, s);
      case Lock(_, s) => SectionRunsDown(w, a, s);
      case Terminate(_, s) => KillRunsDown(w, a, s);
      case Visit(_, s) => VisitRunsDown(w, a, s);
    }
  }

  lemma VisitRunsDown(w: World, a: nat, s: VisitStep)
    requires VisitEnabled(w, a, s) && Caller(w.actors[a])
    ensures RunsDown(w.actors[a], VisitApply(w, a, s).actors[a])
  {
    if w.disk.Some? { TwoLeft(ChildClaim(w.disk.value), SupervisorClaim(w.disk.value)); }
  }

  lemma SectionRunsDown(w: World, a: nat, s: SectionStep)
    requires SectionEnabled(w, a, s) && Caller(w.actors[a])
    ensures RunsDown(w.actors[a], SectionApply(w, a, s).actors[a])
  {
    var job := w.actors[a].pc.job;
    assert StepsLeft(Section(job, Acquire)) == 5 && StepsLeft(Section(job, Load)) == 4;
    assert StepsLeft(UnlockStart(TimedOut)) == 1 && StepsLeft(Done(StopOk)) == 0;
  }

  lemma StartRunsDown(w: World, a: nat, s: StartStep)
    requires StartEnabled(w, a, s)
    ensures RunsDown(w.actors[a], StartApply(w, a, s).actors[a])
  {
    match s
    case DoPoll => PollRunsDown(w, a);
    case DoLookLast => LookLastRunsDown(w, a);
    case DoSpawn(o, p) => SpawnRunsDown(w, a, o, p);
    case DoLookFirst => LookRunsDown(w, a, s);
    case DoCheck(_) => LookRunsDown(w, a, s);
    case TryLock => LookRunsDown(w, a, s);
    case _ => PrepareRunsDown(w, a, s);
  }

  lemma PollRunsDown(w: World, a: nat)
    requires StartEnabled(w, a, DoPoll)
    ensures RunsDown(w.actors[a], StartApply(w, a, DoPoll).actors[a])
  {
  }

  lemma LookLastRunsDown(w: World, a: nat)
    requires StartEnabled(w, a, DoLookLast)
    ensures RunsDown(w.actors[a], StartApply(w, a, DoLookLast).actors[a])
  {
    TwoLeft(SupervisorClaim(w.disk.value), ChildClaim(w.disk.value));
  }

  lemma SpawnRunsDown(w: World, a: nat, o: nat, p: nat)
    requires StartEnabled(w, a, DoSpawn(o, p))
    ensures RunsDown(w.actors[a], StartApply(w, a, DoSpawn(o, p)).actors[a])
  {
  }

  lemma LookRunsDown(w: World, a: nat, s: StartStep)
    requires StartEnabled(w, a, s) && (s.TryLock? || s.DoLookFirst? || s.DoCheck?)
    ensures RunsDown(w.actors[a], StartApply(w, a, s).actors[a])
  {
  }

  lemma PrepareRunsDown(w: World, a: nat, s: StartStep)
    requires StartEnabled(w, a, s)
    requires !s.DoPoll? && !s.DoLookLast? && !s.DoSpawn? && !s.DoLookFirst? && !s.DoCheck? && !s.TryLock?
    ensures RunsDown(w.actors[a], StartApply(w, a, s).actors[a])
  {
  }

  lemma KillRunsDown(w: World, a: nat, s: KillStep)
    requires KillEnabled(w, a, s)
    ensures RunsDown(w.actors[a], KillApply(w, a, s).actors[a])
  {
    if s.NextTarget? { TargetRunsDown(w, a, s); }
  }

  lemma TargetRunsDown(w: World, a: nat, s: KillStep)
    requires KillEnabled(w, a, s) && s.NextTarget?
    ensures RunsDown(w.actors[a], KillApply(w, a, s).actors[a])
  {
  }

  /** How many of the steps from `i` up to `j` actor `a` takes. */
  function OwnSteps(sts: seq<Step>, i: nat, j: nat, a: nat): nat
    requires j <= |sts|
  {
    if j <= i then 0 else OwnSteps(sts, i, j - 1, a) + if Mover(sts[j - 1]) == Some(a) then 1 else 0
  }

  predicate CallerAt(w: World, a: nat) {
    a in w.actors && Caller(w.actors[a])
  }

  function Left(w: World, a: nat): nat
    requires CallerAt(w, a)
  {
    StepsLeft(w.actors[a].pc)
  }

  lemma TakenNext(ws: seq<World>, sts: seq<Step>, i: nat, a: nat)
    requires Run(ws, sts) && i < |sts| && CallerAt(ws[i], a)
    ensures CallerAt(ws[i + 1], a)
    ensures Left(ws[i + 1], a) + (if Mover(sts[i]) == Some(a) then 1 else 0) <= Left(ws[i], a)
  {
    StepTaken(ws[i], sts[i], a);
  }

  lemma {:induction false} CallerStays(ws: seq<World>, sts: seq<Step>, i: nat, j: nat, a: nat)
    requires Run(ws, sts) && i <= j < |ws| && CallerAt(ws[i], a)
    ensures CallerAt(ws[j], a)
    decreases j
  {
    if i < j {
      CallerStays(ws, sts, i, j - 1, a);
      StepTaken(ws[j - 1], sts[j - 1], a);
    }
  }

  /** A measure that falls by at least one whenever `a` moves bounds the number of its moves. */
  lemma {:induction false} MeasureBoundsSteps(sts: seq<Step>, i: nat, j: nat, a: nat, left: seq<nat>)
    requires i <= j <= |sts| && |left| == |sts| + 1
    requires forall k | i <= k < j :: left[k + 1] + (if Mover(sts[k]) == Some(a) then 1 else 0) <= left[k]
    ensures OwnSteps(sts, i, j, a) + left[j] <= left[i]
    decreases j
  {
    if i < j { MeasureBoundsSteps(sts, i, j - 1, a, left); }
  }

  /** Between any two points of a run, a start or a stop takes no more steps than it had left at the first. */
  lemma CallersTakeBoundedlyManySteps(ws: seq<World>, sts: seq<Step>, i: nat, j: nat, a: nat)
    requires Run(ws, sts) && i <= j < |ws| && CallerAt(ws[i], a)
    ensures CallerAt(ws[j], a)
    ensures OwnSteps(sts, i, j, a) + Left(ws[j], a) <= Left(ws[i], a)
  {
    var left := seq(|ws|, k requires 0 <= k < |ws| => if CallerAt(ws[k], a) then Left(ws[k], a) else 0);
    forall k | i <= k < j ensures left[k + 1] + (if Mover(sts[k]) == Some(a) then 1 else 0) <= left[k] {
      CallerStays(ws, sts, i, k, a);
      TakenNext(ws, sts, k, a);
    }
    CallerStays(ws, sts, i, j, a);
    MeasureBoundsSteps(sts, i, j, a, left);
  }

  /** A start returns within 156 own steps and a stop within 97, whatever the others do in between. */
  lemma StartsAndStopsAreBounded(ws: seq<World>, sts: seq<Step>, i: nat, j: nat, a: nat)
    requires Run(ws, sts) && i <= j < |ws| && CallerAt(ws[i], a)
    requires ws[i].actors[a].pc.LockStart? || ws[i].actors[a].pc.LookStop?
    ensures OwnSteps(sts, i, j, a) <= if ws[i].actors[a].pc.LockStart? then 156 else 97
  {
    CallersTakeBoundedlyManySteps(ws, sts, i, j, a);
  }

  // ------------------------------------------------------------ never stuck

  /** A step of an actor's regular course: nothing fails, and nobody is killed. */
  predicate Regular(st: Step) {
    match st
    case Start(_, s) => !s.RejectCommand? && !s.InitFails? && !s.SpawnError?
    case Own(_, s) => !s.SpawnFails? && !s.OpenFails? && !s.ServeFails? && !s.ForwarderFails? && !s.Killed?
    case _ => true
  }

  ghost predicate CanMove(w: World, a: nat) {
    exists st :: Mover(st) == Some(a) && Enabled(w, st) && Regular(st)
  }

  /** An actor inside a section can always go on. */
  lemma HolderCanMove(w: World, b: nat)
    requires FitInv(w) && b in w.actors && InSection(w.actors[b])
    ensures CanMove(w, b)
  {
    var x := w.actors[b];
    assert FitsDisk(x, w.disk);
    var s := match x.pc.stage
             case Acquire => DoAcquire
             case Load => DoLoad(true)
             case Save(_) => DoSave
             case Release(_) => DoRelease;
    assert SectionEnabled(w, b, s);
    assert Mover(Lock(b, s)) == Some(b) && Enabled(w, Lock(b, s));
  }

  /** The actor waits for the status lock, and the holder can move. */
  ghost predicate WaitsForLock(w: World, a: nat)
    requires a in w.actors
  {
    && w.actors[a].pc.Section? && w.actors[a].pc.stage.Acquire?
    && w.statusLock.Some? && CanMove(w, w.statusLock.value)
  }

  lemma SectionsAreNeverStuck(w: World, a: nat)
    requires LockInv(w) && FitInv(w) && a in w.actors && w.actors[a].pc.Section?
    ensures CanMove(w, a) || WaitsForLock(w, a)
  {
    assert FitsDisk(w.actors[a], w.disk);
    if InSection(w.actors[a]) {
      HolderCanMove(w, a);
    } else if w.statusLock.Some? {
      var b := w.statusLock.value;
      assert ActorLocks(b, w.actors[b], w.startLock, w.statusLock);
      HolderCanMove(w, b);
    } else {
      assert Mover(Lock(a, DoAcquire)) == Some(a) && Enabled(w, Lock(a, DoAcquire)) && Regular(Lock(a, DoAcquire));
    }
  }

  /**
   In every state of a run, a start or a stop that has not returned can take its
   next step, unless it waits for the status lock; and then the holder can move.
   */
  lemma CallersAreNeverStuck(ws: seq<World>, sts: seq<Step>, k: nat, a: nat)
    requires Run(ws, sts) && k < |ws|
    requires a in ws[k].actors && Caller(ws[k].actors[a]) && !ws[k].actors[a].pc.Done?
    ensures CanMove(ws[k], a) || WaitsForLock(ws[k], a)
  {
    Always(ws, sts, k);
    AlwaysFits(ws, sts, k);
    assert FitsDisk(ws[k].actors[a], ws[k].disk);
    if ws[k].actors[a].pc.Section? {
      SectionsAreNeverStuck(ws[k], a);
    } else {
      NextStep(ws[k], a);
    }
  }

  lemma NextStep(w: World, a: nat)
    requires a in w.actors && Caller(w.actors[a]) && FitsDisk(w.actors[a], w.disk)
    requires !w.actors[a].pc.Done? && !w.actors[a].pc.Section?
    ensures CanMove(w, a)
  {
    if w.actors[a].pc.Aim? || w.actors[a].pc.Hit? {
      NextKillStep(w, a);
    } else if w.actors[a].pc.LookStop? {
      var st := Visit(a, LookToStop);
      assert Mover(st) == Some(a) && Enabled(w, st) && Regular(st);
    } else {
      NextStartStep(w, a);
    }
  }

  lemma NextStartStep(w: World, a: nat)
    requires a in w.actors && w.actors[a].role.Starter? && FitsDisk(w.actors[a], w.disk)
    requires !w.actors[a].pc.Done? && !w.actors[a].pc.Section? && !w.actors[a].pc.Aim? && !w.actors[a].pc.Hit?
    ensures CanMove(w, a)
  {
    var o := Unused(w.actors.Keys);
    var p := Unused(w.procs.Keys);
    var s :=
      match w.actors[a].pc
      case LockStart => TryLock
      case LookFirst => DoLookFirst
      case CheckActive(_) => DoCheck(true)
      case ReadGeneration => DoReadGeneration
      case RemoveFifo => DoRemoveFifo
      case MakeFifo => DoMakeFifo
      case SaveFresh => DoSaveFresh
      case SpawnOwner => DoSpawn(o, p)
      case Poll(_) => DoPoll
      case LookLast => DoLookLast
      case _ => DoUnlock;
    assert Mover(Start(a, s)) == Some(a) && Enabled(w, Start(a, s)) && Regular(Start(a, s));
  }

  lemma NextKillStep(w: World, a: nat)
    requires a in w.actors && Caller(w.actors[a]) && (w.actors[a].pc.Aim? || w.actors[a].pc.Hit?)
    ensures CanMove(w, a)
  {
    var s :=
      match w.actors[a].pc
      case Hit(_, Term, _, _) => SendTerm(true, false)
      case Hit(_, TermWait(_, _), _, _) => TermPoll
      case Hit(_, Kill(_), _, _) => SendKill(true, false)
      case Hit(_, KillWait(_), _, _) => KillPoll
      case _ => NextTarget(true);
    assert Mover(Terminate(a, s)) == Some(a) && Enabled(w, Terminate(a, s)) && Regular(Terminate(a, s));
  }

  /** The owner waits for its child, which runs and can exit. */
  predicate WaitsForChild(w: World, x: Actor) {
    && (x.pc.Serve? || x.pc.ReapChild?)
    && x.child.Some? && Present(w.procs, x.child.value) && !w.procs[x.child.value.pid].zombie
    && Enabled(w, System(Exit(x.child.value.pid)))
  }

  /**
   In every state of a run, an owner that has not finished and was not killed can
   take its next step, unless it waits for its running child, which can exit, or for
   the status lock, whose holder can move.
   */
  lemma OwnersAreNeverStuck(ws: seq<World>, sts: seq<Step>, k: nat, o: nat)
    requires Run(ws, sts) && k < |ws|
    requires o in ws[k].actors && ws[k].actors[o].role.Owner? && !Finished(ws[k].actors[o])
    ensures CanMove(ws[k], o) || WaitsForChild(ws[k], ws[k].actors[o]) || WaitsForLock(ws[k], o)
  {
    var w, x := ws[k], ws[k].actors[o];
    Always(ws, sts, k);
    AlwaysFits(ws, sts, k);
    assert FitsDisk(x, w.disk) && ActorProcs(x, w.procs, w.nextToken);
    if x.pc.Section? {
      SectionsAreNeverStuck(w, o);
    } else if (x.pc.Serve? || x.pc.ReapChild?) && !w.procs[x.child.value.pid].zombie {
      ChildrenCanExit(w, o);
    } else {
      NextOwnerStep(w, o);
    }
  }

  /** An owner's child is no supervisor, so nothing keeps it from exiting. */
  lemma ChildrenCanExit(w: World, o: nat)
    requires ProcInv(w) && o in w.actors && HasChild(w.actors[o])
    ensures Enabled(w, System(Exit(w.actors[o].child.value.pid)))
  {
    var x := w.actors[o];
    assert ActorProcs(x, w.procs, w.nextToken);
    var i := x.child.value;
    forall b | b in w.actors ensures !IsSupervisor(w.actors[b], i) {
      if b != o { assert Apart(x, w.actors[b]) && Made(x, i.token); }
    }
  }

  lemma NextOwnerStep(w: World, o: nat)
    requires o in w.actors && w.actors[o].role.Owner? && Fits(w.actors[o]) && !Finished(w.actors[o])
    requires !w.actors[o].pc.Section?
    requires w.actors[o].pc.Serve? || w.actors[o].pc.ReapChild? ==> ChildIsZombie(w, w.actors[o])
    ensures CanMove(w, o)
  {
    var p := Unused(w.procs.Keys);
    var st :=
      match w.actors[o].pc
      case SpawnChild => Own(o, DoSpawnChild(p))
      case OpenFifo => Own(o, DoOpenFifo)
      case Serve => Own(o, WaitChild("exited", 0))
      case CloseReader(_, _) => Own(o, DoCloseReader)
      case KillChild(_) => Own(o, DoKillChild)
      case _ => Own(o, DoReapChild);
    assert Mover(st) == Some(o) && Enabled(w, st) && Regular(st);
  }
}
