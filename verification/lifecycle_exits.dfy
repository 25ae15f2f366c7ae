/** What the record says about the end of a run: what its owner saw, word for word. */
module LifecycleExits {
  import opened Wrappers
  import opened Metadata
  import opened Lifecycle
  import opened LifecycleLocks
  import opened LifecycleDisk
  import opened LifecyclePoints
  import opened LifecycleRuns
  import opened LifecycleTheorems

  /** How a run ends. */
  datatype RunEnd = RunEnd(text: string, code: Option<nat>)

  /** The end an owner's step sees: its child's exit status and code, or an error without a code. */
  function ExitSeen(s: OwnerStep): Option<RunEnd> {
    match s
    case WaitChild(text, code) => Some(RunEnd(text, Some(code)))
    case SpawnFails(text) => Some(RunEnd(text, None))
    case OpenFails(text) => Some(RunEnd(text, None))
    case ServeFails(text) => Some(RunEnd(text, None))
    case _ => None
  }

  /** The owner is on its way out with that end. */
  predicate Leaving(x: Actor, e: RunEnd) {
    && x.role.Owner?
    && (|| (e.code.Some? && x.pc == CloseReader(e.text, e.code.value))
        || (e.code.None? && (x.pc == KillChild(e.text) || x.pc == ReapChild(e.text)))
        || (x.pc.Section? && x.pc.job == MarkStopped(e.text, e.code))
        || x.pc == Done(OwnerDone) || x.pc.Dead?)
  }

  predicate LeavingAt(w: World, o: nat, e: RunEnd) {
    o in w.actors && Leaving(w.actors[o], e)
  }

  /** From the moment an owner sees its run's end, its only section is the one that records just that. */
  lemma {:induction false} OwnersLeaveAsTheySaw(ws: seq<World>, sts: seq<Step>, i: nat, j: nat, o: nat, e: RunEnd)
    requires Run(ws, sts) && i < j < |ws| && sts[i].Own? && sts[i].a == o && ExitSeen(sts[i].own) == Some(e)
    ensures LeavingAt(ws[j], o, e)
    decreases j
  {
    if i + 1 == j {
      StartsLeaving(ws[i], o, sts[i].own, e);
    } else {
      OwnersLeaveAsTheySaw(ws, sts, i, j - 1, o, e);
      KeepsLeaving(ws[j - 1], sts[j - 1], o, e);
    }
  }

  lemma StartsLeaving(w: World, o: nat, s: OwnerStep, e: RunEnd)
    requires OwnerEnabled(w, o, s) && ExitSeen(s) == Some(e)
    ensures LeavingAt(OwnerApply(w, o, s), o, e)
  {
  }

  lemma KeepsLeaving(w: World, st: Step, o: nat, e: RunEnd)
    requires Enabled(w, st) && LeavingAt(w, o, e)
    ensures LeavingAt(Apply(w, st), o, e)
  {
    if Mover(st) != Some(o) {
      OthersStay(w, st, o);
    } else {
      match st
      case Lock(_, s) => SectionKeepsLeaving(w, o, s, e);
      case Own(_, s) => OwnerKeepsLeaving(w, o, s, e);
    }
  }

  lemma SectionKeepsLeaving(w: World, o: nat, s: SectionStep, e: RunEnd)
    requires SectionEnabled(w, o, s) && LeavingAt(w, o, e)
    ensures LeavingAt(SectionApply(w, o, s), o, e)
  {
  }

  lemma OwnerKeepsLeaving(w: World, o: nat, s: OwnerStep, e: RunEnd)
    requires OwnerEnabled(w, o, s) && LeavingAt(w, o, e)
    ensures LeavingAt(OwnerApply(w, o, s), o, e)
  {
  }

  /** The record says that run `gen` has ended so. */
  predicate EndedSo(disk: Option<Record>, gen: nat, e: RunEnd) {
    disk.Some? && disk.value.generation == gen ==>
      disk.value.status == Stopped && disk.value.exitStatus == Some(e.text) && disk.value.exitCode == e.code
  }

  /**
   If the owner of a run is the one that stops it, every later record of the run has
   the exit status and code of the child the owner waited for, or the owner's error
   and no code.
   */
  lemma ExitIsRecorded(ws: seq<World>, sts: seq<Step>, i: nat, j: nat, k: nat, o: nat, e: RunEnd)
    requires ExclusiveRun(ws, sts) && i < j < k < |ws|
    requires sts[i].Own? && sts[i].a == o && ExitSeen(sts[i].own) == Some(e)
    requires sts[j] == Lock(o, DoSave)
    ensures EndedSo(ws[k].disk, ws[j].actors[o].gen, e)
  {
    OwnersLeaveAsTheySaw(ws, sts, i, j, o, e);
    Always(ws, sts, j);
    AlwaysDisk(ws, sts, j);
    var x := ws[j].actors[o];
    assert ActorDisk(x, ws[j].disk);
    RecordsOnlyMoveForward(ws, sts, j + 1, k);
  }

  /** That section stores its record exactly if the one it loaded is of the owner's run and not Stopped. */
  lemma OwnersStopTheirRun(ws: seq<World>, sts: seq<Step>, i: nat, j: nat, o: nat, e: RunEnd, readable: bool)
    requires Run(ws, sts) && i < j < |sts| && sts[j] == Lock(o, DoLoad(readable))
    requires sts[i].Own? && sts[i].a == o && ExitSeen(sts[i].own) == Some(e)
    ensures ws[j + 1].actors[o].pc.stage.Save?
            <==> ws[j].disk.Some? && ws[j].disk.value.status != Stopped
                 && ws[j].disk.value.generation == ws[j].actors[o].gen
  {
    OwnersLeaveAsTheySaw(ws, sts, i, j, o, e);
  }

  /** How an actor comes to be dead, and how it comes to wait for a child on the error path. */
  ghost predicate Entered(w: World, st: Step, v: World, o: nat) {
    o in v.actors ==>
      && (v.actors[o].pc.Dead? ==> st == Own(o, Killed) || (o in w.actors && w.actors[o].pc.Dead?))
      && (v.actors[o].pc.ReapChild? ==> st == Own(o, DoKillChild) || (o in w.actors && w.actors[o].pc.ReapChild?))
  }

  lemma Enters(w: World, st: Step, o: nat)
    requires FitInv(w) && Enabled(w, st)
    ensures Entered(w, st, Apply(w, st), o)
  {
    if Mover(st) != Some(o) {
      OthersStay(w, st, o);
    } else {
      assert FitsDisk(w.actors[o], w.disk);
      match st
      case Start(_, s) => EntersInStart(w, o, s);
      case Lock(_, s) => EntersInSection(w, o, s);
      case Own(_, s) => EntersInOwner(w, o, s);
      case Terminate(_, s) => EntersInKill(w, o, s);
      case Visit(_, s) =>
    }
  }

  lemma EntersInStart(w: World, a: nat, s: StartStep)
    requires StartEnabled(w, a, s)
    ensures Entered(w, Start(a, s), StartApply(w, a, s), a)
  {
  }

  lemma EntersInSection(w: World, a: nat, s: SectionStep)
    requires SectionEnabled(w, a, s) && FitsDisk(w.actors[a], w.disk)
    ensures Entered(w, Lock(a, s), SectionApply(w, a, s), a)
  {
  }

  lemma EntersInOwner(w: World, a: nat, s: OwnerStep)
    requires OwnerEnabled(w, a, s)
    ensures Entered(w, Own(a, s), OwnerApply(w, a, s), a)
  {
  }

  lemma EntersInKill(w: World, a: nat, s: KillStep)
    requires KillEnabled(w, a, s)
    ensures Entered(w, Terminate(a, s), KillApply(w, a, s), a)
  {
  }

  /** An owner that will not go on was killed. */
  lemma {:induction false} DeadOwnersWereKilled(ws: seq<World>, sts: seq<Step>, k: nat, o: nat) returns (i: nat)
    requires Run(ws, sts) && k < |ws| && o in ws[k].actors && ws[k].actors[o].pc.Dead?
    ensures i < k && sts[i] == Own(o, Killed)
  {
    AlwaysFits(ws, sts, k - 1);
    Enters(ws[k - 1], sts[k - 1], o);
    if sts[k - 1] == Own(o, Killed) { i := k - 1; } else { i := DeadOwnersWereKilled(ws, sts, k - 1, o); }
  }

  /** On its error path an owner kills its child before it waits for it. */
  lemma {:induction false} OwnersKillFirst(ws: seq<World>, sts: seq<Step>, k: nat, o: nat) returns (i: nat)
    requires Run(ws, sts) && k < |ws| && o in ws[k].actors && ws[k].actors[o].pc.ReapChild?
    ensures i < k && sts[i] == Own(o, DoKillChild)
  {
    AlwaysFits(ws, sts, k - 1);
    Enters(ws[k - 1], sts[k - 1], o);
    if sts[k - 1] == Own(o, DoKillChild) { i := k - 1; } else { i := OwnersKillFirst(ws, sts, k - 1, o); }
  }
}
