/**
 What every operation answers. An answer is tied to the step of the caller that
 settled it and to what that step found, over whole runs and in both directions.
 */
module LifecycleAnswers {
  import opened Wrappers
  import opened Metadata
  import opened Lifecycle
  import opened LifecycleLocks
  import opened LifecyclePoints
  import opened LifecycleRuns

  // ------------------------------------------------------- settling steps

  /** The claimed process exists and, if a token was recorded, still has it. */
  predicate Alive(procs: Procs, readable: bool, c: Claim) {
    match c
    case Claim(None, _) => false
    case Claim(Some(p), None) => p in procs
    case Claim(Some(p), Some(t)) => readable && p in procs && procs[p].token == t
  }

  /** A record that makes a start of the same name fail. */
  predicate KeepsOut(procs: Procs, readable: bool, m: Record) {
    && m.status == Running
    && (|| Alive(procs, readable, Claim(m.supervisorPid, m.supervisorToken))
        || Alive(procs, readable, Claim(m.childPid, m.childToken)))
  }

  /** A record that makes a waiting start succeed. */
  predicate Good(m: Record) {
    m.status == Running || (m.status == Stopped && m.exitCode == Some(0))
  }

  predicate Bad(m: Record) {
    m.status == Stopped && m.exitCode != Some(0)
  }

  predicate WaitingLook(st: Step, a: nat) {
    st == Start(a, DoPoll) || st == Start(a, DoLookLast)
  }

  /** The actor leaves the section in which it marks a run stopped. */
  predicate LeavesMarking(w: World, st: Step, a: nat, role: Role, text: string) {
    && st == Lock(a, DoRelease) && a in w.actors && w.actors[a].role == role
    && w.actors[a].pc.Section? && w.actors[a].pc.job == MarkStopped(text, None)
  }

  /** The step of start `a` settles that it returns `r`. */
  predicate SettlesStart(w: World, st: Step, a: nat, r: StartResult) {
    match r
    case AlreadyStarting => st == Start(a, TryLock) && w.startLock.Some?
    case AlreadyRunning =>
      && st.Start? && st.a == a && st.start.DoCheck?
      && a in w.actors && w.actors[a].pc.CheckActive? && KeepsOut(w.procs, st.start.readable, w.actors[a].pc.found)
    case BadCommand => st == Start(a, RejectCommand)
    case NotInitialized => st == Start(a, InitFails)
    case NotSpawned => st == Start(a, SpawnError)
    case Ready(m) => WaitingLook(st, a) && w.disk == Some(m) && Good(m)
    case StoppedWhileStarting(m) => WaitingLook(st, a) && w.disk == Some(m) && Bad(m)
    case TimedOut => exists d: bool :: LeavesMarking(w, st, a, Starter(d), "start timed out")
  }

  /** The step of actor `a` settles that it ends with `how`. */
  ghost predicate Settles(w: World, st: Step, a: nat, how: Ending) {
    match how
    case StartDone(r) => SettlesStart(w, st, a, r)
    case OwnerDone =>
      && st == Lock(a, DoRelease) && a in w.actors && w.actors[a].role.Owner?
      && w.actors[a].pc.Section? && w.actors[a].pc.job.MarkStopped?
    case StopOk =>
      || (st == Visit(a, LookToStop) && w.disk.Some? && w.disk.value.status == Stopped)
      || LeavesMarking(w, st, a, Stopper, "stopped by user")
    case StopFailed => false   // settled by the failed calls, see `StopAnswers`
    case NoSession => (st == Visit(a, LookToStop) || st == Visit(a, LookToSend)) && w.disk == None
    case NotRunning => st == Visit(a, LookToSend) && w.disk.Some? && w.disk.value.status != Running
    case NoFifo => st == Visit(a, OpenToSend) && w.fifo == None
    case NoReader => st == Visit(a, OpenToSend) && w.fifo.Some? && !Heard(w)
    case Sent => st == Visit(a, OpenToSend) && w.fifo.Some? && Heard(w)
  }

  /** Somebody has the FIFO open that is in the session's directory now. */
  ghost predicate Heard(w: World) {
    exists b | b in w.actors :: w.actors[b].reader == w.fifo
  }

  /** The actor has ended with `how`, or is a start that will return it. */
  predicate Answers(x: Actor, how: Ending) {
    x.pc == Done(how) || (how.StartDone? && x.role.Starter? && x.pc == UnlockStart(how.result))
  }

  predicate AnswersAt(w: World, a: nat, how: Ending) {
    a in w.actors && Answers(w.actors[a], how)
  }

  // ------------------------------------------------- answers are settled

  ghost predicate SettlesAt(ws: seq<World>, sts: seq<Step>, i: nat, a: nat, how: Ending) {
    i < |sts| && i < |ws| && Settles(ws[i], sts[i], a, how)
  }

  /** Every answer but a failed stop was settled by a step of the caller. */
  lemma {:induction false} AnswersAreSettled(ws: seq<World>, sts: seq<Step>, k: nat, a: nat, how: Ending)
    requires Run(ws, sts) && k < |ws| && AnswersAt(ws[k], a, how) && how != StopFailed
    ensures exists i: nat | i < k :: SettlesAt(ws, sts, i, a, how)
  {
    AlwaysFits(ws, sts, k - 1);
    SettledBefore(ws[k - 1], sts[k - 1], a, how);
    if Settles(ws[k - 1], sts[k - 1], a, how) {
      assert SettlesAt(ws, sts, k - 1, a, how);
    } else {
      AnswersAreSettled(ws, sts, k - 1, a, how);
    }
  }

  lemma SettledBefore(w: World, st: Step, a: nat, how: Ending)
    requires FitInv(w) && Enabled(w, st) && AnswersAt(Apply(w, st), a, how) && how != StopFailed
    ensures Settles(w, st, a, how) || AnswersAt(w, a, how)
  {
    if Mover(st) != Some(a) {
      OthersStay(w, st, a);
    } else {
      assert FitsDisk(w.actors[a], w.disk);
      MoverSettles(w, st, a, how);
    }
  }

  lemma MoverSettles(w: World, st: Step, a: nat, how: Ending)
    requires Enabled(w, st) && Mover(st) == Some(a) && Fits(w.actors[a])
    requires AnswersAt(Apply(w, st), a, how) && how != StopFailed
    ensures Settles(w, st, a, how) || AnswersAt(w, a, how)
  {
    match st
    case Start(_, s) => StartSettles(w, a, s, how);
    case Lock(_, s) => SectionSettles(w, a, s, how);
    case Own(_, s) => OwnerSettlesNothing(w, a, s, how);
    case Terminate(_, s) => KillSettlesNothing(w, a, s, how);
    case Visit(_, s) => VisitSettles(w, a, s, how);
  }

  lemma StartSettles(w: World, a: nat, s: StartStep, how: Ending)
    requires StartEnabled(w, a, s) && AnswersAt(StartApply(w, a, s), a, how)
    ensures Settles(w, Start(a, s), a, how) || AnswersAt(w, a, how)
  {
  }

  lemma SectionSettles(w: World, a: nat, s: SectionStep, how: Ending)
    requires SectionEnabled(w, a, s) && Fits(w.actors[a]) && AnswersAt(SectionApply(w, a, s), a, how)
    ensures Settles(w, Lock(a, s), a, how)
  {
    if w.actors[a].role.Starter? {
      assert LeavesMarking(w, Lock(a, s), a, Starter(w.actors[a].role.direct), "start timed out");
    }
  }

  lemma OwnerSettlesNothing(w: World, a: nat, s: OwnerStep, how: Ending)
    requires OwnerEnabled(w, a, s) && AnswersAt(OwnerApply(w, a, s), a, how)
    ensures AnswersAt(w, a, how)
  {
  }

  lemma KillSettlesNothing(w: World, a: nat, s: KillStep, how: Ending)
    requires KillEnabled(w, a, s) && how != StopFailed
    ensures !AnswersAt(KillApply(w, a, s), a, how)
  {
  }

  lemma VisitSettles(w: World, a: nat, s: VisitStep, how: Ending)
    requires VisitEnabled(w, a, s) && AnswersAt(VisitApply(w, a, s), a, how)
    ensures Settles(w, Visit(a, s), a, how)
  {
  }

  // ------------------------------------------- settled answers are given

  /** A settled answer is the only one the actor ever gives. */
  lemma {:induction false} SettledAnswersAreGiven(ws: seq<World>, sts: seq<Step>, i: nat, j: nat, a: nat, how: Ending)
    requires Run(ws, sts) && i < j < |ws| && Settles(ws[i], sts[i], a, how)
    ensures AnswersAt(ws[j], a, how)
    decreases j
  {
    if i + 1 == j {
      SettlingAnswers(ws[i], sts[i], a, how);
    } else {
      SettledAnswersAreGiven(ws, sts, i, j - 1, a, how);
      AnswersStay(ws[j - 1], sts[j - 1], a, how);
    }
  }

  lemma SettlingAnswers(w: World, st: Step, a: nat, how: Ending)
    requires Enabled(w, st) && Settles(w, st, a, how)
    ensures AnswersAt(Apply(w, st), a, how)
  {
    match st
    case Start(_, s) => SettlingStart(w, a, s, how);
    case Lock(_, s) => SettlingSection(w, a, s, how);
    case Visit(_, s) => SettlingVisit(w, a, s, how);
  }

  lemma SettlingStart(w: World, a: nat, s: StartStep, how: Ending)
    requires StartEnabled(w, a, s) && Settles(w, Start(a, s), a, how)
    ensures AnswersAt(StartApply(w, a, s), a, how)
  {
  }

  lemma SettlingSection(w: World, a: nat, s: SectionStep, how: Ending)
    requires SectionEnabled(w, a, s) && Settles(w, Lock(a, s), a, how)
    ensures AnswersAt(SectionApply(w, a, s), a, how)
  {
  }

  lemma SettlingVisit(w: World, a: nat, s: VisitStep, how: Ending)
    requires VisitEnabled(w, a, s) && Settles(w, Visit(a, s), a, how)
    ensures AnswersAt(VisitApply(w, a, s), a, how)
  {
  }

  lemma AnswersStay(w: World, st: Step, a: nat, how: Ending)
    requires Enabled(w, st) && AnswersAt(w, a, how)
    ensures AnswersAt(Apply(w, st), a, how)
  {
    if Mover(st) != Some(a) { OthersStay(w, st, a); } else { MoverOnlyUnlocks(w, st, a, how); }
  }

  lemma MoverOnlyUnlocks(w: World, st: Step, a: nat, how: Ending)
    requires Enabled(w, st) && Mover(st) == Some(a) && AnswersAt(w, a, how)
    ensures st == Start(a, DoUnlock)
  {
  }

  /** A look of a waiting start ends the wait exactly as the record found at that moment says. */
  lemma LooksConclude(w: World, st: Step, a: nat, m: Record)
    requires Enabled(w, st) && WaitingLook(st, a) && w.disk == Some(m)
    ensures var pc := Apply(w, st).actors[a].pc;
            && (pc == UnlockStart(Ready(m)) <==> Good(m))
            && (pc == UnlockStart(StoppedWhileStarting(m)) <==> Bad(m))
            && (pc.UnlockStart? ==> Good(m) || Bad(m))
  {
  }
}
