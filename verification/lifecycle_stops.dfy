/**
 How stops end, and starts that have timed out: which calls of `terminate_pid` they
 make, how long those last, and what their failures do to the answer.
 */
module LifecycleStops {
  import opened Wrappers
  import opened Metadata
  import opened Lifecycle
  import opened LifecycleLocks
  import opened LifecycleIdentity
  import opened LifecyclePoints
  import opened LifecycleRuns
  import opened LifecycleAnswers

  // ----------------------------------------------- what a caller has seen

  /** The actor's call of `terminate_pid` is on a pid that exists. */
  predicate Taken(w: World, a: nat) {
    && a in w.actors && w.actors[a].pc.Hit?
    && w.actors[a].pc.claim.pid.Some? && w.actors[a].pc.claim.pid.value in w.procs
  }

  predicate IsProbe(st: Step) {
    st.Terminate? && (st.kill.TermPoll? || st.kill.KillPoll?)
  }

  /** What actor `a` remembers of a call: probes in a row that found the pid, and whether SIGTERM was sent. */
  datatype Memory = Memory(probes: nat, sent: bool)

  function Remember(w: World, st: Step, a: nat, m: Memory): Memory {
    if Mover(st) != Some(a) then m
    else Memory(
      if IsProbe(st) && Taken(w, a) then m.probes + 1 else 0,
      if st.Terminate? && st.kill.SendTerm? then st.kill.sent else m.sent)
  }

  function Memories(ws: seq<World>, sts: seq<Step>, k: nat, a: nat): Memory
    requires k <= |sts| < |ws|
  {
    if k == 0 then Memory(0, false) else Remember(ws[k - 1], sts[k - 1], a, Memories(ws, sts, k - 1, a))
  }

  /** An error of a `terminate_pid` call: of a signal, or the 20th probe in a row that still finds the pid. */
  predicate Errs(w: World, st: Step, a: nat, m: Memory) {
    && st.Terminate? && st.a == a
    && match st.kill
       case SendTerm(_, error) => error
       case SendKill(_, error) => error
       case KillPoll => Taken(w, a) && m.probes + 1 == 20
       case _ => false
  }

  predicate ErrsAt(ws: seq<World>, sts: seq<Step>, i: nat, a: nat) {
    i < |sts| < |ws| && Errs(ws[i], sts[i], a, Memories(ws, sts, i, a))
  }

  /** Some call of `a` among the first `k` steps ended in an error. */
  ghost predicate Erred(ws: seq<World>, sts: seq<Step>, k: nat, a: nat) {
    exists i: nat | i < k :: ErrsAt(ws, sts, i, a)
  }

  // ------------------------------------------------------- the calls

  /** What the program point of a caller says about its current call. */
  predicate InCall(x: Actor, m: Memory) {
    x.pc.Hit? ==>
      match x.pc.phase
      case Term => true
      case TermWait(n, sent) => n == m.probes < 20 && sent == m.sent
      case Kill(sent) => m.probes == 20 && sent == m.sent
      case KillWait(n) => n == m.probes < 20
  }

  /** The point of a stop after an error. */
  predicate Blames(x: Actor) {
    match x.pc
    case Aim(_, bad) => bad
    case Hit(_, _, _, bad) => bad
    case Done(how) => how == StopFailed
    case _ => false
  }

  ghost predicate Remembered(w: World, a: nat, m: Memory, erred: bool) {
    && (a in w.actors ==> InCall(w.actors[a], m))
    && (a in w.actors && w.actors[a].role.Stopper? ==> (Blames(w.actors[a]) <==> erred))
    && (a !in w.actors ==> !erred)
  }

  lemma {:induction false} AlwaysRemembered(ws: seq<World>, sts: seq<Step>, k: nat, a: nat)
    requires Run(ws, sts) && k < |ws|
    ensures Remembered(ws[k], a, Memories(ws, sts, k, a), Erred(ws, sts, k, a))
  {
    if k > 0 {
      AlwaysRemembered(ws, sts, k - 1, a);
      var m, erred := Memories(ws, sts, k - 1, a), Erred(ws, sts, k - 1, a);
      ErredNext(ws, sts, k - 1, a);
      RememberStep(ws[k - 1], sts[k - 1], a, m, erred);
    }
  }

  lemma ErredNext(ws: seq<World>, sts: seq<Step>, k: nat, a: nat)
    requires k < |sts| < |ws|
    ensures Erred(ws, sts, k + 1, a)
            <==> Erred(ws, sts, k, a) || ErrsAt(ws, sts, k, a)
  {
  }

  lemma RememberStep(w: World, st: Step, a: nat, m: Memory, erred: bool)
    requires Remembered(w, a, m, erred) && Enabled(w, st)
    ensures Remembered(Apply(w, st), a, Remember(w, st, a, m), erred || Errs(w, st, a, m))
  {
    if Mover(st) != Some(a) {
      OthersStay(w, st, a);
    } else if st.Terminate? {
      KillRemembers(w, a, st.kill, m);
    } else {
      NoCall(w, st, a);
    }
  }

  lemma KillRemembers(w: World, a: nat, s: KillStep, m: Memory)
    requires KillEnabled(w, a, s) && InCall(w.actors[a], m)
    ensures var v, next := KillApply(w, a, s), Remember(w, Terminate(a, s), a, m);
            && a in v.actors && v.actors[a].role == w.actors[a].role && InCall(v.actors[a], next)
            && (w.actors[a].role.Stopper? ==>
                  (Blames(v.actors[a]) <==> Blames(w.actors[a]) || Errs(w, Terminate(a, s), a, m)))
  {
  }

  /** Actor `a` makes a step outside any call. */
  ghost predicate StaysOut(w: World, a: nat, v: World) {
    && a in w.actors && a in v.actors && v.actors[a].role == w.actors[a].role && !v.actors[a].pc.Hit?
    && (w.actors[a].role.Stopper? ==> !Blames(v.actors[a]) && !Blames(w.actors[a]))
  }

  lemma NoCall(w: World, st: Step, a: nat)
    requires Enabled(w, st) && Mover(st) == Some(a) && !st.Terminate?
    ensures StaysOut(w, a, Apply(w, st))
  {
    match st
    case Start(_, s) => NoCallInStart(w, a, s);
    case Lock(_, s) => NoCallInSection(w, a, s);
    case Own(_, s) => NoCallByOwner(w, a, s);
    case Visit(_, s) => NoCallInVisit(w, a, s);
  }

  lemma NoCallInStart(w: World, a: nat, s: StartStep)
    requires StartEnabled(w, a, s)
    ensures StaysOut(w, a, StartApply(w, a, s))
  {
  }

  lemma NoCallInSection(w: World, a: nat, s: SectionStep)
    requires SectionEnabled(w, a, s)
    ensures StaysOut(w, a, SectionApply(w, a, s))
  {
  }

  lemma NoCallByOwner(w: World, a: nat, s: OwnerStep)
    requires OwnerEnabled(w, a, s)
    ensures StaysOut(w, a, OwnerApply(w, a, s))
  {
  }

  lemma NoCallInVisit(w: World, a: nat, s: VisitStep)
    requires VisitEnabled(w, a, s)
    ensures StaysOut(w, a, VisitApply(w, a, s))
  {
  }

  /** The call ends: an error, a probe that finds the pid gone, or neither SIGTERM nor SIGKILL found anything. */
  predicate EndsCall(w: World, st: Step, a: nat, m: Memory) {
    || Errs(w, st, a, m)
    || (IsProbe(st) && !Taken(w, a))
    || (st.Terminate? && st.kill.SendKill? && !st.kill.sent && !m.sent)
  }

  /** Calls of `terminate_pid` end exactly so, and SIGKILL comes only after 20 probes in a row that found the pid. */
  lemma CallsEndExactly(ws: seq<World>, sts: seq<Step>, i: nat, a: nat)
    requires Run(ws, sts) && i < |sts| && Mover(sts[i]) == Some(a) && a in ws[i].actors && ws[i].actors[a].pc.Hit?
    ensures var m := Memories(ws, sts, i, a);
            && (!ws[i + 1].actors[a].pc.Hit? <==> EndsCall(ws[i], sts[i], a, m))
            && (sts[i].Terminate? && sts[i].kill.SendKill? ==> m.probes == 20)
  {
    AlwaysRemembered(ws, sts, i, a);
    AlwaysFits(ws, sts, i);
    assert FitsDisk(ws[i].actors[a], ws[i].disk);
    CallStep(ws[i], a, sts[i], Memories(ws, sts, i, a));
  }

  lemma CallStep(w: World, a: nat, st: Step, m: Memory)
    requires Enabled(w, st) && Mover(st) == Some(a) && a in w.actors && w.actors[a].pc.Hit?
    requires InCall(w.actors[a], m) && Fits(w.actors[a])
    ensures !Apply(w, st).actors[a].pc.Hit? <==> EndsCall(w, st, a, m)
    ensures st.Terminate? && st.kill.SendKill? ==> m.probes == 20
  {
  }

  // ------------------------------------------------------- both claims

  /** The claims a caller works through: a stop begins with the child, a timed-out start with the supervisor. */
  function ClaimOf(x: Actor, n: nat): Claim
    requires x.seen.Some?
  {
    var m := x.seen.value;
    if (n == 0) == x.role.Starter? then Claim(m.supervisorPid, m.supervisorToken) else Claim(m.childPid, m.childToken)
  }

  /** At this step the caller looks at a claim, and calls `terminate_pid` exactly if the claimed process is alive. */
  predicate Tends(w: World, st: Step, v: World, a: nat, c: Claim) {
    && st.Terminate? && st.a == a && st.kill.NextTarget? && a in v.actors
    && if Alive(w.procs, st.kill.readable, c)
       then v.actors[a].pc.Hit? && v.actors[a].pc.claim == c && v.actors[a].pc.phase == Term
       else !v.actors[a].pc.Hit?
  }

  predicate TendsAt(ws: seq<World>, sts: seq<Step>, i: nat, a: nat, c: Claim) {
    i < |sts| && i + 1 < |ws| && Tends(ws[i], sts[i], ws[i + 1], a, c)
  }

  ghost predicate Tended(ws: seq<World>, sts: seq<Step>, k: nat, a: nat, c: Claim) {
    exists i: nat | i < k :: TendsAt(ws, sts, i, a, c)
  }

  /** Before step `k` actor `a` has looked at claim `c` and then at claim `d`. */
  ghost predicate TendedBoth(ws: seq<World>, sts: seq<Step>, k: nat, a: nat, c: Claim, d: Claim) {
    exists j: nat | j < k :: TendsAt(ws, sts, j, a, d) && Tended(ws, sts, j, a, c)
  }

  predicate SawStopped(x: Actor) {
    x.seen.Some? && x.seen.value.status.Stopped?
  }

  /** How many of the two claims of its snapshot a caller has looked at. */
  function Progress(x: Actor): int {
    match x.pc
    case Aim(todo, _) => 2 - |todo|
    case Hit(_, _, rest, _) => 2 - |rest|
    case Section(_, _) => 2
    case UnlockStart(r) => if r == TimedOut then 2 else 0
    case Done(how) =>
      if how == StopFailed || how == StartDone(TimedOut) || (how == StopOk && !SawStopped(x)) then 2 else 0
    case _ => 0
  }

  predicate IsCaller(w: World, a: nat) {
    a in w.actors && (w.actors[a].role.Starter? || w.actors[a].role.Stopper?)
  }

  ghost predicate TendedAsFar(ws: seq<World>, sts: seq<Step>, k: nat, a: nat, x: Actor) {
    && (Progress(x) >= 1 ==> x.seen.Some?)
    && (Progress(x) == 1 ==> Tended(ws, sts, k, a, ClaimOf(x, 0)))
    && (Progress(x) >= 2 ==> TendedBoth(ws, sts, k, a, ClaimOf(x, 0), ClaimOf(x, 1)))
  }

  lemma {:induction false} AlwaysTended(ws: seq<World>, sts: seq<Step>, k: nat, a: nat)
    requires Run(ws, sts) && k < |ws| && IsCaller(ws[k], a)
    ensures TendedAsFar(ws, sts, k, a, ws[k].actors[a])
  {
    var w, st := ws[k - 1], sts[k - 1];
    if Mover(st) != Some(a) { OthersStay(w, st, a); } else { RoleStays(w, st, a); }
    if a in w.actors {
      AlwaysTended(ws, sts, k - 1, a);
      TendedLater(ws, sts, k - 1, a, w.actors[a]);
      if Mover(st) == Some(a) { TendedNext(ws, sts, k - 1, a); }
    }
  }

  lemma TendedNext(ws: seq<World>, sts: seq<Step>, k: nat, a: nat)
    requires Run(ws, sts) && k < |sts| && Mover(sts[k]) == Some(a) && IsCaller(ws[k], a)
    requires TendedAsFar(ws, sts, k, a, ws[k].actors[a])
    ensures a in ws[k + 1].actors && TendedAsFar(ws, sts, k + 1, a, ws[k + 1].actors[a])
  {
    Always(ws, sts, k);
    AlwaysFits(ws, sts, k);
    assert ActorNames(ws[k].actors, ws[k].actors[a]) && FitsDisk(ws[k].actors[a], ws[k].disk);
    TendsNext(ws[k], sts[k], a);
    TendedMore(ws, sts, k, a, ws[k].actors[a], ws[k + 1].actors[a]);
  }

  lemma TendedLater(ws: seq<World>, sts: seq<Step>, k: nat, a: nat, x: Actor)
    requires TendedAsFar(ws, sts, k, a, x)
    ensures TendedAsFar(ws, sts, k + 1, a, x)
  {
  }

  /** The step leaves the caller's progress, takes it back to nothing, or looks at the next claim. */
  predicate NextClaim(w: World, st: Step, v: World, a: nat, x: Actor, y: Actor) {
    || Progress(y) == 0
    || (Progress(y) == Progress(x) && y.seen == x.seen && y.role == x.role)
    || (&& 0 <= Progress(x) < 2 && Progress(y) == Progress(x) + 1 && y.seen == x.seen && y.role == x.role
        && x.seen.Some? && Tends(w, st, v, a, ClaimOf(x, Progress(x))))
  }

  lemma TendedMore(ws: seq<World>, sts: seq<Step>, k: nat, a: nat, x: Actor, y: Actor)
    requires k < |sts| && k + 1 < |ws| && TendedAsFar(ws, sts, k, a, x) && Progress(y) <= 2
    requires NextClaim(ws[k], sts[k], ws[k + 1], a, x, y)
    ensures TendedAsFar(ws, sts, k + 1, a, y)
  {
    TendedLater(ws, sts, k, a, x);
    if Progress(y) != 0 && Progress(y) != Progress(x) { assert TendsAt(ws, sts, k, a, ClaimOf(x, Progress(x))); }
  }

  lemma TendsNext(w: World, st: Step, a: nat)
    requires Enabled(w, st) && Mover(st) == Some(a) && IsCaller(w, a) && OnPlan(w.actors[a]) && Fits(w.actors[a])
    ensures var v := Apply(w, st);
            && a in v.actors && Progress(v.actors[a]) <= 2
            && NextClaim(w, st, v, a, w.actors[a], v.actors[a])
  {
    match st
    case Start(_, s) => TendsInStart(w, a, s);
    case Lock(_, s) => TendsInSection(w, a, s);
    case Terminate(_, s) => TendsInKill(w, a, s);
    case Visit(_, s) => TendsInVisit(w, a, s);
  }

  lemma TendsInSection(w: World, a: nat, s: SectionStep)
    requires SectionEnabled(w, a, s) && IsCaller(w, a)
    ensures var v := SectionApply(w, a, s);
            && Progress(v.actors[a]) <= 2 && NextClaim(w, Lock(a, s), v, a, w.actors[a], v.actors[a])
  {
  }

  lemma TendsInVisit(w: World, a: nat, s: VisitStep)
    requires VisitEnabled(w, a, s)
    ensures var v := VisitApply(w, a, s);
            && Progress(v.actors[a]) <= 2 && NextClaim(w, Visit(a, s), v, a, w.actors[a], v.actors[a])
  {
  }

  lemma TendsInStart(w: World, a: nat, s: StartStep)
    requires StartEnabled(w, a, s)
    ensures var v := StartApply(w, a, s);
            && Progress(v.actors[a]) <= 2 && NextClaim(w, Start(a, s), v, a, w.actors[a], v.actors[a])
  {
  }

  lemma TendsInKill(w: World, a: nat, s: KillStep)
    requires KillEnabled(w, a, s) && OnPlan(w.actors[a])
    ensures var v := KillApply(w, a, s);
            && Progress(v.actors[a]) <= 2 && NextClaim(w, Terminate(a, s), v, a, w.actors[a], v.actors[a])
  {
  }

  // ------------------------------------------------------------ the stop

  /** Stop `a` at a point it can be at after it looked at `disk`. */
  predicate AfterLook(x: Actor, disk: Option<Record>) {
    && x.role.Stopper?
    && (|| (disk == None && x.pc == Done(NoSession))
        || (disk.Some? && x.seen == disk && disk.value.status == Stopped && x.pc == Done(StopOk))
        || (&& disk.Some? && x.seen == disk && disk.value.status != Stopped
            && (x.pc.Aim? || x.pc.Hit? || x.pc.Section? || x.pc == Done(StopOk) || x.pc == Done(StopFailed))))
  }

  /** A stop past its look has looked once. */
  lemma {:induction false} StopsLook(ws: seq<World>, sts: seq<Step>, k: nat, a: nat) returns (l: nat)
    requires Run(ws, sts) && k < |ws| && a in ws[k].actors && ws[k].actors[a].role.Stopper?
    requires !ws[k].actors[a].pc.LookStop?
    ensures l < k && sts[l] == Visit(a, LookToStop) && AfterLook(ws[k].actors[a], ws[l].disk)
  {
    var w, st := ws[k - 1], sts[k - 1];
    if st == Visit(a, LookToStop) {
      l := k - 1;
    } else {
      StopBefore(w, st, a);
      l := StopsLook(ws, sts, k - 1, a);
      AfterLookStays(w, st, a, ws[l].disk);
    }
  }

  lemma StopBefore(w: World, st: Step, a: nat)
    requires Enabled(w, st) && st != Visit(a, LookToStop)
    requires a in Apply(w, st).actors && Apply(w, st).actors[a].role.Stopper? && !Apply(w, st).actors[a].pc.LookStop?
    ensures a in w.actors && w.actors[a].role.Stopper? && !w.actors[a].pc.LookStop?
  {
    if Mover(st) != Some(a) {
      OthersStay(w, st, a);
    } else {
      RoleStays(w, st, a);
    }
  }

  lemma AfterLookStays(w: World, st: Step, a: nat, disk: Option<Record>)
    requires Enabled(w, st) && a in w.actors && AfterLook(w.actors[a], disk)
    ensures a in Apply(w, st).actors && AfterLook(Apply(w, st).actors[a], disk)
  {
    if Mover(st) != Some(a) { OthersStay(w, st, a); }
  }

  /** The answer of a stop that saw `disk`, by whether one of its calls ended in an error. */
  function StopAnswer(disk: Option<Record>, erred: bool): Ending {
    if disk == None then NoSession
    else if disk.value.status == Stopped then StopOk
    else if erred then StopFailed
    else StopOk
  }

  ghost predicate Marks(ws: seq<World>, sts: seq<Step>, l: nat, k: nat, a: nat) {
    exists i: nat | l < i < k && i < |sts| && i < |ws| :: LeavesMarking(ws[i], sts[i], a, Stopper, "stopped by user")
  }

  /**
   A stop that has ended looked at the record once, and answers by what it saw and
   by whether a call of its own ended in an error. If the run was not Stopped it
   has looked at the child and then at the supervisor of that record, and it answers
   Ok only after a section in which it marked the run stopped.
   */
  lemma StopAnswers(ws: seq<World>, sts: seq<Step>, k: nat, a: nat) returns (l: nat)
    requires Run(ws, sts) && k < |ws| && a in ws[k].actors && ws[k].actors[a].role.Stopper? && ws[k].actors[a].pc.Done?
    ensures l < k && sts[l] == Visit(a, LookToStop)
    ensures ws[k].actors[a].pc == Done(StopAnswer(ws[l].disk, Erred(ws, sts, k, a)))
    ensures ws[l].disk.Some? && ws[l].disk.value.status != Stopped ==>
              var m := ws[l].disk.value;
              && TendedBoth(ws, sts, k, a, Claim(m.childPid, m.childToken), Claim(m.supervisorPid, m.supervisorToken))
              && (Erred(ws, sts, k, a) || Marks(ws, sts, l, k, a))
  {
    l := StopsLook(ws, sts, k, a);
    AlwaysRemembered(ws, sts, k, a);
    AlwaysTended(ws, sts, k, a);
    if ws[l].disk.Some? && ws[l].disk.value.status != Stopped && !Erred(ws, sts, k, a) {
      StopMarks(ws, sts, l, k, a);
    }
  }

  lemma StopMarks(ws: seq<World>, sts: seq<Step>, l: nat, k: nat, a: nat)
    requires Run(ws, sts) && l < k < |ws| && sts[l] == Visit(a, LookToStop) && AnswersAt(ws[k], a, StopOk)
    requires ws[l].disk.Some? && ws[l].disk.value.status != Stopped
    ensures Marks(ws, sts, l, k, a)
  {
    AnswersAreSettled(ws, sts, k, a, StopOk);
    var i: nat :| i < k && SettlesAt(ws, sts, i, a, StopOk);
    if sts[i] == Visit(a, LookToStop) {
      OneLook(ws, sts, i, l, a);
    } else if i < l {
      NoLookAfter(ws, sts, i, l, a);
    }
  }

  lemma NoLookAfter(ws: seq<World>, sts: seq<Step>, i: nat, l: nat, a: nat)
    requires Run(ws, sts) && i < l < |sts| && SettlesAt(ws, sts, i, a, StopOk)
    ensures sts[l] != Visit(a, LookToStop)
  {
    SettledAnswersAreGiven(ws, sts, i, l, a, StopOk);
  }

  lemma OneLook(ws: seq<World>, sts: seq<Step>, i: nat, l: nat, a: nat)
    requires Run(ws, sts) && i < |sts| && l < |sts| && sts[i] == sts[l] == Visit(a, LookToStop)
    ensures i == l
  {
    if i < l { LooksOnce(ws, sts, i, l, a); }
    if l < i { LooksOnce(ws, sts, l, i, a); }
  }

  lemma {:induction false} LooksOnce(ws: seq<World>, sts: seq<Step>, l: nat, i: nat, a: nat)
    requires Run(ws, sts) && l < i < |ws| && sts[l] == Visit(a, LookToStop)
    ensures a in ws[i].actors && AfterLook(ws[i].actors[a], ws[l].disk)
    decreases i
  {
    if l < i - 1 {
      LooksOnce(ws, sts, l, i - 1, a);
      AfterLookStays(ws[i - 1], sts[i - 1], a, ws[l].disk);
    }
  }

  // ----------------------------------------------------- a timed-out start

  /** How many of the first `k` steps are polls of start `a` that found its record Starting. */
  function Polls(ws: seq<World>, sts: seq<Step>, k: nat, a: nat): nat
    requires k <= |sts| < |ws|
  {
    if k == 0 then 0 else Polls(ws, sts, k - 1, a) + if PollsStarting(ws[k - 1], sts[k - 1], a) then 1 else 0
  }

  predicate PollsStarting(w: World, st: Step, a: nat) {
    st == Start(a, DoPoll) && w.disk.Some? && w.disk.value.status == Starting
  }

  /** What the program point of a start says about the polls it has made. */
  predicate PollsFit(w: World, a: nat, n: nat) {
    if a !in w.actors then n == 0
    else w.actors[a].role.Starter? ==>
      match w.actors[a].pc
      case Poll(m) => m == n < 50
      case UnlockStart(r) => r.TimedOut? ==> n == 50
      case Done(how) => how == StartDone(TimedOut) ==> n == 50
      case LookLast => n == 50
      case Aim(_, _) => n == 50
      case Hit(_, _, _, _) => n == 50
      case Section(_, _) => n == 50
      case _ => n == 0
  }

  lemma {:induction false} AlwaysPollsFit(ws: seq<World>, sts: seq<Step>, k: nat, a: nat)
    requires Run(ws, sts) && k < |ws|
    ensures PollsFit(ws[k], a, Polls(ws, sts, k, a))
  {
    if k > 0 {
      AlwaysPollsFit(ws, sts, k - 1, a);
      AlwaysFits(ws, sts, k - 1);
      PollsStep(ws[k - 1], sts[k - 1], a, Polls(ws, sts, k - 1, a));
    }
  }

  lemma PollsStep(w: World, st: Step, a: nat, n: nat)
    requires PollsFit(w, a, n) && FitInv(w) && Enabled(w, st)
    ensures PollsFit(Apply(w, st), a, n + if PollsStarting(w, st, a) then 1 else 0)
  {
    if Mover(st) != Some(a) {
      OthersStay(w, st, a);
    } else {
      RoleStays(w, st, a);
      assert FitsDisk(w.actors[a], w.disk);
      match st
      case Start(_, s) => PollsInStart(w, a, s, n);
      case Lock(_, s) => PollsInSection(w, a, s, n);
      case Terminate(_, s) => PollsInKill(w, a, s, n);
      case _ =>
    }
  }

  lemma PollsInSection(w: World, a: nat, s: SectionStep, n: nat)
    requires PollsFit(w, a, n) && SectionEnabled(w, a, s)
    ensures PollsFit(SectionApply(w, a, s), a, n)
  {
  }

  lemma PollsInKill(w: World, a: nat, s: KillStep, n: nat)
    requires PollsFit(w, a, n) && KillEnabled(w, a, s)
    ensures PollsFit(KillApply(w, a, s), a, n)
  {
  }

  lemma PollsInStart(w: World, a: nat, s: StartStep, n: nat)
    requires PollsFit(w, a, n) && StartEnabled(w, a, s)
    ensures PollsFit(StartApply(w, a, s), a, n + if PollsStarting(w, Start(a, s), a) then 1 else 0)
  {
  }

  /** Start `a` took its last look at `m`, which was still Starting. */
  predicate LastLook(w: World, st: Step, a: nat, m: Record) {
    st == Start(a, DoLookLast) && w.disk == Some(m) && m.status == Starting
  }

  ghost predicate LastLookAt(ws: seq<World>, sts: seq<Step>, l: nat, a: nat, m: Record) {
    l < |sts| && l < |ws| && LastLook(ws[l], sts[l], a, m)
  }

  lemma {:induction false} SnapshotIsLastLook(ws: seq<World>, sts: seq<Step>, k: nat, a: nat)
    requires Run(ws, sts) && k < |ws| && a in ws[k].actors && ws[k].actors[a].role.Starter?
    requires ws[k].actors[a].seen.Some?
    ensures exists l: nat | l < k :: LastLookAt(ws, sts, l, a, ws[k].actors[a].seen.value)
  {
    var w, st := ws[k - 1], sts[k - 1];
    if Mover(st) != Some(a) { OthersStay(w, st, a); } else { RoleStays(w, st, a); SeenBefore(w, st, a); }
    if a in w.actors && w.actors[a].seen == ws[k].actors[a].seen {
      SnapshotIsLastLook(ws, sts, k - 1, a);
    } else {
      assert LastLookAt(ws, sts, k - 1, a, ws[k].actors[a].seen.value);
    }
  }

  ghost predicate SeenNow(w: World, st: Step, v: World, a: nat) {
    && a in w.actors && a in v.actors
    && (v.actors[a].seen == w.actors[a].seen
        || (v.actors[a].seen.Some? && LastLook(w, st, a, v.actors[a].seen.value)))
  }

  lemma SeenBefore(w: World, st: Step, a: nat)
    requires Enabled(w, st) && Mover(st) == Some(a) && w.actors[a].role.Starter?
    ensures SeenNow(w, st, Apply(w, st), a)
  {
    match st
    case Start(_, s) => SeenInStart(w, a, s);
    case Lock(_, s) => SeenInSection(w, a, s);
    case Terminate(_, s) => SeenInKill(w, a, s);
  }

  lemma SeenInStart(w: World, a: nat, s: StartStep)
    requires StartEnabled(w, a, s)
    ensures SeenNow(w, Start(a, s), StartApply(w, a, s), a)
  {
  }

  lemma SeenInSection(w: World, a: nat, s: SectionStep)
    requires SectionEnabled(w, a, s)
    ensures SeenNow(w, Lock(a, s), SectionApply(w, a, s), a)
  {
  }

  lemma SeenInKill(w: World, a: nat, s: KillStep)
    requires KillEnabled(w, a, s)
    ensures SeenNow(w, Terminate(a, s), KillApply(w, a, s), a)
  {
  }

  /**
   A start that has timed out polled 50 times and took one last look, found its
   record Starting each time, and has looked at the supervisor and then at the child
   of that record before it marked the run stopped.
   */
  lemma TimedOutStarts(ws: seq<World>, sts: seq<Step>, k: nat, a: nat) returns (l: nat)
    requires Run(ws, sts) && k < |ws| && a in ws[k].actors && ws[k].actors[a].role.Starter?
    requires ws[k].actors[a].pc == Done(StartDone(TimedOut))
    ensures Polls(ws, sts, k, a) == 50
    ensures l < k && ws[l].disk.Some? && LastLook(ws[l], sts[l], a, ws[l].disk.value)
    ensures var m := ws[l].disk.value;
            TendedBoth(ws, sts, k, a, Claim(m.supervisorPid, m.supervisorToken), Claim(m.childPid, m.childToken))
  {
    AlwaysPollsFit(ws, sts, k, a);
    AlwaysTended(ws, sts, k, a);
    SnapshotIsLastLook(ws, sts, k, a);
    l :| l < k && LastLookAt(ws, sts, l, a, ws[k].actors[a].seen.value);
  }
}
