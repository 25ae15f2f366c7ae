/**
 The lifecycle protocol of one session name (src/session.rs and the start path
 of src/daemon.rs) as a transition system. Any number of starters, owners,
 stoppers and senders interleave; each shared effect is one step. A start may
 use the daemon (an owner thread that is handed its generation) or direct mode
 (a supervisor process that adopts the generation it finds on disk).
 */
module Lifecycle {
  import opened Wrappers
  import opened Metadata

  const POLLS: nat := 50        // looks of wait_for_running_metadata
  const PROBES: nat := 20       // liveness probes after each signal

  datatype Role = Starter(direct: bool) | Owner(direct: bool) | Stopper | Sender

  /** A process this actor created: its pid and the token the kernel gave it. */
  datatype Ident = Ident(pid: nat, token: nat)

  /** Where an actor is inside a status-lock section. */
  datatype Stage = Acquire | Load | Save(next: Record) | Release(wrote: bool)

  /** Where an actor is inside `terminate_pid`. */
  datatype Phase = Term | TermWait(n: nat, sent: bool) | Kill(sent: bool) | KillWait(n: nat)

  datatype Ending =
    | StartDone(result: StartResult)
    | OwnerDone
    | StopOk | StopFailed
    | NoSession | NotRunning | NoFifo | NoReader | Sent

  datatype Pc =
    // a starter, from the start lock to its release
    | LockStart
    | LookFirst
    | CheckActive(found: Record)
    | ReadGeneration
    | RemoveFifo
    | MakeFifo
    | SaveFresh
    | SpawnOwner
    | Poll(n: nat)
    | LookLast
    | UnlockStart(result: StartResult)
    // an owner
    | SpawnChild
    | OpenFifo
    | Serve
    | CloseReader(text: string, code: nat)
    | KillChild(text: string)
    | ReapChild(text: string)
    | Dead
    // a stopper; Aim and Hit are shared with a starter that timed out
    | LookStop
    | Aim(todo: seq<Claim>, bad: bool)
    | Hit(claim: Claim, phase: Phase, rest: seq<Claim>, bad: bool)
    // a sender
    | LookSend
    | OpenSend
    // shared
    | Section(job: Job, stage: Stage)
    | Done(how: Ending)

  /**
   `gen` is the run a starter initialised, the run an owner serves, or the run in
   a stopper's snapshot `seen`. `home` is the run of the start that spawned an
   owner. `failed` records that an owner's set-up or input forwarding broke down
   after it promoted its run.
   */
  datatype Actor = Actor(
    role: Role, gen: nat, pc: Pc, home: nat, seen: Option<Record>,
    supervisor: Option<Ident>, child: Option<Ident>, reaped: bool,
    reader: Option<nat>, failed: bool)

  datatype World = World(
    disk: Option<Record>,
    startLock: Option<nat>,
    statusLock: Option<nat>,
    fifo: Option<nat>,
    nextFifo: nat,
    procs: Procs,
    nextToken: nat,
    actors: map<nat, Actor>)
  {
    function Go(a: nat, x: Actor): World {
      this.(actors := actors[a := x])
    }

    /** Open descriptors on the named FIFO's read side. */
    predicate HasReader() {
      fifo.Some? && exists a | a in actors :: actors[a].reader == fifo
    }
  }

  predicate Init(w: World) {
    w == World(None, None, None, None, 0, map[], 0, map[])
  }

  function NewActor(role: Role, pc: Pc, gen: nat): Actor {
    Actor(role, gen, pc, gen, None, None, None, false, None, false)
  }

  // ---------------------------------------------------------------- starters

  datatype StartStep =
    | TryLock | DoLookFirst | DoCheck(readable: bool) | DoReadGeneration | RejectCommand
    | DoRemoveFifo | DoMakeFifo | DoSaveFresh | InitFails | DoSpawn(o: nat, p: nat) | SpawnError
    | DoPoll | DoLookLast | DoUnlock

  predicate StartEnabled(w: World, a: nat, s: StartStep) {
    && a in w.actors
    && w.actors[a].role.Starter?
    && var pc := w.actors[a].pc;
       match s
       case TryLock => pc.LockStart?
       case DoLookFirst => pc.LookFirst?
       case DoCheck(_) => pc.CheckActive?
       case DoReadGeneration => pc.ReadGeneration?
       case RejectCommand => pc.ReadGeneration?
       case DoRemoveFifo => pc.RemoveFifo?
       case DoMakeFifo => pc.MakeFifo?
       case DoSaveFresh => pc.SaveFresh?
       case InitFails => pc.RemoveFifo? || pc.MakeFifo? || pc.SaveFresh?
       case DoSpawn(o, p) => pc.SpawnOwner? && o !in w.actors && p !in w.procs
       case SpawnError => pc.SpawnOwner? && w.actors[a].role.direct
       case DoPoll => pc.Poll? && w.disk.Some?
       case DoLookLast => pc.LookLast? && w.disk.Some?
       case DoUnlock => pc.UnlockStart?
  }

  function StartApply(w: World, a: nat, s: StartStep): World
    requires StartEnabled(w, a, s)
  {
    var x := w.actors[a];
    match s
    case TryLock =>
      if w.startLock.None? then w.(startLock := Some(a)).Go(a, x.(pc := LookFirst))
      else w.Go(a, x.(pc := Done(StartDone(AlreadyStarting))))
    case DoLookFirst =>
      w.Go(a, x.(pc := if w.disk.Some? then CheckActive(w.disk.value) else ReadGeneration))
    case DoCheck(readable) =>
      w.Go(a, x.(pc := if SessionIsActive(w.procs, readable, x.pc.found) then UnlockStart(AlreadyRunning)
                       else ReadGeneration))
    case RejectCommand => w.Go(a, x.(pc := UnlockStart(BadCommand)))
    case DoReadGeneration => w.Go(a, x.(gen := NextGeneration(w.disk), pc := RemoveFifo))
    case DoRemoveFifo => w.(fifo := None).Go(a, x.(pc := MakeFifo))
    case DoMakeFifo => w.(fifo := Some(w.nextFifo), nextFifo := w.nextFifo + 1).Go(a, x.(pc := SaveFresh))
    case DoSaveFresh => w.(disk := Some(Fresh(x.gen))).Go(a, x.(pc := SpawnOwner))
    case InitFails => w.Go(a, x.(pc := UnlockStart(NotInitialized)))
    case SpawnError => w.Go(a, x.(pc := UnlockStart(NotSpawned)))
    case DoSpawn(o, p) =>
      if x.role.direct then
        w.(procs := w.procs[p := Proc(w.nextToken, false)], nextToken := w.nextToken + 1)
        .Go(o, NewActor(Owner(true), Section(Adopt(p), Acquire), x.gen).(supervisor := Some(Ident(p, w.nextToken))))
        .Go(a, x.(pc := Poll(0)))
      else
        w.Go(o, NewActor(Owner(false), SpawnChild, x.gen)).Go(a, x.(pc := Poll(0)))
    case DoPoll =>
      var v := Verdict(w.disk.value);
      w.Go(a, x.(pc := if v.Some? then UnlockStart(v.value)
                       else if x.pc.n + 1 < POLLS then Poll(x.pc.n + 1) else LookLast))
    case DoLookLast =>
      var m := w.disk.value;
      if Verdict(m).Some? then w.Go(a, x.(pc := UnlockStart(Verdict(m).value)))
      else w.Go(a, x.(gen := m.generation, seen := Some(m), pc := Aim([SupervisorClaim(m), ChildClaim(m)], false)))
    case DoUnlock => w.(startLock := None).Go(a, x.(pc := Done(StartDone(x.pc.result))))
  }

  // ------------------------------------------------- status-lock sections

  datatype SectionStep = DoAcquire | DoLoad(readable: bool) | DoSave | DoRelease

  predicate SectionEnabled(w: World, a: nat, s: SectionStep) {
    && a in w.actors
    && w.actors[a].pc.Section?
    && (w.actors[a].role.Owner? || (w.actors[a].pc.job.MarkStopped? && !w.actors[a].role.Sender?))
    && var stage := w.actors[a].pc.stage;
       match s
       case DoAcquire => stage.Acquire? && w.statusLock.None?
       case DoLoad(_) => stage.Load?
       case DoSave => stage.Save?
       case DoRelease => stage.Release?
  }

  function SectionApply(w: World, a: nat, s: SectionStep): World
    requires SectionEnabled(w, a, s)
  {
    var x := w.actors[a];
    var job := x.pc.job;
    match s
    case DoAcquire => w.(statusLock := Some(a)).Go(a, x.(pc := Section(job, Load)))
    case DoLoad(readable) =>
      if w.disk.None? then w.Go(a, x.(pc := Section(job, Release(false))))
      else
        var m := w.disk.value;
        var gen := if job.Adopt? then m.generation else x.gen;
        var next := Outcome(job, gen, m, w.procs, readable);
        w.Go(a, x.(gen := gen, pc := Section(job, if next.Some? then Save(next.value) else Release(false))))
    case DoSave => w.(disk := Some(x.pc.stage.next)).Go(a, x.(pc := Section(job, Release(true))))
    case DoRelease => w.(statusLock := None).Go(a, AfterSection(x, job, x.pc.stage.wrote))
  }

  /** Where an actor goes on once it has left its section. */
  function AfterSection(x: Actor, job: Job, wrote: bool): Actor {
    match job
    case Adopt(_) => x.(pc := if wrote then SpawnChild else Dead)
    case RecordChild(_) => if wrote then x.(pc := OpenFifo) else Fail(x, "run is over")
    case Promote => if wrote then x.(pc := Serve) else Fail(x, "run is over")
    case MarkStopped(_, _) =>
      x.(pc := match x.role
               case Starter(_) => UnlockStart(TimedOut)
               case Owner(_) => Done(OwnerDone)
               case _ => Done(StopOk))
  }

  /** The error path of `supervise_pty`: its FIFO handle is dropped, the child is killed and reaped. */
  function Fail(x: Actor, text: string): Actor {
    x.(reader := None, pc := KillChild(text))
  }

  // ------------------------------------------------------------------ owners

  datatype OwnerStep =
    | DoSpawnChild(p: nat) | SpawnFails(text: string)
    | DoOpenFifo | OpenFails(text: string)
    | ServeFails(text: string) | ForwarderFails
    | WaitChild(text: string, code: nat) | DoCloseReader
    | DoKillChild | DoReapChild
    | Killed

  predicate ChildIsZombie(w: World, x: Actor) {
    x.child.Some? && x.child.value.pid in w.procs && w.procs[x.child.value.pid].zombie
  }

  predicate OwnerEnabled(w: World, a: nat, s: OwnerStep) {
    && a in w.actors
    && w.actors[a].role.Owner?
    && var x := w.actors[a];
       match s
       case DoSpawnChild(p) => x.pc.SpawnChild? && p !in w.procs
       case SpawnFails(_) => x.pc.SpawnChild?
       case DoOpenFifo => x.pc.OpenFifo?
       case OpenFails(_) => x.pc.OpenFifo?
       case ServeFails(_) => x.pc.Serve?
       case ForwarderFails => x.pc.Serve?
       case WaitChild(_, _) => x.pc.Serve? && ChildIsZombie(w, x)
       case DoCloseReader => x.pc.CloseReader?
       case DoKillChild => x.pc.KillChild?
       case DoReapChild => x.pc.ReapChild? && ChildIsZombie(w, x)
       case Killed => x.role.direct && x.supervisor.Some? && x.supervisor.value.pid in w.procs && !Finished(x)
  }

  predicate Finished(x: Actor) {
    x.pc.Done? || x.pc.Dead?
  }

  function OwnerApply(w: World, a: nat, s: OwnerStep): World
    requires OwnerEnabled(w, a, s)
  {
    var x := w.actors[a];
    match s
    case DoSpawnChild(p) =>
      w.(procs := w.procs[p := Proc(w.nextToken, false)], nextToken := w.nextToken + 1)
      .Go(a, x.(child := Some(Ident(p, w.nextToken)), pc := Section(RecordChild(p), Acquire)))
    case SpawnFails(text) => w.Go(a, x.(pc := Section(MarkStopped(text, None), Acquire)))
    case DoOpenFifo =>
      if w.fifo.Some? then w.Go(a, x.(reader := w.fifo, pc := Section(Promote, Acquire)))
      else w.Go(a, Fail(x, "no input FIFO"))
    case OpenFails(text) => w.Go(a, Fail(x, text))
    case ServeFails(text) => w.Go(a, Fail(x, text).(failed := true))
    case ForwarderFails => w.Go(a, x.(reader := None, failed := true))
    case WaitChild(text, code) =>
      w.(procs := w.procs - {x.child.value.pid}).Go(a, x.(reaped := true, pc := CloseReader(text, code)))
    case DoCloseReader =>
      w.Go(a, x.(reader := None, pc := Section(MarkStopped(x.pc.text, Some(x.pc.code)), Acquire)))
    case DoKillChild => w.Go(a, x.(pc := ReapChild(x.pc.text)))
    case DoReapChild =>
      w.(procs := w.procs - {x.child.value.pid})
      .Go(a, x.(reaped := true, pc := Section(MarkStopped(x.pc.text, None), Acquire)))
    case Killed =>
      var p := x.supervisor.value.pid;
      w.(procs := w.procs[p := w.procs[p].(zombie := true)],
         statusLock := if w.statusLock == Some(a) then None else w.statusLock)
      .Go(a, x.(reader := None, pc := Dead))
  }

  // --------------------------------------------------------- terminate_pid

  datatype KillStep =
    | NextTarget(readable: bool)
    | SendTerm(sent: bool, error: bool) | TermPoll
    | SendKill(sent: bool, error: bool) | KillPoll

  /** The possible answers of `signal_pid_and_group` for a pid that is or is not in the table. */
  predicate SignalAnswer(w: World, c: Claim, sent: bool, error: bool) {
    && !(sent && error)
    && (c.pid.Some? && c.pid.value in w.procs ==> sent || error)
  }

  predicate KillEnabled(w: World, a: nat, s: KillStep) {
    && a in w.actors
    && (w.actors[a].role.Starter? || w.actors[a].role.Stopper?)
    && var pc := w.actors[a].pc;
       match s
       case NextTarget(_) => pc.Aim?
       case SendTerm(sent, error) => pc.Hit? && pc.phase.Term? && SignalAnswer(w, pc.claim, sent, error)
       case TermPoll => pc.Hit? && pc.phase.TermWait?
       case SendKill(sent, error) => pc.Hit? && pc.phase.Kill? && SignalAnswer(w, pc.claim, sent, error)
       case KillPoll => pc.Hit? && pc.phase.KillWait?
  }

  predicate Probe(w: World, c: Claim) {
    c.pid.Some? && c.pid.value in w.procs
  }

  function KillApply(w: World, a: nat, s: KillStep): World
    requires KillEnabled(w, a, s)
  {
    var x := w.actors[a];
    var pc := x.pc;
    match s
    case NextTarget(readable) =>
      w.Go(a, x.(pc :=
        if pc.todo == [] then
          if pc.bad && !x.role.Starter? then Done(StopFailed)
          else Section(MarkStopped(if x.role.Starter? then "start timed out" else "stopped by user", None), Acquire)
        else if PidIsOurs(w.procs, readable, pc.todo[0]) then Hit(pc.todo[0], Term, pc.todo[1..], pc.bad)
        else Aim(pc.todo[1..], pc.bad)))
    case SendTerm(sent, error) =>
      w.Go(a, x.(pc := if error then Aim(pc.rest, true) else pc.(phase := TermWait(0, sent))))
    case TermPoll =>
      w.Go(a, x.(pc :=
        if !Probe(w, pc.claim) then Aim(pc.rest, pc.bad)
        else if pc.phase.n + 1 < PROBES then pc.(phase := TermWait(pc.phase.n + 1, pc.phase.sent))
        else pc.(phase := Kill(pc.phase.sent))))
    case SendKill(sent, error) =>
      w.Go(a, x.(pc :=
        if error then Aim(pc.rest, true)
        else if !pc.phase.sent && !sent then Aim(pc.rest, pc.bad)
        else pc.(phase := KillWait(0))))
    case KillPoll =>
      w.Go(a, x.(pc :=
        if !Probe(w, pc.claim) then Aim(pc.rest, pc.bad)
        else if pc.phase.n + 1 < PROBES then pc.(phase := KillWait(pc.phase.n + 1))
        else Aim(pc.rest, true)))
  }

  // ------------------------------------------ the looks of stop and of send

  datatype VisitStep = LookToStop | LookToSend | OpenToSend

  predicate VisitEnabled(w: World, a: nat, s: VisitStep) {
    && a in w.actors
    && match s
       case LookToStop => w.actors[a].role.Stopper? && w.actors[a].pc.LookStop?
       case LookToSend => w.actors[a].role.Sender? && w.actors[a].pc.LookSend?
       case OpenToSend => w.actors[a].role.Sender? && w.actors[a].pc.OpenSend?
  }

  function VisitApply(w: World, a: nat, s: VisitStep): World
    requires VisitEnabled(w, a, s)
  {
    var x := w.actors[a];
    match s
    case LookToStop =>
      if w.disk.None? then w.Go(a, x.(pc := Done(NoSession)))
      else
        var m := w.disk.value;
        w.Go(a, x.(gen := m.generation, seen := Some(m),
                   pc := if m.status.Stopped? then Done(StopOk) else Aim([ChildClaim(m), SupervisorClaim(m)], false)))
    case LookToSend =>
      w.Go(a, x.(pc := if w.disk.None? then Done(NoSession)
                       else if w.disk.value.status.Running? then OpenSend else Done(NotRunning)))
    case OpenToSend =>
      w.Go(a, x.(pc := Done(if w.fifo.None? then NoFifo else if w.HasReader() then Sent else NoReader)))
  }

  // ------------------------------------------------------------- the system

  /** Arrivals of new callers, and what other processes and the kernel do. */
  datatype SystemStep = Arrive(b: nat, role: Role) | Stranger(p: nat) | Exit(p: nat) | Reap(p: nat)

  /** The process is a supervisor that is still at work; its end is the step `Killed`. */
  predicate IsSupervisor(x: Actor, i: Ident) {
    !Finished(x) && x.supervisor == Some(i)
  }

  /** Only the owner that spawned a child reaps it, unless that owner was killed. */
  predicate MustReap(x: Actor, i: Ident) {
    !x.pc.Dead? && !x.reaped && x.child == Some(i)
  }

  predicate SystemEnabled(w: World, s: SystemStep) {
    match s
    case Arrive(b, role) => b !in w.actors && !role.Owner?
    case Stranger(p) => p !in w.procs
    case Exit(p) =>
      && p in w.procs
      && forall o | o in w.actors :: !IsSupervisor(w.actors[o], Ident(p, w.procs[p].token))
    case Reap(p) =>
      && p in w.procs
      && w.procs[p].zombie
      && forall o | o in w.actors ::
           && !IsSupervisor(w.actors[o], Ident(p, w.procs[p].token))
           && !MustReap(w.actors[o], Ident(p, w.procs[p].token))
  }

  function SystemApply(w: World, s: SystemStep): World
    requires SystemEnabled(w, s)
  {
    match s
    case Arrive(b, role) =>
      w.Go(b, NewActor(role, match role case Starter(_) => LockStart case Stopper => LookStop case _ => LookSend, 0))
    case Stranger(p) => w.(procs := w.procs[p := Proc(w.nextToken, false)], nextToken := w.nextToken + 1)
    case Exit(p) => w.(procs := w.procs[p := w.procs[p].(zombie := true)])
    case Reap(p) => w.(procs := w.procs - {p})
  }

  // ------------------------------------------------------------------- steps

  datatype Step =
    | Start(a: nat, start: StartStep)
    | Lock(a: nat, section: SectionStep)
    | Own(a: nat, own: OwnerStep)
    | Terminate(a: nat, kill: KillStep)
    | Visit(a: nat, visit: VisitStep)
    | System(event: SystemStep)

  predicate Enabled(w: World, st: Step) {
    match st
    case Start(a, s) => StartEnabled(w, a, s)
    case Lock(a, s) => SectionEnabled(w, a, s)
    case Own(a, s) => OwnerEnabled(w, a, s)
    case Terminate(a, s) => KillEnabled(w, a, s)
    case Visit(a, s) => VisitEnabled(w, a, s)
    case System(s) => SystemEnabled(w, s)
  }

  function Apply(w: World, st: Step): World
    requires Enabled(w, st)
  {
    match st
    case Start(a, s) => StartApply(w, a, s)
    case Lock(a, s) => SectionApply(w, a, s)
    case Own(a, s) => OwnerApply(w, a, s)
    case Terminate(a, s) => KillApply(w, a, s)
    case Visit(a, s) => VisitApply(w, a, s)
    case System(s) => SystemApply(w, s)
  }

  // ------------------------------------------------------------ assumptions

  /** `initialize_session_files` does not save between another section's load and save. */
  ghost predicate InitExclusive(w: World, st: Step) {
    st.Start? && st.start.DoSaveFresh? ==> !PendingSave(w)
  }

  ghost predicate PendingSave(w: World) {
    exists b | b in w.actors :: w.actors[b].pc.Section? && w.actors[b].pc.stage.Save?
  }

  /** The start time of a process that has not been reaped can be read. */
  predicate Readable(st: Step) {
    && (st.Start? && st.start.DoCheck? ==> st.start.readable)
    && (st.Lock? && st.section.DoLoad? ==> st.section.readable)
    && (st.Terminate? && st.kill.NextTarget? ==> st.kill.readable)
  }

  /** The pid a step hands to a new process. */
  function NewPid(w: World, st: Step): Option<nat> {
    match st
    case Start(a, DoSpawn(_, p)) => if a in w.actors && w.actors[a].role == Starter(true) then Some(p) else None
    case Own(_, DoSpawnChild(p)) => Some(p)
    case System(Stranger(p)) => Some(p)
    case _ => None
  }

  /** No pid is handed out again while some `terminate_pid` call may still signal it. */
  ghost predicate NoRecycling(w: World, st: Step) {
    NewPid(w, st).Some? ==> !Targeted(w, NewPid(w, st).value)
  }

  /** The actor is in a `terminate_pid` call on `p` and has not sent its last signal. */
  predicate MaySignal(x: Actor, p: nat) {
    x.pc.Hit? && !x.pc.phase.KillWait? && x.pc.claim.pid == Some(p)
  }

  ghost predicate Targeted(w: World, p: nat) {
    exists b | b in w.actors :: MaySignal(w.actors[b], p)
  }

  /** A supervisor process adopts the run of the start that spawned it. */
  predicate AdoptsOwn(w: World, st: Step) {
    st.Lock? && st.section.DoLoad? && st.a in w.actors && w.actors[st.a].pc.Section?
    && w.actors[st.a].pc.job.Adopt? && w.disk.Some?
    ==> w.disk.value.generation == w.actors[st.a].home
  }

  // -------------------------------------------------------------------- runs

  /** `ws` are the states of a run whose steps are `sts`. */
  ghost predicate Run(ws: seq<World>, sts: seq<Step>) {
    && |ws| == |sts| + 1
    && Init(ws[0])
    && forall i {:trigger sts[i]} | 0 <= i < |sts| :: Enabled(ws[i], sts[i]) && ws[i + 1] == Apply(ws[i], sts[i])
  }
}
