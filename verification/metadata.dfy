/**
 The per-session metadata record and the decisions the program takes by looking
 at one record (src/session.rs). Name, directory, command, geometry and time
 stamps are left out: no decision of the lifecycle reads them.
 */
module Metadata {
  import opened Wrappers

  datatype Status = Starting | Running | Stopped

  datatype Record = Record(
    status: Status,
    generation: nat,
    supervisorPid: Option<nat>,
    supervisorToken: Option<nat>,
    childPid: Option<nat>,
    childToken: Option<nat>,
    exitStatus: Option<string>,
    exitCode: Option<nat>)

  /** The kernel's process table: an entry stays until the process is reaped. */
  datatype Proc = Proc(token: nat, zombie: bool)
  type Procs = map<nat, Proc>

  /** A (pid, start-time token) pair as a record claims it. */
  datatype Claim = Claim(pid: Option<nat>, token: Option<nat>)

  function ChildClaim(m: Record): Claim {
    Claim(m.childPid, m.childToken)
  }

  function SupervisorClaim(m: Record): Claim {
    Claim(m.supervisorPid, m.supervisorToken)
  }

  /** `process_start_time`: `readable` says whether the platform answers this query. */
  function StartTime(procs: Procs, readable: bool, pid: nat): Option<nat> {
    if readable && pid in procs then Some(procs[pid].token) else None
  }

  /** `pid_is_ours`: a zombie still answers the liveness probe. */
  predicate PidIsOurs(procs: Procs, readable: bool, c: Claim) {
    && c.pid.Some?
    && c.pid.value in procs
    && (c.token.Some? ==> StartTime(procs, readable, c.pid.value) == c.token)
  }

  predicate SessionIsActive(procs: Procs, readable: bool, m: Record) {
    && m.status.Running?
    && (PidIsOurs(procs, readable, SupervisorClaim(m)) || PidIsOurs(procs, readable, ChildClaim(m)))
  }

  /** What `initialize_session_files` stores, and the generation it picks. */
  function Fresh(generation: nat): Record {
    Record(Starting, generation, None, None, None, None, None, None)
  }

  function NextGeneration(disk: Option<Record>): nat {
    if disk.Some? then disk.value.generation + 1 else 1
  }

  /** `check_run_live` succeeds. */
  predicate RunIsLive(m: Record, generation: nat) {
    m.generation == generation && !m.status.Stopped?
  }

  /** The four status-lock sections: adopt a run, record its child, promote it, mark it stopped. */
  datatype Job =
    | Adopt(supervisor: nat)
    | RecordChild(child: nat)
    | Promote
    | MarkStopped(text: string, code: Option<nat>)

  /**
   What a section stores after loading `m`, or `None` when it leaves the file
   alone. `generation` is the run the section acts for; adoption has none yet.
   */
  function Outcome(job: Job, generation: nat, m: Record, procs: Procs, readable: bool): Option<Record> {
    match job
    case Adopt(pid) =>
      Some(m.(supervisorPid := Some(pid), supervisorToken := StartTime(procs, readable, pid)))
    case RecordChild(pid) =>
      if !RunIsLive(m, generation) then None
      else if StartTime(procs, readable, pid).Some?
      then Some(m.(childPid := Some(pid), childToken := StartTime(procs, readable, pid)))
      else Some(m.(childPid := None, childToken := None))
    case Promote =>
      if RunIsLive(m, generation) then Some(m.(status := Running)) else None
    case MarkStopped(text, code) =>
      if m.generation != generation || m.status.Stopped? then None
      else Some(m.(status := Stopped, exitStatus := Some(text), exitCode := code))
  }

  datatype StartResult =
    | AlreadyStarting
    | AlreadyRunning
    | BadCommand
    | NotInitialized
    | NotSpawned
    | Ready(seen: Record)
    | StoppedWhileStarting(seen: Record)
    | TimedOut

  /** What one look of `wait_for_running_metadata` concludes, if anything. */
  function Verdict(m: Record): Option<StartResult> {
    match m.status
    case Running => Some(Ready(m))
    case Stopped => Some(if m.exitCode == Some(0) then Ready(m) else StoppedWhileStarting(m))
    case Starting => None
  }

  function Order(s: Status): nat {
    match s case Starting => 0 case Running => 1 case Stopped => 2
  }

  /**
   `later` may be found on disk some time after `earlier`: the generation never
   falls, the status of one generation only moves forward, and once it is
   Stopped the exit information and the child identity are final.
   */
  predicate Follows(earlier: Record, later: Record) {
    || later.generation > earlier.generation
    || (&& later.generation == earlier.generation
        && Order(earlier.status) <= Order(later.status)
        && (earlier.status.Stopped? ==>
              && later.exitStatus == earlier.exitStatus
              && later.exitCode == earlier.exitCode
              && ChildClaim(later) == ChildClaim(earlier)))
  }

  predicate DiskFollows(earlier: Option<Record>, later: Option<Record>) {
    earlier.Some? ==> later.Some? && Follows(earlier.value, later.value)
  }

  /** Run `generation` is over for good: stopped, or replaced by a newer run. */
  predicate Settled(disk: Option<Record>, generation: nat) {
    && disk.Some?
    && (|| disk.value.generation > generation
        || (disk.value.generation == generation && disk.value.status.Stopped?))
  }
}
