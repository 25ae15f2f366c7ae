/**
 The code of src/session.rs that works on one record or one pid, step by step, as
 it runs between two scheduling points of the protocol: the status-lock sections,
 the wait for a start, and `terminate_pid`.
 */
module SessionStore {
  import opened Wrappers
  import opened Metadata
  import opened Lifecycle

  /** The file after a section that is not interrupted. */
  function AfterJob(job: Job, gen: nat, disk: Option<Record>, procs: Procs, readable: bool): Option<Record> {
    if disk.None? then None
    else
      var next := Outcome(job, gen, disk.value, procs, readable);
      if next.Some? then next else disk
  }

  class Store {
    var disk: Option<Record>

    constructor ()
      ensures disk == None
    {
      disk := None;
    }

    /** `initialize_session_files`: the new record, and the generation it returns. */
    method Initialize() returns (generation: nat)
      modifies this
      ensures generation == NextGeneration(old(disk)) && disk == Some(Fresh(generation))
    {
      generation := 1;
      if disk.Some? {
        generation := disk.value.generation + 1;
      }
      disk := Some(Record(Starting, generation, None, None, None, None, None, None));
    }

    /** The adoption section of `run_supervisor`; `None` when there is no metadata. */
    method AdoptRun(pid: nat, procs: Procs, readable: bool) returns (generation: Option<nat>)
      modifies this
      ensures disk == AfterJob(Adopt(pid), 0, old(disk), procs, readable)
      ensures generation == if old(disk).None? then None else Some(old(disk).value.generation)
    {
      if disk.None? { return None; }
      var metadata := disk.value;
      metadata := metadata.(supervisorPid := Some(pid));
      metadata := metadata.(supervisorToken := StartTime(procs, readable, pid));
      disk := Some(metadata);
      generation := Some(metadata.generation);
    }

    /** The first section of `supervise_pty`. */
    method RecordChildPid(pid: nat, generation: nat, procs: Procs, readable: bool) returns (ok: bool)
      modifies this
      ensures disk == AfterJob(RecordChild(pid), generation, old(disk), procs, readable)
      ensures ok <==> old(disk).Some? && RunIsLive(old(disk).value, generation)
    {
      if disk.None? { return false; }
      var metadata := disk.value;
      if metadata.generation != generation { return false; }
      if metadata.status == Stopped { return false; }
      match StartTime(procs, readable, pid) {
        case Some(token) =>
          metadata := metadata.(childPid := Some(pid));
          metadata := metadata.(childToken := Some(token));
        case None =>
          metadata := metadata.(childPid := None);
          metadata := metadata.(childToken := None);
      }
      disk := Some(metadata);
      ok := true;
    }

    /** The promote section of `supervise_pty`. */
    method PromoteRun(generation: nat) returns (ok: bool)
      modifies this
      ensures disk == AfterJob(Promote, generation, old(disk), map[], true)
      ensures ok <==> disk.Some? && disk.value.generation == generation && disk.value.status.Running?
    {
      if disk.None? { return false; }
      var metadata := disk.value;
      if metadata.generation != generation { return false; }
      if metadata.status == Stopped { return false; }
      metadata := metadata.(status := Running);
      disk := Some(metadata);
      ok := true;
    }

    /** `mark_stopped`; without a generation it marks whatever run is on disk. */
    method MarkRunStopped(text: string, code: Option<nat>, generation: Option<nat>) returns (ok: bool)
      modifies this
      ensures ok <==> old(disk).Some?
      ensures old(disk).Some? ==>
                var g := if generation.Some? then generation.value else old(disk).value.generation;
                && disk == AfterJob(MarkStopped(text, code), g, old(disk), map[], true)
                && disk.value.generation == old(disk).value.generation
                && (disk.value.generation == g ==> disk.value.status.Stopped?)
                && Follows(old(disk).value, disk.value)
    {
      if disk.None? { return false; }
      var metadata := disk.value;
      if generation.Some? {
        if metadata.generation != generation.value { return true; }
      }
      if metadata.status == Stopped { return true; }
      metadata := metadata.(status := Stopped);
      metadata := metadata.(exitStatus := Some(text));
      metadata := metadata.(exitCode := code);
      disk := Some(metadata);
      ok := true;
    }
  }

  /** The protocol's section, run without interruption, is the method's effect on the file. */
  lemma SectionAlone(w: World, a: nat, readable: bool)
    requires SectionEnabled(w, a, DoAcquire)
    ensures var w1 := SectionApply(w, a, DoAcquire);
            var w2 := SectionApply(w1, a, DoLoad(readable));
            var w3 := if SectionEnabled(w2, a, DoSave) then SectionApply(w2, a, DoSave) else w2;
            && SectionEnabled(w3, a, DoRelease)
            && SectionApply(w3, a, DoRelease).disk
               == AfterJob(w.actors[a].pc.job, w.actors[a].gen, w.disk, w.procs, readable)
            && SectionApply(w3, a, DoRelease).statusLock.None?
  {
  }

  // ------------------------------------------------------- waiting for a start

  datatype WaitEnd =
    | Reported(result: StartResult)   // returned what some look concluded
    | LoadFailed                      // a look could not read the metadata
    | GaveUp(last: Option<Record>)    // timed out; `last` is the final look

  predicate StillStarting(look: Option<Record>) {
    look.Some? && look.value.status.Starting?
  }

  /**
   The polling loop of `wait_for_running_metadata` and its final look, given what
   each look at the file finds. It stops at the first look that is not Starting.
   */
  method WaitForRunning(looks: seq<Option<Record>>) returns (end: WaitEnd, used: nat)
    requires |looks| == POLLS + 1
    ensures used <= |looks| && used > 0
    ensures forall j | 0 <= j < used - 1 :: StillStarting(looks[j])
    ensures end.Reported? <==> looks[used - 1].Some? && !looks[used - 1].value.status.Starting?
    ensures looks[used - 1].Some? ==>
              var m := looks[used - 1].value;
              && (end == Reported(Ready(m)) <==> m.status == Running || (m.status == Stopped && m.exitCode == Some(0)))
              && (end == Reported(StoppedWhileStarting(m)) <==> m.status == Stopped && m.exitCode != Some(0))
    ensures end.LoadFailed? <==> looks[used - 1].None? && used <= POLLS
    ensures end.GaveUp? ==>
              used == POLLS + 1 && end.last == looks[POLLS] && (looks[POLLS].None? || StillStarting(looks[POLLS]))
  {
    var n := 0;
    while n < POLLS
      invariant n <= POLLS
      invariant forall j | 0 <= j < n :: StillStarting(looks[j])
    {
      var look := looks[n];
      n := n + 1;
      if look.None? { return LoadFailed, n; }
      var metadata := look.value;
      if metadata.status == Running { return Reported(Ready(metadata)), n; }
      if metadata.status == Stopped {
        if metadata.exitCode == Some(0) { return Reported(Ready(metadata)), n; }
        return Reported(StoppedWhileStarting(metadata)), n;
      }
    }
    used := POLLS + 1;
    if looks[POLLS].Some? {
      var metadata := looks[POLLS].value;
      match metadata.status {
        case Running => return Reported(Ready(metadata)), used;
        case Stopped =>
          if metadata.exitCode == Some(0) { return Reported(Ready(metadata)), used; }
          return Reported(StoppedWhileStarting(metadata)), used;
        case Starting =>
      }
    }
    end := GaveUp(looks[POLLS]);
  }

  // ------------------------------------------------------------- terminate_pid

  /** What one `kill` call reports. */
  datatype KillResult = Delivered | NoSuchProcess | Refused

  /** `signal_pid_and_group`: `None` for an error, otherwise whether anything was signalled. */
  function SignalBoth(group: KillResult, leader: KillResult): (r: Option<bool>)
    ensures r == Some(true) <==> group.Delivered? || leader.Delivered?
    ensures r == Some(false) <==> group.NoSuchProcess? && leader.NoSuchProcess?
  {
    var sent := group.Delivered? || leader.Delivered?;
    var refused := group.Refused? || leader.Refused?;
    if !sent && refused then None else Some(sent)
  }

  /** The answers the protocol allows are those of real `kill` calls on a pid in the table. */
  lemma SignalAnswersAreReal(w: World, c: Claim, group: KillResult, leader: KillResult)
    requires Probe(w, c) ==> !leader.NoSuchProcess?
    ensures var r := SignalBoth(group, leader); SignalAnswer(w, c, r == Some(true), r.None?)
  {
  }

  predicate SomeDead(alive: seq<bool>) {
    exists k | 0 <= k < |alive| :: !alive[k]
  }

  /**
   `terminate_pid`, given the answers of the two signals and of the liveness
   probes. It succeeds exactly when a probe found the process gone or neither
   signal found anything to signal, and it resorts to SIGKILL exactly when the
   process outlived every probe after SIGTERM.
   */
  method TerminatePid(pid: int, term: Option<bool>, kill: Option<bool>, early: seq<bool>, late: seq<bool>)
    returns (ok: bool, killed: bool)
    requires |early| == PROBES && |late| == PROBES
    ensures ok <==>
              || pid <= 0
              || (term.Some?
                  && (|| SomeDead(early)
                      || (kill.Some? && ((!term.value && !kill.value) || SomeDead(late)))))
    ensures killed <==> pid > 0 && term.Some? && !SomeDead(early)
  {
    killed := false;
    if pid <= 0 { return true, false; }
    if term.None? { return false, false; }
    var n := 0;
    while n < PROBES
      invariant n <= PROBES
      invariant forall k | 0 <= k < n :: early[k]
    {
      if !early[n] { return true, false; }
      n := n + 1;
    }
    killed := true;
    if kill.None? { return false, true; }
    if !term.value && !kill.value { return true, true; }
    n := 0;
    while n < PROBES
      invariant n <= PROBES
      invariant forall k | 0 <= k < n :: late[k]
    {
      if !late[n] { return true, true; }
      n := n + 1;
    }
    ok := false;
  }
}
