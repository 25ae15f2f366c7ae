/**
 Concrete runs. One reaches a Running session. The others show what the
 assumptions are for: the generation on disk falls when a restart saves inside
 another section, two supervisors serve one run when one of them adopts too late,
 a record is left Starting when a spawn fails, a signal hits a stranger when a pid
 is handed out again, and a send finds no reader when the owner's forwarder has
 failed.
 */
module LifecycleExample {
  import opened Wrappers
  import opened Metadata
  import opened Lifecycle
  import opened LifecycleDisk
  import opened LifecycleBearers
  import opened LifecycleProcs
  import opened LifecycleRecycling
  import opened LifecycleRuns
  import opened LifecycleSegments

  // -------------------------------------------------------- a running session

  /** A start in daemon mode, its owner thread, and the owner's child at pid 7. */
  const STARTER := NewActor(Starter(false), LockStart, 0)
  const WAITER := STARTER.(gen := 1, pc := Poll(0))
  const OWNER := NewActor(Owner(false), SpawnChild, 1)
  const CHILD := Ident(7, 0)
  const SERVER := OWNER.(child := Some(CHILD), reader := Some(0), pc := Serve)
  const LIVE := Promoted(Fresh(1), CHILD)
  const RUNNING := World(Some(LIVE), Some(0), None, Some(0), 1, map[7 := Proc(0, false)], 1,
                         map[0 := WAITER, 1 := SERVER])

  lemma ToRunning(exclusive: bool) returns (t: Trace)
    ensures Ends(t, RUNNING) && t.exclusive == exclusive
  {
    t := Begin(exclusive);
    t := StartUp(t, NOBODY, 0, STARTER);
    var w := Initialised(NOBODY, 0, STARTER);
    var v := World(Some(Fresh(1)), Some(0), None, Some(0), 1, map[], 0, map[0 := WAITER, 1 := OWNER]);
    assert v.actors == w.Go(1, OWNER).Go(0, WAITER).actors;
    t := Extend(t, w, Start(0, DoSpawn(1, 7)), v);
    t := OwnerServes(t, v, 1, 7);
    assert Serving(v, 1, 7) == RUNNING;
  }

  // --------------------------------------------------- the generation can fall

  const RETURNED := WAITER.(pc := Done(StartDone(Ready(LIVE))))
  const OVER := LIVE.(status := Stopped, exitStatus := Some("exited"), exitCode := Some(0))
  const CLOSING := SERVER.(reaped := true, reader := None, pc := Section(MarkStopped("exited", Some(0)), Save(OVER)))

  /** Run 1 is Running and its start has returned. */
  const SERVED := RUNNING.(startLock := None, actors := map[0 := RETURNED, 1 := SERVER])

  /** The owner of run 1 is between the load and the save of its final section. */
  const CLOSED := SERVED.(statusLock := Some(1), procs := map[], actors := map[0 := RETURNED, 1 := CLOSING])

  lemma ToServed() returns (t: Trace)
    ensures Ends(t, SERVED) && !t.exclusive
  {
    t := ToRunning(false);
    var v := RUNNING.(actors := map[0 := WAITER.(pc := UnlockStart(Ready(LIVE))), 1 := SERVER]);
    t := Extend(t, RUNNING, Start(0, DoPoll), v);
    t := Extend(t, v, Start(0, DoUnlock), SERVED);
  }

  lemma ToClosed() returns (t: Trace)
    ensures Ends(t, CLOSED) && !t.exclusive
  {
    t := ToServed();
    t := OwnerReaps(t, SERVED, 1, SERVER, CHILD);
    var w := Reaped(SERVED, 1, 7);
    var job := MarkStopped("exited", Some(0));
    var v := CLOSED.(actors := map[0 := RETURNED, 1 := CLOSING.(pc := Section(job, Load))]);
    t := Extend(t, w, Lock(1, DoAcquire), v);
    t := Extend(t, v, Lock(1, DoLoad(true)), CLOSED);
  }

  predicate Falls(before: Option<Record>, after: Option<Record>) {
    before.Some? && after.Some? && after.value.generation < before.value.generation
  }

  /** Without the assumption on `initialize_session_files` the generation on disk can fall. */
  lemma GenerationCanFall()
    ensures exists ws: seq<World>, sts: seq<Step> ::
              Run(ws, sts) && |sts| > 0 && Falls(ws[|sts| - 1].disk, ws[|sts|].disk)
  {
    var t := ToClosed();
    t := StartUp(t, CLOSED, 2, STARTER);
    var w := Initialised(CLOSED, 2, STARTER);
    t := Extend(t, w, Lock(1, DoSave), Apply(w, Lock(1, DoSave)));
    assert Run(t.ws, t.sts) && Falls(t.ws[|t.sts| - 1].disk, t.ws[|t.sts|].disk);
  }

  // ----------------------------------------------------- two owners of one run

  const DIRECT := NewActor(Starter(true), LockStart, 0)

  /** A supervisor process of a start of run `home`, before it has adopted a run. */
  function Supervisor(home: nat, i: Ident): Actor {
    NewActor(Owner(true), Section(Adopt(i.pid), Acquire), home).(supervisor := Some(i))
  }

  const FIRST := Ident(5, 0)
  const SECOND := Ident(6, 1)
  const TIMED_OUT := DIRECT.(gen := 1, seen := Some(Fresh(1)), pc := Done(StartDone(TimedOut)))
  const RESTARTED := DIRECT.(gen := 2, pc := Poll(0))

  /** The first start has timed out before its supervisor got to run. */
  const LATE := World(Some(TimedOutRecord(1)), None, None, Some(0), 1, map[5 := Proc(0, false)], 1,
                      map[0 := TIMED_OUT, 1 := Supervisor(1, FIRST)])

  /** A restart has initialised run 2 and spawned a second supervisor. */
  const BOTH := World(Some(Fresh(2)), Some(2), None, Some(1), 2, map[5 := Proc(0, false), 6 := Proc(1, false)], 2,
                      map[0 := TIMED_OUT, 1 := Supervisor(1, FIRST), 2 := RESTARTED, 3 := Supervisor(2, SECOND)])

  lemma ToLate() returns (t: Trace)
    ensures Ends(t, LATE) && t.exclusive
  {
    t := Begin(true);
    t := StartUp(t, NOBODY, 0, DIRECT);
    var w := Initialised(NOBODY, 0, DIRECT);
    var x := DIRECT.(gen := 1);
    var b := World(Some(Fresh(1)), Some(0), None, Some(0), 1, map[5 := Proc(0, false)], 1,
                   map[1 := Supervisor(1, FIRST)]);
    assert b.Go(0, x.(pc := Poll(0))).actors == w.Go(1, Supervisor(1, FIRST)).Go(0, x.(pc := Poll(0))).actors;
    t := Extend(t, w, Start(0, DoSpawn(1, 5)), b.Go(0, x.(pc := Poll(0))));
    t := PollsOut(t, b, 0, x, 0);
    t := TimesOut(t, b, 0, x, 1);
    assert LATE.actors == map[1 := Supervisor(1, FIRST)][0 := TIMED_OUT];
  }

  lemma ToBoth() returns (t: Trace)
    ensures Ends(t, BOTH) && t.exclusive
  {
    t := ToLate();
    t := StartUp(t, LATE, 2, DIRECT);
    var w := Initialised(LATE, 2, DIRECT);
    assert BOTH.actors == w.actors[3 := Supervisor(2, SECOND)][2 := RESTARTED];
    t := Extend(t, w, Start(2, DoSpawn(3, 6)), BOTH);
  }

  /** The state after supervisor `o`, process `i`, has adopted the run on disk, whatever start it comes from. */
  function Adopted(w: World, o: nat, i: Ident): World
    requires o in w.actors && w.disk.Some?
  {
    var m := w.disk.value.(supervisorPid := Some(i.pid), supervisorToken := Some(i.token));
    w.(disk := Some(m)).Go(o, w.actors[o].(gen := m.generation, pc := SpawnChild))
  }

  lemma Adopts(t: Trace, w: World, o: nat, i: Ident) returns (u: Trace)
    requires Ends(t, w) && o in w.actors && w.actors[o].role == Owner(true) && w.statusLock.None? && w.disk.Some?
    requires w.actors[o].pc == Section(Adopt(i.pid), Acquire) && i.pid in w.procs && w.procs[i.pid].token == i.token
    ensures GoesOn(t, u, Adopted(w, o, i))
  {
    u := RunSection(t, w, o, w.disk.value.(supervisorPid := Some(i.pid), supervisorToken := Some(i.token)));
  }

  /** Actor `o` serves run `gen` with its child alive. */
  predicate ServesLive(w: World, o: nat, gen: nat) {
    && o in w.actors && w.actors[o].role.Owner? && w.actors[o].gen == gen && w.actors[o].pc.Serve?
    && w.actors[o].child.Some? && Present(w.procs, w.actors[o].child.value)
    && !w.procs[w.actors[o].child.value.pid].zombie
  }

  /** Both owners serve run 2. */
  ghost predicate BothServing(w: World) {
    && w.statusLock.None? && RunningAt(w.disk, 2)
    && ServesLive(w, 1, 2) && ServesLive(w, 3, 2)
    && w.actors.Keys == {0, 1, 2, 3} && w.actors[0] == TIMED_OUT && w.actors[2] == RESTARTED
    && w.actors[1].child == Some(Ident(7, 2)) && w.actors[3].child == Some(Ident(8, 3))
    && w.actors[1].supervisor == Some(FIRST) && w.actors[3].supervisor == Some(SECOND)
  }

  const TWO_OWNERS := Serving(Adopted(Serving(Adopted(BOTH, 1, FIRST), 1, 7), 3, SECOND), 3, 8)

  lemma TwoServe()
    ensures BothServing(TWO_OWNERS)
  {
  }

  lemma ToTwoOwners() returns (t: Trace)
    ensures Ends(t, TWO_OWNERS) && t.exclusive
  {
    t := ToBoth();
    t := Adopts(t, BOTH, 1, FIRST);
    var w := Adopted(BOTH, 1, FIRST);
    t := OwnerServes(t, w, 1, 7);
    w := Serving(w, 1, 7);
    t := Adopts(t, w, 3, SECOND);
    t := OwnerServes(t, Adopted(w, 3, SECOND), 3, 8);
  }

  /** Run `gen` is marked Stopped although its owner `o` serves a live child. */
  predicate StoppedOverLive(w: World, o: nat, gen: nat) {
    ServesLive(w, o, gen) && AtRun(w.disk, gen) && w.disk.value.status.Stopped?
  }

  function FirstStopped(w: World): Record
    requires w.disk.Some?
  {
    w.disk.value.(status := Stopped, exitStatus := Some("exited"), exitCode := Some(0))
  }

  lemma FirstChildExits(t: Trace, w: World) returns (u: Trace)
    requires Ends(t, w) && 1 in w.actors && BothServing(w)
    ensures GoesOn(t, u, AfterSaving(Reaped(w, 1, 7), 1, 2, FirstStopped(w)))
  {
    u := OwnerReaps(t, w, 1, w.actors[1], Ident(7, 2));
    u := RunSection(u, Reaped(w, 1, 7), 1, FirstStopped(w));
  }

  /**
   Without the assumption that a supervisor adopts the run of its own start, two
   owners can serve one run, in a run that meets every other assumption; and when
   the first child exits, the run is marked Stopped over the second one, alive.
   */
  lemma TwoOwnersServeOneRun()
    ensures exists ws: seq<World>, sts: seq<Step>, i: nat | i < |sts| < |ws| ::
              && ExclusiveRun(ws, sts) && ReadableRun(ws, sts)
              && ServesLive(ws[i], 1, 2) && ServesLive(ws[i], 3, 2) && StoppedOverLive(ws[|sts|], 3, 2)
  {
    var t := ToTwoOwners();
    var i := |t.sts|;
    TwoServe();
    t := FirstChildExits(t, TWO_OWNERS);
    assert StoppedOverLive(t.ws[|t.sts|], 3, 2) && ServesLive(t.ws[i], 1, 2) && ServesLive(t.ws[i], 3, 2);
    assert ExclusiveRun(t.ws, t.sts) && ReadableRun(t.ws, t.sts);
  }

  // ------------------------------------------- an owner spawned after an adoption

  /** The first start has timed out, and a restart in daemon mode is about to spawn the owner of run 2. */
  const SPAWNING := Initialised(LATE, 2, STARTER)

  /** Actor `o` is the only owner. */
  ghost predicate OnlyOwner(w: World, o: nat) {
    o in w.actors && forall a | a in w.actors && w.actors[a].role.Owner? :: a == o
  }

  /** Then the late supervisor has adopted that run. */
  const ADOPTED := Adopted(SPAWNING, 1, FIRST)

  lemma ToSpawning() returns (t: Trace)
    ensures Ends(t, SPAWNING) && t.exclusive
  {
    t := ToLate();
    t := StartUp(t, LATE, 2, STARTER);
  }

  lemma ToAdopted() returns (t: Trace, i: nat)
    ensures Ends(t, ADOPTED) && t.exclusive && i < |t.sts| && t.ws[i] == SPAWNING
  {
    t := ToSpawning();
    i := |t.sts|;
    t := Adopts(t, SPAWNING, 1, FIRST);
    assert SPAWNING.disk != ADOPTED.disk;
  }

  /** Then the start of run 2 has spawned its owner. */
  const SPAWNED := ADOPTED.Go(3, NewActor(Owner(false), SpawnChild, 2)).Go(2, STARTER.(gen := 2, pc := Poll(0)))

  /** Both owners serve run 2. */
  const BOTH_SERVE := Serving(Serving(SPAWNED, 1, 7), 3, 8)

  lemma ToBothServe(t: Trace) returns (u: Trace)
    requires Ends(t, ADOPTED)
    ensures GoesOn(t, u, BOTH_SERVE)
  {
    u := Extend(t, ADOPTED, Start(2, DoSpawn(3, 9)), SPAWNED);
    u := OwnerServes(u, SPAWNED, 1, 7);
    u := OwnerServes(u, Serving(SPAWNED, 1, 7), 3, 8);
  }

  /** Between `w` and `v` the only owner `o` adopts run `gen`. */
  ghost predicate AdoptsAlone(w: World, v: World, o: nat, gen: nat) {
    && OnlyOwner(w, o) && Unadopted(w.actors[o]) && AtRun(w.disk, gen)
    && OnlyOwner(v, o) && !Unadopted(v.actors[o]) && v.actors[o].gen == gen
  }

  lemma SupervisorAdoptsAlone()
    ensures AdoptsAlone(SPAWNING, ADOPTED, 1, 2)
    ensures ServesLive(BOTH_SERVE, 1, 2) && ServesLive(BOTH_SERVE, 3, 2)
  {
  }

  /**
   A supervisor may be the only owner when it adopts a foreign run and the run still
   get a second one: the owner that the run's own start spawns afterwards.
   */
  lemma OwnerSpawnedAfterAdoption()
    ensures exists ws: seq<World>, sts: seq<Step>, i: nat, j: nat ::
              && ExclusiveRun(ws, sts) && ReadableRun(ws, sts) && i < j < |sts|
              && AdoptsAlone(ws[i], ws[j], 1, 2)
              && ServesLive(ws[|sts|], 1, 2) && ServesLive(ws[|sts|], 3, 2)
  {
    var t, i := ToAdopted();
    var j := |t.sts|;
    t := ToBothServe(t);
    SupervisorAdoptsAlone();
    assert t.ws[j] == ADOPTED;
    assert i < j < |t.sts| && AdoptsAlone(t.ws[i], t.ws[j], 1, 2);
    assert ExclusiveRun(t.ws, t.sts) && ReadableRun(t.ws, t.sts);
  }

  // --------------------------------------------------------- left Starting

  /** A start whose supervisor cannot be spawned leaves its record Starting, with the lock free. */
  lemma LeftStarting()
    ensures exists ws: seq<World>, sts: seq<Step> ::
              && ExclusiveRun(ws, sts) && ReadableRun(ws, sts)
              && ws[|sts|].startLock.None? && IsStarting(ws[|sts|].disk)
  {
    var t := Begin(true);
    t := StartUp(t, NOBODY, 0, DIRECT);
    var w := Initialised(NOBODY, 0, DIRECT);
    var v := Apply(w, Start(0, SpawnError));
    t := Extend(t, w, Start(0, SpawnError), v);
    t := Extend(t, v, Start(0, DoUnlock), Apply(v, Start(0, DoUnlock)));
    assert ExclusiveRun(t.ws, t.sts) && ReadableRun(t.ws, t.sts);
  }

  // --------------------------------------------------- a misdirected signal

  const AIMED := NewActor(Stopper, LookStop, 0).(gen := 1, seen := Some(LIVE))
  const TARGET := Claim(Some(7), Some(0))

  /** A stop is about to signal the child of the running session. */
  const AIMING := SERVED.Go(2, AIMED.(pc := Hit(TARGET, Term, [Claim(None, None)], false)))

  lemma ToAiming() returns (t: Trace)
    ensures Ends(t, AIMING)
  {
    t := ToServed();
    var x := NewActor(Stopper, LookStop, 0);
    var aim := AIMED.(pc := Aim([TARGET, Claim(None, None)], false));
    t := Extend(t, SERVED, System(Arrive(2, Stopper)), SERVED.Go(2, x));
    GoGo(SERVED, 2, x, aim);
    t := Extend(t, SERVED.Go(2, x), Visit(2, LookToStop), SERVED.Go(2, aim));
    GoGo(SERVED, 2, aim, AIMING.actors[2]);
    assert [TARGET, Claim(None, None)][1..] == [Claim(None, None)];
    t := Extend(t, SERVED.Go(2, aim), Terminate(2, NextTarget(true)), AIMING);
  }

  /** The child has been reaped just then, and its pid handed out again. */
  const RECYCLED := Reaped(AIMING, 1, 7).(procs := map[7 := Proc(1, false)], nextToken := 2)

  lemma ToRecycled() returns (t: Trace)
    ensures Ends(t, RECYCLED)
  {
    t := ToAiming();
    t := OwnerReaps(t, AIMING, 1, SERVER, CHILD);
    t := Extend(t, Reaped(AIMING, 1, 7), System(Stranger(7)), RECYCLED);
  }

  /** The stop's signal hits a process that is not the session's. */
  lemma SignalHitsStranger()
    ensures exists ws: seq<World>, sts: seq<Step>, st: Step ::
              ReadableRun(ws, sts) && HitsStranger(ws[|sts|], st, 7, 1)
  {
    var t := ToRecycled();
    assert ReadableRun(t.ws, t.sts) && HitsStranger(t.ws[|t.sts|], Terminate(2, SendTerm(true, false)), 7, 1);
  }

  // --------------------------------------------------------- no reader

  const DEAF := SERVER.(reader := None, failed := true)
  const FAILED := RUNNING.(actors := map[0 := WAITER, 1 := DEAF])
  const SENDER := NewActor(Sender, LookSend, 0)

  /** The forwarder of the running session has failed, and a sender has arrived. */
  lemma ToFailed() returns (t: Trace)
    ensures Ends(t, FAILED.Go(2, SENDER))
  {
    t := ToRunning(false);
    assert FAILED.actors == RUNNING.actors[1 := DEAF];
    t := Extend(t, RUNNING, Own(1, ForwarderFails), FAILED);
    t := Extend(t, FAILED, System(Arrive(2, Sender)), FAILED.Go(2, SENDER));
  }

  /** A send to a Running session whose child is alive finds no reader once the owner's forwarder has failed. */
  lemma SendFindsNoReader()
    ensures exists ws: seq<World>, sts: seq<Step> | |ws| > |sts| ::
              && Run(ws, sts) && RunningAt(ws[|sts|].disk, 1) && ServesLive(ws[|sts|], 1, 1)
              && 2 in ws[|sts|].actors && ws[|sts|].actors[2].pc == Done(NoReader)
  {
    var t := ToFailed();
    var v := FAILED.Go(2, SENDER.(pc := OpenSend));
    GoGo(FAILED, 2, SENDER, SENDER.(pc := OpenSend));
    t := Extend(t, FAILED.Go(2, SENDER), Visit(2, LookToSend), v);
    t := Extend(t, v, Visit(2, OpenToSend), FAILED.Go(2, SENDER.(pc := Done(NoReader))));
    assert Run(t.ws, t.sts) && ServesLive(t.ws[|t.sts|], 1, 1);
  }
}
