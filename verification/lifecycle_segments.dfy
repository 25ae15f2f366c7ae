/**
 Stretches of runs to build concrete runs from: a section without interruption, a
 start up to its save, a start that times out, and an owner from its spawn to the
 end of its run.
 */
module LifecycleSegments {
  import opened Wrappers
  import opened Metadata
  import opened Lifecycle

  /** States and steps; `exclusive` if no initialisation is to fall between the load and the save of a section. */
  datatype Stretch = Stretch(ws: seq<World>, sts: seq<Step>, exclusive: bool)

  ghost predicate Sound(t: Stretch) {
    && Run(t.ws, t.sts)
    && (forall i | 0 <= i < |t.sts| :: Readable(t.sts[i]))
    && (t.exclusive ==> forall i {:trigger t.sts[i]} | 0 <= i < |t.sts| :: InitExclusive(t.ws[i], t.sts[i]))
  }

  const NOBODY := World(None, None, None, None, 0, map[], 0, map[])

  /** A run in which start times can be read. */
  type Trace = t: Stretch | Sound(t) ghost witness Stretch([NOBODY], [], true)

  ghost predicate Ends(t: Trace, w: World) {
    t.ws[|t.sts|] == w
  }

  /** Where `u` ends, if it goes on where `t` ends. */
  ghost function Reached(t: Trace, u: Trace): Option<World> {
    if u.exclusive == t.exclusive && t.ws <= u.ws then Some(u.ws[|u.sts|]) else None
  }

  ghost predicate GoesOn(t: Trace, u: Trace, w: World) {
    Reached(t, u) == Some(w)
  }

  lemma Begin(exclusive: bool) returns (t: Trace)
    ensures Ends(t, NOBODY) && t.exclusive == exclusive
  {
    t := Stretch([NOBODY], [], exclusive);
  }

  /** One more step, to a state known in closed form. */
  lemma Extend(t: Trace, w: World, st: Step, v: World) returns (u: Trace)
    requires Ends(t, w) && Enabled(w, st) && Readable(st) && (t.exclusive ==> InitExclusive(w, st))
    requires Apply(w, st) == v
    ensures GoesOn(t, u, v) && |u.sts| == |t.sts| + 1 && u.ws[|t.sts|] == w
  {
    var s := Stretch(t.ws + [v], t.sts + [st], t.exclusive);
    forall i | 0 <= i < |s.sts|
      ensures Enabled(s.ws[i], s.sts[i]) && s.ws[i + 1] == Apply(s.ws[i], s.sts[i]) && Readable(s.sts[i])
      ensures s.exclusive ==> InitExclusive(s.ws[i], s.sts[i])
    {
      if i < |t.sts| { assert s.ws[i] == t.ws[i] && s.ws[i + 1] == t.ws[i + 1] && s.sts[i] == t.sts[i]; }
    }
    u := s;
  }

  /** A move of `a` replaces its last one. */
  lemma GoGo(w: World, a: nat, x: Actor, y: Actor)
    ensures w.Go(a, x).Go(a, y) == w.Go(a, y)
  {
    assert w.actors[a := x][a := y] == w.actors[a := y];
  }

  // ---------------------------------------------------------------- sections

  /** The state after a section that ran without interruption and stored `next`. */
  function AfterSaving(w: World, a: nat, gen: nat, next: Record): World
    requires a in w.actors && w.actors[a].pc.Section?
  {
    w.(disk := Some(next)).Go(a, AfterSection(w.actors[a].(gen := gen), w.actors[a].pc.job, true))
  }

  lemma RunSection(t: Trace, w: World, a: nat, next: Record) returns (u: Trace)
    requires Ends(t, w) && SectionEnabled(w, a, DoAcquire) && w.disk.Some?
    requires var gen := if w.actors[a].pc.job.Adopt? then w.disk.value.generation else w.actors[a].gen;
             Outcome(w.actors[a].pc.job, gen, w.disk.value, w.procs, true) == Some(next)
    ensures var gen := if w.actors[a].pc.job.Adopt? then w.disk.value.generation else w.actors[a].gen;
            GoesOn(t, u, AfterSaving(w, a, gen, next))
  {
    var x, job := w.actors[a], w.actors[a].pc.job;
    var gen := if job.Adopt? then w.disk.value.generation else x.gen;
    u := SectionLoads(t, w, a, gen, next);
    u := SectionSaves(u, w, a, x.(gen := gen), job, next);
  }

  lemma SectionLoads(t: Trace, w: World, a: nat, gen: nat, next: Record) returns (u: Trace)
    requires Ends(t, w) && SectionEnabled(w, a, DoAcquire) && w.disk.Some?
    requires gen == if w.actors[a].pc.job.Adopt? then w.disk.value.generation else w.actors[a].gen
    requires Outcome(w.actors[a].pc.job, gen, w.disk.value, w.procs, true) == Some(next)
    ensures GoesOn(t, u, w.(statusLock := Some(a))
                     .Go(a, w.actors[a].(gen := gen, pc := Section(w.actors[a].pc.job, Save(next)))))
  {
    var x, job, held := w.actors[a], w.actors[a].pc.job, w.(statusLock := Some(a));
    var x1, x2 := x.(pc := Section(job, Load)), x.(gen := gen, pc := Section(job, Save(next)));
    u := Extend(t, w, Lock(a, DoAcquire), held.Go(a, x1));
    GoGo(held, a, x1, x2);
    u := Extend(u, held.Go(a, x1), Lock(a, DoLoad(true)), held.Go(a, x2));
  }

  lemma SectionSaves(t: Trace, w: World, a: nat, x: Actor, job: Job, next: Record) returns (u: Trace)
    requires Ends(t, w.(statusLock := Some(a)).Go(a, x.(pc := Section(job, Save(next)))))
    requires w.statusLock.None? && (x.role.Owner? || (job.MarkStopped? && !x.role.Sender?))
    ensures GoesOn(t, u, w.(disk := Some(next)).Go(a, AfterSection(x, job, true)))
  {
    var held := w.(statusLock := Some(a));
    var x2, x3 := x.(pc := Section(job, Save(next))), x.(pc := Section(job, Release(true)));
    GoGo(held.(disk := Some(next)), a, x2, x3);
    u := Extend(t, held.Go(a, x2), Lock(a, DoSave), held.(disk := Some(next)).Go(a, x3));
    GoGo(w.(disk := Some(next)), a, x3, AfterSection(x, job, true));
    u := Extend(u, held.(disk := Some(next)).Go(a, x3), Lock(a, DoRelease),
                w.(disk := Some(next)).Go(a, AfterSection(x, job, true)));
  }

  // ---------------------------------------------------------------- starters

  function Locked(w: World, a: nat): World {
    w.(startLock := Some(a))
  }

  /** A new start that takes the lock, finds no active session and picks its generation. */
  lemma StartLooks(t: Trace, w: World, a: nat, x: Actor) returns (u: Trace)
    requires Ends(t, w) && a !in w.actors && w.startLock.None?
    requires w.disk.Some? ==> !SessionIsActive(w.procs, true, w.disk.value)
    requires x.role.Starter? && x == NewActor(x.role, LockStart, 0)
    ensures GoesOn(t, u, Locked(w, a).Go(a, x.(gen := NextGeneration(w.disk), pc := RemoveFifo)))
  {
    var l := Locked(w, a);
    u := Extend(t, w, System(Arrive(a, x.role)), w.Go(a, x));
    GoGo(l, a, x, x.(pc := LookFirst));
    u := Extend(u, w.Go(a, x), Start(a, TryLock), l.Go(a, x.(pc := LookFirst)));
    u := StartReads(u, l, a, x);
  }

  lemma StartReads(t: Trace, l: World, a: nat, x: Actor) returns (u: Trace)
    requires Ends(t, l.Go(a, x.(pc := LookFirst))) && x.role.Starter?
    requires l.disk.Some? ==> !SessionIsActive(l.procs, true, l.disk.value)
    ensures GoesOn(t, u, l.Go(a, x.(gen := NextGeneration(l.disk), pc := RemoveFifo)))
  {
    var x1, x2 := x.(pc := LookFirst), x.(pc := ReadGeneration);
    var x3 := x.(gen := NextGeneration(l.disk), pc := RemoveFifo);
    if l.disk.None? {
      GoGo(l, a, x1, x2);
      u := Extend(t, l.Go(a, x1), Start(a, DoLookFirst), l.Go(a, x2));
    } else {
      var c := x.(pc := CheckActive(l.disk.value));
      GoGo(l, a, x1, c);
      u := Extend(t, l.Go(a, x1), Start(a, DoLookFirst), l.Go(a, c));
      GoGo(l, a, c, x2);
      u := Extend(u, l.Go(a, c), Start(a, DoCheck(true)), l.Go(a, x2));
    }
    GoGo(l, a, x2, x3);
    u := Extend(u, l.Go(a, x2), Start(a, DoReadGeneration), l.Go(a, x3));
  }

  /** The state after an initialisation by `a`. */
  function Initialised(w: World, a: nat, x: Actor): World {
    Locked(w, a).(disk := Some(Fresh(NextGeneration(w.disk))), fifo := Some(w.nextFifo), nextFifo := w.nextFifo + 1)
    .Go(a, x.(gen := NextGeneration(w.disk), pc := SpawnOwner))
  }

  lemma StartUp(t: Trace, w: World, a: nat, x: Actor) returns (u: Trace)
    requires Ends(t, w) && a !in w.actors && w.startLock.None? && (t.exclusive ==> !PendingSave(w))
    requires w.disk.Some? ==> !SessionIsActive(w.procs, true, w.disk.value)
    requires x.role.Starter? && x == NewActor(x.role, LockStart, 0)
    ensures GoesOn(t, u, Initialised(w, a, x))
  {
    u := StartLooks(t, w, a, x);
    u := StartReplacesFifo(u, Locked(w, a), a, x.(gen := NextGeneration(w.disk)));
    var l := Locked(w, a).(fifo := Some(w.nextFifo), nextFifo := w.nextFifo + 1);
    var y := x.(gen := NextGeneration(w.disk));
    var v := l.(disk := Some(Fresh(y.gen)));
    GoGo(v, a, y.(pc := SaveFresh), y.(pc := SpawnOwner));
    u := Extend(u, l.Go(a, y.(pc := SaveFresh)), Start(a, DoSaveFresh), v.Go(a, y.(pc := SpawnOwner)));
  }

  lemma StartReplacesFifo(t: Trace, l: World, a: nat, y: Actor) returns (u: Trace)
    requires Ends(t, l.Go(a, y.(pc := RemoveFifo))) && y.role.Starter?
    ensures GoesOn(t, u, l.(fifo := Some(l.nextFifo), nextFifo := l.nextFifo + 1).Go(a, y.(pc := SaveFresh)))
  {
    var l1, l2 := l.(fifo := None), l.(fifo := Some(l.nextFifo), nextFifo := l.nextFifo + 1);
    GoGo(l1, a, y.(pc := RemoveFifo), y.(pc := MakeFifo));
    u := Extend(t, l.Go(a, y.(pc := RemoveFifo)), Start(a, DoRemoveFifo), l1.Go(a, y.(pc := MakeFifo)));
    GoGo(l2, a, y.(pc := MakeFifo), y.(pc := SaveFresh));
    u := Extend(u, l1.Go(a, y.(pc := MakeFifo)), Start(a, DoMakeFifo), l2.Go(a, y.(pc := SaveFresh)));
  }

  /** The polls of a start whose record stays Starting. */
  lemma {:induction false} PollsOut(t: Trace, w: World, a: nat, x: Actor, n: nat) returns (u: Trace)
    requires Ends(t, w.Go(a, x.(pc := Poll(n)))) && x.role.Starter? && n < POLLS
    requires w.disk.Some? && w.disk.value.status.Starting?
    ensures GoesOn(t, u, w.Go(a, x.(pc := LookLast)))
    decreases POLLS - n
  {
    var next := if n + 1 < POLLS then Poll(n + 1) else LookLast;
    GoGo(w, a, x.(pc := Poll(n)), x.(pc := next));
    u := Extend(t, w.Go(a, x.(pc := Poll(n))), Start(a, DoPoll), w.Go(a, x.(pc := next)));
    if n + 1 < POLLS { u := PollsOut(u, w, a, x, n + 1); }
  }

  /** A start that has polled in vain, with no process on record: it marks its run Stopped and returns. */
  lemma TimesOut(t: Trace, w: World, a: nat, x: Actor, g: nat) returns (u: Trace)
    requires Ends(t, w.Go(a, x.(pc := LookLast))) && x.role.Starter? && x.gen == g
    requires w.disk == Some(Fresh(g)) && w.statusLock.None?
    ensures GoesOn(t, u, w.(disk := Some(TimedOutRecord(g)), startLock := None)
                     .Go(a, x.(seen := w.disk, pc := Done(StartDone(TimedOut)))))
  {
    var m, y, none := Fresh(g), x.(seen := w.disk), Claim(None, None);
    var aim := y.(pc := Aim([none, none], false));
    GoGo(w, a, x.(pc := LookLast), aim);
    u := Extend(t, w.Go(a, x.(pc := LookLast)), Start(a, DoLookLast), w.Go(a, aim));
    u := AimsPastBoth(u, w, a, y, none);
    u := MarksTimeout(u, w, a, y, g);
  }

  /** The start, with nobody left to terminate, marks its run Stopped and returns. */
  lemma MarksTimeout(t: Trace, w: World, a: nat, y: Actor, g: nat) returns (u: Trace)
    requires Ends(t, w.Go(a, y.(pc := Aim([], false)))) && y.role.Starter? && y.gen == g
    requires w.disk == Some(Fresh(g)) && w.statusLock.None?
    ensures GoesOn(t, u, w.(disk := Some(TimedOutRecord(g)), startLock := None)
                     .Go(a, y.(pc := Done(StartDone(TimedOut)))))
  {
    var job := MarkStopped("start timed out", None);
    var z := y.(pc := Section(job, Acquire));
    GoGo(w, a, y.(pc := Aim([], false)), z);
    u := Extend(t, w.Go(a, y.(pc := Aim([], false))), Terminate(a, NextTarget(true)), w.Go(a, z));
    u := RunSection(u, w.Go(a, z), a, TimedOutRecord(g));
    var v := w.(disk := Some(TimedOutRecord(g)));
    GoGo(v, a, z, y.(pc := UnlockStart(TimedOut)));
    GoGo(v.(startLock := None), a, y.(pc := UnlockStart(TimedOut)), y.(pc := Done(StartDone(TimedOut))));
    u := Extend(u, v.Go(a, y.(pc := UnlockStart(TimedOut))), Start(a, DoUnlock),
                v.(startLock := None).Go(a, y.(pc := Done(StartDone(TimedOut)))));
  }

  function TimedOutRecord(g: nat): Record {
    Fresh(g).(status := Stopped, exitStatus := Some("start timed out"), exitCode := None)
  }

  lemma AimsPastBoth(t: Trace, w: World, a: nat, y: Actor, none: Claim) returns (u: Trace)
    requires Ends(t, w.Go(a, y.(pc := Aim([none, none], false)))) && y.role.Starter? && none.pid.None?
    ensures GoesOn(t, u, w.Go(a, y.(pc := Aim([], false))))
  {
    assert [none] + [none] == [none, none] && [none] + [] == [none];
    u := AimsPast(t, w, a, y, none, [none]);
    u := AimsPast(u, w, a, y, none, []);
  }

  lemma AimsPast(t: Trace, w: World, a: nat, y: Actor, none: Claim, rest: seq<Claim>) returns (u: Trace)
    requires Ends(t, w.Go(a, y.(pc := Aim([none] + rest, false)))) && y.role.Starter? && none.pid.None?
    ensures GoesOn(t, u, w.Go(a, y.(pc := Aim(rest, false))))
  {
    assert ([none] + rest)[1..] == rest;
    GoGo(w, a, y.(pc := Aim([none] + rest, false)), y.(pc := Aim(rest, false)));
    u := Extend(t, w.Go(a, y.(pc := Aim([none] + rest, false))), Terminate(a, NextTarget(true)),
                w.Go(a, y.(pc := Aim(rest, false))));
  }

  // ------------------------------------------------------------------ owners

  /** The record of run `m` once its owner has recorded the child and promoted the run. */
  function Promoted(m: Record, i: Ident): Record {
    m.(childPid := Some(i.pid), childToken := Some(i.token), status := Running)
  }

  /** The state once owner `o` has spawned its child at pid `p` and serves its run. */
  function Serving(w: World, o: nat, p: nat): World
    requires o in w.actors && w.disk.Some?
  {
    var i := Ident(p, w.nextToken);
    w.(disk := Some(Promoted(w.disk.value, i)), procs := w.procs[p := Proc(w.nextToken, false)],
       nextToken := w.nextToken + 1)
    .Go(o, w.actors[o].(child := Some(i), reader := w.fifo, pc := Serve))
  }

  /** An owner whose run is live, from the spawn of its child to its promotion. */
  lemma OwnerServes(t: Trace, w: World, o: nat, p: nat) returns (u: Trace)
    requires Ends(t, w) && o in w.actors && w.actors[o].role.Owner? && w.actors[o].pc.SpawnChild?
    requires p !in w.procs && w.statusLock.None? && w.fifo.Some?
    requires w.disk.Some? && RunIsLive(w.disk.value, w.actors[o].gen)
    ensures GoesOn(t, u, Serving(w, o, p))
  {
    var m, x, i := w.disk.value, w.actors[o], Ident(p, w.nextToken);
    var b := w.(procs := w.procs[p := Proc(w.nextToken, false)], nextToken := w.nextToken + 1);
    var y := x.(child := Some(i));
    var y1 := y.(pc := Section(RecordChild(p), Acquire));
    u := Extend(t, w, Own(o, DoSpawnChild(p)), b.Go(o, y1));
    var named := m.(childPid := Some(p), childToken := Some(i.token));
    u := RunSection(u, b.Go(o, y1), o, named);
    GoGo(b.(disk := Some(named)), o, y1, y.(pc := OpenFifo));
    u := OwnerPromotes(u, b.(disk := Some(named)), o, y, named);
  }

  lemma OwnerPromotes(t: Trace, b: World, o: nat, y: Actor, m: Record) returns (u: Trace)
    requires Ends(t, b.Go(o, y.(pc := OpenFifo))) && y.role.Owner? && b.statusLock.None? && b.fifo.Some?
    requires b.disk == Some(m) && RunIsLive(m, y.gen)
    ensures GoesOn(t, u, b.(disk := Some(m.(status := Running))).Go(o, y.(reader := b.fifo, pc := Serve)))
  {
    var z := y.(reader := b.fifo, pc := Section(Promote, Acquire));
    GoGo(b, o, y.(pc := OpenFifo), z);
    u := Extend(t, b.Go(o, y.(pc := OpenFifo)), Own(o, DoOpenFifo), b.Go(o, z));
    u := RunSection(u, b.Go(o, z), o, m.(status := Running));
    GoGo(b.(disk := Some(m.(status := Running))), o, z, z.(pc := Serve));
  }

  /** The child of a serving owner exits, and its owner waits for it and closes the FIFO. */
  lemma OwnerReaps(t: Trace, w: World, o: nat, y: Actor, i: Ident) returns (u: Trace)
    requires Ends(t, w) && o in w.actors && w.actors[o] == y
    requires y.role.Owner? && y.supervisor != Some(i) && y.pc.Serve? && y.child == Some(i)
    requires i.pid in w.procs && w.procs[i.pid] == Proc(i.token, false)
    requires forall a | a in w.actors :: !IsSupervisor(w.actors[a], i)
    ensures GoesOn(t, u, Reaped(w, o, i.pid))
  {
    var e := w.(procs := w.procs[i.pid := Proc(i.token, true)]);
    u := Extend(t, w, System(Exit(i.pid)), e);
    var v := w.(procs := w.procs - {i.pid});
    assert e.procs - {i.pid} == v.procs;
    u := Extend(u, e, Own(o, WaitChild("exited", 0)), v.Go(o, y.(reaped := true, pc := CloseReader("exited", 0))));
    GoGo(v, o, y.(reaped := true, pc := CloseReader("exited", 0)), Reaped(w, o, i.pid).actors[o]);
    u := Extend(u, v.Go(o, y.(reaped := true, pc := CloseReader("exited", 0))), Own(o, DoCloseReader),
                Reaped(w, o, i.pid));
  }

  /** The owner is about to mark its run Stopped. */
  function Reaped(w: World, o: nat, p: nat): World
    requires o in w.actors
  {
    w.(procs := w.procs - {p})
    .Go(o, w.actors[o].(reaped := true, reader := None, pc := Section(MarkStopped("exited", Some(0)), Acquire)))
  }
}
