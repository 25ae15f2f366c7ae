/**
 The process table: every process has a token of its own, an owner's child stays
 in the table until that owner waits for it, and is gone for good afterwards.
 */
module LifecycleProcs {
  import opened Wrappers
  import opened Metadata
  import opened Lifecycle
  import opened LifecycleLocks

  predicate Present(procs: Procs, i: Ident) {
    i.pid in procs && procs[i.pid].token == i.token
  }

  ghost predicate Gone(procs: Procs, token: nat) {
    forall p | p in procs :: procs[p].token != token
  }

  ghost predicate Table(procs: Procs, nextToken: nat) {
    && (forall p | p in procs :: procs[p].token < nextToken)
    && (forall p, q | p in procs && q in procs && p != q :: procs[p].token != procs[q].token)
  }

  /** The processes an actor has created. */
  predicate Made(x: Actor, token: nat) {
    || (x.child.Some? && x.child.value.token == token)
    || (x.supervisor.Some? && x.supervisor.value.token == token)
  }

  ghost predicate Apart(x: Actor, y: Actor) {
    forall t: nat | Made(x, t) :: !Made(y, t)
  }

  /** An owner that has spawned its child and not yet waited for it. */
  predicate HasChild(x: Actor) {
    && x.role.Owner?
    && (|| (x.pc.Section? && (x.pc.job.RecordChild? || x.pc.job.Promote?))
        || x.pc.OpenFifo? || x.pc.Serve? || x.pc.KillChild? || x.pc.ReapChild?)
  }

  /** An owner on its way to, or past, its final section. */
  predicate PastChild(x: Actor) {
    && x.role.Owner?
    && (x.pc.CloseReader? || (x.pc.Section? && x.pc.job.MarkStopped?) || x.pc.Done?)
  }

  predicate BeforeChild(x: Actor) {
    !x.role.Owner? || x.pc.SpawnChild? || (x.pc.Section? && x.pc.job.Adopt?)
  }

  ghost predicate ActorProcs(x: Actor, procs: Procs, nextToken: nat) {
    && (x.child.Some? ==> x.child.value.token < nextToken)
    && (x.supervisor.Some? ==> x.supervisor.value.token < nextToken)
    && (x.child.Some? && x.supervisor.Some? ==> x.child.value.token != x.supervisor.value.token)
    && (x.child.Some? ==> forall p | p in procs :: procs[p].token == x.child.value.token ==> p == x.child.value.pid)
    && (x.child.None? ==> !x.reaped)
    && (x.child.Some? && x.reaped ==> Gone(procs, x.child.value.token))
    && (x.child.Some? && !x.reaped && !x.pc.Dead? ==> Present(procs, x.child.value))
    && (x.supervisor.Some? && !Finished(x) ==> Present(procs, x.supervisor.value))
    && (BeforeChild(x) || HasChild(x) || PastChild(x) || x.pc.Dead?)
    && (BeforeChild(x) ==> x.child.None?)
    && (HasChild(x) ==> x.child.Some? && !x.reaped)
    && (PastChild(x) && x.child.Some? ==> x.reaped)
    && (x.role.Owner? && x.pc.Section? && x.pc.job.RecordChild? ==> x.child.value.pid == x.pc.job.child)
    && (x.role.Owner? && x.pc.Section? && x.pc.job.Adopt? ==>
          x.supervisor.Some? && x.supervisor.value.pid == x.pc.job.supervisor)
    && (x.role == Owner(true) ==> x.supervisor.Some?)
  }

  ghost predicate ProcInv(w: World) {
    && Table(w.procs, w.nextToken)
    && (forall a | a in w.actors :: ActorProcs(w.actors[a], w.procs, w.nextToken))
    && AllApart(w.actors)
  }

  // ------------------------------------------- what happens to the table

  /** A process appears under a free pid, with the next token. */
  predicate Grows(procs: Procs, next: nat, p: nat, procs': Procs, next': nat) {
    p !in procs && procs' == procs[p := Proc(next, false)] && next' == next + 1
  }

  lemma KeepsGrow(x: Actor, procs: Procs, next: nat, p: nat, procs': Procs, next': nat)
    requires ActorProcs(x, procs, next) && Grows(procs, next, p, procs', next')
    ensures ActorProcs(x, procs', next')
  {
  }

  lemma KeepsShrink(x: Actor, procs: Procs, next: nat, p: nat)
    requires ActorProcs(x, procs, next) && Table(procs, next) && p in procs
    requires !IsSupervisor(x, Ident(p, procs[p].token)) && !MustReap(x, Ident(p, procs[p].token))
    ensures ActorProcs(x, procs - {p}, next) && Gone(procs - {p}, procs[p].token) && Table(procs - {p}, next)
  {
  }

  lemma KeepsExit(x: Actor, procs: Procs, next: nat, p: nat)
    requires ActorProcs(x, procs, next) && p in procs
    ensures ActorProcs(x, procs[p := procs[p].(zombie := true)], next)
  {
  }

  lemma KeepsJob(x: Actor, y: Actor, procs: Procs, next: nat)
    requires ActorProcs(x, procs, next) && x.pc.Section? && y.pc.Section? && y.pc.job == x.pc.job
    requires y == x.(gen := y.gen, pc := y.pc)
    ensures ActorProcs(y, procs, next)
  {
  }

  ghost predicate AllApart(actors: map<nat, Actor>) {
    forall a, b | a in actors && b in actors && a != b :: Apart(actors[a], actors[b])
  }

  /** Actors that create nothing stay apart. */
  lemma StillApart(before: map<nat, Actor>, after: map<nat, Actor>)
    requires AllApart(before) && after.Keys == before.Keys
    requires forall b | b in after ::
               after[b].child == before[b].child && after[b].supervisor == before[b].supervisor
    ensures AllApart(after)
  {
    forall b, c | b in after && c in after && b != c ensures Apart(after[b], after[c]) {
      assert Apart(before[b], before[c]);
      assert forall t: nat :: Made(after[b], t) == Made(before[b], t) && Made(after[c], t) == Made(before[c], t);
    }
  }

  lemma ProcStep(w: World, st: Step)
    requires ProcInv(w) && Enabled(w, st)
    ensures ProcInv(Apply(w, st))
  {
    match st
    case Start(a, s) => ProcsStart(w, a, s);
    case Lock(a, s) => ProcsSection(w, a, s);
    case Own(a, s) => ProcsOwner(w, a, s);
    case Terminate(a, s) => ProcsKill(w, a, s);
    case Visit(a, s) => ProcsVisit(w, a, s);
    case System(s) => ProcsSystem(w, s);
  }

  /** A step that creates and removes no process only has to account for the mover. */
  lemma ProcsKeep(w: World, a: nat, v: World)
    requires ProcInv(w) && OnlyMoves(w, a, v) && v.procs == w.procs && v.nextToken == w.nextToken
    requires ActorProcs(v.actors[a], v.procs, v.nextToken)
    requires v.actors[a].child == w.actors[a].child && v.actors[a].supervisor == w.actors[a].supervisor
    ensures ProcInv(v)
  {
    forall b | b in v.actors ensures ActorProcs(v.actors[b], v.procs, v.nextToken) {
      assert ActorProcs(w.actors[b], w.procs, w.nextToken);
    }
    StillApart(w.actors, v.actors);
  }

  lemma ProcsStart(w: World, a: nat, s: StartStep)
    requires ProcInv(w) && StartEnabled(w, a, s)
    ensures ProcInv(StartApply(w, a, s))
  {
    if s.DoSpawn? {
      ProcsSpawn(w, a, s.o, s.p);
    } else {
      assert ActorProcs(w.actors[a], w.procs, w.nextToken);
      StartProcs(w, a, s);
      ProcsKeep(w, a, StartApply(w, a, s));
    }
  }

  lemma StartProcs(w: World, a: nat, s: StartStep)
    requires StartEnabled(w, a, s) && !s.DoSpawn? && ActorProcs(w.actors[a], w.procs, w.nextToken)
    ensures var v := StartApply(w, a, s);
            && OnlyMoves(w, a, v) && v.procs == w.procs && v.nextToken == w.nextToken
            && ActorProcs(v.actors[a], w.procs, w.nextToken)
            && v.actors[a].child == w.actors[a].child && v.actors[a].supervisor == w.actors[a].supervisor
  {
  }

  lemma ProcsSpawn(w: World, a: nat, o: nat, p: nat)
    requires ProcInv(w) && StartEnabled(w, a, DoSpawn(o, p))
    ensures ProcInv(StartApply(w, a, DoSpawn(o, p)))
  {
    if w.actors[a].role.direct {
      ProcsSpawnDirect(w, a, o, p);
    } else {
      ProcsSpawned(w, a, o, NewActor(Owner(false), SpawnChild, w.actors[a].gen));
    }
  }

  lemma ProcsSpawnDirect(w: World, a: nat, o: nat, p: nat)
    requires ProcInv(w) && StartEnabled(w, a, DoSpawn(o, p)) && w.actors[a].role.direct
    ensures ProcInv(StartApply(w, a, DoSpawn(o, p)))
  {
    var u := WithProcess(w, p);
    var owner := NewSupervisor(w.actors[a].gen, Ident(p, w.nextToken));
    SpawnIs(w, a, o, p);
    ProcsGrow(w, p, u.procs, u.nextToken);
    SupervisorIsThere(owner, u.procs, u.nextToken);
    ProcsSpawned(u, a, o, owner);
  }

  function WithProcess(w: World, p: nat): World {
    w.(procs := w.procs[p := Proc(w.nextToken, false)], nextToken := w.nextToken + 1)
  }

  function NewSupervisor(gen: nat, i: Ident): Actor {
    NewActor(Owner(true), Section(Adopt(i.pid), Acquire), gen).(supervisor := Some(i))
  }

  lemma SpawnIs(w: World, a: nat, o: nat, p: nat)
    requires StartEnabled(w, a, DoSpawn(o, p)) && w.actors[a].role.direct
    ensures StartApply(w, a, DoSpawn(o, p))
            == WithProcess(w, p).Go(o, NewSupervisor(w.actors[a].gen, Ident(p, w.nextToken)))
               .Go(a, w.actors[a].(pc := Poll(0)))
  {
  }

  lemma SupervisorIsThere(y: Actor, procs: Procs, next: nat)
    requires y.role == Owner(true) && y.supervisor.Some? && y.child.None? && !y.reaped
    requires Present(procs, y.supervisor.value) && y.supervisor.value.token < next
    requires y.pc == Section(Adopt(y.supervisor.value.pid), Acquire)
    ensures ActorProcs(y, procs, next)
  {
  }

  lemma ProcsSpawned(u: World, a: nat, o: nat, owner: Actor)
    requires ProcInv(u) && a in u.actors && u.actors[a].role.Starter? && u.actors[a].pc.SpawnOwner? && o !in u.actors
    requires ActorProcs(owner, u.procs, u.nextToken) && owner.child.None?
    requires owner.supervisor.Some? ==> forall b | b in u.actors :: !Made(u.actors[b], owner.supervisor.value.token)
    ensures ProcInv(u.Go(o, owner).Go(a, u.actors[a].(pc := Poll(0))))
  {
    ProcsJoin(u, o, owner);
    var t := u.Go(o, owner);
    assert ActorProcs(u.actors[a], u.procs, u.nextToken);
    ProcsKeep(t, a, t.Go(a, u.actors[a].(pc := Poll(0))));
  }

  lemma ProcsGrow(w: World, p: nat, procs: Procs, next: nat)
    requires ProcInv(w) && Grows(w.procs, w.nextToken, p, procs, next)
    ensures ProcInv(w.(procs := procs, nextToken := next))
    ensures forall b | b in w.actors :: !Made(w.actors[b], w.nextToken)
  {
    forall b | b in w.actors ensures ActorProcs(w.actors[b], procs, next) {
      KeepsGrow(w.actors[b], w.procs, w.nextToken, p, procs, next);
    }
  }

  lemma ProcsJoin(w: World, o: nat, y: Actor)
    requires ProcInv(w) && o !in w.actors && ActorProcs(y, w.procs, w.nextToken)
    requires y.child.None?
    requires y.supervisor.Some? ==> forall b | b in w.actors :: !Made(w.actors[b], y.supervisor.value.token)
    ensures ProcInv(w.Go(o, y))
  {
    var v := w.Go(o, y);
    forall b, c | b in v.actors && c in v.actors && b != c ensures Apart(v.actors[b], v.actors[c]) {
      if b in w.actors && c in w.actors { assert Apart(w.actors[b], w.actors[c]); }
    }
  }

  lemma ProcsSection(w: World, a: nat, s: SectionStep)
    requires ProcInv(w) && SectionEnabled(w, a, s)
    ensures ProcInv(SectionApply(w, a, s))
  {
    if s.DoRelease? { ProcsRelease(w, a); } else { ProcsInside(w, a, s); }
  }

  lemma ProcsInside(w: World, a: nat, s: SectionStep)
    requires ProcInv(w) && SectionEnabled(w, a, s) && !s.DoRelease?
    ensures ProcInv(SectionApply(w, a, s))
  {
    var v := SectionApply(w, a, s);
    KeepsJob(w.actors[a], v.actors[a], w.procs, w.nextToken);
    ProcsKeep(w, a, v);
  }

  lemma ProcsRelease(w: World, a: nat)
    requires ProcInv(w) && SectionEnabled(w, a, DoRelease)
    ensures ProcInv(SectionApply(w, a, DoRelease))
  {
    var v := SectionApply(w, a, DoRelease);
    KeepsRelease(w.actors[a], w.procs, w.nextToken);
    ProcsKeep(w, a, v);
  }

  lemma KeepsRelease(x: Actor, procs: Procs, next: nat)
    requires ActorProcs(x, procs, next) && x.pc.Section? && x.pc.stage.Release?
    requires x.role.Owner? || (x.pc.job.MarkStopped? && !x.role.Sender?)
    ensures ActorProcs(AfterSection(x, x.pc.job, x.pc.stage.wrote), procs, next)
  {
  }

  lemma ProcsKill(w: World, a: nat, s: KillStep)
    requires ProcInv(w) && KillEnabled(w, a, s)
    ensures ProcInv(KillApply(w, a, s))
  {
    assert ActorProcs(w.actors[a], w.procs, w.nextToken);
    ProcsKeep(w, a, KillApply(w, a, s));
  }

  lemma ProcsVisit(w: World, a: nat, s: VisitStep)
    requires ProcInv(w) && VisitEnabled(w, a, s)
    ensures ProcInv(VisitApply(w, a, s))
  {
    assert ActorProcs(w.actors[a], w.procs, w.nextToken);
    ProcsKeep(w, a, VisitApply(w, a, s));
  }

  lemma ProcsOwner(w: World, a: nat, s: OwnerStep)
    requires ProcInv(w) && OwnerEnabled(w, a, s)
    ensures ProcInv(OwnerApply(w, a, s))
  {
    match s
    case DoSpawnChild(p) => ProcsSpawnChild(w, a, p);
    case WaitChild(_, _) => ProcsWait(w, a, s);
    case DoReapChild => ProcsWait(w, a, s);
    case Killed => ProcsKilled(w, a);
    case _ => ProcsQuiet(w, a, s);
  }

  /** The owner steps that create and reap nothing. */
  lemma ProcsQuiet(w: World, a: nat, s: OwnerStep)
    requires ProcInv(w) && OwnerEnabled(w, a, s)
    requires !s.DoSpawnChild? && !s.WaitChild? && !s.DoReapChild? && !s.Killed?
    ensures ProcInv(OwnerApply(w, a, s))
  {
    var x := w.actors[a];
    var v := OwnerApply(w, a, s);
    assert ActorProcs(x, w.procs, w.nextToken);
    KeepsQuiet(x, v.actors[a], w.procs, w.nextToken);
    ProcsKeep(w, a, v);
  }

  lemma KeepsQuiet(x: Actor, y: Actor, procs: Procs, next: nat)
    requires ActorProcs(x, procs, next) && x.role.Owner? && y == x.(reader := y.reader, failed := y.failed, pc := y.pc)
    requires (BeforeChild(x) && PastChild(y)) || (HasChild(x) && HasChild(y)) || (PastChild(x) && PastChild(y))
    requires !Finished(x) && !Finished(y) && !(y.pc.Section? && (y.pc.job.RecordChild? || y.pc.job.Adopt?))
    ensures ActorProcs(y, procs, next)
  {
  }

  lemma ProcsSpawnChild(w: World, a: nat, p: nat)
    requires ProcInv(w) && OwnerEnabled(w, a, DoSpawnChild(p))
    ensures ProcInv(OwnerApply(w, a, DoSpawnChild(p)))
  {
    var x := w.actors[a];
    var i := Ident(p, w.nextToken);
    var u := w.(procs := w.procs[p := Proc(w.nextToken, false)], nextToken := w.nextToken + 1);
    assert ActorProcs(x, w.procs, w.nextToken);
    ProcsGrow(w, p, u.procs, u.nextToken);
    ProcsGain(u, a, i, x.(child := Some(i), pc := Section(RecordChild(p), Acquire)));
  }

  lemma ProcsGain(u: World, a: nat, i: Ident, y: Actor)
    requires ProcInv(u) && a in u.actors && ActorProcs(y, u.procs, u.nextToken)
    requires u.actors[a].child.None? && y.child == Some(i) && y.supervisor == u.actors[a].supervisor
    requires forall b | b in u.actors :: !Made(u.actors[b], i.token)
    ensures ProcInv(u.Go(a, y))
  {
    var v := u.Go(a, y);
    forall b, c | b in v.actors && c in v.actors && b != c ensures Apart(v.actors[b], v.actors[c]) {
      assert Apart(u.actors[b], u.actors[c]);
    }
  }

  lemma ProcsWait(w: World, a: nat, s: OwnerStep)
    requires ProcInv(w) && OwnerEnabled(w, a, s) && (s.WaitChild? || s.DoReapChild?)
    ensures ProcInv(OwnerApply(w, a, s))
  {
    var v := OwnerApply(w, a, s);
    var x := w.actors[a];
    assert ActorProcs(x, w.procs, w.nextToken);
    var p := x.child.value.pid;
    WaitMoves(w, a, s);
    assert Made(x, x.child.value.token);
    forall b | b in v.actors ensures ActorProcs(v.actors[b], v.procs, v.nextToken) {
      assert ActorProcs(w.actors[b], w.procs, w.nextToken);
      if b != a {
        assert Apart(x, w.actors[b]);
        KeepsShrink(w.actors[b], w.procs, w.nextToken, p);
      }
    }
    StillApart(w.actors, v.actors);
  }

  lemma WaitMoves(w: World, a: nat, s: OwnerStep)
    requires OwnerEnabled(w, a, s) && (s.WaitChild? || s.DoReapChild?)
    requires ActorProcs(w.actors[a], w.procs, w.nextToken) && Table(w.procs, w.nextToken)
    ensures var v := OwnerApply(w, a, s);
            && OnlyMoves(w, a, v) && v.nextToken == w.nextToken && v.procs == w.procs - {w.actors[a].child.value.pid}
            && Table(v.procs, v.nextToken) && ActorProcs(v.actors[a], v.procs, v.nextToken)
            && v.actors[a].child == w.actors[a].child && v.actors[a].supervisor == w.actors[a].supervisor
  {
  }

  lemma ProcsKilled(w: World, a: nat)
    requires ProcInv(w) && OwnerEnabled(w, a, Killed)
    ensures ProcInv(OwnerApply(w, a, Killed))
  {
    var v := OwnerApply(w, a, Killed);
    forall b | b in v.actors ensures ActorProcs(v.actors[b], v.procs, v.nextToken) {
      assert ActorProcs(w.actors[b], w.procs, w.nextToken);
      KeepsExit(w.actors[b], w.procs, w.nextToken, w.actors[a].supervisor.value.pid);
    }
    StillApart(w.actors, v.actors);
  }

  lemma ProcsSystem(w: World, s: SystemStep)
    requires ProcInv(w) && SystemEnabled(w, s)
    ensures ProcInv(SystemApply(w, s))
  {
    var v := SystemApply(w, s);
    forall b | b in v.actors ensures ActorProcs(v.actors[b], v.procs, v.nextToken) {
      if b in w.actors {
        var x := w.actors[b];
        assert ActorProcs(x, w.procs, w.nextToken);
        match s
        case Arrive(_, _) =>
        case Stranger(p) => KeepsGrow(x, w.procs, w.nextToken, p, v.procs, v.nextToken);
        case Exit(p) => KeepsExit(x, w.procs, w.nextToken, p);
        case Reap(p) => KeepsShrink(x, w.procs, w.nextToken, p);
      }
    }
    forall b, c | b in v.actors && c in v.actors && b != c ensures Apart(v.actors[b], v.actors[c]) {
      if b in w.actors && c in w.actors { assert Apart(w.actors[b], w.actors[c]); }
    }
  }
}
