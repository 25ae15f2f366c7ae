/**
 Identity: whose processes the records name, and which process a signal can hit.
 */
module LifecycleIdentity {
  import opened Wrappers
  import opened Metadata
  import opened Lifecycle
  import opened LifecycleLocks
  import opened LifecycleProcs

  /** `x` is an owner bound to run `gen`, and `i` is the child it spawned. */
  predicate OwnsChild(x: Actor, gen: nat, i: Ident) {
    x.role.Owner? && x.gen == gen && x.child == Some(i)
  }

  /** `x` is an owner bound to run `gen` whose supervisor process is `i`. */
  predicate OwnsSupervisor(x: Actor, gen: nat, i: Ident) {
    && x.role.Owner? && x.gen == gen && x.supervisor == Some(i)
    && !(x.pc.Section? && x.pc.job.Adopt? && (x.pc.stage.Acquire? || x.pc.stage.Load?))
  }

  /**
   The child pid and its token are recorded together, and a recorded identity is
   that of a process created by an owner of the record's generation.
   */
  ghost predicate Named(actors: map<nat, Actor>, m: Record) {
    && (m.childPid.Some? <==> m.childToken.Some?)
    && (m.childPid.Some? && m.childToken.Some? ==>
          exists o | o in actors :: OwnsChild(actors[o], m.generation, Ident(m.childPid.value, m.childToken.value)))
    && (m.supervisorPid.Some? && m.supervisorToken.Some? ==>
          exists o | o in actors ::
            OwnsSupervisor(actors[o], m.generation, Ident(m.supervisorPid.value, m.supervisorToken.value)))
  }

  /** The order in which a stopper and a timed-out starter go through a snapshot. */
  function Plan(x: Actor): seq<Claim>
    requires x.seen.Some?
  {
    var m := x.seen.value;
    if x.role.Starter? then [SupervisorClaim(m), ChildClaim(m)] else [ChildClaim(m), SupervisorClaim(m)]
  }

  /** What is left to do is the tail of the plan. */
  predicate OnPlan(x: Actor) {
    && (x.pc.Aim? ==>
          && x.seen.Some?
          && |x.pc.todo| <= 2
          && (|x.pc.todo| == 2 ==> x.pc.todo[0] == Plan(x)[0] && x.pc.todo[1] == Plan(x)[1])
          && (|x.pc.todo| == 1 ==> x.pc.todo[0] == Plan(x)[1]))
    && (x.pc.Hit? ==>
          && x.seen.Some?
          && |x.pc.rest| <= 1
          && x.pc.claim.pid.Some?
          && x.pc.claim == Plan(x)[1 - |x.pc.rest|]
          && (|x.pc.rest| == 1 ==> x.pc.rest[0] == Plan(x)[1]))
    && (x.role.Stopper? && x.pc.Section? ==> x.seen.Some?)
  }

  ghost predicate ActorNames(actors: map<nat, Actor>, x: Actor) {
    && (Saving(x) ==> Named(actors, x.pc.stage.next))
    && (x.seen.Some? ==> Named(actors, x.seen.value))
    && (x.pc.CheckActive? ==> Named(actors, x.pc.found))
    && OnPlan(x)
  }

  ghost predicate NameInv(w: World) {
    && (w.disk.None? || Named(w.actors, w.disk.value))
    && forall a | a in w.actors :: ActorNames(w.actors, w.actors[a])
  }

  /** Owners keep what they own. */
  ghost predicate KeepsOwned(x: Actor, y: Actor) {
    && (forall g: nat, i :: OwnsChild(x, g, i) ==> OwnsChild(y, g, i))
    && (forall g: nat, i :: OwnsSupervisor(x, g, i) ==> OwnsSupervisor(y, g, i))
  }

  ghost predicate AllKeepOwned(before: map<nat, Actor>, after: map<nat, Actor>) {
    && before.Keys <= after.Keys
    && forall o | o in before :: KeepsOwned(before[o], after[o])
  }

  lemma NamedKeeps(before: map<nat, Actor>, after: map<nat, Actor>, m: Record)
    requires Named(before, m) && AllKeepOwned(before, after)
    ensures Named(after, m)
  {
    if m.childPid.Some? {
      var i := Ident(m.childPid.value, m.childToken.value);
      var o :| o in before && OwnsChild(before[o], m.generation, i);
      assert KeepsOwned(before[o], after[o]) && OwnsChild(after[o], m.generation, i);
    }
    if m.supervisorPid.Some? && m.supervisorToken.Some? {
      var i := Ident(m.supervisorPid.value, m.supervisorToken.value);
      var o :| o in before && OwnsSupervisor(before[o], m.generation, i);
      assert KeepsOwned(before[o], after[o]) && OwnsSupervisor(after[o], m.generation, i);
    }
  }

  /** A step whose mover keeps what it owns only has to account for the mover and the file. */
  lemma NameKeep(w: World, a: nat, v: World)
    requires NameInv(w) && OnlyMoves(w, a, v) && KeepsOwned(w.actors[a], v.actors[a])
    requires v.disk == w.disk || (v.disk.Some? && Named(w.actors, v.disk.value))
    requires var y := v.actors[a];
             && (Saving(y) ==> Named(v.actors, y.pc.stage.next))
             && (y.seen.Some? ==> y.seen == w.actors[a].seen || y.seen == w.disk)
             && (y.pc.CheckActive? ==> w.disk == Some(y.pc.found))
             && OnPlan(y)
    ensures NameInv(v)
  {
    if v.disk.Some? { NamedKeeps(w.actors, v.actors, v.disk.value); }
    forall b | b in v.actors ensures ActorNames(v.actors, v.actors[b]) {
      assert ActorNames(w.actors, w.actors[b]);
      var y := v.actors[b];
      if y.seen.Some? { NamedKeeps(w.actors, v.actors, y.seen.value); }
      if y.pc.CheckActive? { NamedKeeps(w.actors, v.actors, y.pc.found); }
      if b != a && Saving(y) { NamedKeeps(w.actors, v.actors, y.pc.stage.next); }
    }
  }

  /** The same for a mover that looks at nothing and goes for nobody. */
  lemma NameQuiet(w: World, a: nat, v: World)
    requires NameInv(w) && OnlyMoves(w, a, v) && KeepsOwned(w.actors[a], v.actors[a]) && v.disk == w.disk
    requires Quiet(v.actors[a]) && v.actors[a].seen == w.actors[a].seen
    requires v.actors[a].role.Stopper? && v.actors[a].pc.Section? ==> v.actors[a].seen.Some?
    ensures NameInv(v)
  {
    NameKeep(w, a, v);
  }

  predicate Quiet(y: Actor) {
    !Saving(y) && !y.pc.Aim? && !y.pc.Hit? && !y.pc.CheckActive?
  }

  lemma NameJoin(w: World, o: nat, y: Actor)
    requires NameInv(w) && o !in w.actors && !Saving(y) && y.seen.None? && !y.pc.CheckActive? && OnPlan(y)
    ensures NameInv(w.Go(o, y))
  {
    var v := w.Go(o, y);
    if v.disk.Some? { NamedKeeps(w.actors, v.actors, v.disk.value); }
    forall b | b in v.actors ensures ActorNames(v.actors, v.actors[b]) {
      if b in w.actors {
        assert ActorNames(w.actors, w.actors[b]);
        if w.actors[b].seen.Some? { NamedKeeps(w.actors, v.actors, w.actors[b].seen.value); }
        if w.actors[b].pc.CheckActive? { NamedKeeps(w.actors, v.actors, w.actors[b].pc.found); }
        if Saving(w.actors[b]) { NamedKeeps(w.actors, v.actors, w.actors[b].pc.stage.next); }
      }
    }
  }

  lemma NameStep(w: World, st: Step)
    requires NameInv(w) && ProcInv(w) && Enabled(w, st)
    ensures NameInv(Apply(w, st))
  {
    match st
    case Start(a, s) => NameStart(w, a, s);
    case Lock(a, s) => NameSection(w, a, s);
    case Own(a, s) => NameOwner(w, a, s);
    case Terminate(a, s) => NameKill(w, a, s);
    case Visit(a, s) => NameVisit(w, a, s);
    case System(s) => NameSystem(w, s);
  }

  lemma NameStart(w: World, a: nat, s: StartStep)
    requires NameInv(w) && StartEnabled(w, a, s)
    ensures NameInv(StartApply(w, a, s))
  {
    if s.DoSpawn? {
      NameSpawn(w, a, s.o, s.p);
    } else {
      assert ActorNames(w.actors, w.actors[a]);
      StartNames(w, a, s);
      NameKeep(w, a, StartApply(w, a, s));
    }
  }

  lemma StartNames(w: World, a: nat, s: StartStep)
    requires StartEnabled(w, a, s) && !s.DoSpawn? && OnPlan(w.actors[a])
    ensures var v := StartApply(w, a, s);
            var x, y := w.actors[a], v.actors[a];
            && OnlyMoves(w, a, v) && KeepsOwned(x, y) && OnPlan(y) && !Saving(y)
            && (v.disk == w.disk || (s.DoSaveFresh? && v.disk == Some(Fresh(x.gen))))
            && (y.seen.Some? ==> y.seen == x.seen || y.seen == w.disk)
            && (y.pc.CheckActive? ==> w.disk == Some(y.pc.found))
  {
  }

  lemma NameSpawn(w: World, a: nat, o: nat, p: nat)
    requires NameInv(w) && StartEnabled(w, a, DoSpawn(o, p))
    ensures NameInv(StartApply(w, a, DoSpawn(o, p)))
  {
    var v := StartApply(w, a, DoSpawn(o, p));
    var u := w.Go(a, v.actors[a]);
    NameKeep(w, a, u);
    NameJoin(u, o, v.actors[o]);
    assert v.actors == u.Go(o, v.actors[o]).actors;
  }

  lemma NameSection(w: World, a: nat, s: SectionStep)
    requires NameInv(w) && ProcInv(w) && SectionEnabled(w, a, s)
    ensures NameInv(SectionApply(w, a, s))
  {
    match s
    case DoLoad(readable) => NameLoad(w, a, readable);
    case DoSave => NameSave(w, a);
    case _ => NameEdge(w, a, s);
  }

  lemma NameSave(w: World, a: nat)
    requires NameInv(w) && SectionEnabled(w, a, DoSave)
    ensures NameInv(SectionApply(w, a, DoSave))
  {
    assert ActorNames(w.actors, w.actors[a]);
    NameKeep(w, a, SectionApply(w, a, DoSave));
  }

  lemma NameEdge(w: World, a: nat, s: SectionStep)
    requires NameInv(w) && SectionEnabled(w, a, s) && (s.DoAcquire? || s.DoRelease?)
    ensures NameInv(SectionApply(w, a, s))
  {
    assert ActorNames(w.actors, w.actors[a]);
    EdgeOwned(w, a, s);
    NameQuiet(w, a, SectionApply(w, a, s));
  }

  lemma EdgeOwned(w: World, a: nat, s: SectionStep)
    requires SectionEnabled(w, a, s) && (s.DoAcquire? || s.DoRelease?)
    ensures var v := SectionApply(w, a, s);
            && OnlyMoves(w, a, v) && v.disk == w.disk
            && KeepsOwned(w.actors[a], v.actors[a]) && Quiet(v.actors[a]) && v.actors[a].seen == w.actors[a].seen
            && v.actors[a].role == w.actors[a].role
  {
    if s.DoAcquire? { AcquireOwned(w, a); } else { ReleaseOwned(w, a); }
  }

  lemma AcquireOwned(w: World, a: nat)
    requires SectionEnabled(w, a, DoAcquire)
    ensures var y := SectionApply(w, a, DoAcquire).actors[a];
            KeepsOwned(w.actors[a], y) && Quiet(y) && y.seen == w.actors[a].seen && y.role == w.actors[a].role
  {
  }

  lemma ReleaseOwned(w: World, a: nat)
    requires SectionEnabled(w, a, DoRelease)
    ensures var y := SectionApply(w, a, DoRelease).actors[a];
            KeepsOwned(w.actors[a], y) && Quiet(y) && y.seen == w.actors[a].seen && y.role == w.actors[a].role
  {
  }

  lemma NameLoad(w: World, a: nat, readable: bool)
    requires NameInv(w) && ProcInv(w) && SectionEnabled(w, a, DoLoad(readable))
    ensures NameInv(SectionApply(w, a, DoLoad(readable)))
  {
    var x, v := w.actors[a], SectionApply(w, a, DoLoad(readable));
    assert ActorNames(w.actors, x);
    LoadNames(w, a, readable);
    NameKeep(w, a, v);
  }

  /** The record a section is about to save names processes of its own run. */
  lemma LoadNames(w: World, a: nat, readable: bool)
    requires NameInv(w) && ProcInv(w) && SectionEnabled(w, a, DoLoad(readable))
    ensures var y := SectionApply(w, a, DoLoad(readable)).actors[a];
            && KeepsOwned(w.actors[a], y)
            && (Saving(y) ==> Named(w.actors[a := y], y.pc.stage.next))
  {
    var x, y := w.actors[a], SectionApply(w, a, DoLoad(readable)).actors[a];
    assert ActorProcs(x, w.procs, w.nextToken);
    assert KeepsOwned(x, y);
    if Saving(y) {
      var after := w.actors[a := y];
      NamedKeeps(w.actors, after, w.disk.value);
      NextNamed(after, a, x.pc.job, y.gen, w.disk.value, w.procs, readable);
    }
  }

  lemma NextNamed(after: map<nat, Actor>, a: nat, job: Job, gen: nat, m: Record, procs: Procs, readable: bool)
    requires a in after && Named(after, m) && Outcome(job, gen, m, procs, readable).Some?
    requires job.Adopt? ==> m.generation == gen && after[a].supervisor.Some?
                            && Present(procs, after[a].supervisor.value)
                            && after[a].supervisor.value.pid == job.supervisor
                            && OwnsSupervisor(after[a], gen, after[a].supervisor.value)
    requires job.RecordChild? ==> after[a].child.Some? && Present(procs, after[a].child.value)
                                  && after[a].child.value.pid == job.child
                                  && OwnsChild(after[a], gen, after[a].child.value)
    ensures Named(after, Outcome(job, gen, m, procs, readable).value)
  {
  }

  lemma NameOwner(w: World, a: nat, s: OwnerStep)
    requires NameInv(w) && ProcInv(w) && OwnerEnabled(w, a, s)
    ensures NameInv(OwnerApply(w, a, s))
  {
    var x, v := w.actors[a], OwnerApply(w, a, s);
    assert ActorProcs(x, w.procs, w.nextToken) && ActorNames(w.actors, x);
    OwnedKept(w, a, s);
    NameQuiet(w, a, v);
  }

  lemma OwnedKept(w: World, a: nat, s: OwnerStep)
    requires OwnerEnabled(w, a, s) && ActorProcs(w.actors[a], w.procs, w.nextToken)
    ensures var y := OwnerApply(w, a, s).actors[a]; KeepsOwned(w.actors[a], y) && Quiet(y)
  {
  }

  lemma NameKill(w: World, a: nat, s: KillStep)
    requires NameInv(w) && KillEnabled(w, a, s)
    ensures NameInv(KillApply(w, a, s))
  {
    var x, v := w.actors[a], KillApply(w, a, s);
    assert ActorNames(w.actors, x);
    assert v.actors[a] == x.(pc := v.actors[a].pc);
    PlanStep(x, s, w, a);
    NameKeep(w, a, v);
  }

  lemma PlanStep(x: Actor, s: KillStep, w: World, a: nat)
    requires KillEnabled(w, a, s) && x == w.actors[a] && OnPlan(x)
    ensures OnPlan(KillApply(w, a, s).actors[a])
  {
  }

  lemma NameVisit(w: World, a: nat, s: VisitStep)
    requires NameInv(w) && VisitEnabled(w, a, s)
    ensures NameInv(VisitApply(w, a, s))
  {
    assert ActorNames(w.actors, w.actors[a]);
    NameKeep(w, a, VisitApply(w, a, s));
  }

  lemma NameSystem(w: World, s: SystemStep)
    requires NameInv(w) && SystemEnabled(w, s)
    ensures NameInv(SystemApply(w, s))
  {
    if s.Arrive? { NameJoin(w, s.b, SystemApply(w, s).actors[s.b]); }
  }
}
