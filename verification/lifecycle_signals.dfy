/**
 Which process a `terminate_pid` call works on, and what its return says about
 the child in the caller's snapshot.
 */
module LifecycleSignals {
  import opened Wrappers
  import opened Metadata
  import opened Lifecycle
  import opened LifecycleLocks
  import opened LifecycleProcs
  import opened LifecycleIdentity

  /** Every process of `after` was there before, except at the pid a step hands out. */
  ghost predicate OnlyNew(before: Procs, after: Procs, p: Option<nat>) {
    forall q | q in after && Some(q) != p :: q in before && before[q].token == after[q].token
  }

  /** How a step changes the process table. */
  ghost predicate ProcsMove(w: World, st: Step, v: World) {
    && OnlyNew(w.procs, v.procs, NewPid(w, st))
    && (NewPid(w, st).None? ==> w.nextToken == v.nextToken)
    && (NewPid(w, st).Some? ==>
          && var p := NewPid(w, st).value;
             p in v.procs && v.procs[p].token == w.nextToken && v.nextToken == w.nextToken + 1)
  }

  lemma ProcsEffect(w: World, st: Step)
    requires Enabled(w, st)
    ensures ProcsMove(w, st, Apply(w, st))
  {
    match st
    case Start(a, s) => EffectStart(w, a, s);
    case Lock(a, s) => EffectSection(w, a, s);
    case Own(a, s) => EffectOwner(w, a, s);
    case Terminate(a, s) => EffectKill(w, a, s);
    case Visit(a, s) =>
    case System(s) =>
  }

  lemma EffectStart(w: World, a: nat, s: StartStep)
    requires StartEnabled(w, a, s)
    ensures ProcsMove(w, Start(a, s), StartApply(w, a, s))
  {
  }

  lemma EffectSection(w: World, a: nat, s: SectionStep)
    requires SectionEnabled(w, a, s)
    ensures ProcsMove(w, Lock(a, s), SectionApply(w, a, s))
  {
  }

  lemma EffectOwner(w: World, a: nat, s: OwnerStep)
    requires OwnerEnabled(w, a, s)
    ensures ProcsMove(w, Own(a, s), OwnerApply(w, a, s))
  {
  }

  lemma EffectKill(w: World, a: nat, s: KillStep)
    requires KillEnabled(w, a, s)
    ensures ProcsMove(w, Terminate(a, s), KillApply(w, a, s))
  {
  }

  // ---------------------------------------------------------- the hit list

  /** Actors on a hit list stay as they are, unless the step is their own `terminate_pid` step. */
  ghost predicate ListsKept(w: World, v: World) {
    forall b | b in v.actors && v.actors[b].pc.Hit? :: b in w.actors && v.actors[b] == w.actors[b]
  }

  /** Only `terminate_pid` steps take an actor into a `terminate_pid` call. */
  lemma NoHitFromStart(w: World, a: nat, s: StartStep)
    requires StartEnabled(w, a, s)
    ensures !StartApply(w, a, s).actors[a].pc.Hit?
  {
  }

  lemma NoHitFromSection(w: World, a: nat, s: SectionStep)
    requires SectionEnabled(w, a, s)
    ensures !SectionApply(w, a, s).actors[a].pc.Hit?
  {
  }

  lemma NoHitFromOwner(w: World, a: nat, s: OwnerStep)
    requires OwnerEnabled(w, a, s)
    ensures !OwnerApply(w, a, s).actors[a].pc.Hit?
  {
  }

  lemma HitsAreKept(w: World, st: Step)
    requires Enabled(w, st) && !st.Terminate?
    ensures ListsKept(w, Apply(w, st))
  {
    var v := Apply(w, st);
    forall b | b in v.actors && v.actors[b].pc.Hit? ensures b in w.actors && v.actors[b] == w.actors[b] {
      if Mover(st) != Some(b) { OthersStay(w, st, b); } else { NoHit(w, st); }
    }
  }

  lemma NoHit(w: World, st: Step)
    requires Enabled(w, st) && !st.Terminate? && Mover(st).Some?
    ensures Mover(st).value in Apply(w, st).actors && !Apply(w, st).actors[Mover(st).value].pc.Hit?
  {
    match st
    case Start(a, s) => NoHitFromStart(w, a, s);
    case Lock(a, s) => NoHitFromSection(w, a, s);
    case Own(a, s) => NoHitFromOwner(w, a, s);
    case Visit(_, _) =>
  }

  predicate Signals(st: Step) {
    st.Terminate? && (st.kill.SendTerm? || st.kill.SendKill?)
  }

  // ------------------------------------------------------------ the target

  /** Until the last signal, the process at the pid being terminated, if any, is the claimed one. */
  predicate OnTarget(x: Actor, procs: Procs) {
    x.pc.Hit? && !x.pc.phase.KillWait?
    && x.pc.claim.pid.Some? && x.pc.claim.token.Some? && x.pc.claim.pid.value in procs
    ==> procs[x.pc.claim.pid.value].token == x.pc.claim.token.value
  }

  ghost predicate TargetInv(w: World) {
    forall a | a in w.actors :: OnTarget(w.actors[a], w.procs)
  }

  lemma TargetStep(w: World, st: Step)
    requires TargetInv(w) && Enabled(w, st) && NoRecycling(w, st)
    ensures TargetInv(Apply(w, st))
  {
    if st.Terminate? {
      TargetKill(w, st.a, st.kill);
    } else {
      ProcsEffect(w, st);
      HitsAreKept(w, st);
      TargetKeeps(w, st, Apply(w, st));
    }
  }

  lemma TargetKeeps(w: World, st: Step, v: World)
    requires TargetInv(w) && NoRecycling(w, st) && ListsKept(w, v) && ProcsMove(w, st, v)
    ensures TargetInv(v)
  {
    forall b | b in v.actors ensures OnTarget(v.actors[b], v.procs) {
      if v.actors[b].pc.Hit? {
        assert OnTarget(w.actors[b], w.procs);
        if v.actors[b].pc.claim.pid.Some? {
          assert MaySignal(v.actors[b], v.actors[b].pc.claim.pid.value) || v.actors[b].pc.phase.KillWait?;
        }
      }
    }
  }

  lemma TargetKill(w: World, a: nat, s: KillStep)
    requires TargetInv(w) && KillEnabled(w, a, s)
    ensures TargetInv(KillApply(w, a, s))
  {
    var v := KillApply(w, a, s);
    assert OnTarget(w.actors[a], w.procs);
    forall b | b in v.actors ensures OnTarget(v.actors[b], v.procs) {
      if b != a { assert OnTarget(w.actors[b], w.procs); }
    }
  }

  // ------------------------------------------------- the snapshot's child

  /** A stopper that has dealt with the child in its snapshot, without an error. */
  predicate ChildDone(x: Actor) {
    && x.role.Stopper? && x.seen.Some? && x.seen.value.childToken.Some?
    && (|| (x.pc.Aim? && |x.pc.todo| <= 1 && !x.pc.bad)
        || (x.pc.Hit? && |x.pc.rest| == 0 && !x.pc.bad)
        || x.pc.Section?)
  }

  ghost predicate ChildDead(x: Actor, procs: Procs) {
    ChildDone(x) ==> Gone(procs, x.seen.value.childToken.value)
  }

  ghost predicate DeadInv(w: World) {
    forall a | a in w.actors :: ChildDead(w.actors[a], w.procs)
  }

  /** A token recorded for a child is old, and no other pid will ever carry it. */
  lemma RecordedToken(w: World, m: Record)
    requires ProcInv(w) && Named(w.actors, m) && m.childToken.Some?
    ensures m.childPid.Some? && m.childToken.value < w.nextToken
    ensures forall p | p in w.procs :: w.procs[p].token == m.childToken.value ==> p == m.childPid.value
  {
    var i := Ident(m.childPid.value, m.childToken.value);
    var o :| o in w.actors && OwnsChild(w.actors[o], m.generation, i);
    assert ActorProcs(w.actors[o], w.procs, w.nextToken);
  }

  /** Only `terminate_pid` and section steps take a stopper to a point where its child is dealt with. */
  ghost predicate StoppersKept(w: World, v: World) {
    forall b | b in v.actors && ChildDone(v.actors[b]) ::
      b in w.actors && ChildDone(w.actors[b]) && v.actors[b].seen == w.actors[b].seen
  }

  lemma DeadStep(w: World, st: Step)
    requires DeadInv(w) && NameInv(w) && ProcInv(w) && Enabled(w, st) && Readable(st)
    ensures DeadInv(Apply(w, st))
  {
    if st.Terminate? {
      DeadKill(w, st.a, st.kill);
    } else {
      ProcsEffect(w, st);
      ChildrenAreKept(w, st);
      DeadKeeps(w, st, Apply(w, st));
    }
  }

  lemma ChildrenAreKept(w: World, st: Step)
    requires Enabled(w, st) && !st.Terminate?
    ensures StoppersKept(w, Apply(w, st))
  {
    var v := Apply(w, st);
    forall b | b in v.actors && ChildDone(v.actors[b])
      ensures b in w.actors && ChildDone(w.actors[b]) && v.actors[b].seen == w.actors[b].seen
    {
      if Mover(st) != Some(b) { OthersStay(w, st, b); } else { MoverDealsWithNoChild(w, st); }
    }
  }

  ghost predicate StopperKept(x: Actor, y: Actor) {
    ChildDone(y) ==> ChildDone(x) && y.seen == x.seen
  }

  lemma MoverDealsWithNoChild(w: World, st: Step)
    requires Enabled(w, st) && !st.Terminate? && Mover(st).Some?
    ensures var a := Mover(st).value;
            a in w.actors && a in Apply(w, st).actors && StopperKept(w.actors[a], Apply(w, st).actors[a])
  {
    match st
    case Start(a, s) => StartsStay(w, a, s);
    case Lock(a, s) => SectionKeepsStopper(w, a, s);
    case Own(a, s) => OwnersStay(w, a, s);
    case Visit(a, s) =>
  }

  lemma SectionKeepsStopper(w: World, a: nat, s: SectionStep)
    requires SectionEnabled(w, a, s)
    ensures StopperKept(w.actors[a], SectionApply(w, a, s).actors[a])
  {
  }

  lemma DeadKeeps(w: World, st: Step, v: World)
    requires DeadInv(w) && NameInv(w) && ProcInv(w) && StoppersKept(w, v) && ProcsMove(w, st, v)
    ensures DeadInv(v)
  {
    forall b | b in v.actors ensures ChildDead(v.actors[b], v.procs) {
      if ChildDone(v.actors[b]) {
        assert ChildDead(w.actors[b], w.procs) && ActorNames(w.actors, w.actors[b]);
        RecordedToken(w, w.actors[b].seen.value);
      }
    }
  }

  /** A child that is not ours to signal, or whose pid answers no probe, carries its token no more. */
  lemma ChildGone(w: World, m: Record)
    requires ProcInv(w) && Named(w.actors, m) && m.childToken.Some?
    requires !PidIsOurs(w.procs, true, ChildClaim(m)) || !Probe(w, ChildClaim(m))
    ensures Gone(w.procs, m.childToken.value)
  {
    RecordedToken(w, m);
  }

  /** However the work on the child ends without an error, no process carries its token any more. */
  lemma DeadKill(w: World, a: nat, s: KillStep)
    requires DeadInv(w) && NameInv(w) && ProcInv(w) && KillEnabled(w, a, s) && Readable(Terminate(a, s))
    ensures DeadInv(KillApply(w, a, s))
  {
    var v := KillApply(w, a, s);
    var x := w.actors[a];
    assert ActorNames(w.actors, x);
    if ChildDone(v.actors[a]) && !ChildDone(x) {
      if s.NextTarget? { DeadNext(w, a); } else { DeadHit(w, a, s); }
    }
    assert ChildDead(x, w.procs);
    assert ChildDead(v.actors[a], v.procs);
    forall b | b in v.actors && b != a ensures ChildDead(v.actors[b], v.procs) {
      assert ChildDead(w.actors[b], w.procs);
    }
  }

  lemma DeadNext(w: World, a: nat)
    requires NameInv(w) && ProcInv(w) && KillEnabled(w, a, NextTarget(true))
    requires ChildDone(KillApply(w, a, NextTarget(true)).actors[a]) && !ChildDone(w.actors[a])
    ensures Gone(w.procs, w.actors[a].seen.value.childToken.value)
  {
    var x := w.actors[a];
    assert ActorNames(w.actors, x);
    ChildGone(w, x.seen.value);
  }

  lemma DeadHit(w: World, a: nat, s: KillStep)
    requires NameInv(w) && ProcInv(w) && KillEnabled(w, a, s) && !s.NextTarget?
    requires ChildDone(KillApply(w, a, s).actors[a]) && !ChildDone(w.actors[a])
    ensures Gone(w.procs, w.actors[a].seen.value.childToken.value)
  {
    var x := w.actors[a];
    assert ActorNames(w.actors, x);
    assert x.pc.claim == ChildClaim(x.seen.value);
    ChildGone(w, x.seen.value);
  }
}
