/**
 Provided that start times can be read, no record ever holds a supervisor pid
 without its token: a supervisor adopts its run while its own process exists.
 */
module LifecycleTokens {
  import opened Metadata
  import opened Lifecycle
  import opened LifecycleLocks
  import opened LifecycleProcs

  predicate Guarded(m: Record) {
    m.supervisorPid.Some? ==> m.supervisorToken.Some?
  }

  /** The records an actor carries: about to be saved, in a snapshot, or just found. */
  predicate CarriesGuarded(x: Actor) {
    && (Saving(x) ==> Guarded(x.pc.stage.next))
    && (x.seen.Some? ==> Guarded(x.seen.value))
    && (x.pc.CheckActive? ==> Guarded(x.pc.found))
  }

  ghost predicate TokenInv(w: World) {
    && (w.disk.Some? ==> Guarded(w.disk.value))
    && forall a | a in w.actors :: CarriesGuarded(w.actors[a])
  }

  lemma TokenStep(w: World, st: Step)
    requires TokenInv(w) && ProcInv(w) && Enabled(w, st) && Readable(st)
    ensures TokenInv(Apply(w, st))
  {
    match st
    case Start(a, s) => TokenStart(w, a, s);
    case Lock(a, s) => TokenSection(w, a, s);
    case Own(a, s) => TokenOwner(w, a, s);
    case Terminate(a, s) => TokenKill(w, a, s);
    case Visit(a, s) => TokenVisit(w, a, s);
    case System(s) =>
  }

  lemma TokenKeep(w: World, a: nat, v: World)
    requires TokenInv(w) && OnlyMoves(w, a, v) && CarriesGuarded(v.actors[a])
    requires v.disk.Some? ==> Guarded(v.disk.value)
    ensures TokenInv(v)
  {
  }

  lemma TokenStart(w: World, a: nat, s: StartStep)
    requires TokenInv(w) && StartEnabled(w, a, s)
    ensures TokenInv(StartApply(w, a, s))
  {
    var v := StartApply(w, a, s);
    assert CarriesGuarded(w.actors[a]);
    StartGuards(w, a, s);
    forall b | b in v.actors ensures CarriesGuarded(v.actors[b]) {
      if b != a {
        OthersStayStart(w, a, s, b);
        if b in w.actors { assert CarriesGuarded(w.actors[b]); }
      }
    }
  }

  lemma StartGuards(w: World, a: nat, s: StartStep)
    requires StartEnabled(w, a, s) && CarriesGuarded(w.actors[a])
    requires w.disk.Some? ==> Guarded(w.disk.value)
    ensures var v := StartApply(w, a, s); CarriesGuarded(v.actors[a]) && (v.disk.Some? ==> Guarded(v.disk.value))
  {
  }

  lemma TokenSection(w: World, a: nat, s: SectionStep)
    requires TokenInv(w) && ProcInv(w) && SectionEnabled(w, a, s) && Readable(Lock(a, s))
    ensures TokenInv(SectionApply(w, a, s))
  {
    assert CarriesGuarded(w.actors[a]);
    if s.DoLoad? { TokenLoad(w, a); } else { EdgeGuards(w, a, s); }
    TokenKeep(w, a, SectionApply(w, a, s));
  }

  lemma EdgeGuards(w: World, a: nat, s: SectionStep)
    requires SectionEnabled(w, a, s) && !s.DoLoad? && CarriesGuarded(w.actors[a])
    requires w.disk.Some? ==> Guarded(w.disk.value)
    ensures var v := SectionApply(w, a, s);
            OnlyMoves(w, a, v) && CarriesGuarded(v.actors[a]) && (v.disk.Some? ==> Guarded(v.disk.value))
  {
  }

  lemma TokenLoad(w: World, a: nat)
    requires TokenInv(w) && ProcInv(w) && SectionEnabled(w, a, DoLoad(true))
    ensures var v := SectionApply(w, a, DoLoad(true));
            OnlyMoves(w, a, v) && CarriesGuarded(v.actors[a]) && v.disk == w.disk
  {
    assert CarriesGuarded(w.actors[a]) && ActorProcs(w.actors[a], w.procs, w.nextToken);
    LoadGuards(w, a);
  }

  /** The start time of an adopting supervisor can be read, because it is still there. */
  lemma LoadGuards(w: World, a: nat)
    requires SectionEnabled(w, a, DoLoad(true)) && ActorProcs(w.actors[a], w.procs, w.nextToken)
    requires CarriesGuarded(w.actors[a]) && (w.disk.Some? ==> Guarded(w.disk.value))
    ensures var v := SectionApply(w, a, DoLoad(true));
            OnlyMoves(w, a, v) && CarriesGuarded(v.actors[a]) && v.disk == w.disk
  {
  }

  lemma TokenOwner(w: World, a: nat, s: OwnerStep)
    requires TokenInv(w) && OwnerEnabled(w, a, s)
    ensures TokenInv(OwnerApply(w, a, s))
  {
    assert CarriesGuarded(w.actors[a]);
    TokenKeep(w, a, OwnerApply(w, a, s));
  }

  lemma TokenKill(w: World, a: nat, s: KillStep)
    requires TokenInv(w) && KillEnabled(w, a, s)
    ensures TokenInv(KillApply(w, a, s))
  {
    assert CarriesGuarded(w.actors[a]);
    TokenKeep(w, a, KillApply(w, a, s));
  }

  lemma TokenVisit(w: World, a: nat, s: VisitStep)
    requires TokenInv(w) && VisitEnabled(w, a, s)
    ensures TokenInv(VisitApply(w, a, s))
  {
    assert CarriesGuarded(w.actors[a]);
    TokenKeep(w, a, VisitApply(w, a, s));
  }
}
