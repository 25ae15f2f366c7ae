/**
 When handing out a pid misdirects a signal: exactly if some `terminate_pid` call
 on that pid has not sent its last signal yet.
 */
module LifecycleRecycling {
  import opened Wrappers
  import opened Metadata
  import opened Lifecycle
  import opened LifecycleLocks
  import opened LifecycleProcs
  import opened LifecycleIdentity
  import opened LifecycleTokens
  import opened LifecyclePoints
  import opened LifecycleSignals
  import opened LifecycleRuns

  /** `us` are the states of a continuation from `v` whose steps are `more`. */
  ghost predicate Continues(v: World, us: seq<World>, more: seq<Step>) {
    && |us| == |more| + 1
    && us[0] == v
    && forall i {:trigger more[i]} | 0 <= i < |more| ::
         Enabled(us[i], more[i]) && Readable(more[i]) && us[i + 1] == Apply(us[i], more[i])
  }

  /** The step signals the process with token `t` at pid `p` for a claim that names another. */
  predicate HitsStranger(u: World, st: Step, p: nat, t: nat) {
    && Enabled(u, st) && Signals(st)
    && p in u.procs && u.procs[p].token == t
    && u.actors[st.a].pc.claim.pid == Some(p) && u.actors[st.a].pc.claim.token != Some(t)
  }

  /** Some continuation misdirects a signal to the process with token `t` at pid `p`. */
  ghost predicate Misdirected(v: World, p: nat, t: nat) {
    exists us: seq<World>, more: seq<Step>, st: Step ::
      Continues(v, us, more) && Readable(st) && HitsStranger(us[|more|], st, p, t)
  }

  // ------------------------------------------------- only targeted pids matter

  /** A call that may still signal the process with token `t` at pid `p` claims that very process. */
  predicate Meant(x: Actor, procs: Procs, p: nat, t: nat) {
    MaySignal(x, p) && p in procs && procs[p].token == t ==> x.pc.claim.token == Some(t)
  }

  ghost predicate AllMeant(u: World, p: nat, t: nat) {
    && ProcInv(u) && NameInv(u) && TokenInv(u) && t < u.nextToken
    && forall b | b in u.actors :: Meant(u.actors[b], u.procs, p, t)
  }

  lemma MeantStep(u: World, st: Step, p: nat, t: nat)
    requires AllMeant(u, p, t) && Enabled(u, st) && Readable(st)
    ensures AllMeant(Apply(u, st), p, t)
  {
    var v := Apply(u, st);
    ProcStep(u, st);
    NameStep(u, st);
    TokenStep(u, st);
    ProcsEffect(u, st);
    TokenStaysPut(u, st, p, t);
    forall b | b in v.actors ensures Meant(v.actors[b], v.procs, p, t) {
      if b in u.actors {
        assert ActorNames(u.actors, u.actors[b]) && CarriesGuarded(u.actors[b]) && Meant(u.actors[b], u.procs, p, t);
      }
      MeantActor(u, st, b, p, t);
    }
  }

  /** An old token at `p` was there before. */
  predicate StillThere(u: World, v: World, p: nat, t: nat) {
    p in v.procs && v.procs[p].token == t ==> p in u.procs && u.procs[p].token == t
  }

  lemma TokenStaysPut(u: World, st: Step, p: nat, t: nat)
    requires Enabled(u, st) && ProcsMove(u, st, Apply(u, st)) && t < u.nextToken
    ensures StillThere(u, Apply(u, st), p, t) && t < Apply(u, st).nextToken
  {
  }

  lemma MeantActor(u: World, st: Step, b: nat, p: nat, t: nat)
    requires Enabled(u, st) && Readable(st) && b in Apply(u, st).actors && StillThere(u, Apply(u, st), p, t)
    requires b in u.actors ==>
               ActorNames(u.actors, u.actors[b]) && CarriesGuarded(u.actors[b]) && Meant(u.actors[b], u.procs, p, t)
    ensures Meant(Apply(u, st).actors[b], Apply(u, st).procs, p, t)
  {
    if Mover(st) != Some(b) {
      OthersStay(u, st, b);
    } else if st.Terminate? {
      MeantKill(u, b, st.kill, p, t);
    } else {
      NoHit(u, st);
    }
  }

  lemma MeantKill(u: World, b: nat, s: KillStep, p: nat, t: nat)
    requires KillEnabled(u, b, s) && Readable(Terminate(b, s))
    requires ActorNames(u.actors, u.actors[b]) && CarriesGuarded(u.actors[b]) && Meant(u.actors[b], u.procs, p, t)
    ensures Meant(KillApply(u, b, s).actors[b], u.procs, p, t)
  {
  }

  lemma {:induction false} MeantForGood(v: World, us: seq<World>, more: seq<Step>, p: nat, t: nat)
    requires AllMeant(v, p, t) && Continues(v, us, more)
    ensures AllMeant(us[|more|], p, t)
    decreases |more|
  {
    if more != [] {
      var n := |more| - 1;
      CutContinuation(v, us, more);
      MeantForGood(v, us[..n + 1], more[..n], p, t);
      MeantStep(us[n], more[n], p, t);
    }
  }

  lemma CutContinuation(v: World, us: seq<World>, more: seq<Step>)
    requires Continues(v, us, more) && more != []
    ensures Continues(v, us[..|more|], more[..|more| - 1])
  {
    forall i | 0 <= i < |more| - 1 ensures more[..|more| - 1][i] == more[i] {}
  }

  // --------------------------------------------- a targeted pid can be hit

  function ProbesLeft(phase: Phase): nat {
    match phase
    case TermWait(n, _) => if n < PROBES then 1 + PROBES - n else 1
    case _ => 0
  }

  /** A call that has not sent its last signal can run on to it while the pid is taken. */
  lemma {:induction false} RunsOn(u: World, b: nat, p: nat, t: nat)
    requires b in u.actors && MaySignal(u.actors[b], p) && (u.actors[b].role.Starter? || u.actors[b].role.Stopper?)
    requires p in u.procs && u.procs[p].token == t && u.actors[b].pc.claim.token != Some(t)
    ensures Misdirected(u, p, t)
    decreases ProbesLeft(u.actors[b].pc.phase)
  {
    match u.actors[b].pc.phase
    case Term => HitsNow(u, Terminate(b, SendTerm(true, false)), p, t);
    case Kill(_) => HitsNow(u, Terminate(b, SendKill(true, false)), p, t);
    case TermWait(n, _) =>
      var poll := Terminate(b, TermPoll);
      RunsOn(Apply(u, poll), b, p, t);
      var us: seq<World>, more: seq<Step>, st: Step :|
        Continues(Apply(u, poll), us, more) && Readable(st) && HitsStranger(us[|more|], st, p, t);
      OneEarlier(u, poll, us, more);
      assert ([u] + us)[|[poll] + more|] == us[|more|];
  }

  lemma HitsNow(u: World, st: Step, p: nat, t: nat)
    requires HitsStranger(u, st, p, t) && Readable(st)
    ensures Misdirected(u, p, t)
  {
    var none: seq<Step> := [];
    assert Continues(u, [u], none) && [u][|none|] == u;
  }

  lemma OneEarlier(u: World, st: Step, us: seq<World>, more: seq<Step>)
    requires Enabled(u, st) && Readable(st) && Continues(Apply(u, st), us, more)
    ensures Continues(u, [u] + us, [st] + more)
  {
    forall i | 0 <= i < |more| + 1
      ensures var vs, ss := [u] + us, [st] + more;
              Enabled(vs[i], ss[i]) && Readable(ss[i]) && vs[i + 1] == Apply(vs[i], ss[i])
    {
      if i > 0 { assert ([st] + more)[i] == more[i - 1]; }
    }
  }

  /** A claim about to be signalled names a process, and no process yet to come. */
  lemma ClaimsAreOld(w: World, b: nat)
    requires ProcInv(w) && NameInv(w) && TokenInv(w) && b in w.actors && w.actors[b].pc.Hit?
    ensures w.actors[b].pc.claim.token.Some? && w.actors[b].pc.claim.token.value < w.nextToken
  {
    var x := w.actors[b];
    assert ActorNames(w.actors, x) && CarriesGuarded(x);
    var m, c := x.seen.value, x.pc.claim;
    if c == ChildClaim(m) {
      var o :| o in w.actors && OwnsChild(w.actors[o], m.generation, Ident(c.pid.value, c.token.value));
      assert ActorProcs(w.actors[o], w.procs, w.nextToken);
    } else {
      var o :| o in w.actors && OwnsSupervisor(w.actors[o], m.generation, Ident(c.pid.value, c.token.value));
      assert ActorProcs(w.actors[o], w.procs, w.nextToken);
    }
  }

  /**
   In any state of any run in which start times can be read: if a step hands out
   pid `p`, some continuation signals the new process for a claim that names
   another one if and only if some `terminate_pid` call on `p` had not sent its
   last signal.
   */
  lemma RecyclingMisdirectsExactly(ws: seq<World>, sts: seq<Step>, k: nat, st: Step, p: nat)
    requires ReadableRun(ws, sts) && k < |ws|
    requires Enabled(ws[k], st) && Readable(st) && NewPid(ws[k], st) == Some(p)
    ensures Misdirected(Apply(ws[k], st), p, ws[k].nextToken) <==> Targeted(ws[k], p)
  {
    Always(ws, sts, k);
    AlwaysGuarded(ws, sts, k);
    AlwaysFits(ws, sts, k);
    ProcsEffect(ws[k], st);
    if Targeted(ws[k], p) {
      TargetedIsHit(ws[k], st, p);
    } else {
      UntargetedIsMeant(ws[k], st, p);
      var v, t := Apply(ws[k], st), ws[k].nextToken;
      forall us, more, hit | Continues(v, us, more) && Readable(hit) ensures !HitsStranger(us[|more|], hit, p, t) {
        MeantForGood(v, us, more, p, t);
        MeantIsNoStranger(us[|more|], hit, p, t);
      }
    }
  }

  lemma MeantIsNoStranger(u: World, st: Step, p: nat, t: nat)
    requires AllMeant(u, p, t)
    ensures !HitsStranger(u, st, p, t)
  {
    if Enabled(u, st) && Signals(st) { assert Meant(u.actors[st.a], u.procs, p, t); }
  }

  lemma TargetedIsHit(w: World, st: Step, p: nat)
    requires ProcInv(w) && NameInv(w) && TokenInv(w) && FitInv(w)
    requires Enabled(w, st) && NewPid(w, st) == Some(p) && Targeted(w, p) && ProcsMove(w, st, Apply(w, st))
    ensures Misdirected(Apply(w, st), p, w.nextToken)
  {
    var b :| b in w.actors && MaySignal(w.actors[b], p);
    ClaimsAreOld(w, b);
    assert Fits(w.actors[b]);
    TargetIsHit(w, st, p, b);
  }

  lemma TargetIsHit(w: World, st: Step, p: nat, b: nat)
    requires Enabled(w, st) && NewPid(w, st) == Some(p) && ProcsMove(w, st, Apply(w, st))
    requires b in w.actors && MaySignal(w.actors[b], p) && Fits(w.actors[b])
    requires w.actors[b].pc.claim.token.Some? && w.actors[b].pc.claim.token.value < w.nextToken
    ensures Misdirected(Apply(w, st), p, w.nextToken)
  {
    CallsGoOn(w, st, b);
    RunsOn(Apply(w, st), b, p, w.nextToken);
  }

  /** A step that hands out a pid is not one of a `terminate_pid` call. */
  lemma CallsGoOn(w: World, st: Step, b: nat)
    requires Enabled(w, st) && NewPid(w, st).Some? && b in w.actors && w.actors[b].pc.Hit?
    ensures b in Apply(w, st).actors && Apply(w, st).actors[b] == w.actors[b]
  {
    if Mover(st) != Some(b) { OthersStay(w, st, b); }
  }

  lemma UntargetedIsMeant(w: World, st: Step, p: nat)
    requires ProcInv(w) && NameInv(w) && TokenInv(w) && Enabled(w, st) && Readable(st)
    requires NewPid(w, st) == Some(p) && !Targeted(w, p) && ProcsMove(w, st, Apply(w, st))
    ensures AllMeant(Apply(w, st), p, w.nextToken)
  {
    var v := Apply(w, st);
    ProcStep(w, st);
    NameStep(w, st);
    TokenStep(w, st);
    forall b | b in v.actors ensures Meant(v.actors[b], v.procs, p, w.nextToken) {
      if b in w.actors && w.actors[b].pc.Hit? {
        CallsGoOn(w, st, b);
        assert !MaySignal(w.actors[b], p);
      } else {
        NobodyAims(w, st, b);
      }
    }
  }

  lemma NobodyAims(w: World, st: Step, b: nat)
    requires Enabled(w, st) && NewPid(w, st).Some? && b in Apply(w, st).actors
    requires b in w.actors ==> !w.actors[b].pc.Hit?
    ensures !Apply(w, st).actors[b].pc.Hit?
  {
    if Mover(st) != Some(b) { OthersStay(w, st, b); } else { NoHit(w, st); }
  }
}
