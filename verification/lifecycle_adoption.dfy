/**
 When a run gets a second owner: a supervisor adopts the generation it finds on
 disk, and that is another run than its own start's.
 */
module LifecycleAdoption {
  import opened Lifecycle
  import opened LifecycleLocks
  import opened LifecycleDisk
  import opened LifecycleBearers
  import opened LifecyclePoints
  import opened LifecycleRuns

  /** There is never more than one owner bound to a generation. */
  lemma OneOwnerPerRun(ws: seq<World>, sts: seq<Step>, k: nat, a: nat, b: nat)
    requires AdoptingRun(ws, sts) && k < |ws| && a in ws[k].actors && b in ws[k].actors
    requires ws[k].actors[a].role.Owner? && ws[k].actors[b].role.Owner? && ws[k].actors[a].gen == ws[k].actors[b].gen
    ensures a == b
  {
    AlwaysBearers(ws, sts, k);
    assert Bearer(ws[k].actors[a]) && Bearer(ws[k].actors[b]);
  }

  // ------------------------------------------------------------- whole runs

  /** A supervisor is about to look which run it adopts. */
  predicate Adopting(w: World, a: nat, readable: bool) {
    SectionEnabled(w, a, DoLoad(readable)) && w.actors[a].pc.job.Adopt? && w.disk.Some?
  }

  /** Foreign adoption: the run on disk has another bearer already. */
  lemma ForeignAdoptionMakesTwo(w: World, a: nat, readable: bool) returns (b: nat)
    requires HomeInv(w) && Adopting(w, a, readable) && w.disk.value.generation != w.actors[a].home
    requires Borne(w.actors, w.disk.value.generation)
    ensures b in w.actors && b != a && Bearer(w.actors[b]) && w.actors[b].gen == w.disk.value.generation
    ensures var v := SectionApply(w, a, DoLoad(readable));
            && a in v.actors && v.actors[a].role.Owner? && v.actors[a].gen == w.disk.value.generation
            && b in v.actors && v.actors[b] == w.actors[b]
            && !Solo(v.actors, true)
  {
    assert AtHome(w.actors[a]);
    b :| b in w.actors && Bearer(w.actors[b]) && w.actors[b].gen == w.disk.value.generation;
    var v := SectionApply(w, a, DoLoad(readable));
    assert v.actors[b] == w.actors[b] && Bearer(v.actors[a]);
  }

  /**
   Each run has one bearer, an owner or a start that may still create one, in
   every state, if and only if every supervisor adopts the run of its own start.
   */
  lemma OneBearerExactly(ws: seq<World>, sts: seq<Step>)
    requires ExclusiveRun(ws, sts)
    ensures (forall k | 0 <= k < |ws| :: Solo(ws[k].actors, true))
            <==> (forall i {:trigger sts[i]} | 0 <= i < |sts| :: AdoptsOwn(ws[i], sts[i]))
  {
    if AdoptingRun(ws, sts) {
      forall k | 0 <= k < |ws| ensures Solo(ws[k].actors, true) {
        AlwaysBearers(ws, sts, k);
      }
    } else {
      var i :| 0 <= i < |sts| && !AdoptsOwn(ws[i], sts[i]);
      AlwaysHome(ws, sts, i);
      AlwaysBorne(ws, sts, i);
      var b := ForeignAdoptionMakesTwo(ws[i], sts[i].a, sts[i].section.readable);
      assert !Solo(ws[i + 1].actors, true);
    }
  }

  // ------------------------------------------------------------ one adoption

  /**
   An adoption leaves each run with one bearer if and only if the generation on disk
   is that of the supervisor's start.
   */
  lemma AdoptionKeepsOneBearerExactly(ws: seq<World>, sts: seq<Step>, a: nat, readable: bool)
    requires AdoptingRun(ws, sts) && Adopting(ws[|sts|], a, readable)
    ensures Solo(SectionApply(ws[|sts|], a, DoLoad(readable)).actors, true)
            <==> ws[|sts|].disk.value.generation == ws[|sts|].actors[a].home
  {
    var w := ws[|sts|];
    Always(ws, sts, |sts|);
    AlwaysDisk(ws, sts, |sts|);
    AlwaysBearers(ws, sts, |sts|);
    if w.disk.value.generation == w.actors[a].home {
      SoloStep(w, Lock(a, DoLoad(readable)), true);
    } else {
      AlwaysBorne(ws, sts, |sts|);
      var b := ForeignAdoptionMakesTwo(w, a, readable);
    }
  }

  /** `us` are the states of a continuation from `v` whose steps meet both assumptions. */
  ghost predicate GoesOnWell(v: World, us: seq<World>, more: seq<Step>) {
    && |us| == |more| + 1
    && us[0] == v
    && forall i {:trigger more[i]} | 0 <= i < |more| ::
         && Enabled(us[i], more[i]) && us[i + 1] == Apply(us[i], more[i])
         && InitExclusive(us[i], more[i]) && AdoptsOwn(us[i], more[i])
  }

  /** Two owners are bound to one run. */
  ghost predicate TwoOwners(actors: map<nat, Actor>) {
    exists a, b | a in actors && b in actors ::
      a != b && actors[a].role.Owner? && actors[b].role.Owner? && actors[a].gen == actors[b].gen
  }

  ghost predicate LeadsToTwoOwners(v: World) {
    exists us: seq<World>, more: seq<Step> :: GoesOnWell(v, us, more) && TwoOwners(us[|more|].actors)
  }

  /** The start of run `gen` could not spawn an owner. */
  ghost predicate NeverSpawned(actors: map<nat, Actor>, gen: nat) {
    exists s | s in actors :: Unspawned(actors[s]) && actors[s].gen == gen
  }

  /** What keeps owners apart in every continuation. */
  ghost predicate KeptApart(w: World) {
    LockInv(w) && DiskInv(w) && HomeInv(w) && Solo(w.actors, false)
  }

  lemma {:induction false} ApartForGood(v: World, us: seq<World>, more: seq<Step>, k: nat)
    requires KeptApart(v) && GoesOnWell(v, us, more) && k < |us|
    ensures KeptApart(us[k])
  {
    if k > 0 {
      ApartForGood(v, us, more, k - 1);
      LockStep(us[k - 1], more[k - 1]);
      DiskStep(us[k - 1], more[k - 1]);
      HomeStep(us[k - 1], more[k - 1]);
      SoloStep(us[k - 1], more[k - 1], false);
    }
  }

  lemma ApartNeverLeadsToTwo(v: World)
    requires KeptApart(v)
    ensures !LeadsToTwoOwners(v)
  {
    forall us: seq<World>, more: seq<Step> | GoesOnWell(v, us, more) ensures !TwoOwners(us[|more|].actors) {
      ApartForGood(v, us, more, |more|);
    }
  }

  /** An owner and somebody of the same run who is or will create another one. */
  lemma TwoFollow(v: World, a: nat, b: nat)
    requires a in v.actors && b in v.actors && a != b && v.actors[a].role.Owner? && v.actors[a].gen == v.actors[b].gen
    requires v.actors[b].role.Owner? || Spawning(v.actors[b])
    ensures LeadsToTwoOwners(v)
  {
    if v.actors[b].role.Owner? {
      var none: seq<Step> := [];
      assert GoesOnWell(v, [v], none) && TwoOwners([v][|none|].actors);
    } else {
      var o := Unused(v.actors.Keys);
      var p := Unused(v.procs.Keys);
      var st := Start(b, DoSpawn(o, p));
      SpawnedOwner(v, b, o, p);
      var u := Apply(v, st);
      assert u.actors[a] == v.actors[a];
      assert GoesOnWell(v, [v, u], [st]) && TwoOwners([v, u][|[st]|].actors);
    }
  }

  /**
   An adoption leads to two owners of one run, in some continuation that meets the
   assumptions, if and only if the generation on disk is not that of the
   supervisor's start and the start of that other run has not failed to spawn.
   */
  lemma AdoptionLeadsToTwoOwnersExactly(ws: seq<World>, sts: seq<Step>, a: nat, readable: bool)
    requires AdoptingRun(ws, sts) && Adopting(ws[|sts|], a, readable)
    ensures var w := ws[|sts|];
            LeadsToTwoOwners(SectionApply(w, a, DoLoad(readable)))
            <==> w.disk.value.generation != w.actors[a].home && !NeverSpawned(w.actors, w.disk.value.generation)
  {
    var w := ws[|sts|];
    var v := SectionApply(w, a, DoLoad(readable));
    Always(ws, sts, |sts|);
    AlwaysDisk(ws, sts, |sts|);
    AlwaysBearers(ws, sts, |sts|);
    if w.disk.value.generation != w.actors[a].home && !NeverSpawned(w.actors, w.disk.value.generation) {
      AlwaysBorne(ws, sts, |sts|);
      var b := ForeignAdoptionMakesTwo(w, a, readable);
      TwoFollow(v, a, b);
    } else {
      StillApart(w, a, readable);
      ApartNeverLeadsToTwo(v);
    }
  }

  lemma StillApart(w: World, a: nat, readable: bool)
    requires LockInv(w) && DiskInv(w) && BearerInv(w) && Adopting(w, a, readable)
    requires w.disk.value.generation == w.actors[a].home || NeverSpawned(w.actors, w.disk.value.generation)
    ensures KeptApart(SectionApply(w, a, DoLoad(readable)))
  {
    var st := Lock(a, DoLoad(readable));
    LockStep(w, st);
    DiskStep(w, st);
    HomeStep(w, st);
    if w.disk.value.generation == w.actors[a].home {
      SoloStep(w, st, false);
    } else {
      AdoptsUnspawned(w, a, readable);
    }
  }

  /** A run whose start could not spawn an owner has nobody else to stand for it. */
  lemma AdoptsUnspawned(w: World, a: nat, readable: bool)
    requires Solo(w.actors, true) && Adopting(w, a, readable) && NeverSpawned(w.actors, w.disk.value.generation)
    ensures Solo(SectionApply(w, a, DoLoad(readable)).actors, false)
  {
    var v := SectionApply(w, a, DoLoad(readable));
    var s :| s in w.actors && Unspawned(w.actors[s]) && w.actors[s].gen == w.disk.value.generation;
    forall b, c | b in v.actors && c in v.actors && b != c && Stands(v.actors[b], false) && Stands(v.actors[c], false)
      ensures v.actors[b].gen != v.actors[c].gen
    {
      assert s != b && s != c && Stands(w.actors[s], true) && Stands(w.actors[b], true) && Stands(w.actors[c], true);
    }
  }

  // ------------------------------------------------------- adoption in time

  /** A supervisor process adopts while the start that spawned it is still waiting for its run. */
  ghost predicate AdoptsInTime(w: World, st: Step) {
    st.Lock? && st.section.DoLoad? && st.a in w.actors && w.actors[st.a].pc.Section?
    && w.actors[st.a].pc.job.Adopt?
    ==> exists s | s in w.actors :: Waiting(w.actors[s]) && w.actors[s].gen == w.actors[st.a].home
  }

  /** If every adoption is in time, every supervisor adopts the run of its own start. */
  lemma TimelyRunsAdoptOwn(ws: seq<World>, sts: seq<Step>)
    requires ExclusiveRun(ws, sts)
    requires forall i {:trigger sts[i]} | 0 <= i < |sts| :: AdoptsInTime(ws[i], sts[i])
    ensures AdoptingRun(ws, sts)
  {
    forall i | 0 <= i < |sts| ensures AdoptsOwn(ws[i], sts[i]) {
      AlwaysDisk(ws, sts, i);
      TimelyAdoptionIsOwn(ws[i], sts[i]);
    }
  }

  lemma TimelyAdoptionIsOwn(w: World, st: Step)
    requires DiskInv(w) && AdoptsInTime(w, st)
    ensures AdoptsOwn(w, st)
  {
    if st.Lock? && st.section.DoLoad? && st.a in w.actors && w.actors[st.a].pc.Section?
       && w.actors[st.a].pc.job.Adopt? {
      var s :| s in w.actors && Waiting(w.actors[s]) && w.actors[s].gen == w.actors[st.a].home;
      assert ActorDisk(w.actors[s], w.disk);
    }
  }
}
