/**
 Who stands for a run: its owner, or its start as long as there is no owner. Both
 assumptions used here are about steps: `InitExclusive`, through the invariant on
 the file, and `AdoptsOwn`.
 */
module LifecycleBearers {
  import opened Wrappers
  import opened Metadata
  import opened Lifecycle
  import opened LifecycleLocks
  import opened LifecycleDisk

  predicate AtRun(disk: Option<Record>, gen: nat) {
    disk.Some? && disk.value.generation == gen
  }

  predicate RunningAt(disk: Option<Record>, gen: nat) {
    AtRun(disk, gen) && disk.value.status.Running?
  }

  /** A start whose run is on disk and that is about to spawn an owner for it. */
  predicate Spawning(x: Actor) {
    x.role.Starter? && x.pc.SpawnOwner?
  }

  /** A start that could not spawn an owner, from that moment on. */
  predicate Unspawned(x: Actor) {
    x.role.Starter? && (x.pc == UnlockStart(NotSpawned) || LeftRun(x))
  }

  /** Owners and those who will create one; with `all`, also the starts that could not. */
  predicate Stands(x: Actor, all: bool) {
    x.role.Owner? || Spawning(x) || (all && Unspawned(x))
  }

  predicate Bearer(x: Actor) {
    Stands(x, true)
  }

  predicate Ownerless(x: Actor) {
    Spawning(x) || Unspawned(x)
  }

  /** No two actors stand for one run. */
  ghost predicate Solo(actors: map<nat, Actor>, all: bool) {
    forall a, b | a in actors && b in actors && a != b && Stands(actors[a], all) && Stands(actors[b], all) ::
      actors[a].gen != actors[b].gen
  }

  /** A supervisor that has not looked at the file. */
  predicate Unadopted(x: Actor) {
    x.role.Owner? && x.pc.Section? && x.pc.job.Adopt? && (x.pc.stage.Acquire? || x.pc.stage.Load?)
  }

  predicate AtHome(x: Actor) {
    Unadopted(x) ==> x.gen == x.home
  }

  ghost predicate HomeInv(w: World) {
    forall a | a in w.actors :: AtHome(w.actors[a])
  }

  // ------------------------------------------------------ before the adoption

  lemma HomeStep(w: World, st: Step)
    requires HomeInv(w) && Enabled(w, st)
    ensures HomeInv(Apply(w, st))
  {
    var v := Apply(w, st);
    forall b | b in v.actors ensures AtHome(v.actors[b]) {
      if b in w.actors { assert AtHome(w.actors[b]); }
      if Mover(st) != Some(b) { HomeOther(w, st, b); } else { HomeMover(w, st); }
    }
  }

  lemma HomeOther(w: World, st: Step, b: nat)
    requires Enabled(w, st) && Mover(st) != Some(b) && b in Apply(w, st).actors
    requires b in w.actors ==> AtHome(w.actors[b])
    ensures AtHome(Apply(w, st).actors[b])
  {
    OthersStay(w, st, b);
  }

  lemma HomeMover(w: World, st: Step)
    requires Enabled(w, st) && Mover(st).Some? && AtHome(w.actors[Mover(st).value])
    ensures var a := Mover(st).value; a in Apply(w, st).actors && AtHome(Apply(w, st).actors[a])
  {
    match st
    case Start(a, s) => StartsStay(w, a, s);
    case Lock(a, s) =>
    case Own(a, s) => OwnerLeavesAdoption(w, a, s);
    case Terminate(a, s) => KillStandsForNone(w, a, s);
    case Visit(a, s) => VisitStandsForNone(w, a, s);
  }

  lemma OwnerLeavesAdoption(w: World, a: nat, s: OwnerStep)
    requires OwnerEnabled(w, a, s)
    ensures OnlyMoves(w, a, OwnerApply(w, a, s))
    ensures var y := OwnerApply(w, a, s).actors[a];
            y.role == w.actors[a].role && y.gen == w.actors[a].gen && !Unadopted(y)
  {
  }

  lemma KillStandsForNone(w: World, a: nat, s: KillStep)
    requires KillEnabled(w, a, s)
    ensures OnlyMoves(w, a, KillApply(w, a, s)) && !Bearer(KillApply(w, a, s).actors[a])
  {
  }

  lemma VisitStandsForNone(w: World, a: nat, s: VisitStep)
    requires VisitEnabled(w, a, s)
    ensures OnlyMoves(w, a, VisitApply(w, a, s)) && !Bearer(VisitApply(w, a, s).actors[a])
  {
  }

  // --------------------------------------------------------- one for each run

  lemma StillSolo(actors: map<nat, Actor>, a: nat, y: Actor, all: bool)
    requires Solo(actors, all) && a in actors
    requires Stands(y, all) ==> Stands(actors[a], all) && y.gen == actors[a].gen
    ensures Solo(actors[a := y], all)
  {
  }

  /** As long as supervisors adopt their own runs, no run gets a second actor to stand for it. */
  lemma SoloStep(w: World, st: Step, all: bool)
    requires LockInv(w) && DiskInv(w) && HomeInv(w) && Solo(w.actors, all) && Enabled(w, st) && AdoptsOwn(w, st)
    ensures Solo(Apply(w, st).actors, all)
  {
    match st
    case Start(a, s) => SoloStart(w, a, s, all);
    case Lock(a, s) => SoloSection(w, a, s, all);
    case Own(a, s) => OwnerLeavesAdoption(w, a, s); SoloKeep(w, a, OwnerApply(w, a, s), all);
    case Terminate(a, s) => KillStandsForNone(w, a, s); SoloKeep(w, a, KillApply(w, a, s), all);
    case Visit(a, s) => VisitStandsForNone(w, a, s); SoloKeep(w, a, VisitApply(w, a, s), all);
    case System(s) => SoloSystem(w, s, all);
  }

  lemma SoloKeep(w: World, a: nat, v: World, all: bool)
    requires Solo(w.actors, all) && OnlyMoves(w, a, v)
    requires Stands(v.actors[a], all) ==> Stands(w.actors[a], all) && v.actors[a].gen == w.actors[a].gen
    ensures Solo(v.actors, all)
  {
    StillSolo(w.actors, a, v.actors[a], all);
  }

  lemma SoloSystem(w: World, s: SystemStep, all: bool)
    requires Solo(w.actors, all) && SystemEnabled(w, s)
    ensures Solo(SystemApply(w, s).actors, all)
  {
  }

  lemma SoloSection(w: World, a: nat, s: SectionStep, all: bool)
    requires DiskInv(w) && HomeInv(w) && Solo(w.actors, all) && SectionEnabled(w, a, s) && AdoptsOwn(w, Lock(a, s))
    ensures Solo(SectionApply(w, a, s).actors, all)
  {
    assert AtHome(w.actors[a]) && ActorDisk(w.actors[a], w.disk);
    SectionKeepsRun(w, a, s);
    SoloKeep(w, a, SectionApply(w, a, s), all);
  }

  lemma SectionKeepsRun(w: World, a: nat, s: SectionStep)
    requires SectionEnabled(w, a, s) && AdoptsOwn(w, Lock(a, s)) && AtHome(w.actors[a])
    requires w.actors[a].role.Owner? ==> w.disk.Some?
    ensures var v := SectionApply(w, a, s);
            && OnlyMoves(w, a, v) && v.actors[a].role == w.actors[a].role
            && (w.actors[a].role.Owner? ==> v.actors[a].gen == w.actors[a].gen)
            && !Ownerless(v.actors[a])
  {
  }

  lemma SoloStart(w: World, a: nat, s: StartStep, all: bool)
    requires LockInv(w) && DiskInv(w) && Solo(w.actors, all) && StartEnabled(w, a, s)
    ensures Solo(StartApply(w, a, s).actors, all)
  {
    match s
    case DoSpawn(o, p) => SoloSpawn(w, a, o, p, all);
    case DoSaveFresh => SoloFresh(w, a, all);
    case _ => StartStandsStill(w, a, s, all); SoloKeep(w, a, StartApply(w, a, s), all);
  }

  lemma StartStandsStill(w: World, a: nat, s: StartStep, all: bool)
    requires StartEnabled(w, a, s) && !s.DoSpawn? && !s.DoSaveFresh?
    ensures var v := StartApply(w, a, s);
            && OnlyMoves(w, a, v)
            && (Stands(v.actors[a], all) ==> Stands(w.actors[a], all) && v.actors[a].gen == w.actors[a].gen)
  {
  }

  /** Every other actor that stands for a run stands for an older one than is about to be saved. */
  lemma OlderThanFresh(w: World, a: nat, b: nat)
    requires LockInv(w) && DiskInv(w) && StartEnabled(w, a, DoSaveFresh) && b in w.actors && b != a
    ensures Bearer(w.actors[b]) ==> w.actors[b].gen < w.actors[a].gen
    ensures !(HoldsStart(w.actors[b]))
  {
    assert ActorDisk(w.actors[a], w.disk) && ActorDisk(w.actors[b], w.disk);
    MutualExclusion(w, a, b);
  }

  lemma SoloFresh(w: World, a: nat, all: bool)
    requires LockInv(w) && DiskInv(w) && Solo(w.actors, all) && StartEnabled(w, a, DoSaveFresh)
    ensures Solo(StartApply(w, a, DoSaveFresh).actors, all)
  {
    var v := StartApply(w, a, DoSaveFresh);
    forall b, c | b in v.actors && c in v.actors && b != c && Stands(v.actors[b], all) && Stands(v.actors[c], all)
      ensures v.actors[b].gen != v.actors[c].gen
    {
      if b == a { OlderThanFresh(w, a, c); } else if c == a { OlderThanFresh(w, a, b); }
    }
  }

  /** An owner that has just been spawned for run `gen`. */
  predicate NewOwner(y: Actor, gen: nat) {
    && y.role.Owner? && y.gen == y.home == gen
    && y.child.None? && y.seen.None? && y.reader.None? && !y.failed
    && (y.pc.SpawnChild? || (y.pc.Section? && y.pc.job.Adopt? && y.pc.stage.Acquire?))
  }

  /** The effect of a spawn on the actors: a new owner, and a starter that polls. */
  lemma SpawnedOwner(w: World, a: nat, o: nat, p: nat)
    requires StartEnabled(w, a, DoSpawn(o, p))
    ensures var v := StartApply(w, a, DoSpawn(o, p));
            && v.disk == w.disk && v.fifo == w.fifo && o in v.actors
            && v.actors == w.actors[a := w.actors[a].(pc := Poll(0))][o := v.actors[o]]
            && NewOwner(v.actors[o], w.actors[a].gen)
  {
  }

  /** The start stops standing for its run, and the new owner takes over. */
  lemma SoloSpawn(w: World, a: nat, o: nat, p: nat, all: bool)
    requires Solo(w.actors, all) && StartEnabled(w, a, DoSpawn(o, p))
    ensures Solo(StartApply(w, a, DoSpawn(o, p)).actors, all)
  {
    var v := StartApply(w, a, DoSpawn(o, p));
    SpawnedOwner(w, a, o, p);
    forall b, c | b in v.actors && c in v.actors && b != c && Stands(v.actors[b], all) && Stands(v.actors[c], all)
      ensures v.actors[b].gen != v.actors[c].gen
    {
      var b0, c0 := if b == o then a else b, if c == o then a else c;
      assert b0 != c0 && Stands(w.actors[b0], all) && Stands(w.actors[c0], all);
    }
  }

  // ------------------------------------------------ runs without an owner

  /** A run that never had an owner is not Running. */
  ghost predicate OwnerlessInv(w: World) {
    forall a | a in w.actors && Ownerless(w.actors[a]) :: !RunningAt(w.disk, w.actors[a].gen)
  }

  ghost predicate BearerInv(w: World) {
    HomeInv(w) && Solo(w.actors, true) && OwnerlessInv(w)
  }

  lemma BearerStep(w: World, st: Step)
    requires LockInv(w) && DiskInv(w) && BearerInv(w) && Enabled(w, st) && AdoptsOwn(w, st)
    ensures BearerInv(Apply(w, st))
  {
    HomeStep(w, st);
    SoloStep(w, st, true);
    var v := Apply(w, st);
    forall b | b in v.actors && Ownerless(v.actors[b]) ensures !RunningAt(v.disk, v.actors[b].gen) {
      OwnerlessStep(w, st, b);
    }
  }

  lemma OwnerlessStep(w: World, st: Step, b: nat)
    requires LockInv(w) && DiskInv(w) && BearerInv(w) && Enabled(w, st)
    requires b in Apply(w, st).actors && Ownerless(Apply(w, st).actors[b])
    ensures !RunningAt(Apply(w, st).disk, Apply(w, st).actors[b].gen)
  {
    if st.Start? && st.start.DoSaveFresh? {
    } else if st.Lock? && st.section.DoSave? {
      OwnerlessBefore(w, st, b);
      assert Ownerless(w.actors[b]);
      SaveKeepsOwnerless(w, st.a, b);
    } else {
      OwnerlessBefore(w, st, b);
      DiskStays(w, st);
    }
  }

  lemma DiskStays(w: World, st: Step)
    requires Enabled(w, st) && !(st.Start? && st.start.DoSaveFresh?) && !(st.Lock? && st.section.DoSave?)
    ensures Apply(w, st).disk == w.disk
  {
  }

  lemma OwnerlessBefore(w: World, st: Step, b: nat)
    requires Enabled(w, st) && !(st.Start? && st.start.DoSaveFresh?)
    requires b in Apply(w, st).actors && Ownerless(Apply(w, st).actors[b])
    ensures b in w.actors && Ownerless(w.actors[b]) && Apply(w, st).actors[b].gen == w.actors[b].gen
  {
    if Mover(st) != Some(b) {
      OthersStay(w, st, b);
    } else {
      match st
      case Start(a, s) => StartStaysOwnerless(w, a, s);
      case Lock(a, s) => NoOwnerlessFromSection(w, a, s);
      case Own(a, s) => OwnerLeavesAdoption(w, a, s);
      case Terminate(a, s) => KillStandsForNone(w, a, s);
      case Visit(a, s) =>
    }
  }

  lemma StartStaysOwnerless(w: World, a: nat, s: StartStep)
    requires StartEnabled(w, a, s) && !s.DoSaveFresh?
    ensures var y := StartApply(w, a, s).actors[a];
            Ownerless(y) ==> Ownerless(w.actors[a]) && y.gen == w.actors[a].gen
  {
  }

  lemma NoOwnerlessFromSection(w: World, a: nat, s: SectionStep)
    requires SectionEnabled(w, a, s)
    ensures !Ownerless(SectionApply(w, a, s).actors[a])
  {
  }

  /** Only an owner of the run on disk could promote it. */
  lemma SaveKeepsOwnerless(w: World, a: nat, b: nat)
    requires DiskInv(w) && BearerInv(w) && SectionEnabled(w, a, DoSave)
    requires b in w.actors && Ownerless(w.actors[b])
    ensures !RunningAt(SectionApply(w, a, DoSave).disk, w.actors[b].gen)
  {
    assert ActorDisk(w.actors[a], w.disk);
    if w.actors[a].role.Owner? { assert a != b && Stands(w.actors[a], true) && Stands(w.actors[b], true); }
  }

  // --------------------------------------------------- the run on disk has one

  ghost predicate Borne(actors: map<nat, Actor>, gen: nat) {
    exists b | b in actors :: Bearer(actors[b]) && actors[b].gen == gen
  }

  /** The run on disk always has a bearer, whoever adopts what. */
  lemma BorneStep(w: World, st: Step)
    requires DiskInv(w) && (w.disk.Some? ==> Borne(w.actors, w.disk.value.generation)) && Enabled(w, st)
    ensures var v := Apply(w, st); v.disk.Some? ==> Borne(v.actors, v.disk.value.generation)
  {
    var v := Apply(w, st);
    if st.Start? && st.start.DoSaveFresh? {
      assert Bearer(v.actors[st.a]) && v.actors[st.a].gen == v.disk.value.generation;
    } else if v.disk.Some? {
      GenerationStays(w, st);
      var b :| b in w.actors && Bearer(w.actors[b]) && w.actors[b].gen == w.disk.value.generation;
      BearerGoesOn(w, st, b);
    }
  }

  /** Only an initialisation puts a run on disk. */
  lemma GenerationStays(w: World, st: Step)
    requires DiskInv(w) && Enabled(w, st) && !(st.Start? && st.start.DoSaveFresh?)
    ensures Apply(w, st).disk.Some? ==> w.disk.Some? && AtRun(Apply(w, st).disk, w.disk.value.generation)
  {
    if st.Lock? && st.section.DoSave? {
      var x := w.actors[st.a];
      assert ActorDisk(x, w.disk);
      WritesFollow(x.pc.job, x.gen, w.disk.value, x.pc.stage.next);
    } else {
      DiskStays(w, st);
    }
  }

  lemma BearerGoesOn(w: World, st: Step, b: nat)
    requires Enabled(w, st) && !(st.Start? && st.start.DoSaveFresh?)
    requires b in w.actors && Bearer(w.actors[b]) && AtRun(w.disk, w.actors[b].gen)
    ensures Borne(Apply(w, st).actors, w.actors[b].gen)
  {
    var v := Apply(w, st);
    if Mover(st) != Some(b) {
      OthersStay(w, st, b);
      assert v.actors[b] == w.actors[b];
    } else {
      match st
      case Start(a, s) => StartGoesOnBearing(w, a, s);
      case Lock(a, s) => SectionGoesOnBearing(w, a, s); assert Bearer(v.actors[a]);
      case Own(a, s) => OwnerLeavesAdoption(w, a, s); assert Bearer(v.actors[a]);
      case Visit(a, s) =>
    }
  }

  lemma StartGoesOnBearing(w: World, a: nat, s: StartStep)
    requires StartEnabled(w, a, s) && !s.DoSaveFresh? && Bearer(w.actors[a])
    ensures Borne(StartApply(w, a, s).actors, w.actors[a].gen)
  {
    var v := StartApply(w, a, s);
    match s
    case DoSpawn(o, p) =>
      SpawnedOwner(w, a, o, p);
      assert Bearer(v.actors[o]);
    case SpawnError => assert Bearer(v.actors[a]);
    case DoUnlock => assert Bearer(v.actors[a]);
  }

  lemma SectionGoesOnBearing(w: World, a: nat, s: SectionStep)
    requires SectionEnabled(w, a, s) && Bearer(w.actors[a]) && AtRun(w.disk, w.actors[a].gen)
    ensures var y := SectionApply(w, a, s).actors[a]; y.role.Owner? && y.gen == w.actors[a].gen
  {
  }
}
