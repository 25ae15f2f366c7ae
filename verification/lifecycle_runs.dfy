/** Runs under each assumption, and the invariants that hold in all their states. */
module LifecycleRuns {
  import opened Lifecycle
  import opened LifecycleLocks
  import opened LifecycleDisk
  import opened LifecycleBearers
  import opened LifecycleProcs
  import opened LifecycleIdentity
  import opened LifecycleTokens
  import opened LifecyclePoints
  import opened LifecycleSignals
  import opened LifecycleFifo

  // --------------------------------------------------- assumptions on runs

  ghost predicate ExclusiveRun(ws: seq<World>, sts: seq<Step>) {
    Run(ws, sts) && forall i {:trigger sts[i]} | 0 <= i < |sts| :: InitExclusive(ws[i], sts[i])
  }

  ghost predicate ReadableRun(ws: seq<World>, sts: seq<Step>) {
    Run(ws, sts) && forall i {:trigger sts[i]} | 0 <= i < |sts| :: Readable(sts[i])
  }

  ghost predicate NoRecyclingRun(ws: seq<World>, sts: seq<Step>) {
    Run(ws, sts) && forall i {:trigger sts[i]} | 0 <= i < |sts| :: NoRecycling(ws[i], sts[i])
  }

  /** Supervisors adopt the runs of their own starts. */
  ghost predicate AdoptingRun(ws: seq<World>, sts: seq<Step>) {
    ExclusiveRun(ws, sts) && forall i {:trigger sts[i]} | 0 <= i < |sts| :: AdoptsOwn(ws[i], sts[i])
  }

  ghost predicate OrderlyRun(ws: seq<World>, sts: seq<Step>) {
    AdoptingRun(ws, sts) && ReadableRun(ws, sts)
  }

  // --------------------------------------------- invariants of every state

  lemma {:induction false} Always(ws: seq<World>, sts: seq<Step>, k: nat)
    requires Run(ws, sts) && k < |ws|
    ensures LockInv(ws[k]) && ProcInv(ws[k]) && NameInv(ws[k])
  {
    if k > 0 {
      Always(ws, sts, k - 1);
      LockStep(ws[k - 1], sts[k - 1]);
      ProcStep(ws[k - 1], sts[k - 1]);
      NameStep(ws[k - 1], sts[k - 1]);
    }
  }

  lemma {:induction false} AlwaysDisk(ws: seq<World>, sts: seq<Step>, k: nat)
    requires ExclusiveRun(ws, sts) && k < |ws|
    ensures DiskInv(ws[k])
  {
    if k > 0 {
      Always(ws, sts, k - 1);
      AlwaysDisk(ws, sts, k - 1);
      DiskStep(ws[k - 1], sts[k - 1]);
    }
  }

  lemma {:induction false} AlwaysOnTarget(ws: seq<World>, sts: seq<Step>, k: nat)
    requires NoRecyclingRun(ws, sts) && k < |ws|
    ensures TargetInv(ws[k])
  {
    if k > 0 {
      AlwaysOnTarget(ws, sts, k - 1);
      TargetStep(ws[k - 1], sts[k - 1]);
    }
  }

  lemma {:induction false} AlwaysGuarded(ws: seq<World>, sts: seq<Step>, k: nat)
    requires ReadableRun(ws, sts) && k < |ws|
    ensures TokenInv(ws[k])
  {
    if k > 0 {
      AlwaysGuarded(ws, sts, k - 1);
      Always(ws, sts, k - 1);
      TokenStep(ws[k - 1], sts[k - 1]);
    }
  }

  lemma {:induction false} AlwaysFits(ws: seq<World>, sts: seq<Step>, k: nat)
    requires Run(ws, sts) && k < |ws|
    ensures FitInv(ws[k])
  {
    if k > 0 {
      AlwaysFits(ws, sts, k - 1);
      FitStep(ws[k - 1], sts[k - 1]);
    }
  }

  lemma {:induction false} AlwaysDead(ws: seq<World>, sts: seq<Step>, k: nat)
    requires ReadableRun(ws, sts) && k < |ws|
    ensures DeadInv(ws[k])
  {
    if k > 0 {
      AlwaysDead(ws, sts, k - 1);
      Always(ws, sts, k - 1);
      DeadStep(ws[k - 1], sts[k - 1]);
    }
  }

  lemma {:induction false} AlwaysHome(ws: seq<World>, sts: seq<Step>, k: nat)
    requires Run(ws, sts) && k < |ws|
    ensures HomeInv(ws[k])
  {
    if k > 0 {
      AlwaysHome(ws, sts, k - 1);
      HomeStep(ws[k - 1], sts[k - 1]);
    }
  }

  lemma {:induction false} AlwaysBorne(ws: seq<World>, sts: seq<Step>, k: nat)
    requires ExclusiveRun(ws, sts) && k < |ws|
    ensures ws[k].disk.Some? ==> Borne(ws[k].actors, ws[k].disk.value.generation)
  {
    if k > 0 {
      AlwaysBorne(ws, sts, k - 1);
      AlwaysDisk(ws, sts, k - 1);
      BorneStep(ws[k - 1], sts[k - 1]);
    }
  }

  lemma {:induction false} AlwaysBearers(ws: seq<World>, sts: seq<Step>, k: nat)
    requires AdoptingRun(ws, sts) && k < |ws|
    ensures BearerInv(ws[k])
  {
    if k > 0 {
      Always(ws, sts, k - 1);
      AlwaysDisk(ws, sts, k - 1);
      AlwaysBearers(ws, sts, k - 1);
      BearerStep(ws[k - 1], sts[k - 1]);
    }
  }

  lemma {:induction false} AlwaysFifo(ws: seq<World>, sts: seq<Step>, k: nat)
    requires OrderlyRun(ws, sts) && k < |ws|
    ensures Base(ws[k]) && FifoInv(ws[k])
  {
    Always(ws, sts, k);
    AlwaysDisk(ws, sts, k);
    AlwaysBearers(ws, sts, k);
    if k > 0 {
      AlwaysFifo(ws, sts, k - 1);
      FifoStep(ws[k - 1], sts[k - 1]);
    }
  }
}
