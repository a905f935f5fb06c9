/**
 Drain before removal: a deployment is scaled to zero or deleted only while the
 splitter sends it no traffic, and exactly when RestoreOriginal and InitPrimary
 break this.
 */
module Drain {
  import opened Prelude
  import opened Cluster
  import opened Fsm
  import opened Workers
  import opened Rollouts
  import opened Availability

  /** The splitter as the worker at `pc` has left it. */
  predicate PcDrained(pc: Pc, w: World) {
    match pc
    case Remove(_, _) => w.Drained(Candidate)
    case Promote(PromoteHealth) => w.Drained(Primary)
    case Promote(PromoteDelete(src)) => w.Drained(Primary) && src.instances > 0
    case Promote(PromoteClone(src)) => src.instances > 0
    case DstRemove => w.Drained(Primary)
    case _ => true
  }

  predicate Draining(s: Sys) {
    Single(s) && (s.workers != [] ==> PcDrained(s.workers[0].pc, s.world))
  }

  /** The call deletes a deployment, scales it to zero, or clones 0 instances over a running one. */
  predicate Removes(req: Request, w: World, role: Role) {
    || (req.Delete? && req.role == role)
    || (req.Update? && req.role == role && req.instances == 0)
    || (req.Clone? && req.target == role && req.instances == 0 && w.Runs(role))
  }

  /** The next call of some live worker. */
  predicate AboutTo(s: Sys, i: nat, role: Role) {
    i < |s.workers| && Removes(RequestOf(s.workers[i].pc), s.world, role)
  }

  /** InitPrimary is about to clone the deployment it selected. */
  predicate Cloning(s: Sys) {
    |s.workers| == 1 && s.workers[0].pc.Init? && s.workers[0].pc.initAt.InitClone?
  }

  /** RestoreOriginal has not yet made the new candidate. */
  predicate Restoring(s: Sys) {
    && |s.workers| == 1 && s.workers[0].pc.Restore? && !s.workers[0].pc.restoreAt.RestoreReady?
  }

  lemma StepDrains(s: Sys, l: Label)
    requires Draining(s) && Calm(s, l)
    ensures Draining(Exec(s, l))
    ensures Restoring(s) && Restoring(Exec(s, l)) ==> Exec(s, l).world.split == s.world.split
  {
    StepKeepsSingle(s, l);
    if !l.Work? { OutsideStep(s, l); } else if Moves(s, l) { SoleStep(s, l); } else { assert Exec(s, l) == s; }
  }

  lemma NextRemoval(s: Sys, i: nat, role: Role)
    requires Draining(s) && AboutTo(s, i, role) && !Restoring(s)
    ensures s.world.Drained(role) || (Cloning(s) && s.workers[0].pc.initAt.src.instances == 0)
  {
    assert i == 0;
  }

  /**
   At every point of a calm run, a worker about to remove a deployment finds it
   drained, unless the worker is inside RestoreOriginal or about to clone a deployment
   of 0 instances in InitPrimary; without a hazard the second never happens.
   */
  lemma {:induction false} RemovalsAreDrained(s: Sys, ls: seq<Label>)
    requires Draining(s) && CalmRun(s, ls)
    ensures Draining(Run(s, ls))
    ensures forall i: nat, role :: AboutTo(Run(s, ls), i, role) && !Restoring(Run(s, ls)) && !Cloning(Run(s, ls))
              ==> Run(s, ls).world.Drained(role)
    ensures Safe(s) && HazardFree(s, ls) ==>
              forall i: nat, role :: AboutTo(Run(s, ls), i, role) && !Restoring(Run(s, ls))
                ==> Run(s, ls).world.Drained(role)
    decreases |ls|
  {
    if ls != [] {
      StepDrains(s, ls[0]);
      if Safe(s) && HazardFree(s, ls) { StepIsSafe(s, ls[0]); }
      RemovalsAreDrained(Exec(s, ls[0]), ls[1..]);
    } else {
      forall i: nat, role | AboutTo(s, i, role) && !Restoring(s)
        ensures s.world.Drained(role) || (Cloning(s) && s.workers[0].pc.initAt.src.instances == 0)
      {
        NextRemoval(s, i, role);
      }
    }
  }

  predicate StaysRestoring(s: Sys, ls: seq<Label>)
    decreases |ls|
  {
    Restoring(s) && (ls == [] || StaysRestoring(Exec(s, ls[0]), ls[1..]))
  }

  lemma {:induction false} SplitKept(s: Sys, ls: seq<Label>)
    requires Draining(s) && CalmRun(s, ls) && StaysRestoring(s, ls)
    ensures Run(s, ls).world.split == s.world.split
    decreases |ls|
  {
    if ls != [] {
      StepDrains(s, ls[0]);
      assert Restoring(Exec(s, ls[0]));
      SplitKept(Exec(s, ls[0]), ls[1..]);
    }
  }

  /**
   What RestoreOriginal removes, by its delete of the candidate or by a clone of 0
   instances over a candidate deployed since, is drained exactly when Destroy was
   accepted while the candidate had weight zero.
   */
  lemma RestoreDrainedIff(s: Sys, kept: bool, ls: seq<Label>)
    requires Draining(s) && s.workers == [] && Target(s.state, EventDestroy).Some?
    requires CalmRun(Exec(s, Destroy(kept)), ls) && StaysRestoring(Exec(s, Destroy(kept)), ls)
    requires AboutTo(Run(Exec(s, Destroy(kept)), ls), 0, Candidate)
    ensures Run(Exec(s, Destroy(kept)), ls).world.Drained(Candidate) <==> s.world.Drained(Candidate)
  {
    StepDrains(s, Destroy(kept));
    assert Exec(s, Destroy(kept)) == Enter(s, StateDestroy, None, kept);
    SplitKept(Exec(s, Destroy(kept)), ls);
  }

  // ---- InitPrimary's clone ----

  /** InitPrimary has looked up nothing yet, or found no primary, or selected a deployment. */
  predicate Initing(s: Sys) {
    |s.workers| == 1 && s.workers[0].pc.Init? && !s.workers[0].pc.initAt.InitHealth?
  }

  predicate StaysIniting(s: Sys, ls: seq<Label>)
    decreases |ls|
  {
    Initing(s) && (ls == [] || StaysIniting(Exec(s, ls[0]), ls[1..]))
  }

  /** The lookup along the run, if it was answered, failed although there was a primary. */
  predicate LookupFailed(s: Sys, ls: seq<Label>)
    decreases |ls|
  {
    && ls != []
    && ((Moves(s, ls[0]) && s.workers[0].pc.Init? && s.workers[0].pc.initAt.InitLookup? && ls[0].reply.Err?)
        || LookupFailed(Exec(s, ls[0]), ls[1..]))
  }

  lemma StepInits(s: Sys, l: Label)
    requires Single(s) && Calm(s, l) && Initing(s) && Initing(Exec(s, l))
    ensures Single(Exec(s, l))
    ensures Exec(s, l).world.primary == s.world.primary && Exec(s, l).world.split == s.world.split
    ensures s.workers[0].pc.initAt.InitLookup? && !Exec(s, l).workers[0].pc.initAt.InitLookup? ==>
              Moves(s, l) && (l.reply.Err? || s.world.primary.None?)
  {
    StepKeepsSingle(s, l);
    if !l.Work? { OutsideStep(s, l); } else if Moves(s, l) { SoleStep(s, l); } else { assert Exec(s, l) == s; }
  }

  lemma {:induction false} InitKeeps(s: Sys, ls: seq<Label>)
    requires Single(s) && CalmRun(s, ls) && StaysIniting(s, ls)
    ensures Single(Run(s, ls)) && Initing(Run(s, ls))
    ensures Run(s, ls).world.primary == s.world.primary && Run(s, ls).world.split == s.world.split
    ensures s.workers[0].pc.initAt.InitLookup? && !Run(s, ls).workers[0].pc.initAt.InitLookup? ==>
              LookupFailed(s, ls) || s.world.primary.None?
    decreases |ls|
  {
    if ls != [] {
      StepInits(s, ls[0]);
      InitKeeps(Exec(s, ls[0]), ls[1..]);
    }
  }

  /**
   An InitPrimary that has selected deployment `src` takes an undrained primary down
   with its clone exactly when a primary with traffic ran when it was called and `src`
   has 0 instances; its lookup of that primary has then failed.
   */
  lemma InitUndrainedIff(s: Sys, ls: seq<Label>, src: Deployment)
    requires Single(s) && Initing(s) && s.workers[0].pc.initAt.InitLookup?
    requires CalmRun(s, ls) && StaysIniting(s, ls)
    requires Cloning(Run(s, ls)) && Run(s, ls).workers[0].pc.initAt.src == src
    ensures AboutTo(Run(s, ls), 0, Primary) && !Run(s, ls).world.Drained(Primary)
            <==> src.instances == 0 && s.world.Runs(Primary) && !s.world.Drained(Primary)
    ensures s.world.primary.Some? ==> LookupFailed(s, ls)
  {
    InitKeeps(s, ls);
  }
}
