/** Which steps can start an outage, and how runs from a fresh release come to them. */
module Outages {
  import opened Prelude
  import opened Cluster
  import opened Fsm
  import opened Workers
  import opened Rollouts
  import opened RolloutSuccess
  import opened Availability
  import opened Descents
  import opened Climbs
  import opened StaleWorkers

  lemma LookupLoses(s: Sys, l: Label)
    requires Safe(s) && LookupHazard(s, l)
    ensures s.world.Live() && Loses(Exec(s, l))
  {
    var d := s.world.candidate.value;
    var a, b := Work(0, Found(d), true, true), Work(0, Done, true, true);
    HazardLosesService(s, l);
    var n := Exec(s, l);
    assert [l, a, b][1..] == [a, b] && [a, b][1..] == [b] && [b][1..] == [];
    assert Run(n, [a, b]) == Run(s, [l, a, b]);
    assert HazardFree(Exec(n, a), [b]);
    assert Clean(n, [a, b]);
  }

  /** Every hazard-free continuation keeps a deployment live. */
  ghost predicate StaysUp(s: Sys) {
    forall ls :: HazardFree(s, ls) ==> Run(s, ls).world.Live()
  }

  lemma LosesIsNotUp(s: Sys)
    requires Loses(s)
    ensures !StaysUp(s)
  {
    var ls :| Clean(s, ls) && !Run(s, ls).world.Live();
    assert HazardFree(s, ls);
  }

  lemma SafeIsUp(s: Sys)
    requires Safe(s) && s.world.Live()
    ensures StaysUp(s)
  {
    forall ls | HazardFree(s, ls) ensures Run(s, ls).world.Live() { NeverAllDown(s, ls); }
  }

  /** The worker that counts on the candidate goes on as if it still ran. */
  lemma ReliesLoses(s: Sys, state: State, pc: Pc)
    requires AtPc(s, state, pc) && Relies(pc) && Idled(s.world) && s.world.primary.Some?
    ensures Loses(s)
    decreases if pc.DstScale? then 1 else 0
  {
    var idle := s.world.candidate.value;
    if pc.Init? {
      var n1 := OneCall(s, state, pc, Found(idle));
      var n2 := OneCall(n1, state, Init(pc.caller, InitClone(idle)), Done);
      LosesNow(n2);
      LosesAfter(n1, [Work(0, Done, true, true)]);
      LosesAfter(s, [Work(0, Found(idle), true, true)]);
    } else {
      var n := OneCall(s, state, pc, Done);
      if pc.DstScale? { ReliesLoses(n, state, DstRemove); } else { LosesNow(n); }
      LosesAfter(s, [Work(0, Done, true, true)]);
    }
  }

  /** A user deployment of 0 instances, without a primary or under a worker that counts on the candidate. */
  lemma IdleLoses(s: Sys, l: Label)
    requires Safe(s) && IdleHazard(s, l)
    ensures Loses(Exec(s, l))
  {
    var n := Exec(s, l);
    OutsideStep(s, l);
    OutsideKeepsSingle(s, l);
    if s.world.primary.None? {
      LosesNow(n);
    } else {
      assert s.workers == [s.workers[0]];
      ReliesLoses(n, n.state, n.workers[0].pc);
    }
  }

  lemma HazardLoses(s: Sys, l: Label)
    requires Safe(s) && s.cfg.Valid() && s.world.Live() && Hazard(s, l)
    ensures Loses(Exec(s, l))
  {
    if LookupHazard(s, l) {
      LookupLoses(s, l);
    } else if ResumeHazard(s, l) {
      ResumeLoses(s, l);
    } else if IdleHazard(s, l) {
      IdleLoses(s, l);
    } else {
      DestroyLoses(s, l.kept);
    }
  }

  /**
   A step from a safe state with a live deployment keeps one live over every
   hazard-free continuation exactly when the step is no hazard: a failed lookup of the
   primary beside an idle matching deployment, a resumed Monitor without a primary, a
   Destroy accepted while a worker is live, or a user deployment of 0 instances without
   a running primary or under a worker that counts on the candidate. Each of them can
   start an outage, and nothing else can.
   */
  lemma OutageIffHazard(s: Sys, l: Label)
    requires Safe(s) && s.cfg.Valid() && s.world.Live()
    ensures StaysUp(Exec(s, l)) <==> !Hazard(s, l)
  {
    if Hazard(s, l) {
      HazardLoses(s, l);
      LosesIsNotUp(Exec(s, l));
    } else {
      StepIsSafe(s, l);
      SafeIsUp(Exec(s, l));
    }
  }

  // ---- Reaching a hazard ----

  /** The state a successful rollout leaves: the new primary serves beside the idle deployment it was cloned from. */
  lemma PromotedIsSafe(s: Sys, c: Deployment)
    requires Smooth(s, c) && s.workers == [] && c.instances > 0
    ensures Safe(s) && s.state.StateIdle? && s.world.candidate == Some(Retired(c))
  {
  }

  /** Deploy fired again after a successful rollout, with one failed lookup, comes to the hazard. */
  lemma SecondDeployLosesService(n: Sys, c: Deployment)
    requires Smooth(n, c) && n.workers == [] && c.instances > 0
    ensures n.world.Live()
    ensures !Run(n, [Deploy(true), Work(0, Err, true, true)] + Overwrite(Retired(c))).world.Live()
  {
    PromotedIsSafe(n, c);
    var again, lookup, ls := Deploy(true), Work(0, Err, true, true), Overwrite(Retired(c));
    StepIsSafe(n, again);
    var m := Exec(n, again);
    assert m.workers == [Worker(StateDeploy, Init(ByDeploy, InitLookup))];
    assert m.world == n.world;
    HazardLosesService(m, lookup);
    assert [lookup] + ls == [lookup, ls[0], ls[1]];
    assert [again, lookup] + ls == [again] + ([lookup] + ls);
    assert ([again] + ([lookup] + ls))[1..] == [lookup] + ls;
  }

  /**
   The hazard is reachable from every accepted Deploy beside a live primary: a rollout
   in which no call fails, another Deploy, and one failed lookup end without service.
   */
  lemma FailedLookupLosesService(s: Sys, c: Deployment) returns (good: seq<Label>)
    requires ReadyFor(s, c)
    ensures s.world.Live() && NoFailure(good)
    ensures !Run(s, good + ([Deploy(true), Work(0, Err, true, true)] + Overwrite(Retired(c)))).world.Live()
  {
    good := SuccessIsReachable(s, c);
    SmoothRun(s, c, good);
    SecondDeployLosesService(Run(s, good), c);
    RunAppend(s, good, [Deploy(true), Work(0, Err, true, true)] + Overwrite(Retired(c)));
  }

  lemma {:induction false} NoFailureIsClean(s: Sys, ls: seq<Label>)
    requires NoFailure(ls)
    ensures Clean(s, ls)
    decreases |ls|
  {
    if ls != [] { NoFailureIsClean(Exec(s, ls[0]), ls[1..]); }
  }

  /** From rest with the strategy reset, a second Deploy after a rollout without failures looks up the primary. */
  lemma LookupHazardReached(s: Sys) returns (ls: seq<Label>)
    requires Resting(s) && s.traffic == -1
    ensures Clean(s, ls) && LookupHazard(Run(s, ls), Work(0, Err, true, true))
  {
    var c := s.world.candidate.value;
    DeployClimbs(s, c);
    var s1 := Run(s, [Deploy(true)]);
    assert ReadyFor(s1, c);
    var good := SuccessIsReachable(s1, c);
    NoFailureIsClean(s1, good);
    SmoothRun(s1, c, good);
    var s2 := Run(s1, good);
    PromotedIsSafe(s2, c);
    CleanOne(s2, Deploy(true));
    assert Run(s2, [Deploy(true)]).workers == [Worker(StateDeploy, Init(ByDeploy, InitLookup))];
    CleanAppend(s1, good, [Deploy(true)]);
    CleanAppend(s, [Deploy(true)], good + [Deploy(true)]);
    ls := [Deploy(true)] + (good + [Deploy(true)]);
  }

  /** From rest, a promotion whose history write was lost deletes the primary while the store still says Monitor. */
  lemma ResumeHazardReached(s: Sys) returns (ls: seq<Label>)
    requires Resting(s)
    ensures Clean(s, ls) && ResumeHazard(Run(s, ls), Reload(true, true, true))
  {
    var c := s.world.candidate.value;
    DeployClimbs(s, c);
    var s1 := Run(s, [Deploy(true)]);
    var a := ToEdge(s1, c, false);
    var s2 := Run(s1, a);
    var s3 := OneCall(s2, StatePromote, Promote(PromoteDelete(c)), Done);
    CleanAppend(s1, a, [Work(0, Done, true, true)]);
    CleanAppend(s, [Deploy(true)], a + [Work(0, Done, true, true)]);
    ls := [Deploy(true)] + (a + [Work(0, Done, true, true)]);
  }

  /** A clean run from a fresh release over a live deployment, continued cleanly. */
  lemma StaysUpAfter(s: Sys, a: seq<Label>, b: seq<Label>)
    requires Fresh(s) && Clean(s, a) && Run(s, a).world.Live() && Clean(Run(s, a), b)
    ensures HazardFree(s, a + b) && Run(s, a + b) == Run(Run(s, a), b) && Run(s, a + b).world.Live()
  {
    CleanAppend(s, a, b);
    NeverAllDown(s, a);
    NeverAllDown(Run(s, a), b);
  }

  lemma DestroyHazardReached(s: Sys) returns (ls: seq<Label>)
    requires Resting(s)
    ensures Clean(s, ls) && DestroyHazard(Run(s, ls), Destroy(true))
  {
    DeployClimbs(s, s.world.candidate.value);
    ls := [Deploy(true)];
  }

  const IDLE := UserDeploy(Deployment("", 0, "", map[]))

  /** From rest, a promotion comes to where it counts on the candidate to delete the primary. */
  lemma IdleHazardReached(s: Sys) returns (ls: seq<Label>)
    requires Resting(s)
    ensures Clean(s, ls) && IdleHazard(Run(s, ls), IDLE) && Run(s, ls).world.Runs(Primary)
  {
    var c := s.world.candidate.value;
    DeployClimbs(s, c);
    var s1 := Run(s, [Deploy(true)]);
    var a := ToEdge(s1, c, true);
    CleanAppend(s, [Deploy(true)], a);
    ls := [Deploy(true)] + a;
    assert Relies(Run(s, ls).workers[0].pc);
  }

  /** A fresh release has no primary, so the first deployment that runs may be followed by an idle one. */
  lemma FreshIdleHazard(s: Sys) returns (ls: seq<Label>)
    requires Fresh(s)
    ensures HazardFree(s, ls) && Run(s, ls).world.Live() && IdleHazard(Run(s, ls), IDLE)
    ensures !Run(s, ls).world.Runs(Primary)
  {
    var live := UserDeploy(Deployment("", 1, "", map[]));
    CleanOne(s, live);
    ls := [live];
  }

  /**
   From every fresh release, hazard-free runs lead to a failed lookup, to a resumed
   Monitor and to a Destroy beside a worker with a live deployment still there, so each
   of them does lose the service.
   */
  lemma EveryHazardIsReached(s: Sys) returns (lookup: seq<Label>, resume: seq<Label>, destroy: seq<Label>)
    requires Fresh(s)
    ensures HazardFree(s, lookup) && Run(s, lookup).world.Live()
    ensures LookupHazard(Run(s, lookup), Work(0, Err, true, true))
    ensures HazardFree(s, resume) && Run(s, resume).world.Live()
    ensures ResumeHazard(Run(s, resume), Reload(true, true, true))
    ensures HazardFree(s, destroy) && Run(s, destroy).world.Live()
    ensures DestroyHazard(Run(s, destroy), Destroy(true))
  {
    var rest := FreshRests(s);
    var a := LookupHazardReached(Run(s, rest));
    StaysUpAfter(s, rest, a);
    var b := ResumeHazardReached(Run(s, rest));
    StaysUpAfter(s, rest, b);
    var d := DestroyHazardReached(Run(s, rest));
    StaysUpAfter(s, rest, d);
    lookup, resume, destroy := rest + a, rest + b, rest + d;
  }

  /** And to a user deployment of 0 instances, without a primary and beside a running one. */
  lemma IdleHazardsAreReached(s: Sys) returns (alone: seq<Label>, relied: seq<Label>)
    requires Fresh(s)
    ensures HazardFree(s, alone) && Run(s, alone).world.Live()
    ensures !Run(s, alone).world.Runs(Primary) && IdleHazard(Run(s, alone), IDLE)
    ensures HazardFree(s, relied) && Run(s, relied).world.Runs(Primary) && IdleHazard(Run(s, relied), IDLE)
  {
    alone := FreshIdleHazard(s);
    var rest := FreshRests(s);
    var a := IdleHazardReached(Run(s, rest));
    StaysUpAfter(s, rest, a);
    relied := rest + a;
  }
}
