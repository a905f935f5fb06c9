/** Runs in which RestoreOriginal and InitPrimary take down a deployment that still has traffic. */
module Undrained {
  import opened Prelude
  import opened Cluster
  import opened Fsm
  import opened Workers
  import opened Rollouts
  import opened Availability
  import opened Drain
  import opened Climbs

  /** A Scale that took effect but reported a failure ends the promotion with all traffic at the candidate. */
  lemma ScaleIsLost(s: Sys) returns (ls: seq<Label>)
    requires AtPc(s, StatePromote, ProScale)
    ensures Clean(s, ls)
    ensures var n := Run(s, ls);
            n.workers == [] && n.state.StateFail? && n.world == s.world.(split := Some(Split(0, 100)))
  {
    ls := CallThenEnd(s, StatePromote, ProScale, Lost, EventFail, true);
  }

  lemma FailsWithTraffic(s: Sys) returns (ls: seq<Label>)
    requires Fresh(s)
    ensures Clean(s, ls)
    ensures var n := Run(s, ls);
            && n.workers == [] && n.state.StateFail? && n.world.primary.Some?
            && n.world.split == Some(Split(0, 100)) && n.world.Runs(Candidate)
  {
    var a := FreshRests(s);
    var b := RisesToPromote(Run(s, a));
    CleanAppend(s, a, b);
    var d := ScaleIsLost(Run(s, a + b));
    CleanAppend(s, a + b, d);
    ls := a + b + d;
  }

  /**
   Every fresh release has a calm run to a Destroy accepted with candidate weight
   100, whose worker is then about to delete a candidate that is not drained.
   */
  lemma DestroyDeletesUndrained(s: Sys) returns (before: seq<Label>, after: seq<Label>)
    requires Fresh(s)
    ensures Clean(s, before)
    ensures var n := Run(s, before);
            && n.workers == [] && Target(n.state, EventDestroy).Some? && !n.world.Drained(Candidate)
            && CalmRun(Exec(n, Destroy(true)), after) && StaysRestoring(Exec(n, Destroy(true)), after)
            && AboutTo(Run(Exec(n, Destroy(true)), after), 0, Candidate)
            && !Run(Exec(n, Destroy(true)), after).world.Drained(Candidate)
  {
    before := FailsWithTraffic(s);
    var n := Run(s, before);
    EnterStaffs(n, StateDestroy, None, true);
    var d := Exec(n, Destroy(true));
    assert d == Enter(n, StateDestroy, None, true);
    var found := Found(d.world.primary.value);
    var m := OneCall(d, StateDestroy, Restore(RestoreGet), found);
    after := [Work(0, found, true, true)];
    assert after[1..] == [];
    assert Exec(d, after[0]) == m by { RunOne(d, after[0]); }
    assert StaysRestoring(m, []);
  }

  // ---- InitPrimary ----

  lemma FindsPrimary(u: Sys, p: Deployment) returns (ls: seq<Label>)
    requires AtPc(u, StateDeploy, Init(ByDeploy, InitLookup)) && u.world.primary == Some(p) && p.instances > 0
    ensures Clean(u, ls)
    ensures AtPc(Run(u, ls), StateDeploy, DepScale(false)) && Run(u, ls).world == u.world
  {
    var n1 := OneCall(u, StateDeploy, Init(ByDeploy, InitLookup), Found(p));
    var n2 := OneCall(n1, StateDeploy, DepWait(false), Done);
    var a, b := [Work(0, Found(p), true, true)], [Work(0, Done, true, true)];
    CleanAppend(u, a, b);
    ls := a + b;
  }

  lemma DrainsThenFails(u: Sys, p: Deployment) returns (ls: seq<Label>)
    requires AtPc(u, StateDeploy, Init(ByDeploy, InitLookup)) && u.world.primary == Some(p) && p.instances > 0
    ensures Clean(u, ls)
    ensures var n := Run(u, ls);
            n.workers == [] && n.state.StateFail? && n.world == u.world.(split := Some(Split(100, 0)))
  {
    var a := FindsPrimary(u, p);
    var b := CallThenEnd(Run(u, a), StateDeploy, DepScale(false), Lost, EventFail, true);
    CleanAppend(u, a, b);
    ls := a + b;
  }

  /** From rest, a Deploy whose Scale took effect but reported a failure: all traffic is at the primary. */
  lemma FailsDrained(u: Sys) returns (ls: seq<Label>)
    requires Resting(u)
    ensures Clean(u, ls)
    ensures var n := Run(u, ls);
            n.workers == [] && n.state.StateFail? && n.world == u.world.(split := Some(Split(100, 0)))
  {
    DeployClimbs(u, u.world.candidate.value);
    var rest := DrainsThenFails(Run(u, [Deploy(true)]), u.world.primary.value);
    CleanAppend(u, [Deploy(true)], rest);
    ls := [Deploy(true)] + rest;
  }

  /** Looking up the primary beside an idle candidate, with all traffic at the primary. */
  predicate AtHazard(n: Sys, idle: Deployment) {
    && AtPc(n, StateDeploy, Init(ByDeploy, InitLookup))
    && n.world.Runs(Primary) && n.world.candidate == Some(idle) && idle.instances == 0
    && n.world.split == Some(Split(100, 0))
  }

  lemma DeploysBesideIdle(s: Sys, idle: Deployment) returns (ls: seq<Label>)
    requires s.workers == [] && s.state.StateFail? && s.world.Runs(Primary) && idle.instances == 0
    requires s.world.split == Some(Split(100, 0))
    ensures CalmRun(s, ls) && HazardFree(s, ls) && AtHazard(Run(s, ls), idle)
  {
    var a, b := UserDeploy(idle), Deploy(true);
    var s1 := Exec(s, a);
    EnterStaffs(s1, StateDeploy, None, true);
    var s2 := Exec(s1, b);
    ls := [a, b];
    assert ls[1..] == [b] && [b][1..] == [];
    assert s1 == s.(world := s.world.(candidate := Some(idle)));
    assert s2 == Enter(s1, StateDeploy, None, true);
    RunOne(s1, b);
    assert Run(s, ls) == s2;
    assert HazardFree(s2, []) && CalmRun(s2, []);
    assert HazardFree(s1, [b]) && CalmRun(s1, [b]);
  }

  /** The lookup fails and the idle candidate is selected. */
  function Misled(idle: Deployment): seq<Label> {
    [Work(0, Err, true, true), Work(0, Found(idle), true, true)]
  }

  lemma SelectsIdle(n: Sys, idle: Deployment)
    requires AtHazard(n, idle)
    ensures LookupHazard(n, Misled(idle)[0]) && CalmRun(n, Misled(idle))
    ensures var m := Run(n, Misled(idle));
            AtPc(m, StateDeploy, Init(ByDeploy, InitClone(idle))) && m.world == n.world
  {
    var a, b := Misled(idle)[0], Misled(idle)[1];
    CallIs(n, a);
    WorkKeepsSingle(n, a);
    var n1 := Exec(n, a);
    CallIs(n1, b);
    WorkKeepsSingle(n1, b);
    assert Misled(idle)[1..] == [b];
    RunOne(n1, b);
    PlainIsCalm(n, Misled(idle));
  }

  /**
   Every fresh release has a hazard-free run to a lookup of the primary which, when it
   fails, leads InitPrimary to clone 0 instances over the primary that has all traffic.
   */
  lemma CloneTakesDownUndrained(s: Sys, idle: Deployment) returns (before: seq<Label>)
    requires Fresh(s) && idle.instances == 0
    ensures CalmRun(s, before) && HazardFree(s, before) && LookupHazard(Run(s, before), Misled(idle)[0])
    ensures CalmRun(Run(s, before), Misled(idle))
    ensures var m := Run(Run(s, before), Misled(idle));
            && m.world.Runs(Primary) && m.world.split == Some(Split(100, 0))
            && AboutTo(m, 0, Primary) && !m.world.Drained(Primary) && !Restoring(m)
  {
    var a := FreshRests(s);
    var b := FailsDrained(Run(s, a));
    CleanAppend(s, a, b);
    var n := Run(s, a + b);
    var d := DeploysBesideIdle(n, idle);
    PlainIsCalm(s, a + b);
    CalmAppend(s, a + b, d);
    HazardFreeAppend(s, a + b, d);
    RunAppend(s, a + b, d);
    before := a + b + d;
    SelectsIdle(Run(s, before), idle);
  }
}
