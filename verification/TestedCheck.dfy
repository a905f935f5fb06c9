/** With a post-deployment test, nothing is checked or reported in Monitor before the test has passed there. */
module TestedChecks {
  import opened Cluster
  import opened Fsm
  import opened Workers
  import opened Rollouts

  /** The test has passed since Monitor was last entered, from `passed` before the label. */
  function AfterLabel(s: Sys, l: Label, passed: bool): bool {
    if Moves(s, l) && RequestOf(s.workers[l.worker].pc) == RunTest then l.reply.Done?
    else if |Exec(s, l).trace| > |s.trace| then false
    else passed
  }

  function TestPassed(s: Sys, ls: seq<Label>, passed: bool): bool
    decreases |ls|
  {
    if ls == [] then passed else TestPassed(Exec(s, ls[0]), ls[1..], AfterLabel(s, ls[0], passed))
  }

  /** Past the test: about to parse the delay, to check, to decide, or to report a verdict that goes on. */
  predicate PastTest(pc: Pc) {
    || pc.MonExecute? || pc.MonCheck? || pc.MonDecide? || pc.EndError?
    || (pc.End? && (pc.event.EventHealthy? || pc.event.EventComplete?))
  }

  predicate Guarded(s: Sys, passed: bool) {
    && Single(s)
    && (s.cfg.hasTest && s.workers != [] && s.state.StateMonitor? && PastTest(s.workers[0].pc) ==> passed)
  }

  lemma StepGuards(s: Sys, l: Label, passed: bool)
    requires Guarded(s, passed) && Calm(s, l)
    ensures Guarded(Exec(s, l), AfterLabel(s, l, passed))
  {
    StepKeepsSingle(s, l);
    if !l.Work? {
      OutsideStep(s, l);
    } else if !Moves(s, l) {
      assert Exec(s, l) == s;
    } else if s.workers[0].pc.End? || s.workers[0].pc.EndError? {
      EndIs(s, l);
    } else {
      CallIs(s, l);
    }
  }

  /**
   Over every calm run with a test configured: a worker about to make a metric check, or
   to report that the rollout goes on or is complete, follows a test that passed since
   Monitor was entered.
   */
  lemma {:induction false} NoCheckBeforeTest(s: Sys, ls: seq<Label>, passed: bool)
    requires Guarded(s, passed) && CalmRun(s, ls)
    ensures Guarded(Run(s, ls), TestPassed(s, ls, passed))
    ensures var n := Run(s, ls);
            n.cfg.hasTest && n.workers != [] && n.state == StateMonitor
            && (RequestOf(n.workers[0].pc) == Check
                || (n.workers[0].pc.End? && n.workers[0].pc.event in {EventHealthy, EventComplete}))
            ==> TestPassed(s, ls, passed)
    decreases |ls|
  {
    if ls != [] {
      StepGuards(s, ls[0], passed);
      NoCheckBeforeTest(Exec(s, ls[0]), ls[1..], AfterLabel(s, ls[0], passed));
    }
  }
}
