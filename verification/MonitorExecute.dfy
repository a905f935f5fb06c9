/** The Monitor worker of the transition system does what the strategy's Execute does. */
module MonitorExecute {
  import opened Prelude
  import opened Cluster
  import opened Fsm
  import opened Canary
  import opened Workers
  import opened Rollouts

  /** Worker steps that answer the metric checks with the given results. */
  function Answers(checks: seq<bool>): (ls: seq<Label>)
    ensures |ls| == |checks|
  {
    if checks == [] then [] else [Work(0, if checks[0] then Done else Err, true, true)] + Answers(checks[1..])
  }

  /** After a passed check the worker takes one more step to its verdict. */
  function LastStep(x: Execution): seq<Label>
    requires x.Stopped?
  {
    if x.status.Failed? then [] else [Work(0, Done, true, true)]
  }

  predicate MonitorAt(s: Sys, pc: Pc) {
    s.state.StateMonitor? && s.workers == [Worker(StateMonitor, pc)]
  }

  lemma OneCheck(s: Sys, fails: nat, ok: bool)
    requires MonitorAt(s, MonCheck(fails))
    ensures Exec(s, Work(0, if ok then Done else Err, true, true))
            == var t := NextTraffic(s.cfg, s.traffic, MonCheck(fails), if ok then Done else Err);
               s.(workers := [Worker(StateMonitor, Next(s.cfg, s.traffic, MonCheck(fails), if ok then Done else Err))],
                  traffic := t, saved := t)
  {
    SoleStep(s, Work(0, if ok then Done else Err, true, true));
  }

  lemma OneDecision(s: Sys)
    requires MonitorAt(s, MonDecide)
    ensures Exec(s, Work(0, Done, true, true))
            == var t := NextTraffic(s.cfg, s.traffic, MonDecide, Done);
               s.(workers := [Worker(StateMonitor, Next(s.cfg, s.traffic, MonDecide, Done))], traffic := t, saved := t)
  {
    SoleStep(s, Work(0, Done, true, true));
  }

  /**
   Execute on a reset strategy makes no check: memory and store get InitialTraffic, or
   TrafficStep if that is 0, also when the delay cannot be parsed, and the worker is about
   to report that traffic, or the error.
   */
  lemma FirstExecute(s: Sys, ok: bool)
    requires MonitorAt(s, MonExecute) && s.traffic == -1
    ensures var i := if s.cfg.initial == 0 then s.cfg.step else s.cfg.initial;
            Exec(s, Work(0, if ok then Done else Err, true, true))
            == s.(workers := [Worker(StateMonitor, if ok then End(EventHealthy, Some(i)) else EndError)],
                  traffic := i, saved := i)
  {
    SoleStep(s, Work(0, if ok then Done else Err, true, true));
  }

  /** Execute on a strategy under way starts its checks with no failure counted, and changes nothing yet. */
  lemma NextExecute(s: Sys, ok: bool, savedOk: bool)
    requires MonitorAt(s, MonExecute) && s.traffic != -1
    ensures Exec(s, Work(0, if ok then Done else Err, true, savedOk))
            == s.(workers := [Worker(StateMonitor, if ok then MonCheck(0) else EndError)],
                  saved := if !ok && savedOk then s.traffic else s.saved)
  {
    SoleStep(s, Work(0, if ok then Done else Err, true, savedOk));
  }

  /**
   Answering the checks of one Execute call brings the Monitor worker to the event
   of Execute's verdict, with Execute's traffic in memory and in the store.
   */
  lemma {:induction false} MonitorRunsExecute(s: Sys, fails: nat, checks: seq<bool>)
    requires MonitorAt(s, MonCheck(fails))
    requires Loop(s.cfg, s.traffic, fails, checks).Stopped?
    ensures var x := Loop(s.cfg, s.traffic, fails, checks);
            Run(s, Answers(checks[..x.used]) + LastStep(x))
            == s.(workers := [Worker(StateMonitor, VerdictEvent(x.status, x.traffic))],
                  traffic := x.next, saved := x.next)
    decreases |checks|
  {
    var x := Loop(s.cfg, s.traffic, fails, checks);
    var ls := Answers(checks[..x.used]) + LastStep(x);
    OneCheck(s, fails, checks[0]);
    var n := Exec(s, ls[0]);
    assert checks[..x.used][1..] == checks[1..][..x.used - 1];
    assert ls[1..] == Answers(checks[1..][..x.used - 1]) + LastStep(x);
    if checks[0] {
      OneDecision(n);
      RunOne(n, Work(0, Done, true, true));
      assert ls[1..] == [Work(0, Done, true, true)];
    } else if fails + 1 >= s.cfg.threshold {
      assert ls[1..] == [];
    } else {
      MonitorRunsExecute(n, fails + 1, checks[1..]);
    }
  }
}
