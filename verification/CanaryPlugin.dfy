/** The canary strategy as a plugin object: loads its state, and executes one step of the rollout. */
module CanaryPlugins {
  import opened Prelude
  import opened Canary
  import opened Workers
  import opened Sessions

  function Failures(n: nat): (r: seq<bool>)
    ensures |r| == n && forall k :: 0 <= k < n ==> !r[k]
  {
    seq(n, _ => false)
  }

  /** Failed checks below the threshold only move the loop's counter. */
  lemma {:induction false} FailuresCount(cfg: Config, traffic: int, fails: nat, n: nat, last: bool)
    requires fails + n < cfg.threshold
    ensures var x := Loop(cfg, traffic, fails, Failures(n) + [last]);
            && x.Stopped? == Loop(cfg, traffic, fails + n, [last]).Stopped?
            && (x.Stopped? ==> x == Loop(cfg, traffic, fails + n, [last]).(used := n + 1))
    decreases n
  {
    if n > 0 {
      assert (Failures(n) + [last])[1..] == Failures(n - 1) + [last];
      FailuresCount(cfg, traffic, fails + 1, n - 1, last);
    } else {
      assert Failures(0) + [last] == [last];
    }
  }

  class CanaryPlugin {
    const config: Config
    const storeWorks: bool        // no write to the plugin state store fails
    var candidateTraffic: int
    var stored: Option<int>       // the traffic in the plugin state store

    /** Configure: a state that is missing or cannot be read starts the strategy at -1. */
    constructor (config: Config, stored: Option<int>, storeWorks: bool)
      ensures this.config == config && this.stored == stored && this.storeWorks == storeWorks
      ensures candidateTraffic == if stored.Some? then stored.value else -1
    {
      this.config, this.stored, this.storeWorks := config, stored, storeWorks;
      candidateTraffic := if stored.Some? then stored.value else -1;
    }

    method SaveState()
      modifies `stored
      ensures stored == Some(candidateTraffic) || (!storeWorks && stored == old(stored))
    {
      var ok: bool := *;
      if ok || storeWorks { stored := Some(candidateTraffic); }
    }

    /**
     One Execute call. `checks` are the results of the metric checks it made; the
     verdict, the new traffic and the number of checks are those of the stream function.
     */
    method Execute(s: Session) returns (status: Status, traffic: int, failed: bool, ghost checks: seq<bool>)
      requires config.Valid() && s.cfg == config && s.pc.MonExecute? && s.traffic == candidateTraffic
      modifies this, s
      ensures s.world == old(s.world) && s.traffic == candidateTraffic
      ensures failed ==> s.pc.EndError? && status.Failed? && traffic == 0 && checks == []
      ensures failed ==>
                candidateTraffic
                == if old(candidateTraffic) != -1 then old(candidateTraffic)
                   else if config.initial != 0 then config.initial else config.step
      ensures !failed ==>
                && Canary.Execute(config, old(candidateTraffic), checks)
                   == Stopped(status, traffic, candidateTraffic, |checks|)
                && s.pc == VerdictEvent(status, traffic)
      ensures old(candidateTraffic) == -1 && !failed ==>
                && status.Success? && traffic == candidateTraffic
                && traffic == if config.initial != 0 then config.initial else config.step
      ensures !failed ==>
                match status
                case Success => traffic == candidateTraffic
                case Complete => traffic == 100 && candidateTraffic == -1
                case Failed => traffic == 0 && candidateTraffic == -1
      ensures storeWorks ==> stored == Some(candidateTraffic)
    {
      checks := [];
      var parsed: bool;
      if candidateTraffic == -1 {
        parsed := s.CallDelay();
        candidateTraffic := config.initial;
        if config.initial == 0 { candidateTraffic := config.step; }
        SaveState();
        if !parsed { return Failed, 0, true, checks; }
        return Success, candidateTraffic, false, checks;
      }
      parsed := s.CallDelay();
      if !parsed {
        SaveState();
        return Failed, 0, true, checks;
      }
      var failCount := 0;
      while true
        invariant 0 <= failCount < config.threshold
        invariant s.pc == MonCheck(failCount) && s.world == old(s.world)
        invariant s.traffic == candidateTraffic == old(candidateTraffic)
        invariant checks == Failures(failCount)
        decreases config.threshold - failCount
      {
        var result := s.CallCheck();
        checks := checks + [result];
        FailuresCount(config, candidateTraffic, 0, failCount, result);
        if !result {
          failCount := failCount + 1;
          if failCount >= config.threshold {
            candidateTraffic := -1;
            SaveState();
            return Failed, 0, false, checks;
          }
          SaveState();
          assert checks == Failures(failCount);
          continue;
        }
        candidateTraffic := candidateTraffic + config.step;
        SaveState();
        s.Decide();
        if candidateTraffic >= config.max {
          candidateTraffic := -1;
          SaveState();
          return Complete, 100, false, checks;
        }
        SaveState();
        return Success, candidateTraffic, false, checks;
      }
    }

    /** The percentages reported to webhooks always add up to 100. */
    function GetPrimaryTraffic(): (r: int)
      reads this
      ensures 0 <= r <= 100 && r + GetCandidateTraffic() == 100
      ensures candidateTraffic < 0 ==> r == 100
      ensures candidateTraffic > 100 ==> r == 0
    {
      PrimaryTraffic(candidateTraffic)
    }

    function GetCandidateTraffic(): (r: int)
      reads this
      ensures 0 <= r <= 100 && (1 <= candidateTraffic <= 100 ==> r == candidateTraffic)
      ensures candidateTraffic < 1 ==> r == 0
      ensures candidateTraffic > 100 ==> r == 100
    {
      CandidateTraffic(candidateTraffic)
    }
  }
}
