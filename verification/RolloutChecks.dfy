/**
 The metric checks of a whole rollout decide it as the single pass over them does:
 the stream of `Canary.Cycle` is the one the workers see across Monitor and Scale.
 */
module RolloutChecks {
  import opened Prelude
  import opened Cluster
  import opened Fsm
  import opened Canary
  import opened Workers
  import opened Rollouts
  import opened RolloutTrace

  /** The check result a label brings, if any. */
  function Observed(s: Sys, l: Label): seq<bool> {
    if Moves(s, l) && s.workers[l.worker].pc.MonCheck? then [l.reply.Done?] else []
  }

  /** Results of all checks of a run, in order. */
  function Checks(s: Sys, ls: seq<Label>): seq<bool>
    decreases |ls|
  {
    if ls == [] then [] else Observed(s, ls[0]) + Checks(Exec(s, ls[0]), ls[1..])
  }

  // ---- Verdicts on the checks seen so far ----

  predicate Undecided(cfg: Config, seen: seq<bool>, won: int, fails: nat)
    requires cfg.Valid()
  {
    Successes(seen) == won && Underway(Rounds(cfg), cfg.threshold, seen, |seen|, fails)
  }

  predicate Complete(cfg: Config, seen: seq<bool>)
    requires cfg.Valid()
  {
    CompletesAt(Rounds(cfg), cfg.threshold, seen, |seen|)
  }

  predicate Failed(cfg: Config, seen: seq<bool>)
    requires cfg.Valid()
  {
    FailsAt(Rounds(cfg), cfg.threshold, seen, |seen|)
  }

  /** Rolled back by the checks, or between two of them by the post-deployment test. */
  predicate Unhealthy(cfg: Config, seen: seq<bool>)
    requires cfg.Valid()
  {
    Failed(cfg, seen) || (cfg.hasTest && Undecided(cfg, seen, Successes(seen), 0))
  }

  predicate Stands(cfg: Config, seen: seq<bool>)
    requires cfg.Valid()
  {
    || Complete(cfg, seen) || Failed(cfg, seen)
    || exists fails: nat | fails <= |seen| :: Undecided(cfg, seen, Successes(seen), fails)
  }

  lemma NothingSeen(cfg: Config)
    requires cfg.Valid()
    ensures Undecided(cfg, [], 0, 0)
  {
  }

  lemma OneMoreSeen(cfg: Config, seen: seq<bool>, won: nat, fails: nat, ok: bool)
    requires cfg.Valid() && Undecided(cfg, seen, won, fails)
    ensures ok ==> if won + 1 == Rounds(cfg) then Complete(cfg, seen + [ok])
                   else Undecided(cfg, seen + [ok], won + 1, 0)
    ensures !ok ==> if fails + 1 >= cfg.threshold then Failed(cfg, seen + [ok])
                    else Undecided(cfg, seen + [ok], won, fails + 1)
  {
    var k, t, next, n := Rounds(cfg), cfg.threshold, seen + [ok], |seen|;
    assert next[..n] == seen == seen[..n] && next[..n + 1] == next;
    assert TrailingFailures(next, n, fails);
    assert NoFailureRun(t, next, n) by {
      forall m | 0 <= m <= n ensures !FailureRun(t, next, m) { assert !FailureRun(t, seen, m); }
    }
    OneMoreCheck(k, t, next, n, fails);
  }

  /** The pass over a stream in which nothing is decided goes on; the other two have ended. */
  lemma VerdictOfStream(cfg: Config, seen: seq<bool>)
    requires cfg.Valid() && Stands(cfg, seen)
    ensures Complete(cfg, seen) <==> Cycle(cfg, -1, seen) == Completed(|seen|)
    ensures Failed(cfg, seen) <==> Cycle(cfg, -1, seen) == RolledBack(|seen|)
    ensures Cycle(cfg, -1, seen).Waiting? <==> !Complete(cfg, seen) && !Failed(cfg, seen)
    ensures |seen| <= Rounds(cfg) * cfg.threshold
  {
    FlatStream(cfg, seen, |seen|);
    ChecksBounded(cfg, seen);
    var v := Cycle(cfg, -1, seen);
    if !v.Waiting? {
      FlatStream(cfg, seen, v.at);
      if v.Completed? {
        EndsOnce(Rounds(cfg), cfg.threshold, seen, v.at, |seen|);
      } else {
        FailsOnce(Rounds(cfg), cfg.threshold, seen, v.at, |seen|);
      }
    }
  }

  // ---- Along a rollout ----

  /** What the checks seen say while the only worker is at `pc`, after j steps of the ramp. */
  predicate PcSeen(cfg: Config, home: State, pc: Pc, j: nat, seen: seq<bool>)
    requires cfg.Valid()
  {
    match home
    case StateDeploy => seen == []
    case StateScale => Undecided(cfg, seen, j, 0)
    case StatePromote => Complete(cfg, seen)
    case StateRollback => Unhealthy(cfg, seen)
    case StateMonitor =>
      (match pc
       case MonCheck(f) => Undecided(cfg, seen, j - 1, f)
       case MonDecide => if j == Rounds(cfg) then Complete(cfg, seen) else Undecided(cfg, seen, j, 0)
       case End(e, _) =>
         if e.EventHealthy? then Undecided(cfg, seen, j, 0)
         else if e.EventComplete? then Complete(cfg, seen)
         else Unhealthy(cfg, seen)
       case _ => Undecided(cfg, seen, if j == 0 then 0 else j - 1, 0) && (pc.MonTest? ==> cfg.hasTest))
    case _ => false
  }

  predicate Watched(s: Sys, j: nat, seen: seq<bool>) {
    && s.cfg.Valid() && |s.trace| >= 2
    && if s.workers != [] then PcSeen(s.cfg, s.state, s.workers[0].pc, j, seen)
    else if s.state.StateIdle? then
      match s.trace[|s.trace| - 2]
      case StatePromote => Complete(s.cfg, seen)
      case StateRollback => Unhealthy(s.cfg, seen)
      case _ => seen == []
    else
      s.state.StateFail? && Stands(s.cfg, seen)
  }

  /** A call of the Monitor worker. */
  lemma MonitorSees(cfg: Config, traffic: int, j: nat, pc: Pc, r: Reply, seen: seq<bool>)
    requires cfg.Valid() && j <= Rounds(cfg) && Fits(StateMonitor, pc) && !pc.End? && !pc.EndError?
    requires pc.MonCheck? ==> j >= 1 && traffic == Level(cfg, j)
    requires pc.MonDecide? ==> j >= 1 && traffic == Level(cfg, j + 1)
    requires pc.MonExecute? ==> if j == 0 then traffic == -1 else traffic >= 1
    requires PcSeen(cfg, StateMonitor, pc, j, seen)
    ensures PcSeen(cfg, StateMonitor, Next(cfg, traffic, pc, r), j,
                   if pc.MonCheck? then seen + [r.Done?] else seen)
  {
    if pc.MonCheck? {
      OneMoreSeen(cfg, seen, j - 1, pc.fails, r.Done?);
    } else if pc.MonDecide? {
      LevelBelowMax(cfg, j);
    }
  }

  lemma PcStands(cfg: Config, home: State, pc: Pc, j: nat, seen: seq<bool>)
    requires cfg.Valid() && PcSeen(cfg, home, pc, j, seen)
    ensures Stands(cfg, seen)
  {
    NothingSeen(cfg);
  }

  /** A step of the Monitor worker that is not its last. */
  lemma MonitorCallSees(s: Sys, o: Origin, j: nat, l: Label, seen: seq<bool>)
    requires At(s, o, j) && Watched(s, j, seen) && Moves(s, l) && s.state.StateMonitor?
    requires !s.workers[0].pc.End? && !s.workers[0].pc.EndError?
    ensures Watched(Exec(s, l), j, seen + Observed(s, l))
  {
    SoleStep(s, l);
    if j >= 1 { LevelPositive(s.cfg, j); }
    MonitorSees(s.cfg, s.traffic, j, s.workers[0].pc, l.reply, seen);
    assert seen + [] == seen;
  }

  /** A call of any other worker brings no check. */
  lemma OtherCallSees(s: Sys, o: Origin, j: nat, l: Label, seen: seq<bool>)
    requires At(s, o, j) && Watched(s, j, seen) && Moves(s, l) && !s.state.StateMonitor? && !s.workers[0].pc.End?
    ensures Watched(Exec(s, l), j, seen + Observed(s, l))
  {
    SoleStep(s, l);
    assert seen + [] == seen;
  }

  /** The step of the ramp a worker's step leads to. */
  function NextStep(s: Sys, j: nat): nat
    requires s.workers != []
  {
    if s.state.StateScale? && s.workers[0].pc.End? then j + 1 else j
  }

  /** The event a worker fires brings no check, and the worker it spawns knows what this one knew. */
  lemma EndSees(s: Sys, o: Origin, j: nat, n: Sys, kept: bool, seen: seq<bool>)
    requires At(s, o, j) && Watched(s, j, seen) && s.workers != [] && s.workers[0].pc.End?
    requires Entered(s, n, Target(s.state, s.workers[0].pc.event).value, s.workers[0].pc.arg, kept)
    ensures Watched(n, NextStep(s, j), seen)
  {
    PcStands(s.cfg, s.state, s.workers[0].pc, j, seen);
    NothingSeen(s.cfg);
  }

  lemma ErrorSees(s: Sys, o: Origin, j: nat, n: Sys, kept: bool, seen: seq<bool>)
    requires At(s, o, j) && Watched(s, j, seen) && s.workers != [] && s.workers[0].pc.EndError?
    requires Entered(s, n, StateFail, None, kept)
    ensures Watched(n, j, seen)
  {
    PcStands(s.cfg, s.state, s.workers[0].pc, j, seen);
  }

  lemma NoCheckSeen(s: Sys, l: Label, seen: seq<bool>)
    requires Moves(s, l) && !s.workers[l.worker].pc.MonCheck?
    ensures seen + Observed(s, l) == seen
  {
  }

  lemma MoveEnds(s: Sys, o: Origin, j: nat, l: Label, seen: seq<bool>)
    requires At(s, o, j) && Watched(s, j, seen) && Moves(s, l) && s.workers[0].pc.End?
    ensures Watched(Exec(s, l), NextStep(s, j), seen + Observed(s, l))
  {
    NoCheckSeen(s, l, seen);
    EndIs(s, l);
    EndSees(s, o, j, Exec(s, l), l.kept, seen);
  }

  lemma MoveErrs(s: Sys, o: Origin, j: nat, l: Label, seen: seq<bool>)
    requires At(s, o, j) && Watched(s, j, seen) && Moves(s, l) && s.workers[0].pc.EndError?
    ensures Watched(Exec(s, l), j, seen + Observed(s, l))
  {
    NoCheckSeen(s, l, seen);
    EndIs(s, l);
    ErrorSees(s, o, j, Exec(s, l), l.kept, seen);
  }

  lemma MoveSees(s: Sys, o: Origin, j: nat, l: Label, seen: seq<bool>)
    requires At(s, o, j) && Watched(s, j, seen) && Moves(s, l)
    ensures Watched(Exec(s, l), NextStep(s, j), seen + Observed(s, l))
  {
    if s.workers[0].pc.End? {
      MoveEnds(s, o, j, l, seen);
    } else if s.workers[0].pc.EndError? {
      MoveErrs(s, o, j, l, seen);
    } else if s.state.StateMonitor? {
      MonitorCallSees(s, o, j, l, seen);
    } else {
      OtherCallSees(s, o, j, l, seen);
    }
  }

  lemma IdleSees(s: Sys, j: nat, l: Label, seen: seq<bool>)
    requires Watched(s, j, seen) && Inner(l) && !Moves(s, l)
    ensures Watched(Exec(s, l), j, seen + Observed(s, l))
  {
    assert seen + [] == seen;
    assert l.UserDeploy? || Exec(s, l) == s;
  }

  lemma StepSees(s: Sys, o: Origin, j: nat, l: Label, seen: seq<bool>) returns (i: nat)
    requires At(s, o, j) && Watched(s, j, seen) && Inner(l)
    ensures At(Exec(s, l), o, i) && Watched(Exec(s, l), i, seen + Observed(s, l))
  {
    if Moves(s, l) {
      i := EffectiveStep(s, o, j, l);
      MoveSees(s, o, j, l, seen);
    } else {
      i := j;
      IdleStep(s, o, j, l);
      IdleSees(s, j, l, seen);
    }
  }

  lemma ChecksUnfold(s: Sys, ls: seq<Label>, seen: seq<bool>)
    requires ls != []
    ensures seen + Observed(s, ls[0]) + Checks(Exec(s, ls[0]), ls[1..]) == seen + Checks(s, ls)
  {
  }

  lemma ChecksNone(s: Sys, seen: seq<bool>)
    ensures seen + Checks(s, []) == seen
  {
  }

  lemma {:induction false} RunSees(s: Sys, o: Origin, j: nat, ls: seq<Label>, seen: seq<bool>) returns (i: nat)
    requires At(s, o, j) && Watched(s, j, seen) && InnerRun(ls)
    ensures At(Run(s, ls), o, i) && Watched(Run(s, ls), i, seen + Checks(s, ls))
    decreases |ls|
  {
    if ls == [] {
      i := j;
      ChecksNone(s, seen);
    } else {
      var m := StepSees(s, o, j, ls[0], seen);
      i := RunSees(Exec(s, ls[0]), o, m, ls[1..], seen + Observed(s, ls[0]));
      ChecksUnfold(s, ls, seen);
    }
  }

  /**
   Over every run of a rollout, whatever the other calls reply: the machine promotes
   only when the single pass over all checks seen completes at the last of them, and
   rolls back only when it fails there or a post-deployment test failed before the
   pass was decided; at most K * ErrorThreshold checks are made.
   */
  lemma RolloutDecidedByChecks(s: Sys, ls: seq<Label>)
    requires JustDeployed(s) && InnerRun(ls)
    ensures var n, seen := Run(s, ls), Checks(s, ls);
            && |seen| <= Rounds(s.cfg) * s.cfg.threshold
            && (n.state.StatePromote? ==> Cycle(s.cfg, -1, seen) == Completed(|seen|))
            && (n.state.StateRollback? ==>
                  Cycle(s.cfg, -1, seen) == RolledBack(|seen|) || (s.cfg.hasTest && Cycle(s.cfg, -1, seen).Waiting?))
            && (n.state.StateScale? ==> Cycle(s.cfg, -1, seen).Waiting?)
  {
    JustDeployedIsAt(s);
    NothingSeen(s.cfg);
    ConfigKept(s, ls);
    var j := RunSees(s, Origin(s.scales, |s.trace|), 0, ls, []);
    var n, seen := Run(s, ls), Checks(s, ls);
    assert [] + seen == seen;
    if n.workers != [] { PcStands(s.cfg, n.state, n.workers[0].pc, j, seen); } else { NothingSeen(s.cfg); }
    VerdictOfStream(s.cfg, seen);
    DecidedOnce(s.cfg, seen);
  }

  lemma DecidedOnce(cfg: Config, seen: seq<bool>)
    requires cfg.Valid()
    ensures Undecided(cfg, seen, Successes(seen), 0) ==> !Complete(cfg, seen) && !Failed(cfg, seen)
  {
    if Complete(cfg, seen) {
      EndsOnce(Rounds(cfg), cfg.threshold, seen, |seen|, |seen|);
    }
    if Failed(cfg, seen) {
      FailsOnce(Rounds(cfg), cfg.threshold, seen, |seen|, |seen|);
    }
  }
}
