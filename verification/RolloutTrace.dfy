/**
 One rollout, from an accepted Deploy with the strategy reset: every Scale call it
 makes, how many transitions and worker steps it takes, and how it ends.
 */
module RolloutTrace {
  import opened Prelude
  import opened Cluster
  import opened Fsm
  import opened Canary
  import opened Workers
  import opened Rollouts

  /** Scale calls of a rollout that took j steps: 0, the ramp, then `tail`. */
  function Log(base: seq<int>, cfg: Config, j: nat, tail: seq<int>): seq<int> {
    base + [0] + Ramp(cfg, j) + tail
  }

  lemma LogNext(base: seq<int>, cfg: Config, j: nat, scales: seq<int>, level: int)
    requires scales == Log(base, cfg, j, []) && level == Level(cfg, j + 1)
    ensures scales + [level] == Log(base, cfg, j + 1, [])
  {
  }

  lemma LogGrows(base: seq<int>, cfg: Config, j: nat, x: int)
    ensures Log(base, cfg, j, []) + [Level(cfg, j + 1)] == Log(base, cfg, j + 1, [])
    ensures Log(base, cfg, j, []) + [x] == Log(base, cfg, j, [x])
    ensures Log(base, cfg, j, [100]) + [0] == Log(base, cfg, j, [100, 0])
    ensures base + [0] == Log(base, cfg, 0, [])
  {
    assert [100] + [0] == [100, 0];
  }

  /** A rollout in progress: `base` and `n0` are the Scale log and trace length when Deploy was accepted. */
  datatype Origin = Origin(base: seq<int>, n0: nat)

  predicate InDeploy(s: Sys, o: Origin, pc: Pc) {
    && s.traffic == -1
    && match pc
       case Init(_, _) => s.scales == o.base
       case DepWait(_) => s.scales == o.base
       case DepScale(_) => s.scales == o.base
       case Remove(_, _) => s.scales == Log(o.base, s.cfg, 0, [])
       case End(e, _) =>
         s.scales == Log(o.base, s.cfg, 0, []) || (e.EventFail? && s.scales == o.base)
       case _ => false
  }

  predicate InMonitor(s: Sys, o: Origin, j: nat, pc: Pc)
    requires s.cfg.Valid()
  {
    && s.scales == Log(o.base, s.cfg, j, []) && j <= Rounds(s.cfg)
    && match pc
       case MonDecide => j >= 1 && s.traffic == Level(s.cfg, j + 1)
       case MonCheck(f) => j >= 1 && s.traffic == Level(s.cfg, j) && f < s.cfg.threshold
       case End(e, arg) =>
         && (e.EventHealthy? ==> arg == Some(s.traffic) && s.traffic == Level(s.cfg, j + 1) && j < Rounds(s.cfg))
         && (e.EventComplete? ==> j == Rounds(s.cfg) && s.traffic == -1)
       case EndError => true
       case _ => if j == 0 then s.traffic == -1 else s.traffic == Level(s.cfg, j)
  }

  predicate InScale(s: Sys, o: Origin, j: nat, pc: Pc)
    requires s.cfg.Valid()
  {
    && j < Rounds(s.cfg) && s.traffic == Level(s.cfg, j + 1)
    && match pc
       case ScaleTo(t) => t == s.traffic && s.scales == Log(o.base, s.cfg, j, [])
       case _ => s.scales == Log(o.base, s.cfg, j + 1, [])
  }

  predicate InPromote(s: Sys, o: Origin, j: nat, pc: Pc)
    requires s.cfg.Valid()
  {
    && j == Rounds(s.cfg) && s.traffic == -1
    && match pc
       case ProScale => s.scales == Log(o.base, s.cfg, j, [])
       case Remove(_, _) => s.scales == Log(o.base, s.cfg, j, [100, 0])
       case End(e, _) =>
         s.scales == Log(o.base, s.cfg, j, [100, 0]) || (e.EventFail? && s.scales == Log(o.base, s.cfg, j, [100]))
       case _ => s.scales == Log(o.base, s.cfg, j, [100])
  }

  predicate InRollback(s: Sys, o: Origin, j: nat, pc: Pc)
    requires s.cfg.Valid()
  {
    && j <= Rounds(s.cfg)
    && match pc
       case RbkScale => s.scales == Log(o.base, s.cfg, j, [])
       case _ => s.scales == Log(o.base, s.cfg, j, [0])
  }

  /** Ended in Idle, having entered it from `before`. */
  predicate InIdle(s: Sys, o: Origin, j: nat, before: State)
    requires s.cfg.Valid()
  {
    && j <= Rounds(s.cfg)
    && match before
       case StatePromote =>
         && |s.trace| == o.n0 + 2 * j + 3 && j == Rounds(s.cfg)
         && s.traffic == -1 && s.scales == Log(o.base, s.cfg, j, [100, 0])
       case StateRollback => |s.trace| == o.n0 + 2 * j + 3 && s.scales == Log(o.base, s.cfg, j, [0])
       case StateDeploy => |s.trace| == o.n0 + 1 && j == 0 && s.scales == Log(o.base, s.cfg, 0, [])
       case _ => false
  }

  predicate InFail(s: Sys, o: Origin, j: nat)
    requires s.cfg.Valid()
  {
    && j <= Rounds(s.cfg) && |s.trace| <= o.n0 + 2 * j + 3
    && (|| s.scales == o.base
        || s.scales == Log(o.base, s.cfg, j, [])
        || s.scales == Log(o.base, s.cfg, j, [0])
        || (j == Rounds(s.cfg) && s.scales == Log(o.base, s.cfg, j, [100]))
        || (j == Rounds(s.cfg) && s.scales == Log(o.base, s.cfg, j, [100, 0])))
  }

  /** After j completed steps of the rollout that began at `o`. */
  predicate At(s: Sys, o: Origin, j: nat) {
    && Staffed(s) && s.cfg.Valid() && |s.trace| >= 2 && s.trace[|s.trace| - 1] == s.state
    && match s.state
       case StateDeploy => |s.trace| == o.n0 && j == 0 && InDeploy(s, o, s.workers[0].pc)
       case StateMonitor => |s.trace| == o.n0 + 2 * j + 1 && InMonitor(s, o, j, s.workers[0].pc)
       case StateScale => |s.trace| == o.n0 + 2 * j + 2 && InScale(s, o, j, s.workers[0].pc)
       case StatePromote => |s.trace| == o.n0 + 2 * j + 2 && InPromote(s, o, j, s.workers[0].pc)
       case StateRollback => |s.trace| == o.n0 + 2 * j + 2 && InRollback(s, o, j, s.workers[0].pc)
       case StateIdle => InIdle(s, o, j, s.trace[|s.trace| - 2])
       case StateFail => InFail(s, o, j)
       case _ => false
  }

  /** Worker steps left, at most: a bound that every effective step lowers. */
  function Left(s: Sys, j: nat): int
    requires s.cfg.Valid()
  {
    if s.workers == [] then 0 else
    var k := Rounds(s.cfg) - j;
    var t := s.cfg.threshold;
    var round := t + 6;
    match s.workers[0].pc
    case Init(_, InitLookup) => (k + 1) * round + 17
    case Init(_, InitSelect) => (k + 1) * round + 16
    case Init(_, InitClone(_)) => (k + 1) * round + 15
    case Init(_, InitHealth) => (k + 1) * round + 14
    case DepWait(_) => (k + 1) * round + 13
    case DepScale(_) => (k + 1) * round + 12
    case MonTest => k * round + t + 16
    case MonExecute => k * round + t + 15
    case MonCheck(f) => k * round + t + 14 - f
    case MonDecide => k * round + 14
    case EndError => 1
    case ScaleTo(_) => k * round + 12
    case ProScale => 10
    case Promote(PromoteHealth) => 9
    case Promote(PromoteDelete(_)) => 8
    case Promote(PromoteClone(_)) => 7
    case Promote(PromoteReady) => 6
    case ProWait => 5
    case ProDrain => 4
    case RbkScale => 4
    case Remove(_, RemoveGet) => 3
    case Remove(_, RemoveUpdate(_)) => 2
    case End(e, _) =>
      if e.EventDeployed? then (k + 1) * round + 11
      else if s.state.StateMonitor? then k * round + 13
      else if e.EventScaled? then k * round + 11
      else 1
    case _ => 0
  }

  /** A worker's step or a deployment by the user. */
  predicate Inner(l: Label) {
    l.Work? || l.UserDeploy?
  }

  lemma RoundPositive(cfg: Config, k: int)
    requires cfg.Valid()
    ensures (k + 1) * (cfg.threshold + 6) == k * (cfg.threshold + 6) + cfg.threshold + 6
    ensures k >= 0 ==> k * (cfg.threshold + 6) >= 0
  {
  }

  lemma DeployCall(s: Sys, o: Origin, n: Sys, l: Label)
    requires At(s, o, 0) && s.state.StateDeploy? && Called(s, n, l)
    ensures At(n, o, 0) && 0 <= Left(n, 0) < Left(s, 0)
  {
    LogGrows(o.base, s.cfg, 0, 0);
    RoundPositive(s.cfg, Rounds(s.cfg));
  }

  lemma DeployEnd(s: Sys, o: Origin, n: Sys, kept: bool)
    requires At(s, o, 0) && s.state.StateDeploy? && s.workers[0].pc.End?
    requires Entered(s, n, Target(s.state, s.workers[0].pc.event).value, s.workers[0].pc.arg, kept)
    ensures At(n, o, 0) && 0 <= Left(n, 0) < Left(s, 0)
  {
    RoundPositive(s.cfg, Rounds(s.cfg));
  }

  lemma MonitorCall(s: Sys, o: Origin, j: nat, n: Sys, l: Label)
    requires At(s, o, j) && s.state.StateMonitor? && Called(s, n, l)
    ensures At(n, o, j) && 0 <= Left(n, j) < Left(s, j)
  {
    RoundPositive(s.cfg, Rounds(s.cfg) - j);
    assert Level(s.cfg, 1) == First(s.cfg);
    if j >= 1 { LevelBelowMax(s.cfg, j); LevelPositive(s.cfg, j); }
  }

  lemma MonitorEnd(s: Sys, o: Origin, j: nat, n: Sys, kept: bool)
    requires At(s, o, j) && s.state.StateMonitor? && s.workers[0].pc.End?
    requires Entered(s, n, Target(s.state, s.workers[0].pc.event).value, s.workers[0].pc.arg, kept)
    ensures At(n, o, j) && 0 <= Left(n, j) < Left(s, j)
  {
    RoundPositive(s.cfg, Rounds(s.cfg) - j);
  }

  lemma MonitorError(s: Sys, o: Origin, j: nat, n: Sys, kept: bool)
    requires At(s, o, j) && s.state.StateMonitor? && s.workers[0].pc.EndError? && Entered(s, n, StateFail, None, kept)
    ensures At(n, o, j) && 0 <= Left(n, j) < Left(s, j)
  {
  }

  lemma ScaleCall(s: Sys, o: Origin, j: nat, n: Sys, l: Label)
    requires At(s, o, j) && s.state.StateScale? && Called(s, n, l)
    ensures At(n, o, j) && 0 <= Left(n, j) < Left(s, j)
  {
    ScaleCallIs(s, o, j, n, l);
    ScaledIsAt(n, o, j);
    ScaleCallLowers(s, o, j, n, l);
  }

  /** A Scale worker whose call was answered, as seen from the state alone. */
  predicate Scaled(n: Sys, o: Origin, j: nat) {
    && Staffed(n) && n.cfg.Valid() && n.state.StateScale? && n.workers[0].pc.End?
    && |n.trace| == o.n0 + 2 * j + 2 && |n.trace| >= 2 && n.trace[|n.trace| - 1] == StateScale
    && j < Rounds(n.cfg) && n.traffic == Level(n.cfg, j + 1) && n.scales == Log(o.base, n.cfg, j + 1, [])
  }

  lemma ScaledIsAt(n: Sys, o: Origin, j: nat)
    requires Scaled(n, o, j)
    ensures At(n, o, j)
  {
  }

  predicate AtScaleTo(s: Sys, o: Origin, j: nat) {
    && s.cfg.Valid() && j < Rounds(s.cfg) && s.traffic == Level(s.cfg, j + 1) && s.scales == Log(o.base, s.cfg, j, [])
    && |s.trace| == o.n0 + 2 * j + 2 && |s.trace| >= 2 && s.trace[|s.trace| - 1] == StateScale
  }

  /** A Scale worker about to call, as seen from its counter alone. */
  lemma AboutToScale(s: Sys, o: Origin, j: nat)
    requires At(s, o, j) && s.state.StateScale? && !s.workers[0].pc.End?
    ensures s.workers == [Worker(StateScale, ScaleTo(s.traffic))]
    ensures AtScaleTo(s, o, j)
  {
    assert s.workers == [s.workers[0]];
  }

  lemma ScaleAnswered(s: Sys, n: Sys, l: Label, t: int)
    requires s.workers == [Worker(StateScale, ScaleTo(t))] && s.state.StateScale? && Called(s, n, l)
    ensures n.workers == [Worker(StateScale, if l.reply.Done? then End(EventScaled, None) else FAILING)]
    ensures Answered(s, n, t)
  {
  }

  predicate Answered(s: Sys, n: Sys, t: int) {
    && n.scales == s.scales + [t] && n.traffic == s.traffic && n.state.StateScale? && Staffed(n)
    && n.cfg == s.cfg && n.trace == s.trace && n.workers != [] && n.workers[0].pc.End?
  }

  lemma AnsweredIsScaled(s: Sys, o: Origin, j: nat, n: Sys)
    requires AtScaleTo(s, o, j) && Answered(s, n, s.traffic)
    ensures Scaled(n, o, j)
  {
    LogNext(o.base, s.cfg, j, s.scales, s.traffic);
  }

  /** The Scale worker's only call adds the next step of the ramp to the log. */
  lemma ScaleCallIs(s: Sys, o: Origin, j: nat, n: Sys, l: Label)
    requires At(s, o, j) && s.state.StateScale? && Called(s, n, l)
    ensures Scaled(n, o, j)
    ensures s.workers[0].pc.ScaleTo?
    ensures n.workers == [Worker(StateScale, if l.reply.Done? then End(EventScaled, None) else FAILING)]
  {
    AboutToScale(s, o, j);
    ScaleAnswered(s, n, l, s.traffic);
    AnsweredIsScaled(s, o, j, n);
  }

  lemma ScaleCallLowers(s: Sys, o: Origin, j: nat, n: Sys, l: Label)
    requires s.cfg.Valid() && n.cfg == s.cfg && n.state.StateScale? && j <= Rounds(s.cfg)
    requires s.workers != [] && s.workers[0].pc.ScaleTo? && l.Work?
    requires n.workers == [Worker(StateScale, if l.reply.Done? then End(EventScaled, None) else FAILING)]
    ensures 0 <= Left(n, j) < Left(s, j)
  {
    RoundPositive(s.cfg, Rounds(s.cfg) - j);
  }

  lemma ScaleEnd(s: Sys, o: Origin, j: nat, n: Sys, kept: bool)
    requires At(s, o, j) && s.state.StateScale? && s.workers[0].pc.End?
    requires Entered(s, n, Target(s.state, s.workers[0].pc.event).value, s.workers[0].pc.arg, kept)
    ensures At(n, o, j + 1) && 0 <= Left(n, j + 1) < Left(s, j)
  {
    RoundPositive(s.cfg, Rounds(s.cfg) - j - 1);
  }

  lemma PromoteCall(s: Sys, o: Origin, j: nat, n: Sys, l: Label)
    requires At(s, o, j) && s.state.StatePromote? && Called(s, n, l)
    ensures At(n, o, j) && 0 <= Left(n, j) < Left(s, j)
  {
    if s.workers[0].pc.Promote? { PromoteInside(s, o, j, n, l); } else { PromoteOutside(s, o, j, n, l); }
  }

  /** A call of PromoteCandidate makes no Scale call. */
  lemma PromoteInside(s: Sys, o: Origin, j: nat, n: Sys, l: Label)
    requires At(s, o, j) && s.state.StatePromote? && Called(s, n, l) && s.workers[0].pc.Promote?
    ensures At(n, o, j) && 0 <= Left(n, j) < Left(s, j)
  {
  }

  lemma PromoteOutside(s: Sys, o: Origin, j: nat, n: Sys, l: Label)
    requires At(s, o, j) && s.state.StatePromote? && Called(s, n, l) && !s.workers[0].pc.Promote?
    ensures At(n, o, j) && 0 <= Left(n, j) < Left(s, j)
  {
    LogGrows(o.base, s.cfg, j, 100);
  }

  lemma PromoteEnd(s: Sys, o: Origin, j: nat, n: Sys, kept: bool)
    requires At(s, o, j) && s.state.StatePromote? && s.workers[0].pc.End?
    requires Entered(s, n, Target(s.state, s.workers[0].pc.event).value, s.workers[0].pc.arg, kept)
    ensures At(n, o, j) && 0 <= Left(n, j) < Left(s, j)
  {
  }

  lemma RollbackCall(s: Sys, o: Origin, j: nat, n: Sys, l: Label)
    requires At(s, o, j) && s.state.StateRollback? && Called(s, n, l)
    ensures At(n, o, j) && 0 <= Left(n, j) < Left(s, j)
  {
    LogGrows(o.base, s.cfg, j, 0);
  }

  lemma RollbackEnd(s: Sys, o: Origin, j: nat, n: Sys, kept: bool)
    requires At(s, o, j) && s.state.StateRollback? && s.workers[0].pc.End?
    requires Entered(s, n, Target(s.state, s.workers[0].pc.event).value, s.workers[0].pc.arg, kept)
    ensures At(n, o, j) && 0 <= Left(n, j) < Left(s, j)
  {
  }

  lemma CallStep(s: Sys, o: Origin, j: nat, n: Sys, l: Label)
    requires At(s, o, j) && Called(s, n, l)
    ensures At(n, o, j) && 0 <= Left(n, j) < Left(s, j)
  {
    match s.state
    case StateDeploy => DeployCall(s, o, n, l);
    case StateMonitor => MonitorCall(s, o, j, n, l);
    case StateScale => ScaleCall(s, o, j, n, l);
    case StatePromote => PromoteCall(s, o, j, n, l);
    case StateRollback => RollbackCall(s, o, j, n, l);
  }

  lemma EndStep(s: Sys, o: Origin, j: nat, n: Sys, kept: bool)
    requires At(s, o, j) && s.workers != [] && s.workers[0].pc.End?
    requires Entered(s, n, Target(s.state, s.workers[0].pc.event).value, s.workers[0].pc.arg, kept)
    ensures var i := if s.state.StateScale? then j + 1 else j;
            At(n, o, i) && 0 <= Left(n, i) < Left(s, j)
  {
    match s.state
    case StateDeploy => DeployEnd(s, o, n, kept);
    case StateMonitor => MonitorEnd(s, o, j, n, kept);
    case StateScale => ScaleEnd(s, o, j, n, kept);
    case StatePromote => PromoteEnd(s, o, j, n, kept);
    case StateRollback => RollbackEnd(s, o, j, n, kept);
  }

  lemma EffectiveStep(s: Sys, o: Origin, j: nat, l: Label) returns (i: nat)
    requires At(s, o, j) && Moves(s, l)
    ensures At(Exec(s, l), o, i) && 0 <= Left(Exec(s, l), i) < Left(s, j)
    ensures i == if s.state.StateScale? && s.workers[0].pc.End? then j + 1 else j
  {
    var pc := s.workers[0].pc;
    i := if s.state.StateScale? && pc.End? then j + 1 else j;
    if pc.End? {
      EndIs(s, l);
      EndStep(s, o, j, Exec(s, l), l.kept);
    } else if pc.EndError? {
      EndIs(s, l);
      MonitorError(s, o, j, Exec(s, l), l.kept);
    } else {
      CallIs(s, l);
      CallStep(s, o, j, Exec(s, l), l);
    }
  }

  lemma WorldIsIdle(s: Sys, o: Origin, j: nat, n: Sys)
    requires At(s, o, j) && n == s.(world := n.world)
    ensures At(n, o, j) && Left(n, j) == Left(s, j)
  {
  }

  lemma IdleStep(s: Sys, o: Origin, j: nat, l: Label)
    requires At(s, o, j) && Inner(l) && !Moves(s, l)
    ensures At(Exec(s, l), o, j) && Left(Exec(s, l), j) == Left(s, j)
  {
    OnlyWorld(s, l);
    WorldIsIdle(s, o, j, Exec(s, l));
  }

  lemma OnlyWorld(s: Sys, l: Label)
    requires Inner(l) && !Moves(s, l)
    ensures Exec(s, l) == s.(world := Exec(s, l).world)
  {
  }

  /** One label: still on plan, and an effective step lowers the bound. */
  lemma RolloutStep(s: Sys, o: Origin, j: nat, l: Label) returns (i: nat)
    requires At(s, o, j) && Inner(l) && 0 <= Left(s, j)
    ensures At(Exec(s, l), o, i)
    ensures 0 <= Left(Exec(s, l), i) <= Left(s, j) - Cost(s, l)
  {
    if Moves(s, l) {
      i := EffectiveStep(s, o, j, l);
    } else {
      IdleStep(s, o, j, l);
      i := j;
    }
  }

  /** The machine has just accepted a Deploy with the strategy reset. */
  predicate JustDeployed(s: Sys) {
    && s.cfg.Valid() && s.state.StateDeploy? && s.traffic == -1
    && |s.trace| >= 2 && s.trace[|s.trace| - 1] == StateDeploy
    && s.workers == [Worker(StateDeploy, Init(ByDeploy, InitLookup))]
  }

  function Cost(s: Sys, l: Label): nat {
    if Moves(s, l) then 1 else 0
  }

  /** The number of worker steps of a run that did something. */
  function Steps(s: Sys, ls: seq<Label>): nat
    decreases |ls|
  {
    if ls == [] then 0 else Cost(s, ls[0]) + Steps(Exec(s, ls[0]), ls[1..])
  }

  predicate InnerRun(ls: seq<Label>) {
    forall k :: 0 <= k < |ls| ==> Inner(ls[k])
  }

  lemma {:induction false} RolloutRun(s: Sys, o: Origin, j: nat, ls: seq<Label>) returns (i: nat)
    requires At(s, o, j) && 0 <= Left(s, j) && InnerRun(ls)
    ensures At(Run(s, ls), o, i)
    ensures 0 <= Left(Run(s, ls), i) <= Left(s, j) - Steps(s, ls)
    decreases |ls|
  {
    if ls == [] {
      i := j;
    } else {
      var m := RolloutStep(s, o, j, ls[0]);
      i := RolloutRun(Exec(s, ls[0]), o, m, ls[1..]);
    }
  }

  /** The Scale calls a rollout in any state can have made. */
  predicate OnPlan(base: seq<int>, cfg: Config, i: nat, tail: seq<int>, scales: seq<int>)
    requires cfg.Valid()
  {
    && i <= Rounds(cfg)
    && (tail == [] || tail == [0] || (i == Rounds(cfg) && (tail == [100] || tail == [100, 0])))
    && (scales == base || scales == Log(base, cfg, i, tail))
  }

  lemma AtIsOnPlan(s: Sys, o: Origin, j: nat) returns (i: nat, tail: seq<int>)
    requires At(s, o, j)
    ensures OnPlan(o.base, s.cfg, i, tail, s.scales)
    ensures |s.trace| <= o.n0 + 2 * Rounds(s.cfg) + 3
  {
    i := if s.scales == Log(o.base, s.cfg, j, []) || s.state.StateMonitor? || s.state.StateRollback?
            || s.state.StatePromote? || s.state.StateIdle? || s.state.StateFail? then j else j + 1;
    if s.state.StateDeploy? { i := 0; }
    tail := if s.scales == Log(o.base, s.cfg, i, [0]) then [0]
            else if s.scales == Log(o.base, s.cfg, i, [100]) then [100]
            else if s.scales == Log(o.base, s.cfg, i, [100, 0]) then [100, 0] else [];
    var r := Log(o.base, s.cfg, i, []);
    assert Log(o.base, s.cfg, i, [0]) == r + [0] && Log(o.base, s.cfg, i, [100]) == r + [100]
        && Log(o.base, s.cfg, i, [100, 0]) == r + [100, 0];
  }

  lemma JustDeployedIsAt(s: Sys)
    requires JustDeployed(s)
    ensures At(s, Origin(s.scales, |s.trace|), 0)
    ensures Left(s, 0) == (Rounds(s.cfg) + 1) * (s.cfg.threshold + 6) + 17 >= 0
  {
    RoundPositive(s.cfg, Rounds(s.cfg));
  }

  /**
   From an accepted Deploy with the strategy reset, whatever the calls reply and
   whenever the user deploys: the Scale calls so far are none, or 0, the first i
   steps of the ramp, and then nothing, 0, 100, or 100 and 0, the last two only
   after all K steps. The rollout takes at most 2K+3 transitions.
   */
  lemma RolloutFollowsPlan(s: Sys, ls: seq<Label>) returns (i: nat, tail: seq<int>)
    requires JustDeployed(s) && InnerRun(ls)
    ensures OnPlan(s.scales, s.cfg, i, tail, Run(s, ls).scales)
    ensures |Run(s, ls).trace| <= |s.trace| + 2 * Rounds(s.cfg) + 3
  {
    JustDeployedIsAt(s);
    ConfigKept(s, ls);
    var j := RolloutRun(s, Origin(s.scales, |s.trace|), 0, ls);
    i, tail := AtIsOnPlan(Run(s, ls), Origin(s.scales, |s.trace|), j);
  }

  /** A rollout that came to Idle through Promote scaled to exactly 0, every step of the ramp, 100 and 0. */
  lemma PromotedScalesExactly(s: Sys, ls: seq<Label>)
    requires JustDeployed(s) && InnerRun(ls)
    requires Run(s, ls).state == StateIdle && |Run(s, ls).trace| >= 2
    requires Run(s, ls).trace[|Run(s, ls).trace| - 2] == StatePromote
    ensures Run(s, ls).scales == s.scales + [0] + Ramp(s.cfg, Rounds(s.cfg)) + [100, 0]
    ensures |Run(s, ls).trace| == |s.trace| + 2 * Rounds(s.cfg) + 3
    ensures Run(s, ls).traffic == -1
  {
    JustDeployedIsAt(s);
    ConfigKept(s, ls);
    var j := RolloutRun(s, Origin(s.scales, |s.trace|), 0, ls);
  }

  /** The Scale calls after `base`: 0, then the first traffic and k - 1 more steps, 100 and 0. */
  predicate ScalesTo(base: seq<int>, log: seq<int>, first: int, step: int, k: nat) {
    && |log| == |base| + k + 3 && log[..|base|] == base
    && log[|base|] == 0
    && (forall m :: 0 <= m < k ==> log[|base| + 1 + m] == first + m * step)
    && log[|base| + k + 1] == 100 && log[|base| + k + 2] == 0
  }

  lemma {:induction false} RampIsWritten(cfg: Config, n: nat, m: nat)
    requires m < n
    ensures Ramp(cfg, n)[m] == First(cfg) + m * cfg.step
  {
    if m < n - 1 { RampIsWritten(cfg, n - 1, m); }
  }

  /**
   The same, written out: a promoted rollout scales to 0, to InitialTraffic (TrafficStep
   if that is 0) and up by TrafficStep k times in all, to 100 and to 0, where k is the
   least number of steps, at least one, that bring the traffic to MaxTraffic.
   */
  lemma PromotedLog(s: Sys, ls: seq<Label>) returns (k: nat)
    requires JustDeployed(s) && InnerRun(ls)
    requires Run(s, ls).state == StateIdle && |Run(s, ls).trace| >= 2
    requires Run(s, ls).trace[|Run(s, ls).trace| - 2] == StatePromote
    ensures var first := if s.cfg.initial == 0 then s.cfg.step else s.cfg.initial;
            && k >= 1 && ScalesTo(s.scales, Run(s, ls).scales, first, s.cfg.step, k)
            && first + k * s.cfg.step >= s.cfg.max
            && forall m :: 1 <= m < k ==> first + m * s.cfg.step < s.cfg.max
  {
    PromotedScalesExactly(s, ls);
    k := Rounds(s.cfg);
    var log := s.scales + [0] + Ramp(s.cfg, k) + [100, 0];
    forall m | 0 <= m < k ensures log[|s.scales| + 1 + m] == First(s.cfg) + m * s.cfg.step {
      RampIsWritten(s.cfg, k, m);
    }
    RoundsIsLeast(s.cfg, 0);
    forall m | 1 <= m < k ensures First(s.cfg) + m * s.cfg.step < s.cfg.max { RoundsIsLeast(s.cfg, m); }
  }

  /**
   A rollout takes at most (K+1)(T+6)+17 worker steps, and one in which no reply
   moves a worker any more has ended in Idle or Fail.
   */
  lemma RolloutEnds(s: Sys, ls: seq<Label>)
    requires JustDeployed(s) && InnerRun(ls)
    ensures Steps(s, ls) <= (Rounds(s.cfg) + 1) * (s.cfg.threshold + 6) + 17
    ensures (forall l :: !Moves(Run(s, ls), l)) ==> Run(s, ls).state == StateIdle || Run(s, ls).state == StateFail
  {
    JustDeployedIsAt(s);
    ConfigKept(s, ls);
    var j := RolloutRun(s, Origin(s.scales, |s.trace|), 0, ls);
    var n := Run(s, ls);
    if n.workers != [] {
      var r := if RequestOf(n.workers[0].pc).Internal? then Done else Err;
      assert Moves(n, Work(0, r, true, true));
    }
  }
}
