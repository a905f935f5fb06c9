/** The persisted release and the machine agree: the stored history is the recent past. */
module History {
  import opened Prelude
  import opened Fsm
  import opened Rollouts

  predicate Kept(l: Label) {
    match l
    case UserDeploy(_) => true
    case Configure(kept) => kept
    case Deploy(kept) => kept
    case Destroy(kept) => kept
    case Work(_, _, kept, _) => kept
    case Reload(_, kept, _) => kept
  }

  predicate Faithful(s: Sys) {
    && s.stored == s.history == LastN(s.trace, HISTORY_LIMIT)
    && Current(s.trace) == s.state
  }

  lemma RememberIsSuffix(trace: seq<State>, t: State)
    ensures Remember(LastN(trace, HISTORY_LIMIT), t) == LastN(trace + [t], HISTORY_LIMIT)
    ensures Current(LastN(trace, HISTORY_LIMIT)) == Current(trace)
  {
  }

  lemma EnterIsFaithful(s: Sys, t: State, arg: Option<int>)
    requires s.stored == s.history == LastN(s.trace, HISTORY_LIMIT)
    ensures Faithful(Enter(s, t, arg, true))
  {
    RememberIsSuffix(s.trace, t);
  }

  lemma FireIsFaithful(s: Sys, e: Event, arg: Option<int>)
    requires Faithful(s)
    ensures Faithful(Fire(s, e, arg, true))
  {
    if Target(s.state, e).Some? { EnterIsFaithful(s, Target(s.state, e).value, arg); }
  }

  lemma StepIsFaithful(s: Sys, l: Label)
    requires Faithful(s) && Kept(l)
    ensures Faithful(Exec(s, l))
  {
    match l
    case Configure(_) => FireIsFaithful(s, EventConfigure, None);
    case Deploy(_) => FireIsFaithful(s, EventDeploy, None);
    case Destroy(_) => FireIsFaithful(s, EventDestroy, None);
    case UserDeploy(_) =>
    case Work(i, r, _, _) =>
      if i < |s.workers| {
        var pc := s.workers[i].pc;
        var n := s.(workers := Without(s.workers, i));
        if pc.End? {
          FireIsFaithful(n, pc.event, pc.arg);
        } else if pc.EndError? {
          FireIsFaithful(n, EventFail, None);
          FireIsFaithful(Fire(n, EventFail, None, true), EventUnhealthy, None);
        }
      }
    case Reload(resume, _, loaded) =>
      RememberIsSuffix(s.trace, s.state);
      EnterIsFaithful(Restart(s, loaded).(state := StateDeploy), StateMonitor, None);
  }

  /**
   While history writes succeed, after every run, also one with several workers
   and with reloads, the stored history is the last 50 states entered and its last
   entry is the machine's state, so a machine built on it starts there.
   */
  lemma {:induction false} StoredIsRecentPast(s: Sys, ls: seq<Label>)
    requires Faithful(s) && forall k :: 0 <= k < |ls| ==> Kept(ls[k])
    ensures Faithful(Run(s, ls)) && |Run(s, ls).stored| <= 50
    ensures var trace := Run(s, ls).trace;
            && Run(s, ls).stored == (if |trace| > 50 then trace[|trace| - 50..] else trace)
            && Run(s, ls).state == if trace == [] then StateStart else trace[|trace| - 1]
    ensures forall loaded :: Exec(Run(s, ls), Reload(false, true, loaded)).state == Run(s, ls).state
    decreases |ls|
  {
    if ls != [] {
      StepIsFaithful(s, ls[0]);
      StoredIsRecentPast(Exec(s, ls[0]), ls[1..]);
    } else {
      RememberIsSuffix(s.trace, s.state);
    }
  }
}
