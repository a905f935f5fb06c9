/** States, events and the transition table of a release, and its bounded history. */
module Fsm {
  import opened Prelude

  datatype State =
    | StateStart | StateConfigure | StateIdle | StateDeploy | StateMonitor
    | StateScale | StatePromote | StateRollback | StateFail | StateDestroy

  datatype Event =
    | EventConfigure | EventConfigured | EventDeploy | EventDeployed | EventHealthy | EventScaled
    | EventComplete | EventPromoted | EventUnhealthy | EventFail | EventDestroy

  /** The destination of an event, None when the table has no such transition. */
  function Target(s: State, e: Event): Option<State> {
    match e
    case EventConfigure =>
      if s.StateStart? || s.StateIdle? || s.StateFail? then Some(StateConfigure) else None
    case EventConfigured => if s.StateConfigure? then Some(StateIdle) else None
    case EventDeploy => if s.StateIdle? || s.StateFail? then Some(StateDeploy) else None
    case EventDeployed => if s.StateDeploy? then Some(StateMonitor) else None
    case EventHealthy => if s.StateMonitor? then Some(StateScale) else None
    case EventScaled => if s.StateScale? then Some(StateMonitor) else None
    case EventComplete =>
      if s.StateMonitor? then Some(StatePromote)
      else if s.StateDeploy? || s.StateRollback? || s.StateDestroy? then Some(StateIdle)
      else None
    case EventPromoted => if s.StatePromote? then Some(StateIdle) else None
    case EventUnhealthy => if s.StateMonitor? then Some(StateRollback) else None
    case EventFail => if s.StateFail? then None else Some(StateFail)
    case EventDestroy => if s.StateStart? || s.StateDestroy? then None else Some(StateDestroy)
  }

  /** A row of the transition table: an event, the states it is accepted in, and where it leads. */
  datatype Row = Row(event: Event, sources: set<State>, target: State)

  const TABLE: seq<Row> := [
    Row(EventConfigure, {StateStart, StateIdle, StateFail}, StateConfigure),
    Row(EventConfigured, {StateConfigure}, StateIdle),
    Row(EventDeploy, {StateIdle, StateFail}, StateDeploy),
    Row(EventDeployed, {StateDeploy}, StateMonitor),
    Row(EventHealthy, {StateMonitor}, StateScale),
    Row(EventScaled, {StateScale}, StateMonitor),
    Row(EventComplete, {StateMonitor}, StatePromote),
    Row(EventPromoted, {StatePromote}, StateIdle),
    Row(EventUnhealthy, {StateMonitor}, StateRollback),
    Row(EventComplete, {StateDeploy}, StateIdle),
    Row(EventComplete, {StateRollback}, StateIdle),
    Row(EventComplete, {StateDestroy}, StateIdle),
    Row(EventFail, {StateStart, StateConfigure, StateIdle, StateDeploy, StateMonitor, StateScale, StatePromote,
                    StateRollback, StateDestroy}, StateFail),
    Row(EventDestroy, {StateFail, StateIdle, StateConfigure, StateDeploy, StateMonitor, StateScale, StatePromote,
                       StateRollback}, StateDestroy)
  ]

  /** The row of an event that leads from `s`, if there is one. */
  function RowOf(s: State, e: Event): nat {
    match e
    case EventConfigure => 0
    case EventConfigured => 1
    case EventDeploy => 2
    case EventDeployed => 3
    case EventHealthy => 4
    case EventScaled => 5
    case EventComplete =>
      if s.StateMonitor? then 6 else if s.StateDeploy? then 9 else if s.StateRollback? then 10 else 11
    case EventPromoted => 7
    case EventUnhealthy => 8
    case EventFail => 12
    case EventDestroy => 13
  }

  lemma RowLeads(k: nat, s: State)
    requires k < |TABLE| && s in TABLE[k].sources
    ensures Target(s, TABLE[k].event) == Some(TABLE[k].target)
  {
  }

  lemma TargetHasRow(s: State, e: Event)
    requires Target(s, e).Some?
    ensures var k := RowOf(s, e);
            k < |TABLE| && TABLE[k].event == e && s in TABLE[k].sources && TABLE[k].target == Target(s, e).value
  {
  }

  /** The destinations are those of the table, and an event without a row from a state has none. */
  lemma TargetIsTable(s: State, e: Event, t: State)
    ensures Target(s, e) == Some(t) <==>
              exists k :: 0 <= k < |TABLE| && TABLE[k].event == e && s in TABLE[k].sources && TABLE[k].target == t
  {
    if Target(s, e) == Some(t) { TargetHasRow(s, e); }
    if k :| 0 <= k < |TABLE| && TABLE[k].event == e && s in TABLE[k].sources && TABLE[k].target == t { RowLeads(k, s); }
  }

  /** States in which no worker runs. */
  predicate Passive(s: State) {
    s.StateStart? || s.StateIdle? || s.StateFail?
  }

  const HISTORY_LIMIT: nat := 50

  /** The last `n` entries, or all of them when there are fewer. */
  function LastN(h: seq<State>, n: nat): seq<State> {
    if |h| > n then h[|h| - n..] else h
  }

  /** History after one more state, as Release.UpdateState keeps it. */
  function Remember(h: seq<State>, s: State): seq<State> {
    LastN(h + [s], HISTORY_LIMIT)
  }

  /** The state a machine built on this history starts in. */
  function Current(h: seq<State>): State {
    if h == [] then StateStart else h[|h| - 1]
  }
}
