/** Which version the primary runs, over any run, and what a rollback and a restore give back. */
module Versions {
  import opened Prelude
  import opened Cluster
  import opened Fsm
  import opened Workers
  import opened Rollouts

  /** The label is a clone of the candidate into the primary that takes effect. */
  predicate ClonesPrimary(s: Sys, l: Label) {
    && l.Work? && l.worker < |s.workers|
    && var req := RequestOf(s.workers[l.worker].pc);
       req.Clone? && req.target.Primary? && Legal(req, s.world, l.reply) && (l.reply.Done? || l.reply.Lost?)
  }

  /** The version last cloned into the primary along a run, starting from `v`. */
  function LastCloned(s: Sys, ls: seq<Label>, v: Option<string>): Option<string>
    decreases |ls|
  {
    if ls == [] then v
    else
      LastCloned(Exec(s, ls[0]), ls[1..],
                 if ClonesPrimary(s, ls[0]) && s.world.candidate.Some? then Some(s.world.candidate.value.spec) else v)
  }

  predicate Recorded(w: World, v: Option<string>) {
    w.primary.Some? ==> v == Some(w.primary.value.spec)
  }

  lemma StepRecords(s: Sys, l: Label, v: Option<string>)
    requires Recorded(s.world, v)
    ensures Recorded(Exec(s, l).world,
                     if ClonesPrimary(s, l) && s.world.candidate.Some? then Some(s.world.candidate.value.spec) else v)
  {
    if l.Work? && l.worker < |s.workers| {
      var pc := s.workers[l.worker].pc;
      if Legal(RequestOf(pc), s.world, l.reply) {
        if pc.End? || pc.EndError? {
          assert Exec(s, l).world == s.world;
        } else {
          assert Exec(s, l).world == Apply(RequestOf(pc), s.world, l.reply);
        }
      }
    }
  }

  /**
   Over any run at all, also with several live workers, the primary's spec is the
   version last cloned into it.
   */
  lemma {:induction false} PrimaryRunsLastCloned(s: Sys, ls: seq<Label>, v: Option<string>)
    requires Recorded(s.world, v)
    ensures Recorded(Run(s, ls).world, LastCloned(s, ls, v))
    decreases |ls|
  {
    if ls != [] {
      StepRecords(s, ls[0], v);
      PrimaryRunsLastCloned(Exec(s, ls[0]), ls[1..],
        if ClonesPrimary(s, ls[0]) && s.world.candidate.Some? then Some(s.world.candidate.value.spec) else v);
    }
  }

  // ---- The ownership label ----

  /** A primary that exists carries the ownership label. */
  predicate Owned(w: World) {
    w.primary.Some? ==>
      && "consul-release-controller-version" in w.primary.value.meta
      && w.primary.value.meta["consul-release-controller-version"] == "1"
  }

  lemma StepOwns(s: Sys, l: Label)
    requires Owned(s.world)
    ensures Owned(Exec(s, l).world)
  {
    if l.Work? && l.worker < |s.workers| {
      var pc := s.workers[l.worker].pc;
      if Legal(RequestOf(pc), s.world, l.reply) && !pc.End? && !pc.EndError? {
        assert Exec(s, l).world == Apply(RequestOf(pc), s.world, l.reply);
      }
    }
  }

  /** Over every run at all, with any number of workers, a primary that exists carries the label "1". */
  lemma {:induction false} PrimaryIsOwned(s: Sys, ls: seq<Label>)
    requires Owned(s.world)
    ensures Owned(Run(s, ls).world)
    decreases |ls|
  {
    if ls != [] {
      StepOwns(s, ls[0]);
      PrimaryIsOwned(Exec(s, ls[0]), ls[1..]);
    }
  }

  /** In particular from a fresh release, which has no primary. */
  lemma FreshPrimaryIsOwned(s: Sys, ls: seq<Label>)
    requires Fresh(s)
    ensures var w := Run(s, ls).world;
            w.primary.Some? ==> "consul-release-controller-version" in w.primary.value.meta
                                && w.primary.value.meta["consul-release-controller-version"] == "1"
  {
    PrimaryIsOwned(s, ls);
  }

  // ---- A rollout that is not promoted ----

  /** States of a rollout after its Deploy and short of promotion. */
  predicate Unpromoted(s: State) {
    s.StateMonitor? || s.StateScale? || s.StateRollback? || s.StateIdle? || s.StateFail?
  }

  predicate UnpromotedRun(s: Sys, ls: seq<Label>)
    decreases |ls|
  {
    Unpromoted(s.state) && (ls == [] || UnpromotedRun(Exec(s, ls[0]), ls[1..]))
  }

  lemma StepKeepsPrimary(s: Sys, l: Label)
    requires Single(s) && Calm(s, l) && Unpromoted(s.state)
    ensures Single(Exec(s, l)) && Exec(s, l).world.primary == s.world.primary
  {
    StepKeepsSingle(s, l);
    if l.Work? && l.worker < |s.workers| {
      if Legal(RequestOf(s.workers[0].pc), s.world, l.reply) { SoleStep(s, l); }
    }
  }

  /** Monitoring, scaling, failing and rolling back leave the whole primary as it was. */
  lemma {:induction false} RollbackKeepsPrimary(s: Sys, ls: seq<Label>)
    requires Single(s) && CalmRun(s, ls) && UnpromotedRun(s, ls)
    ensures Run(s, ls).world.primary == s.world.primary
    decreases |ls|
  {
    if ls != [] {
      StepKeepsPrimary(s, ls[0]);
      RollbackKeepsPrimary(Exec(s, ls[0]), ls[1..]);
    }
  }

  // ---- RestoreOriginal ----

  /** The primary RestoreOriginal read is still the primary. */
  predicate Sourced(s: Sys) {
    && Single(s)
    && (s.workers != [] ==>
          match s.workers[0].pc
          case Restore(RestoreDelete(src)) => s.world.primary == Some(src)
          case Restore(RestoreClone(src)) => s.world.primary == Some(src)
          case _ => true)
  }

  lemma StepKeepsSource(s: Sys, l: Label)
    requires Sourced(s) && Calm(s, l)
    ensures Sourced(Exec(s, l))
  {
    StepKeepsSingle(s, l);
    if !l.Work? { OutsideStep(s, l); } else if Moves(s, l) { SoleStep(s, l); } else { assert Exec(s, l) == s; }
  }

  lemma {:induction false} SourceKept(s: Sys, ls: seq<Label>)
    requires Sourced(s) && CalmRun(s, ls)
    ensures Sourced(Run(s, ls))
    decreases |ls|
  {
    if ls != [] {
      StepKeepsSource(s, ls[0]);
      SourceKept(Exec(s, ls[0]), ls[1..]);
    }
  }

  /**
   After any calm run from a fresh release, the clone RestoreOriginal makes is the
   current primary: the version last cloned into it, its instance count, and its
   meta without the ownership label.
   */
  lemma RestoreGivesBackPrimary(s: Sys, ls: seq<Label>, src: Deployment, r: Reply)
    requires Fresh(s) && CalmRun(s, ls) && (r.Done? || r.Lost?)
    requires Run(s, ls).workers == [Worker(StateDestroy, Restore(RestoreClone(src)))]
    ensures var n := Run(s, ls);
            && n.world.primary.Some?
            && LastCloned(s, ls, None) == Some(n.world.primary.value.spec)
            && var p := n.world.primary.value;
               Exec(n, Work(0, r, true, true)).world.candidate
               == Some(Deployment(p.spec, p.instances, "", map k | k in p.meta && k != VERSION_LABEL :: p.meta[k]))
  {
    var n := Run(s, ls);
    SourceKept(s, ls);
    PrimaryRunsLastCloned(s, ls, None);
    SoleStep(n, Work(0, r, true, true));
    var p := n.world.primary.value;
    assert Unlabelled(p.meta) == map k | k in p.meta && k != VERSION_LABEL :: p.meta[k];
  }
}
