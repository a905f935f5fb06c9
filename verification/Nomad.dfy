/**
 CloneDeployment of the Nomad client: it rewrites, in place, the tags and meta of
 every service of a job, so that the two resolver subsets tell primary from candidate.
 */
module Nomad {
  import opened Cluster

  /** VERSION_LABEL with "_" for "-": meta keys can not contain "-". */
  const META_KEY := "consul_release_controller_version"

  /** PrimarySubsetFilter: the label is in Service.Tags. */
  predicate PrimaryFilter(tags: seq<string>) {
    VERSION_LABEL in tags
  }

  /** CandidateSubsetFilter: the label is not in Service.Tags. */
  predicate CandidateFilter(tags: seq<string>) {
    VERSION_LABEL !in tags
  }

  /** The version label of a job's meta, empty when absent. */
  function LabelOf(meta: map<string, string>): string {
    if VERSION_LABEL in meta then meta[VERSION_LABEL] else ""
  }

  function WithoutLabel(tags: seq<string>): seq<string> {
    if tags == [] then []
    else WithoutLabel(tags[..|tags| - 1]) + if tags[|tags| - 1] != VERSION_LABEL then [tags[|tags| - 1]] else []
  }

  /** The tags of a service after a clone. */
  function Retag(tags: seq<string>, version: string): seq<string> {
    if version == "" then WithoutLabel(tags)
    else if VERSION_LABEL in tags then tags else tags + [VERSION_LABEL]
  }

  /** The meta of a service after a clone. */
  function Remark(meta: map<string, string>, version: string): map<string, string> {
    if version == "" then meta - {META_KEY} else meta[META_KEY := version]
  }

  lemma {:induction false} WithoutLabelFacts(tags: seq<string>)
    ensures VERSION_LABEL !in WithoutLabel(tags)
    ensures VERSION_LABEL !in tags <==> WithoutLabel(tags) == tags
    ensures |WithoutLabel(tags)| <= |tags|
    decreases |tags|
  {
    if tags != [] {
      var init, last := tags[..|tags| - 1], tags[|tags| - 1];
      assert tags == init + [last];
      WithoutLabelFacts(init);
      if WithoutLabel(tags) == tags { assert VERSION_LABEL !in WithoutLabel(tags); }
    }
  }

  /**
   A clone with a version label puts every service in the primary subset, one with
   an empty or absent label in the candidate subset, whatever its tags were; the
   other tags keep their order, and at most one tag is added.
   */
  lemma RetagPartitions(tags: seq<string>, version: string)
    ensures PrimaryFilter(Retag(tags, version)) <==> version != ""
    ensures CandidateFilter(Retag(tags, version)) <==> version == ""
    ensures WithoutLabel(Retag(tags, version)) == WithoutLabel(tags)
    ensures |Retag(tags, version)| <= |tags| + 1
  {
    WithoutLabelFacts(tags);
    WithoutLabelFacts(WithoutLabel(tags));
    assert (tags + [VERSION_LABEL])[..|tags|] == tags;
  }

  /** A second clone with the same label changes nothing. */
  lemma RetagIdempotent(tags: seq<string>, version: string)
    ensures Retag(Retag(tags, version), version) == Retag(tags, version)
    ensures forall meta :: Remark(Remark(meta, version), version) == Remark(meta, version)
  {
    WithoutLabelFacts(tags);
    WithoutLabelFacts(WithoutLabel(tags));
  }

  /** Labelling and then unlabelling gives the tags back exactly when they did not hold the label. */
  lemma LabelThenUnlabel(tags: seq<string>, version: string)
    requires version != ""
    ensures Retag(Retag(tags, version), "") == tags <==> VERSION_LABEL !in tags
  {
    RetagPartitions(tags, version);
    WithoutLabelFacts(tags);
  }

  /** Dropping the label keeps or drops each tag on its own. */
  lemma WithoutLabelOne(t: string)
    ensures WithoutLabel([t]) == if t == "consul-release-controller-version" then [] else [t]
  {
    assert [t][..0] == [];
  }

  lemma {:induction false} WithoutLabelConcat(a: seq<string>, b: seq<string>)
    ensures WithoutLabel(a + b) == WithoutLabel(a) + WithoutLabel(b)
    decreases |b|
  {
    if b == [] {
      assert a + b == a;
    } else {
      assert (a + b)[..|a + b| - 1] == a + b[..|b| - 1];
      WithoutLabelConcat(a, b[..|b| - 1]);
    }
  }

  /** The meta key is the label with every "-" replaced. */
  lemma MetaKeyIs()
    ensures |META_KEY| == |VERSION_LABEL|
    ensures forall k :: 0 <= k < |META_KEY| ==> META_KEY[k] == if VERSION_LABEL[k] == '-' then '_' else VERSION_LABEL[k]
  {
  }

  /** A job's meta marks it as the primary: it has the label, and not an empty one. */
  predicate Marks(meta: map<string, string>) {
    "consul-release-controller-version" in meta && meta["consul-release-controller-version"] != ""
  }

  /** What a clone with `newMeta` makes of a service's tags. */
  predicate TagsFollow(before: seq<string>, after: seq<string>, newMeta: map<string, string>) {
    && (PrimaryFilter(after) <==> Marks(newMeta)) && (CandidateFilter(after) <==> !Marks(newMeta))
    && WithoutLabel(after) == WithoutLabel(before)
    && (Marks(newMeta) ==>
          after == before || ("consul-release-controller-version" !in before
                              && after == before + ["consul-release-controller-version"]))
  }

  /** And of its meta: the key follows the label, every other key is as before. */
  ghost predicate MetaFollows(before: map<string, string>, after: map<string, string>, newMeta: map<string, string>) {
    && ("consul_release_controller_version" in after <==> Marks(newMeta))
    && (Marks(newMeta) ==> after["consul_release_controller_version"] == newMeta["consul-release-controller-version"])
    && forall k :: k != "consul_release_controller_version" ==>
         (k in after <==> k in before) && (k in after ==> after[k] == before[k])
  }

  lemma CloneFollowsMeta(tags: seq<string>, meta: map<string, string>, newMeta: map<string, string>)
    ensures TagsFollow(tags, Retag(tags, LabelOf(newMeta)), newMeta)
    ensures MetaFollows(meta, Remark(meta, LabelOf(newMeta)), newMeta)
  {
    RetagPartitions(tags, LabelOf(newMeta));
  }

  class JobService {
    var tags: seq<string>
    var meta: map<string, string>

    constructor (tags: seq<string>, meta: map<string, string>)
      ensures this.tags == tags && this.meta == meta
    {
      this.tags, this.meta := tags, meta;
    }

    method AddTag()
      modifies this`tags
      ensures tags == if VERSION_LABEL in old(tags) then old(tags) else old(tags) + [VERSION_LABEL]
    {
      var hasTag := false;
      for i := 0 to |tags|
        invariant hasTag <==> VERSION_LABEL in tags[..i]
      {
        assert tags[..i + 1] == tags[..i] + [tags[i]];
        if tags[i] == VERSION_LABEL { hasTag := true; }
      }
      assert tags[..|tags|] == tags;
      if !hasTag { tags := tags + [VERSION_LABEL]; }
    }

    method RemoveTag()
      modifies this`tags
      ensures tags == WithoutLabel(old(tags))
    {
      var kept := [];
      for i := 0 to |tags|
        invariant kept == WithoutLabel(tags[..i])
      {
        assert tags[..i + 1][..i] == tags[..i];
        if tags[i] != VERSION_LABEL { kept := kept + [tags[i]]; }
      }
      assert tags[..|tags|] == tags;
      tags := kept;
    }
  }

  class TaskGroup {
    var count: nat
    const services: seq<JobService>

    constructor (count: nat, services: seq<JobService>)
      ensures this.count == count && this.services == services
    {
      this.count, this.services := count, services;
    }
  }

  class Job {
    var name: string
    var id: string
    var meta: map<string, string>
    const taskGroups: seq<TaskGroup>

    constructor (name: string, meta: map<string, string>, taskGroups: seq<TaskGroup>)
      ensures this.name == this.id == name && this.meta == meta && this.taskGroups == taskGroups
    {
      this.name, this.id, this.meta, this.taskGroups := name, name, meta, taskGroups;
    }

    /** The services of the first n task groups. */
    ghost function Services(n: nat): set<JobService>
      requires n <= |taskGroups|
    {
      set k, s | 0 <= k < n && s in taskGroups[k].services :: s
    }

    /**
     Name, count and meta are those of the new deployment, and every service of
     every group is retagged and remarked, also one that occurs twice.
     */
    method Rewrite(newName: string, instances: nat, newMeta: map<string, string>)
      modifies this, taskGroups, Services(|taskGroups|)
      ensures name == id == newName && meta == newMeta
      ensures forall g :: g in taskGroups ==> g.count == instances
      ensures forall s :: s in Services(|taskGroups|) ==>
                && s.tags == Retag(old(s.tags), LabelOf(newMeta))
                && s.meta == Remark(old(s.meta), LabelOf(newMeta))
      ensures forall s :: s in Services(|taskGroups|) ==>
                TagsFollow(old(s.tags), s.tags, newMeta) && MetaFollows(old(s.meta), s.meta, newMeta)
    {
      for i := 0 to |taskGroups|
        invariant forall k :: 0 <= k < i ==> taskGroups[k].count == instances
        invariant forall s :: s in Services(|taskGroups|) ==> s.tags == old(s.tags) && s.meta == old(s.meta)
      {
        taskGroups[i].count := instances;
      }
      meta, name, id := newMeta, newName, newName;
      RetagAll(LabelOf(meta));
      RemarkAll(LabelOf(meta));
      forall s | s in Services(|taskGroups|)
        ensures TagsFollow(old(s.tags), s.tags, newMeta) && MetaFollows(old(s.meta), s.meta, newMeta)
      {
        CloneFollowsMeta(old(s.tags), old(s.meta), newMeta);
      }
    }

    method RetagAll(version: string)
      modifies (Services(|taskGroups|))`tags
      ensures forall s :: s in Services(|taskGroups|) ==> s.tags == Retag(old(s.tags), version)
    {
      for i := 0 to |taskGroups|
        invariant forall s :: s in Services(|taskGroups|) ==>
                    s.tags == Retag(old(s.tags), version) || (s.tags == old(s.tags) && s !in Services(i))
      {
        var services := taskGroups[i].services;
        for j := 0 to |services|
          invariant forall s :: s in Services(|taskGroups|) ==>
                      || s.tags == Retag(old(s.tags), version)
                      || (s.tags == old(s.tags) && s !in Services(i) && s !in services[..j])
        {
          var s := services[j];
          assert services[..j + 1] == services[..j] + [s];
          assert s in taskGroups[i].services && s in Services(|taskGroups|);
          RetagIdempotent(old(s.tags), version);
          if version != "" { s.AddTag(); } else { s.RemoveTag(); }
        }
        assert services[..|services|] == services;
      }
    }

    method RemarkAll(version: string)
      modifies (Services(|taskGroups|))`meta
      ensures forall s :: s in Services(|taskGroups|) ==> s.meta == Remark(old(s.meta), version)
    {
      for i := 0 to |taskGroups|
        invariant forall s :: s in Services(|taskGroups|) ==>
                    s.meta == Remark(old(s.meta), version) || (s.meta == old(s.meta) && s !in Services(i))
      {
        var services := taskGroups[i].services;
        for j := 0 to |services|
          invariant forall s :: s in Services(|taskGroups|) ==>
                      || s.meta == Remark(old(s.meta), version)
                      || (s.meta == old(s.meta) && s !in Services(i) && s !in services[..j])
        {
          var s := services[j];
          assert services[..j + 1] == services[..j] + [s];
          assert s in taskGroups[i].services && s in Services(|taskGroups|);
          RetagIdempotent([], version);
          if version != "" { s.meta := s.meta[META_KEY := version]; } else { s.meta := s.meta - {META_KEY}; }
        }
        assert services[..|services|] == services;
      }
    }
  }
}
