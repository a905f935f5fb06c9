/** The metric check: every query, in order, within its thresholds. */
module Prometheus {
  import opened Prelude

  datatype Query = Query(preset: string, query: string, min: Option<int>, max: Option<int>)

  /** What happened to a query: its template did not execute, or the server's answer. */
  datatype Answer = BadTemplate | QueryError | NotVector | Vector(samples: seq<real>)

  datatype CheckResult = CheckSuccess | CheckFailed | CheckNoMetrics | CheckError

  /** The built-in queries, by runtime and preset. */
  const PRESETS: set<string> := {
    "kubernetes-envoy-request-success", "kubernetes-envoy-request-duration",
    "nomad-envoy-request-success", "nomad-envoy-request-duration"
  }

  function PresetName(runtime: string, q: Query): string {
    runtime + "-" + q.preset
  }

  predicate Known(runtime: string, q: Query) {
    q.preset == "" || PresetName(runtime, q) in PRESETS
  }

  /** Go's int(x): truncation toward zero. */
  function Truncate(x: real): int {
    if x >= 0.0 then x.Floor else -((-x).Floor)
  }

  predicate Within(q: Query, x: real) {
    && (q.min.Some? ==> q.min.value <= Truncate(x))
    && (q.max.Some? ==> Truncate(x) <= q.max.value)
  }

  /** The result of one query. */
  function Verdict(q: Query, a: Answer): CheckResult {
    if q.preset == "" && q.query == "" then CheckError
    else
      match a
      case BadTemplate => CheckError
      case QueryError => CheckError
      case NotVector => CheckNoMetrics
      case Vector(samples) =>
        if samples == [] then CheckNoMetrics
        else if Within(q, samples[0]) then CheckSuccess else CheckFailed
  }

  /** The query is sent to the server. */
  predicate Sent(q: Query, a: Answer) {
    !(q.preset == "" && q.query == "") && !a.BadTemplate?
  }

  /**
   Which samples pass: from Min up to but excluding Max + 1 for non-negative
   samples; truncation widens a bound of zero or less downwards by one.
   */
  lemma WindowOfSamples(q: Query, x: real)
    ensures Within(q, x) <==>
              && (q.min.Some? ==> if q.min.value <= 0 then x > (q.min.value - 1) as real else x >= q.min.value as real)
              && (q.max.Some? ==> if q.max.value < 0 then x <= q.max.value as real else x < (q.max.value + 1) as real)
    ensures x >= 0.0 && q.min.Some? && q.max.Some? ==>
              (Within(q, x) <==> q.min.value as real <= x < (q.max.value + 1) as real)
  {
    var y := if x >= 0.0 then x else -x;
    var sign := if x >= 0.0 then 1 else -1;
    if q.min.Some? { FloorBounds(y, sign * q.min.value); }
    if q.max.Some? { FloorBounds(y, sign * q.max.value); }
  }

  lemma FloorBounds(x: real, n: int)
    ensures n <= x.Floor <==> n as real <= x
    ensures x.Floor <= n <==> x < (n + 1) as real
  {
    assert x.Floor as real <= x < (x.Floor + 1) as real;
  }

  /** Sample `x` lies from Min to Max, each bound widened to what truncation toward zero maps to it. */
  predicate InWindow(q: Query, x: real) {
    && (q.min.Some? ==> if q.min.value <= 0 then x > (q.min.value - 1) as real else x >= q.min.value as real)
    && (q.max.Some? ==> if q.max.value < 0 then x <= q.max.value as real else x < (q.max.value + 1) as real)
  }

  /** The results of a query: an empty query or no answer, no samples, or the first sample against the window. */
  lemma VerdictIs(q: Query, a: Answer)
    ensures Verdict(q, a) == CheckError <==> (q.preset == "" && q.query == "") || a.BadTemplate? || a.QueryError?
    ensures Verdict(q, a) == CheckNoMetrics <==>
              (q.preset != "" || q.query != "") && (a.NotVector? || (a.Vector? && a.samples == []))
    ensures Verdict(q, a) == CheckSuccess <==>
              (q.preset != "" || q.query != "") && a.Vector? && a.samples != [] && InWindow(q, a.samples[0])
    ensures Verdict(q, a) == CheckFailed <==>
              (q.preset != "" || q.query != "") && a.Vector? && a.samples != [] && !InWindow(q, a.samples[0])
  {
    if a.Vector? && a.samples != [] { WindowOfSamples(q, a.samples[0]); }
  }

  /** The presets there are. */
  predicate IsPreset(name: string) {
    || name == "kubernetes-envoy-request-success" || name == "kubernetes-envoy-request-duration"
    || name == "nomad-envoy-request-success" || name == "nomad-envoy-request-duration"
  }

  /** The text of a query: its own, or that of its preset, which the preset's name stands for. */
  function TextOf(runtime: string, q: Query): string {
    if q.preset != "" then runtime + "-" + q.preset else q.query
  }

  /** The query can be asked, and is answered by a first sample in the window. */
  predicate Passes(runtime: string, q: Query, a: Answer) {
    && (q.preset == "" || IsPreset(runtime + "-" + q.preset)) && (q.preset != "" || q.query != "")
    && a.Vector? && a.samples != [] && InWindow(q, a.samples[0])
  }

  lemma PassesIs(runtime: string, q: Query, a: Answer)
    ensures Known(runtime, q) <==> q.preset == "" || IsPreset(runtime + "-" + q.preset)
    ensures Passes(runtime, q, a) <==> Known(runtime, q) && Verdict(q, a) == CheckSuccess
  {
    VerdictIs(q, a);
  }

  /** The presets of all queries exist. */
  predicate AllKnown(runtime: string, queries: seq<Query>) {
    forall k :: 0 <= k < |queries| ==> Known(runtime, queries[k])
  }

  /** Query f is the first that does not succeed; the texts up to it were sent, its own unless empty or no template. */
  predicate StopsAt(queries: seq<Query>, answers: seq<Answer>, f: int, result: CheckResult, sent: int)
    requires |answers| == |queries|
  {
    && 0 <= f < |queries| && result == Verdict(queries[f], answers[f])
    && (forall k :: 0 <= k < f ==> Verdict(queries[k], answers[k]) == CheckSuccess)
    && sent == f + (if Sent(queries[f], answers[f]) then 1 else 0)
  }

  /** The second pass of Check: the queries run in order up to the first that does not succeed. */
  method RunQueries(queries: seq<Query>, querySQL: seq<string>, answers: seq<Answer>)
    returns (result: CheckResult, sent: seq<string>)
    requires |answers| == |queries| == |querySQL|
    requires forall k :: 0 <= k < |queries| ==>
               (querySQL[k] == "" <==> queries[k].preset == "" && queries[k].query == "")
    ensures |sent| <= |querySQL| && sent == querySQL[..|sent|]
    ensures result == CheckSuccess ==>
              |sent| == |queries| && forall k :: 0 <= k < |queries| ==> Verdict(queries[k], answers[k]) == CheckSuccess
    ensures result != CheckSuccess ==> exists f :: StopsAt(queries, answers, f, result, |sent|)
  {
    for i := 0 to |querySQL|
      invariant forall k :: 0 <= k < i ==> Verdict(queries[k], answers[k]) == CheckSuccess
    {
      var query := queries[i];
      if querySQL[i] == "" || answers[i].BadTemplate? {
        assert StopsAt(queries, answers, i, CheckError, i);
        return CheckError, querySQL[..i];
      }
      sent := querySQL[..i + 1];
      match answers[i]
      case QueryError =>
        assert StopsAt(queries, answers, i, CheckError, i + 1);
        return CheckError, sent;
      case NotVector =>
        assert StopsAt(queries, answers, i, CheckNoMetrics, i + 1);
        return CheckNoMetrics, sent;
      case Vector(samples) =>
        var checkFail := false;
        if |samples| == 0 {
          assert StopsAt(queries, answers, i, CheckNoMetrics, i + 1);
          return CheckNoMetrics, sent;
        }
        var value := Truncate(samples[0]);
        if query.min.Some? && value < query.min.value { checkFail := true; }
        if query.max.Some? && value > query.max.value { checkFail := true; }
        if checkFail {
          assert StopsAt(queries, answers, i, CheckFailed, i + 1);
          return CheckFailed, sent;
        }
    }
    return CheckSuccess, querySQL;
  }

  /**
   Check: no query is sent when any preset is unknown; otherwise the queries run in
   order up to the first that does not succeed, whose result is the result.
   `answers` are what the queries would meet, `sent` the texts sent.
   */
  method Check(runtime: string, queries: seq<Query>, answers: seq<Answer>)
    returns (result: CheckResult, sent: seq<string>)
    requires |answers| == |queries|
    ensures !AllKnown(runtime, queries) ==> result == CheckError && sent == []
    ensures result == CheckSuccess <==>
              AllKnown(runtime, queries)
              && forall k :: 0 <= k < |queries| ==> Verdict(queries[k], answers[k]) == CheckSuccess
    ensures AllKnown(runtime, queries) && result != CheckSuccess ==>
              exists f :: StopsAt(queries, answers, f, result, |sent|)
    ensures result == CheckSuccess ==> |sent| == |queries|
    ensures |sent| <= |queries| && forall k :: 0 <= k < |sent| ==> sent[k] == TextOf(runtime, queries[k])
  {
    var querySQL: seq<string> := [];
    for i := 0 to |queries|
      invariant |querySQL| == i
      invariant forall k :: 0 <= k < i ==> Known(runtime, queries[k])
      invariant forall k :: 0 <= k < i ==> querySQL[k] == TextOf(runtime, queries[k])
    {
      if queries[i].preset != "" {
        var preset := runtime + "-" + queries[i].preset;
        if preset !in PRESETS { return CheckError, []; }
        querySQL := querySQL + [preset];
      } else {
        querySQL := querySQL + [queries[i].query];
      }
    }
    forall k | 0 <= k < |queries| ensures querySQL[k] == "" <==> queries[k].preset == "" && queries[k].query == "" {
      TextIsEmpty(runtime, queries[k]);
    }
    result, sent := RunQueries(queries, querySQL, answers);
  }

  lemma TextIsEmpty(runtime: string, q: Query)
    ensures TextOf(runtime, q) == "" <==> q.preset == "" && q.query == ""
  {
    if q.preset != "" { assert |TextOf(runtime, q)| > 0; }
  }

  /** What success of all queries means. */
  lemma SuccessIs(runtime: string, queries: seq<Query>, answers: seq<Answer>)
    requires |answers| == |queries|
    ensures (AllKnown(runtime, queries)
             && forall k :: 0 <= k < |queries| ==> Verdict(queries[k], answers[k]) == CheckSuccess)
            <==> forall k :: 0 <= k < |queries| ==> Passes(runtime, queries[k], answers[k])
  {
    forall k | 0 <= k < |queries|
      ensures Passes(runtime, queries[k], answers[k])
              <==> Known(runtime, queries[k]) && Verdict(queries[k], answers[k]) == CheckSuccess
    {
      PassesIs(runtime, queries[k], answers[k]);
    }
  }
}
