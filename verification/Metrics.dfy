// Two-level metric merging: micro-batches inside an actor, then actors inside a
// request (src/tuft/backends/fsdp_engine.py, fsdp_training_backend.py).
module Metrics {
  import opened Wrappers
  import opened Sharding
  import opened TrainingRows

  // Metric values that are not numbers are skipped by both merges.
  datatype MetricValue = Num(x: real) | Other

  type Report = map<string, MetricValue>

  predicate EndsWith(k: string, suffix: string) {
    |k| >= |suffix| && k[|k| - |suffix|..] == suffix
  }

  predicate IsMean(k: string) {
    EndsWith(k, ":mean")
  }

  predicate Has(m: Report, k: string) {
    k in m && m[k].Num?
  }

  // ---------- What the reports say about one key ----------

  function NumericKeys(reports: seq<Report>): set<string> {
    if reports == [] then {}
    else NumericKeys(reports[..|reports| - 1]) + NumericIn(reports[|reports| - 1])
  }

  function NumericIn(m: Report): set<string> {
    set k | k in m && m[k].Num?
  }

  function Values(reports: seq<Report>, k: string): seq<real> {
    if reports == [] then []
    else Values(reports[..|reports| - 1], k) + ValueIn(reports[|reports| - 1], k)
  }

  function ValueIn(m: Report, k: string): seq<real> {
    if Has(m, k) then [m[k].x] else []
  }

  lemma {:induction false} KeysHaveValues(reports: seq<Report>, k: string)
    ensures k in NumericKeys(reports) <==> Values(reports, k) != []
  {
    if reports != [] {
      KeysHaveValues(reports[..|reports| - 1], k);
    }
  }

  // ---------- _merge_micro_metrics ----------

  function MicroMerge(reports: seq<Report>): map<string, real> {
    map k | k in NumericKeys(reports) :: MicroValue(Values(reports, k), IsMean(k))
  }

  function MicroValue(values: seq<real>, mean: bool): real {
    if mean && values != [] then SumReals(values) / |values| as real else SumReals(values)
  }

  // The groups once every key of report m outside `left` has been visited.
  ghost predicate Grouped(before: map<string, seq<real>>, m: Report, left: set<string>, groups: map<string, seq<real>>) {
    && (forall k :: k in groups <==> k in before || (k !in left && Has(m, k)))
    && (forall k :: k in groups ==> groups[k] == Group(before, k) + if k in left then [] else ValueIn(m, k))
  }

  function Group(groups: map<string, seq<real>>, k: string): seq<real> {
    if k in groups then groups[k] else []
  }

  ghost predicate GroupsOf(reports: seq<Report>, groups: map<string, seq<real>>) {
    && groups.Keys == NumericKeys(reports)
    && forall k :: k in groups ==> groups[k] == Values(reports, k)
  }

  method AddReport(before: map<string, seq<real>>, m: Report, ghost reports: seq<Report>)
    returns (groups: map<string, seq<real>>)
    requires GroupsOf(reports, before)
    ensures GroupsOf(reports + [m], groups)
  {
    groups := before;
    var left := m.Keys;
    while left != {}
      invariant left <= m.Keys
      invariant Grouped(before, m, left, groups)
      decreases |left|
    {
      var k :| k in left;
      var next := if m[k].Num? then groups[k := Group(groups, k) + [m[k].x]] else groups;
      GroupedStep(before, m, left, groups, k, next);
      groups, left := next, left - {k};
    }
    GroupsExtend(reports, before, m, groups);
  }

  lemma GroupedStep(before: map<string, seq<real>>, m: Report, left: set<string>, groups: map<string, seq<real>>, k: string,
                    next: map<string, seq<real>>)
    requires Grouped(before, m, left, groups) && k in left && k in m
    requires next == if m[k].Num? then groups[k := Group(groups, k) + [m[k].x]] else groups
    ensures Grouped(before, m, left - {k}, next)
  {
  }

  lemma GroupsExtend(reports: seq<Report>, before: map<string, seq<real>>, m: Report, groups: map<string, seq<real>>)
    requires GroupsOf(reports, before) && Grouped(before, m, {}, groups)
    ensures GroupsOf(reports + [m], groups)
  {
    var longer := reports + [m];
    assert longer[..|longer| - 1] == reports;
    forall k
      ensures k in groups <==> k in NumericKeys(longer)
      ensures k in groups ==> groups[k] == Values(longer, k)
    {
      KeysHaveValues(reports, k);
    }
  }

  method MergeMicroMetrics(reports: seq<Report>) returns (merged: map<string, real>)
    ensures merged == MicroMerge(reports)
  {
    var groups: map<string, seq<real>> := map[];
    for i := 0 to |reports|
      invariant GroupsOf(reports[..i], groups)
    {
      groups := AddReport(groups, reports[i], reports[..i]);
      assert reports[..i + 1] == reports[..i] + [reports[i]];
    }
    assert reports[..|reports|] == reports;
    merged := ReduceGroups(groups);
  }

  method ReduceGroups(groups: map<string, seq<real>>) returns (merged: map<string, real>)
    ensures merged == map k | k in groups :: MicroValue(groups[k], IsMean(k))
  {
    merged := map[];
    var left := groups.Keys;
    while left != {}
      invariant left <= groups.Keys
      invariant merged == map k | k in groups && k !in left :: MicroValue(groups[k], IsMean(k))
      decreases |left|
    {
      var k :| k in left;
      left := left - {k};
      merged := merged[k := MicroValue(groups[k], IsMean(k))];
    }
  }

  // ---------- _merge_metrics ----------

  datatype Acc = Acc(sum: real, weight: real)

  function Weight(weights: Option<seq<nat>>, i: nat): real {
    if weights.Some? && i < |weights.value| then weights.value[i] as real else 1.0
  }

  // Weighted sum and total weight of key k.
  function WeightedSum(reports: seq<Report>, weights: Option<seq<nat>>, k: string): Acc {
    if reports == [] then Acc(0.0, 0.0)
    else
      var n := |reports| - 1;
      Added(WeightedSum(reports[..n], weights, k), reports[n], Weight(weights, n), k)
  }

  function Added(acc: Acc, m: Report, w: real, k: string): Acc {
    if Has(m, k) then Acc(acc.sum + m[k].x * w, acc.weight + w) else acc
  }

  function Quotient(acc: Acc): real {
    if acc.weight != 0.0 then acc.sum / acc.weight else 0.0
  }

  function ShardMerge(reports: seq<Report>, weights: Option<seq<nat>>): map<string, real> {
    map k | k in NumericKeys(reports) ::
      if IsMean(k) then Quotient(WeightedSum(reports, weights, k)) else SumReals(Values(reports, k))
  }

  function TotalOf(totals: map<string, real>, k: string): real {
    if k in totals then totals[k] else 0.0
  }

  function AccOf(accs: map<string, Acc>, k: string): Acc {
    if k in accs then accs[k] else Acc(0.0, 0.0)
  }

  ghost predicate TotalsOf(reports: seq<Report>, totals: map<string, real>) {
    && (forall k :: k in totals <==> k in NumericKeys(reports) && !IsMean(k))
    && (forall k :: k in totals ==> totals[k] == SumReals(Values(reports, k)))
  }

  ghost predicate AccsOf(reports: seq<Report>, weights: Option<seq<nat>>, accs: map<string, Acc>) {
    && (forall k :: k in accs <==> k in NumericKeys(reports) && IsMean(k))
    && (forall k :: k in accs ==> accs[k] == WeightedSum(reports, weights, k))
  }

  // The two dictionaries once every key of report m outside `left` has been visited.
  ghost predicate Totalled(before: map<string, real>, m: Report, left: set<string>, totals: map<string, real>) {
    && (forall k :: k in totals <==> k in before || (k !in left && Has(m, k) && !IsMean(k)))
    && (forall k :: k in totals ==> totals[k] == TotalOf(before, k) + if k !in left && Has(m, k) then m[k].x else 0.0)
  }

  ghost predicate Accumulated(before: map<string, Acc>, m: Report, w: real, left: set<string>, accs: map<string, Acc>) {
    && (forall k :: k in accs <==> k in before || (k !in left && Has(m, k) && IsMean(k)))
    && (forall k :: k in accs ==> accs[k] == if k in left then AccOf(before, k) else Added(AccOf(before, k), m, w, k))
  }

  method AddShard(totals0: map<string, real>, accs0: map<string, Acc>, m: Report, w: real)
    returns (totals: map<string, real>, accs: map<string, Acc>)
    requires MeanFree(totals0) && MeanOnly(accs0)
    ensures Totalled(totals0, m, {}, totals) && Accumulated(accs0, m, w, {}, accs)
  {
    totals, accs := totals0, accs0;
    var left := m.Keys;
    while left != {}
      invariant left <= m.Keys
      invariant Totalled(totals0, m, left, totals) && Accumulated(accs0, m, w, left, accs)
      decreases |left|
    {
      var k :| k in left;
      var totals', accs' := AddValue(m, w, totals, accs, k);
      TotalledStep(totals0, m, left, totals, k, totals');
      AccumulatedStep(accs0, m, w, left, accs, k, accs');
      totals, accs, left := totals', accs', left - {k};
    }
  }

  ghost predicate MeanFree(totals: map<string, real>) {
    forall k :: k in totals ==> !IsMean(k)
  }

  ghost predicate MeanOnly(accs: map<string, Acc>) {
    forall k :: k in accs ==> IsMean(k)
  }

  // One iteration: ":mean" keys go to the weighted accumulator, all others to the totals.
  method AddValue(m: Report, w: real, totals: map<string, real>, accs: map<string, Acc>, k: string)
    returns (totals': map<string, real>, accs': map<string, Acc>)
    requires k in m
    ensures totals' == if m[k].Num? && !IsMean(k) then totals[k := TotalOf(totals, k) + m[k].x] else totals
    ensures accs' == if m[k].Num? && IsMean(k) then accs[k := Added(AccOf(accs, k), m, w, k)] else accs
  {
    totals', accs' := totals, accs;
    if m[k].Other? {
      return;
    }
    var v := m[k].x;
    if EndsWith(k, ":sum") {
      SumIsNotMean(k);
      totals' := totals[k := TotalOf(totals, k) + v];
    } else if IsMean(k) {
      var acc := AccOf(accs, k);
      accs' := accs[k := Acc(acc.sum + v * w, acc.weight + w)];
      assert Added(acc, m, w, k) == Acc(acc.sum + v * w, acc.weight + w);
    } else {
      totals' := totals[k := TotalOf(totals, k) + v];
    }
  }

  lemma SumIsNotMean(k: string)
    requires EndsWith(k, ":sum")
    ensures !IsMean(k)
  {
    assert k[|k| - 4..][3] == k[|k| - 1];
    if |k| >= 5 {
      assert k[|k| - 5..][4] == k[|k| - 1];
    }
  }

  lemma TotalledStep(before: map<string, real>, m: Report, left: set<string>, totals: map<string, real>, k: string,
                     next: map<string, real>)
    requires MeanFree(before) && Totalled(before, m, left, totals) && k in left && k in m
    requires next == if m[k].Num? && !IsMean(k) then totals[k := TotalOf(totals, k) + m[k].x] else totals
    ensures Totalled(before, m, left - {k}, next)
  {
  }

  lemma AccumulatedStep(before: map<string, Acc>, m: Report, w: real, left: set<string>, accs: map<string, Acc>, k: string,
                        next: map<string, Acc>)
    requires MeanOnly(before) && Accumulated(before, m, w, left, accs) && k in left && k in m
    requires next == if m[k].Num? && IsMean(k) then accs[k := Added(AccOf(accs, k), m, w, k)] else accs
    ensures Accumulated(before, m, w, left - {k}, next)
  {
  }

  lemma TotalsExtend(reports: seq<Report>, before: map<string, real>, m: Report, totals: map<string, real>)
    requires TotalsOf(reports, before) && Totalled(before, m, {}, totals)
    ensures TotalsOf(reports + [m], totals)
  {
    var longer := reports + [m];
    assert longer[..|longer| - 1] == reports;
    forall k
      ensures k in totals <==> k in NumericKeys(longer) && !IsMean(k)
    {
    }
    forall k | k in totals
      ensures totals[k] == SumReals(Values(longer, k))
    {
      ValueExtend(reports, m, k);
      UnseenTotal(reports, k);
    }
  }

  lemma AccsExtend(reports: seq<Report>, weights: Option<seq<nat>>, before: map<string, Acc>, m: Report, accs: map<string, Acc>)
    requires AccsOf(reports, weights, before) && Accumulated(before, m, Weight(weights, |reports|), {}, accs)
    ensures AccsOf(reports + [m], weights, accs)
  {
    var longer := reports + [m];
    assert longer[..|longer| - 1] == reports;
    forall k
      ensures k in accs <==> k in NumericKeys(longer) && IsMean(k)
    {
    }
    forall k | k in accs
      ensures accs[k] == WeightedSum(longer, weights, k)
    {
      UnseenAcc(reports, weights, k);
      assert WeightedSum(longer, weights, k) == Added(WeightedSum(reports, weights, k), m, Weight(weights, |reports|), k);
    }
  }

  lemma ValueExtend(reports: seq<Report>, m: Report, k: string)
    ensures SumReals(Values(reports + [m], k)) == SumReals(Values(reports, k)) + if Has(m, k) then m[k].x else 0.0
  {
    var longer := reports + [m];
    assert longer[..|longer| - 1] == reports;
    var vs := Values(reports, k);
    if Has(m, k) {
      assert (vs + [m[k].x])[..|vs|] == vs;
    } else {
      assert vs + [] == vs;
    }
  }

  lemma {:induction false} UnseenTotal(reports: seq<Report>, k: string)
    ensures k !in NumericKeys(reports) ==> Values(reports, k) == []
  {
    if reports != [] {
      UnseenTotal(reports[..|reports| - 1], k);
    }
  }

  lemma {:induction false} UnseenAcc(reports: seq<Report>, weights: Option<seq<nat>>, k: string)
    ensures k !in NumericKeys(reports) ==> WeightedSum(reports, weights, k) == Acc(0.0, 0.0)
  {
    if reports != [] {
      UnseenAcc(reports[..|reports| - 1], weights, k);
    }
  }

  method AddNext(reports: seq<Report>, weights: Option<seq<nat>>, i: nat, totals0: map<string, real>, accs0: map<string, Acc>)
    returns (totals: map<string, real>, accs: map<string, Acc>)
    requires i < |reports| && TotalsOf(reports[..i], totals0) && AccsOf(reports[..i], weights, accs0)
    ensures TotalsOf(reports[..i + 1], totals) && AccsOf(reports[..i + 1], weights, accs)
  {
    totals, accs := AddShard(totals0, accs0, reports[i], Weight(weights, i));
    TotalsExtend(reports[..i], totals0, reports[i], totals);
    AccsExtend(reports[..i], weights, accs0, reports[i], accs);
    assert reports[..i + 1] == reports[..i] + [reports[i]];
  }

  method MergeMetrics(reports: seq<Report>, weights: Option<seq<nat>>) returns (merged: map<string, real>)
    ensures merged == ShardMerge(reports, weights)
  {
    var totals: map<string, real> := map[];
    var accs: map<string, Acc> := map[];
    for i := 0 to |reports|
      invariant TotalsOf(reports[..i], totals) && AccsOf(reports[..i], weights, accs)
    {
      totals, accs := AddNext(reports, weights, i, totals, accs);
    }
    assert reports[..|reports|] == reports;
    merged := Overlay(totals, accs, Quotient);
    Assemble(reports, weights, totals, accs, merged);
  }

  lemma Assemble(reports: seq<Report>, weights: Option<seq<nat>>, totals: map<string, real>, accs: map<string, Acc>,
                 merged: map<string, real>)
    requires TotalsOf(reports, totals) && AccsOf(reports, weights, accs)
    requires Overlaid(totals, accs, {}, Quotient, merged)
    ensures merged == ShardMerge(reports, weights)
  {
  }

  // merged once the accumulated keys outside `left` have been divided.
  ghost predicate Overlaid<A>(totals: map<string, real>, accs: map<string, A>, left: set<string>, f: A -> real,
                              merged: map<string, real>) {
    && (forall k :: k in merged <==> k in totals || (k in accs && k !in left))
    && (forall k :: k in merged ==> merged[k] == if k in accs && k !in left then f(accs[k]) else totals[k])
  }

  lemma OverlayStep<A>(totals: map<string, real>, accs: map<string, A>, left: set<string>, f: A -> real,
                       merged: map<string, real>, k: string)
    requires Overlaid(totals, accs, left, f, merged) && k in left && k in accs
    ensures Overlaid(totals, accs, left - {k}, f, merged[k := f(accs[k])])
  {
  }

  // merged[k] = f(accs[k]) for every accumulated key, over the totals already there.
  method Overlay<A>(totals: map<string, real>, accs: map<string, A>, f: A -> real) returns (merged: map<string, real>)
    ensures Overlaid(totals, accs, {}, f, merged)
  {
    merged := totals;
    var left := accs.Keys;
    while left != {}
      invariant left <= accs.Keys
      invariant Overlaid(totals, accs, left, f, merged)
      decreases |left|
    {
      var k :| k in left;
      OverlayStep(totals, accs, left, f, merged, k);
      left := left - {k};
      merged := merged[k := f(accs[k])];
    }
  }

  // ---------- Two levels ----------

  function AsReport(m: map<string, real>): Report {
    map k | k in m :: Num(m[k])
  }

  predicate Tagged(k: string) {
    ':' in k
  }

  const MICRO_COUNT := "actor/num_micro_batches"

  // What one actor answers, and what the request answers after the filter on ':'.
  function ActorReport(micros: seq<Report>, count: nat): Report {
    AsReport(MicroMerge(micros)[MICRO_COUNT := count as real])
  }

  function ActorReports(actors: seq<seq<Report>>, counts: seq<nat>): (reports: seq<Report>)
    requires |counts| == |actors|
    ensures |reports| == |actors| && forall i :: 0 <= i < |actors| ==> reports[i] == ActorReport(actors[i], counts[i])
  {
    seq(|actors|, i requires 0 <= i < |actors| => ActorReport(actors[i], counts[i]))
  }

  function RequestMetrics(actors: seq<seq<Report>>, counts: seq<nat>, sizes: seq<nat>): map<string, real>
    requires |counts| == |actors|
  {
    var merged := ShardMerge(ActorReports(actors, counts), Some(sizes));
    map k | k in merged && Tagged(k) :: merged[k]
  }

  method ReduceRequest(actors: seq<seq<Report>>, counts: seq<nat>, sizes: seq<nat>) returns (metrics: map<string, real>)
    requires |counts| == |actors|
    ensures metrics == RequestMetrics(actors, counts, sizes)
  {
    var results: seq<Report> := [];
    for i := 0 to |actors|
      invariant |results| == i && forall j :: 0 <= j < i ==> results[j] == ActorReport(actors[j], counts[j])
    {
      var out := MergeMicroMetrics(actors[i]);
      results := results + [AsReport(out[MICRO_COUNT := counts[i] as real])];
    }
    assert results == ActorReports(actors, counts);
    var merged := MergeMetrics(results, Some(sizes));
    metrics := map k | k in merged && Tagged(k) :: merged[k];
  }

  // ---------- The merges, key by key ----------

  lemma IsMeanExactly(k: string)
    ensures IsMean(k) <==> exists stem :: k == stem + ":mean"
  {
    if IsMean(k) {
      assert k == k[..|k| - 5] + ":mean";
    }
    if stem :| k == stem + ":mean" {
      assert k[|k| - 5..] == ":mean";
    }
  }

  // The i-th report has this number under the key.
  ghost predicate Reported(reports: seq<Report>, k: string, xs: seq<real>) {
    |xs| == |reports| && forall i :: 0 <= i < |reports| ==> k in reports[i] && reports[i][k] == Num(xs[i])
  }

  // "stem:mean" is averaged over the micro-batches, any other key summed.
  lemma MicroMergeSays(reports: seq<Report>, k: string, xs: seq<real>)
    requires Reported(reports, k, xs) && xs != []
    ensures k in MicroMerge(reports)
    ensures IsMean(k) ==> MicroMerge(reports)[k] == SumReals(xs) / |xs| as real
    ensures !IsMean(k) ==> MicroMerge(reports)[k] == SumReals(xs)
  {
    ReportedValues(reports, k, xs);
    KeysHaveValues(reports, k);
  }

  lemma {:induction false} ReportedValues(reports: seq<Report>, k: string, xs: seq<real>)
    requires Reported(reports, k, xs)
    ensures Values(reports, k) == xs
  {
    if reports != [] {
      ReportedValues(reports[..|reports| - 1], k, xs[..|xs| - 1]);
    }
  }

  // Each number as often as its shard has rows.
  function Weighted(xs: seq<real>, sizes: seq<nat>): real
    requires |xs| == |sizes|
  {
    if xs == [] then 0.0 else Weighted(xs[..|xs| - 1], sizes[..|sizes| - 1]) + xs[|xs| - 1] * sizes[|sizes| - 1] as real
  }

  function Count(sizes: seq<nat>): nat {
    if sizes == [] then 0 else Count(sizes[..|sizes| - 1]) + sizes[|sizes| - 1]
  }

  // Over shards, "stem:mean" is averaged by shard size, any other key summed.
  lemma ShardMergeSays(reports: seq<Report>, sizes: seq<nat>, k: string, xs: seq<real>)
    requires Reported(reports, k, xs) && xs != [] && |sizes| == |xs|
    ensures k in ShardMerge(reports, Some(sizes))
    ensures IsMean(k) ==>
              ShardMerge(reports, Some(sizes))[k] == if Count(sizes) == 0 then 0.0 else Weighted(xs, sizes) / Count(sizes) as real
    ensures !IsMean(k) ==> ShardMerge(reports, Some(sizes))[k] == SumReals(xs)
  {
    ReportedValues(reports, k, xs);
    KeysHaveValues(reports, k);
    ReportedAcc(reports, sizes, k, xs);
  }

  lemma {:induction false} ReportedAcc(reports: seq<Report>, sizes: seq<nat>, k: string, xs: seq<real>)
    requires Reported(reports, k, xs) && |sizes| == |xs|
    ensures WeightedSum(reports, Some(sizes), k) == Acc(Weighted(xs, sizes), Count(sizes) as real)
  {
    if reports != [] {
      var n := |reports| - 1;
      ReportedAcc(reports[..n], sizes[..n], k, xs[..n]);
      WeightPrefix(reports[..n], sizes, n, k);
    }
  }

  // A request: every actor merges its micro-batches, then the actors are merged; keys
  // without a colon are dropped.
  lemma RequestSays(actors: seq<seq<Report>>, counts: seq<nat>, sizes: seq<nat>, k: string, xss: seq<seq<real>>, xs: seq<real>)
    requires |counts| == |actors| == |xss| == |sizes| == |xs| > 0 && ':' in k
    requires forall i :: 0 <= i < |actors| ==> xss[i] != [] && Reported(actors[i], k, xss[i])
    requires forall i :: 0 <= i < |actors| ==> xs[i] == if IsMean(k) then SumReals(xss[i]) / |xss[i]| as real else SumReals(xss[i])
    ensures k in RequestMetrics(actors, counts, sizes)
    ensures RequestMetrics(actors, counts, sizes)[k]
         == if !IsMean(k) then SumReals(xs) else if Count(sizes) == 0 then 0.0 else Weighted(xs, sizes) / Count(sizes) as real
  {
    var reports := ActorReports(actors, counts);
    ActorsReport(actors, counts, k, xss, reports, xs);
    ShardMergeSays(reports, sizes, k, xs);
    RequestIsMerged(actors, counts, sizes, k);
  }

  lemma RequestIsMerged(actors: seq<seq<Report>>, counts: seq<nat>, sizes: seq<nat>, k: string)
    requires |counts| == |actors| && ':' in k && k in ShardMerge(ActorReports(actors, counts), Some(sizes))
    ensures k in RequestMetrics(actors, counts, sizes)
    ensures RequestMetrics(actors, counts, sizes)[k] == ShardMerge(ActorReports(actors, counts), Some(sizes))[k]
  {
  }

  lemma ActorsReport(actors: seq<seq<Report>>, counts: seq<nat>, k: string, xss: seq<seq<real>>, reports: seq<Report>, xs: seq<real>)
    requires |actors| == |counts| == |xss| == |reports| == |xs| && ':' in k
    requires forall i :: 0 <= i < |actors| ==> xss[i] != [] && Reported(actors[i], k, xss[i])
    requires forall i :: 0 <= i < |actors| ==> reports[i] == ActorReport(actors[i], counts[i]) && xs[i] == MicroValue(xss[i], IsMean(k))
    ensures Reported(reports, k, xs)
  {
    forall i | 0 <= i < |reports|
      ensures k in reports[i] && reports[i][k] == Num(xs[i])
    {
      ActorReportSays(actors[i], counts[i], k, xss[i]);
    }
  }

  lemma ActorReportSays(micros: seq<Report>, count: nat, k: string, xs: seq<real>)
    requires Reported(micros, k, xs) && xs != [] && ':' in k
    ensures k in ActorReport(micros, count)
    ensures ActorReport(micros, count)[k] == Num(MicroValue(xs, IsMean(k)))
  {
    ReportedValues(micros, k, xs);
    KeysHaveValues(micros, k);
    CountIsUntagged(k);
    var merged := MicroMerge(micros);
    assert merged[MICRO_COUNT := count as real][k] == merged[k];
  }

  lemma CountIsUntagged(k: string)
    requires ':' in k
    ensures k != MICRO_COUNT
  {
    assert ':' !in MICRO_COUNT;
  }

  lemma UntaggedKeysDrop(actors: seq<seq<Report>>, counts: seq<nat>, sizes: seq<nat>)
    requires |counts| == |actors|
    ensures forall k :: k in RequestMetrics(actors, counts, sizes) ==> ':' in k
  {
  }

  // ---------- What the numbers mean: one real per row ----------

  function RowMean(rows: seq<real>): real
    requires rows != []
  {
    SumReals(rows) / |rows| as real
  }

  // The reduction a key declares, over the rows it describes.
  function Reduce(key: string, rows: seq<real>): real
    requires rows != []
  {
    if IsMean(key) then RowMean(rows) else SumReals(rows)
  }

  // Report j is the declared reduction of micro-batch j.
  ghost predicate Describes(key: string, reports: seq<Report>, parts: seq<seq<real>>) {
    && |reports| == |parts|
    && forall j :: 0 <= j < |parts| ==>
                     parts[j] != [] && Has(reports[j], key) && reports[j][key].x == Reduce(key, parts[j])
  }

  lemma {:induction false} SumRealsAppend(xs: seq<real>, ys: seq<real>)
    ensures SumReals(xs + ys) == SumReals(xs) + SumReals(ys)
  {
    if ys == [] {
      assert xs + ys == xs;
    } else {
      assert (xs + ys)[..|xs + ys| - 1] == xs + ys[..|ys| - 1];
      SumRealsAppend(xs, ys[..|ys| - 1]);
    }
  }

  ghost predicate Carries(key: string, reports: seq<Report>, xs: seq<real>) {
    |reports| == |xs| && forall j :: 0 <= j < |xs| ==> Has(reports[j], key) && reports[j][key].x == xs[j]
  }

  lemma {:induction false} CarriedValues(key: string, reports: seq<Report>, xs: seq<real>)
    requires Carries(key, reports, xs)
    ensures Values(reports, key) == xs
    ensures xs != [] ==> key in NumericKeys(reports)
  {
    if xs != [] {
      var n := |xs| - 1;
      CarriedValues(key, reports[..n], xs[..n]);
      assert xs == xs[..n] + [xs[n]];
    }
  }

  lemma {:induction false} SumOfSums(parts: seq<seq<real>>, xs: seq<real>)
    requires |xs| == |parts| && forall j :: 0 <= j < |parts| ==> xs[j] == SumReals(parts[j])
    ensures SumReals(xs) == SumReals(Flatten(parts))
  {
    if parts != [] {
      var n := |parts| - 1;
      SumOfSums(parts[..n], xs[..n]);
      SumRealsAppend(Flatten(parts[..n]), parts[n]);
    }
  }

  // Unweighted averaging is exact when every part has the same size.
  lemma {:induction false} SumOfMeans(parts: seq<seq<real>>, xs: seq<real>, mb: nat)
    requires |xs| == |parts|
    requires forall j :: 0 <= j < |parts| ==> Scale(xs[j], mb) == SumReals(parts[j])
    ensures Scale(SumReals(xs), mb) == SumReals(Flatten(parts))
  {
    if parts == [] {
      ScaleIsProduct(0.0, mb);
    } else {
      var n := |parts| - 1;
      SumOfMeans(parts[..n], xs[..n], mb);
      SumRealsAppend(Flatten(parts[..n]), parts[n]);
      ScaleAdds(SumReals(xs[..n]), xs[n], mb);
    }
  }

  lemma {:induction false} EqualLengths(parts: seq<seq<real>>, mb: nat)
    requires forall j :: 0 <= j < |parts| ==> |parts[j]| == mb
    ensures |Flatten(parts)| == |parts| * mb
  {
    if parts != [] {
      EqualLengths(parts[..|parts| - 1], mb);
    }
  }

  // x added to itself n times.
  function Scale(x: real, n: nat): real {
    if n == 0 then 0.0 else Scale(x, n - 1) + x
  }

  lemma {:induction false} ScaleAdds(x: real, y: real, n: nat)
    ensures Scale(x + y, n) == Scale(x, n) + Scale(y, n)
  {
    if n > 0 {
      ScaleAdds(x, y, n - 1);
    }
  }

  lemma {:induction false} ScaleIsProduct(x: real, n: nat)
    ensures Scale(x, n) == x * n as real
  {
    if n > 0 {
      ScaleIsProduct(x, n - 1);
      OneMore(x, (n - 1) as real);
      assert n as real == (n - 1) as real + 1.0;
    }
  }

  lemma OneMore(x: real, y: real)
    ensures x * (y + 1.0) == x * y + x
  {
  }

  lemma MeanTimesSize(rows: seq<real>)
    requires rows != []
    ensures Scale(RowMean(rows), |rows|) == SumReals(rows)
  {
    ScaleIsProduct(RowMean(rows), |rows|);
  }

  // Weighted averaging is exact for parts of any size.
  lemma {:induction false} WeightedMeans(key: string, reports: seq<Report>, parts: seq<seq<real>>, xs: seq<real>, sizes: seq<nat>)
    requires Carries(key, reports, xs) && |sizes| == |parts| == |xs|
    requires forall j :: 0 <= j < |parts| ==> sizes[j] == |parts[j]| && Scale(xs[j], |parts[j]|) == SumReals(parts[j])
    ensures WeightedSum(reports, Some(sizes), key) == Acc(SumReals(Flatten(parts)), |Flatten(parts)| as real)
  {
    if parts != [] {
      var n := |parts| - 1;
      WeightedMeans(key, reports[..n], parts[..n], xs[..n], sizes[..n]);
      WeightPrefix(reports[..n], sizes, n, key);
      SumRealsAppend(Flatten(parts[..n]), parts[n]);
      WeightedStep(WeightedSum(reports[..n], Some(sizes), key), reports[n], key, sizes[n]);
    }
  }

  lemma WeightedStep(acc: Acc, m: Report, key: string, n: nat)
    requires Has(m, key)
    ensures Added(acc, m, n as real, key) == Acc(acc.sum + Scale(m[key].x, n), acc.weight + n as real)
  {
    ScaleIsProduct(m[key].x, n);
  }

  lemma {:induction false} WeightPrefix(reports: seq<Report>, sizes: seq<nat>, n: nat, key: string)
    requires |reports| <= n <= |sizes|
    ensures WeightedSum(reports, Some(sizes), key) == WeightedSum(reports, Some(sizes[..n]), key)
  {
    if reports != [] {
      WeightPrefix(reports[..|reports| - 1], sizes, n, key);
    }
  }

  // The micro-batches an actor cuts its shard into all have one size, so its
  // unweighted merge is the declared reduction of the whole shard.
  lemma ActorReportDescribesShard(key: string, rows: seq<real>, eff: Option<int>, reports: seq<Report>, count: nat)
    requires Tagged(key) && rows != []
    requires Describes(key, reports, Micros(rows, ActorMicroSize(|rows|, eff)))
    ensures Has(ActorReport(reports, count), key) && ActorReport(reports, count)[key].x == Reduce(key, rows)
  {
    var mb := ActorMicroSize(|rows|, eff);
    var parts := Micros(rows, mb);
    MicrosCover(rows, mb);
    var xs := DescribedValues(key, reports, parts);
    ActorReportValue(key, reports, xs, count);
    ShardValue(key, rows, mb, parts, xs);
  }

  lemma ShardValue(key: string, rows: seq<real>, mb: nat, parts: seq<seq<real>>, xs: seq<real>)
    requires rows != [] && mb > 0 && |rows| % mb == 0 && parts == Micros(rows, mb) && Flatten(parts) == rows && |xs| == |parts| > 0
    requires IsMean(key) ==> forall j :: 0 <= j < |parts| ==> Scale(xs[j], |parts[j]|) == SumReals(parts[j])
    requires !IsMean(key) ==> forall j :: 0 <= j < |parts| ==> xs[j] == SumReals(parts[j])
    ensures MicroValue(xs, IsMean(key)) == Reduce(key, rows)
  {
    if IsMean(key) {
      MicrosDivide(rows, mb);
      EqualParts(rows, parts, xs, mb);
    } else {
      SumOfSums(parts, xs);
    }
  }

  lemma ActorReportValue(key: string, reports: seq<Report>, xs: seq<real>, count: nat)
    requires Tagged(key) && Carries(key, reports, xs) && xs != []
    ensures Has(ActorReport(reports, count), key) && ActorReport(reports, count)[key].x == MicroValue(xs, IsMean(key))
  {
    CarriedValues(key, reports, xs);
    CountIsUntagged(key);
  }

  lemma EqualParts(rows: seq<real>, parts: seq<seq<real>>, xs: seq<real>, mb: nat)
    requires rows != [] && mb > 0 && Flatten(parts) == rows && |xs| == |parts| > 0
    requires forall j :: 0 <= j < |parts| ==> |parts[j]| == mb && Scale(xs[j], |parts[j]|) == SumReals(parts[j])
    ensures SumReals(xs) / |xs| as real == RowMean(rows)
  {
    SumOfMeans(parts, xs, mb);
    EqualLengths(parts, mb);
    MeanOfEqualParts(SumReals(xs), SumReals(rows), mb, |parts|, |rows|);
  }

  lemma DescribedValues(key: string, reports: seq<Report>, parts: seq<seq<real>>) returns (xs: seq<real>)
    requires Describes(key, reports, parts)
    ensures |xs| == |parts| && Carries(key, reports, xs)
    ensures IsMean(key) ==> forall j :: 0 <= j < |parts| ==> Scale(xs[j], |parts[j]|) == SumReals(parts[j])
    ensures !IsMean(key) ==> forall j :: 0 <= j < |parts| ==> xs[j] == SumReals(parts[j])
  {
    xs := seq(|parts|, j requires 0 <= j < |parts| && Has(reports[j], key) => reports[j][key].x);
    if IsMean(key) {
      forall j | 0 <= j < |parts|
        ensures Scale(xs[j], |parts[j]|) == SumReals(parts[j])
      {
        MeanTimesSize(parts[j]);
      }
    }
  }

  lemma MeanOfEqualParts(sum: real, total: real, mb: nat, n: nat, len: nat)
    requires n > 0 && mb > 0 && len == n * mb && Scale(sum, mb) == total
    ensures sum / n as real == total / len as real
  {
    ScaleIsProduct(sum, mb);
    QuotientCancels(sum, n as real, mb as real);
    assert len as real == n as real * mb as real;
  }

  lemma QuotientCancels(x: real, n: real, m: real)
    requires n > 0.0 && m > 0.0
    ensures x / n == x * m / (n * m)
  {
    assert x / n * (n * m) == x * m;
  }

  // Both merges together are the flat reduction over all rows of the request.
  lemma TwoLevelMergeIsFlat(key: string, shards: seq<seq<real>>, eff: Option<int>, actors: seq<seq<Report>>, counts: seq<nat>, sizes: seq<nat>)
    requires Tagged(key) && |shards| > 0 && |actors| == |counts| == |sizes| == |shards|
    requires forall i :: 0 <= i < |shards| ==> shards[i] != [] && sizes[i] == |shards[i]|
    requires forall i :: 0 <= i < |shards| ==> Describes(key, actors[i], Micros(shards[i], ActorMicroSize(|shards[i]|, eff)))
    ensures Flatten(shards) != []
    ensures key in RequestMetrics(actors, counts, sizes)
    ensures RequestMetrics(actors, counts, sizes)[key] == Reduce(key, Flatten(shards))
  {
    var results := seq(|actors|, i requires 0 <= i < |actors| => ActorReport(actors[i], counts[i]));
    forall i | 0 <= i < |shards|
      ensures Has(results[i], key) && results[i][key].x == Reduce(key, shards[i])
    {
      ActorReportDescribesShard(key, shards[i], eff, actors[i], counts[i]);
    }
    assert Flatten(shards) == Flatten(shards[..|shards| - 1]) + shards[|shards| - 1];
    var xs := DescribedValues(key, results, shards);
    CarriedValues(key, results, xs);
    if IsMean(key) {
      WeightedMeans(key, results, shards, xs, sizes);
    } else {
      SumOfSums(shards, xs);
    }
  }

  // ---------- Why the guard is needed ----------

  // Unweighted averaging over slices of size mb is the row mean for all row
  // values exactly when the size divides the batch or is no smaller than it.
  lemma UnweightedMeanExactExactlyWhenSizeDivides(len: nat, mb: nat)
    requires len > 0 && mb > 0
    ensures (forall rows: seq<real> | |rows| == len :: UnweightedMean(rows, mb) == RowMean(rows))
              <==> len % mb == 0 || len <= mb
  {
    if len % mb == 0 || len <= mb {
      forall rows: seq<real> | |rows| == len
        ensures UnweightedMean(rows, mb) == RowMean(rows)
      {
        EqualSlices(rows, mb);
      }
    } else {
      var rows := seq(len, i => if i < mb then 1.0 else 0.0);
      UnevenSlices(rows, mb);
      assert UnweightedMean(rows, mb) != RowMean(rows);
    }
  }

  function UnweightedMean(rows: seq<real>, mb: nat): real
    requires rows != [] && mb > 0
  {
    RowMean(Means(Micros(rows, mb)))
  }

  function Means(parts: seq<seq<real>>): seq<real>
    requires forall j :: 0 <= j < |parts| ==> 0 < |parts[j]|
  {
    seq(|parts|, j requires 0 <= j < |parts| => RowMean(parts[j]))
  }

  lemma EqualSlices(rows: seq<real>, mb: nat)
    requires rows != [] && mb > 0 && (|rows| % mb == 0 || |rows| <= mb)
    ensures UnweightedMean(rows, mb) == RowMean(rows)
  {
    var size := if |rows| <= mb then |rows| else mb;
    var parts := Micros(rows, mb);
    MicrosCover(rows, mb);
    if |rows| > mb {
      MicrosDivide(rows, mb);
    }
    var xs := Means(parts);
    forall j | 0 <= j < |parts|
      ensures |parts[j]| == size && Scale(xs[j], |parts[j]|) == SumReals(parts[j])
    {
      MeanTimesSize(parts[j]);
    }
    EqualParts(rows, parts, xs, size);
  }

  // Ones in the first slice, zeros after it: averaging slice means over-weights a ragged last slice.
  lemma UnevenSlices(rows: seq<real>, mb: nat)
    requires 0 < mb < |rows| && |rows| % mb != 0
    requires forall i :: 0 <= i < |rows| ==> rows[i] == if i < mb then 1.0 else 0.0
    ensures UnweightedMean(rows, mb) != RowMean(rows)
  {
    var rest := rows[mb..];
    var xs := Means(Micros(rows, mb));
    OneThenZeros(rows[..mb], rest);
    assert rows == rows[..mb] + rest;
    ConstantMean(rows[..mb], 1.0);
    ZeroSlices(rest, mb);
    assert xs == [1.0] + Means(Micros(rest, mb));
    OneThenZeros([1.0], Means(Micros(rest, mb)));
    SlicesAreNotExact(|rows|, mb, |xs|);
  }

  lemma ZeroSlices(rest: seq<real>, mb: nat)
    requires mb > 0 && forall i :: 0 <= i < |rest| ==> rest[i] == 0.0
    ensures forall j :: 0 <= j < |Means(Micros(rest, mb))| ==> Means(Micros(rest, mb))[j] == 0.0
  {
    var parts := Micros(rest, mb);
    MicrosCover(rest, mb);
    forall j | 0 <= j < |parts|
      ensures RowMean(parts[j]) == 0.0
    {
      forall i | 0 <= i < |parts[j]|
        ensures parts[j][i] == 0.0
      {
        FlattenMember(parts, j, i);
      }
      ConstantMean(parts[j], 0.0);
    }
  }

  lemma OneThenZeros(ones: seq<real>, zeros: seq<real>)
    requires forall i :: 0 <= i < |ones| ==> ones[i] == 1.0
    requires forall i :: 0 <= i < |zeros| ==> zeros[i] == 0.0
    ensures SumReals(ones + zeros) == |ones| as real
  {
    ScaleIsProduct(1.0, |ones|);
    SumRealsAppend(ones, zeros);
    ConstantSum(ones, 1.0);
    ConstantSum(zeros, 0.0);
    ScaleIsProduct(0.0, |zeros|);
  }

  lemma {:induction false} ConstantSum(xs: seq<real>, c: real)
    requires forall i :: 0 <= i < |xs| ==> xs[i] == c
    ensures SumReals(xs) == Scale(c, |xs|)
  {
    if xs != [] {
      ConstantSum(xs[..|xs| - 1], c);
    }
  }

  lemma ConstantMean(xs: seq<real>, c: real)
    requires xs != [] && forall i :: 0 <= i < |xs| ==> xs[i] == c
    ensures RowMean(xs) == c
  {
    ConstantSum(xs, c);
    ScaleIsProduct(c, |xs|);
  }

  lemma {:induction false} FlattenMember<T>(xss: seq<seq<T>>, j: nat, i: nat)
    requires j < |xss| && i < |xss[j]|
    ensures xss[j][i] in Flatten(xss)
  {
    if j < |xss| - 1 {
      FlattenMember(xss[..|xss| - 1], j, i);
    }
  }

  lemma SlicesAreNotExact(len: nat, mb: nat, n: nat)
    requires n > 0 && len > 0 && mb > 0 && len % mb != 0
    ensures 1.0 / n as real != mb as real / len as real
  {
    if 1.0 / n as real == mb as real / len as real {
      assert len as real == n as real * mb as real == (n * mb) as real;
      DivUnique(len, mb, n, 0);
    }
  }
}
