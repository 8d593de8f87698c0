/** Benchmarking a target: scores of the cases, their aggregation in the order in which the
    cases happen to finish, gaps to a baseline, and the verdict. */
module Benchmark {
  import opened Wrappers
  import opened MapSum

  // ---------- Scoring one case ----------

  function Clamp(score: real): (r: real)
    ensures 0.0 <= r <= 100.0
    ensures 0.0 <= score <= 100.0 ==> r == score
  {
    if score < 0.0 then 0.0 else if score > 100.0 then 100.0 else score
  }

  datatype Scored = Scored(completed: bool, success: bool, score: real)

  const FAILED := Scored(false, false, 0.0)

  // What the parsers found in a response; None where there was no response to score.
  datatype Answer =
    | NoAnswer
    | Exact(matches: bool)
    | Json(parses: bool, animal: bool, count: bool)
    | ToolCall(matches: bool)
    | Stream(data: bool, done: bool, tokens: bool)
    | Judged(empty: bool, judge: Option<real>)

  // Nothing that was asked for is missing.
  predicate Perfect(a: Answer) {
    match a
    case NoAnswer => false
    case Exact(ok) => ok
    case Json(parses, animal, count) => parses && animal && count
    case ToolCall(ok) => ok
    case Stream(data, done, tokens) => data && done && tokens
    case Judged(empty, judge) => !empty && judge.Some? && judge.value >= 100.0
  }

  function Score(a: Answer): (r: Scored)
    ensures 0.0 <= r.score <= 100.0
    ensures r.score == 100.0 <==> Perfect(a)
    ensures r.success ==> r.completed && r.score >= 70.0
    ensures a.Stream? ==> (r.success <==> a.data && (a.done || a.tokens))
    ensures !a.Stream? && !a.Judged? ==> (r.success <==> Perfect(a))
    ensures !r.completed <==> a.NoAnswer? || (a.Judged? && !a.empty && a.judge.None?)
    ensures !r.completed ==> r.score == 0.0
  {
    match a
    case NoAnswer => FAILED
    case Exact(ok) => Scored(true, ok, if ok then 100.0 else 0.0)
    case Json(parses, animal, count) =>
      var score := if parses then (if animal then 50.0 else 0.0) + (if count then 50.0 else 0.0) else 0.0;
      Scored(true, score == 100.0, score)
    case ToolCall(ok) => Scored(true, ok, if ok then 100.0 else 0.0)
    case Stream(data, done, tokens) =>
      var score := (if data then 50.0 else 0.0) + (if done then 25.0 else 0.0) + (if tokens then 25.0 else 0.0);
      Scored(true, score >= 75.0, score)
    case Judged(empty, judge) =>
      if empty then Scored(true, false, 0.0)
      else match judge
        case None => FAILED
        case Some(score) => Scored(true, Clamp(score) >= 70.0, Clamp(score))
  }

  // What each part of an answer is worth.
  lemma {:induction false} ScoreMeans(parses: bool, first: bool, second: bool, judge: real)
    ensures Score(Json(parses, first, second)).score
         == if !parses then 0.0 else if first && second then 100.0 else if first || second then 50.0 else 0.0
    ensures Score(Stream(parses, first, second)).score
         == if parses then Score(Stream(false, first, second)).score + 50.0
            else if first && second then 50.0 else if first || second then 25.0 else 0.0
    ensures Score(Judged(false, Some(judge))).score == (if judge < 0.0 then 0.0 else if judge > 100.0 then 100.0 else judge)
    ensures Score(Judged(false, Some(judge))).success <==> judge >= 70.0
    ensures Score(Judged(true, Some(judge))) == Score(Judged(true, None)) == Scored(true, false, 0.0)
  {
  }

  // ---------- Aggregation ----------

  datatype Case = Case(id: string, dimension: string, kind: string, critical: bool)

  datatype Item = Item(completed: bool, score: real, prompt: int, cached: int, completion: int, cost: real, error: string)

  // A finished case. model: what the response reported, if there was one.
  datatype Arrival = Arrival(index: nat, item: Item, model: Option<string>)

  datatype Suite = Suite(cases: seq<Case>, weights: map<string, real>)

  predicate Fits(suite: Suite, arrivals: seq<Arrival>) {
    forall k :: 0 <= k < |arrivals| ==> arrivals[k].index < |suite.cases|
  }

  type Scores = map<string, seq<real>>

  datatype Tally = Tally(model: string, prompt: int, cached: int, completion: int, cost: real,
                         completed: int, critical: nat, scores: Scores, reasons: seq<string>)

  const NO_CASES := Tally("", 0, 0, 0, 0.0, 0, 0, map[], [])

  function ScoresIn(scores: Scores, dimension: string): seq<real> {
    if dimension in scores then scores[dimension] else []
  }

  function ReasonsOf(c: Case, item: Item): seq<string> {
    (if c.critical && item.score < 100.0 then ["critical_" + c.kind + "_failed"] else [])
    + (if item.error != "" then ["case_" + c.id + "_error"] else [])
  }

  function Counted(t: Tally, c: Case, a: Arrival): Tally {
    var item := a.item;
    Tally(if t.model == "" && a.model.Some? then a.model.value else t.model,
          t.prompt + item.prompt, t.cached + item.cached, t.completion + item.completion, t.cost + item.cost,
          t.completed + (if item.completed then 1 else 0),
          t.critical + (if c.critical && item.score < 100.0 then 1 else 0),
          t.scores[c.dimension := ScoresIn(t.scores, c.dimension) + [item.score]],
          t.reasons + ReasonsOf(c, item))
  }

  function TallyOf(suite: Suite, arrivals: seq<Arrival>): Tally
    requires Fits(suite, arrivals)
  {
    if arrivals == [] then NO_CASES
    else
      var n := |arrivals| - 1;
      assert forall k :: 0 <= k < n ==> arrivals[..n][k] == arrivals[k];
      Counted(TallyOf(suite, arrivals[..n]), suite.cases[arrivals[n].index], arrivals[n])
  }

  method CountIt(before: Tally, c: Case, a: Arrival) returns (t: Tally)
    ensures t == Counted(before, c, a)
  {
    t := before;
    var item := a.item;
    if a.model.Some? && t.model == "" {
      t := t.(model := a.model.value);
    }
    t := t.(prompt := t.prompt + item.prompt, cached := t.cached + item.cached,
            completion := t.completion + item.completion, cost := t.cost + item.cost);
    if item.completed {
      t := t.(completed := t.completed + 1);
    }
    t := t.(scores := t.scores[c.dimension := ScoresIn(t.scores, c.dimension) + [item.score]]);
    if c.critical && item.score < 100.0 {
      t := t.(critical := t.critical + 1, reasons := t.reasons + ["critical_" + c.kind + "_failed"]);
    }
    if item.error != "" {
      t := t.(reasons := t.reasons + ["case_" + c.id + "_error"]);
    }
    assert t.reasons == before.reasons + ReasonsOf(c, item);
  }

  // The loop over the results of one target, in the order in which the cases finished.
  method Aggregate(suite: Suite, arrivals: seq<Arrival>) returns (t: Tally)
    requires Fits(suite, arrivals)
    ensures t == TallyOf(suite, arrivals)
  {
    t := NO_CASES;
    for i := 0 to |arrivals|
      invariant Fits(suite, arrivals[..i]) && t == TallyOf(suite, arrivals[..i])
    {
      assert arrivals[..i + 1][..i] == arrivals[..i];
      t := CountIt(t, suite.cases[arrivals[i].index], arrivals[i]);
    }
    assert arrivals[..|arrivals|] == arrivals;
  }

  function SumOf(scores: seq<real>): real {
    if scores == [] then 0.0 else SumOf(scores[..|scores| - 1]) + scores[|scores| - 1]
  }

  function Average(scores: seq<real>): real {
    if scores == [] then 0.0 else SumOf(scores) / |scores| as real
  }

  function DimensionScores(suite: Suite, t: Tally): map<string, real> {
    map d | d in suite.weights :: Average(ScoresIn(t.scores, d))
  }

  // ---------- The order of arrival does not matter ----------

  type Measure = Arrival -> real

  function Total(f: Measure, arrivals: seq<Arrival>): real {
    if arrivals == [] then 0.0 else Total(f, arrivals[..|arrivals| - 1]) + f(arrivals[|arrivals| - 1])
  }

  lemma {:induction false} TotalWithout(f: Measure, arrivals: seq<Arrival>, i: nat)
    requires i < |arrivals|
    ensures Total(f, arrivals) == Total(f, arrivals[..i] + arrivals[i + 1..]) + f(arrivals[i])
    decreases |arrivals|
  {
    var n := |arrivals| - 1;
    if i < n {
      TotalWithout(f, arrivals[..n], i);
      var rest := arrivals[..i] + arrivals[i + 1..];
      assert rest[..n - 1] == arrivals[..n][..i] + arrivals[..n][i + 1..] && rest[n - 1] == arrivals[n];
    } else {
      assert arrivals[..i] + arrivals[i + 1..] == arrivals[..n];
    }
  }

  lemma {:induction false} SameWithout(a: seq<Arrival>, b: seq<Arrival>, i: nat)
    requires multiset(a) == multiset(b) && a != [] && i < |b| && b[i] == a[|a| - 1]
    ensures multiset(a[..|a| - 1]) == multiset(b[..i] + b[i + 1..])
  {
    var n := |a| - 1;
    assert a[..n] + a[n + 1..] == a[..n];
    RemoveAt(a, n);
    RemoveAt(b, i);
    Cancel(multiset(a[..n]), multiset(b[..i] + b[i + 1..]), a[n]);
  }

  lemma {:induction false} RemoveAt(s: seq<Arrival>, i: nat)
    requires i < |s|
    ensures multiset(s) == multiset(s[..i] + s[i + 1..]) + multiset{s[i]}
  {
    assert s == s[..i] + [s[i]] + s[i + 1..];
  }

  lemma {:induction false} Cancel(x: multiset<Arrival>, y: multiset<Arrival>, e: Arrival)
    requires x + multiset{e} == y + multiset{e}
    ensures x == y
  {
    assert x == x + multiset{e} - multiset{e};
  }

  // A total is the same for the same cases in any order.
  lemma {:induction false} TotalOfPermutation(f: Measure, a: seq<Arrival>, b: seq<Arrival>)
    requires multiset(a) == multiset(b)
    ensures Total(f, a) == Total(f, b)
    decreases |a|
  {
    if a == [] {
      assert |multiset(b)| == 0;
    } else {
      var n := |a| - 1;
      assert a[n] in multiset(b);
      var i :| 0 <= i < |b| && b[i] == a[n];
      SameWithout(a, b, i);
      TotalOfPermutation(f, a[..n], b[..i] + b[i + 1..]);
      TotalWithout(f, b, i);
    }
  }

  predicate InDimension(suite: Suite, a: Arrival, d: string) {
    a.index < |suite.cases| && suite.cases[a.index].dimension == d
  }

  function ScoreIn(suite: Suite, d: string): Measure {
    (a: Arrival) => if InDimension(suite, a, d) then a.item.score else 0.0
  }

  function CountIn(suite: Suite, d: string): Measure {
    (a: Arrival) => if InDimension(suite, a, d) then 1.0 else 0.0
  }

  function CriticalFailure(suite: Suite): Measure {
    (a: Arrival) => if a.index < |suite.cases| && suite.cases[a.index].critical && a.item.score < 100.0 then 1.0 else 0.0
  }

  // Every figure of the tally is a total over the arrivals.
  lemma {:induction false} TallyIsTotals(suite: Suite, arrivals: seq<Arrival>)
    requires Fits(suite, arrivals)
    ensures var t := TallyOf(suite, arrivals);
            && t.prompt as real == Total((a: Arrival) => a.item.prompt as real, arrivals)
            && t.cached as real == Total((a: Arrival) => a.item.cached as real, arrivals)
            && t.completion as real == Total((a: Arrival) => a.item.completion as real, arrivals)
            && t.cost == Total((a: Arrival) => a.item.cost, arrivals)
            && t.completed as real == Total((a: Arrival) => if a.item.completed then 1.0 else 0.0, arrivals)
            && t.critical as real == Total(CriticalFailure(suite), arrivals)
    decreases |arrivals|
  {
    if arrivals != [] {
      TallyIsTotals(suite, arrivals[..|arrivals| - 1]);
    }
  }

  lemma {:induction false} ScoresAreTotals(suite: Suite, arrivals: seq<Arrival>, d: string)
    requires Fits(suite, arrivals)
    ensures var scores := ScoresIn(TallyOf(suite, arrivals).scores, d);
            SumOf(scores) == Total(ScoreIn(suite, d), arrivals) && |scores| as real == Total(CountIn(suite, d), arrivals)
    decreases |arrivals|
  {
    if arrivals != [] {
      var n := |arrivals| - 1;
      ScoresAreTotals(suite, arrivals[..n], d);
      NextScore(TallyOf(suite, arrivals[..n]), suite.cases[arrivals[n].index], arrivals[n], d);
    }
  }

  lemma {:induction false} NextScore(t: Tally, c: Case, a: Arrival, d: string)
    ensures var before, after := ScoresIn(t.scores, d), ScoresIn(Counted(t, c, a).scores, d);
            && SumOf(after) == SumOf(before) + (if c.dimension == d then a.item.score else 0.0)
            && |after| == |before| + (if c.dimension == d then 1 else 0)
  {
    var before := ScoresIn(t.scores, d);
    assert (before + [a.item.score])[..|before|] == before;
  }

  predicate IsMean(mean: real, count: real, sum: real) {
    mean * count == sum && (count == 0.0 ==> mean == 0.0)
  }

  lemma {:induction false} AverageIsMean(scores: seq<real>)
    ensures IsMean(Average(scores), |scores| as real, SumOf(scores))
  {
  }

  // A dimension's score is the mean over its cases, and 0 where there was none.
  lemma {:induction false} DimensionScoreMeans(suite: Suite, arrivals: seq<Arrival>, d: string)
    requires Fits(suite, arrivals) && d in suite.weights
    ensures IsMean(DimensionScores(suite, TallyOf(suite, arrivals))[d], Total(CountIn(suite, d), arrivals), Total(ScoreIn(suite, d), arrivals))
  {
    ScoresAreTotals(suite, arrivals, d);
    AverageIsMean(ScoresIn(TallyOf(suite, arrivals).scores, d));
  }

  // Tokens, cost, completion, failures and all dimension scores are the same in any order.
  lemma {:induction false} OrderDoesNotMatter(suite: Suite, a: seq<Arrival>, b: seq<Arrival>)
    requires Fits(suite, a) && Fits(suite, b) && multiset(a) == multiset(b)
    ensures var s, t := TallyOf(suite, a), TallyOf(suite, b);
            && s.prompt == t.prompt && s.cached == t.cached && s.completion == t.completion && s.cost == t.cost
            && s.completed == t.completed && s.critical == t.critical
            && DimensionScores(suite, s) == DimensionScores(suite, t)
  {
    TallyIsTotals(suite, a);
    TallyIsTotals(suite, b);
    TotalOfPermutation((a: Arrival) => a.item.prompt as real, a, b);
    TotalOfPermutation((a: Arrival) => a.item.cached as real, a, b);
    TotalOfPermutation((a: Arrival) => a.item.completion as real, a, b);
    TotalOfPermutation((a: Arrival) => a.item.cost, a, b);
    TotalOfPermutation((a: Arrival) => if a.item.completed then 1.0 else 0.0, a, b);
    TotalOfPermutation(CriticalFailure(suite), a, b);
    forall d | d in suite.weights
      ensures Average(ScoresIn(TallyOf(suite, a).scores, d)) == Average(ScoresIn(TallyOf(suite, b).scores, d))
    {
      ScoresAreTotals(suite, a, d);
      ScoresAreTotals(suite, b, d);
      TotalOfPermutation(ScoreIn(suite, d), a, b);
      TotalOfPermutation(CountIn(suite, d), a, b);
    }
  }

  // The code is that of a critical case that scored less than a hundred, or of an error.
  predicate Accuses(suite: Suite, a: Arrival, code: string) {
    a.index < |suite.cases| && var c := suite.cases[a.index];
    || (c.critical && a.item.score < 100.0 && code == "critical_" + c.kind + "_failed")
    || (a.item.error != "" && code == "case_" + c.id + "_error")
  }

  // The codes of the reasons are the same too, if not their order.
  lemma {:induction false} ReasonsComeFromArrivals(suite: Suite, arrivals: seq<Arrival>, code: string)
    requires Fits(suite, arrivals)
    ensures code in TallyOf(suite, arrivals).reasons <==> exists a :: a in arrivals && Accuses(suite, a, code)
    decreases |arrivals|
  {
    if arrivals != [] {
      var n := |arrivals| - 1;
      ReasonsComeFromArrivals(suite, arrivals[..n], code);
      assert code in ReasonsOf(suite.cases[arrivals[n].index], arrivals[n].item) <==> Accuses(suite, arrivals[n], code);
      assert arrivals == arrivals[..n] + [arrivals[n]];
      assert forall a :: a in arrivals <==> a in arrivals[..n] || a == arrivals[n];
    }
  }

  lemma {:induction false} ReasonsInAnyOrder(suite: Suite, a: seq<Arrival>, b: seq<Arrival>, code: string)
    requires Fits(suite, a) && Fits(suite, b) && multiset(a) == multiset(b)
    ensures code in TallyOf(suite, a).reasons <==> code in TallyOf(suite, b).reasons
  {
    ReasonsComeFromArrivals(suite, a, code);
    ReasonsComeFromArrivals(suite, b, code);
    assert forall x :: x in a <==> x in multiset(a);
    assert forall x :: x in b <==> x in multiset(b);
  }

  // The first response to report a model gives the effective one.
  lemma {:induction false} FirstReportedModel(suite: Suite, arrivals: seq<Arrival>, k: nat)
    requires Fits(suite, arrivals) && k <= |arrivals| && (k < |arrivals| ==> Names(arrivals[k]))
    requires forall j :: 0 <= j < k ==> !Names(arrivals[j])
    ensures TallyOf(suite, arrivals).model == if k < |arrivals| then arrivals[k].model.value else ""
    decreases |arrivals|
  {
    if arrivals != [] {
      var n := |arrivals| - 1;
      FirstReportedModel(suite, arrivals[..n], if k < n then k else n);
    }
  }

  // All responses that name a model name this one.
  predicate OneModel(arrivals: seq<Arrival>, model: string) {
    forall k :: 0 <= k < |arrivals| ==> arrivals[k].model in {None, Some(""), Some(model)}
  }

  lemma {:induction false} ModelOfArrivals(suite: Suite, arrivals: seq<Arrival>, model: string)
    requires Fits(suite, arrivals) && OneModel(arrivals, model) && model != ""
    ensures TallyOf(suite, arrivals).model == if exists a :: a in arrivals && a.model == Some(model) then model else ""
    decreases |arrivals|
  {
    if arrivals != [] {
      var n := |arrivals| - 1;
      ModelOfArrivals(suite, arrivals[..n], model);
      assert arrivals == arrivals[..n] + [arrivals[n]];
      assert forall a :: a in arrivals <==> a in arrivals[..n] || a == arrivals[n];
    }
  }

  // The effective model does not depend on the order where all responses agree on it ...
  lemma {:induction false} ModelInAnyOrder(suite: Suite, a: seq<Arrival>, b: seq<Arrival>, model: string)
    requires Fits(suite, a) && Fits(suite, b) && multiset(a) == multiset(b) && OneModel(a, model) && model != ""
    ensures TallyOf(suite, a).model == TallyOf(suite, b).model
  {
    assert forall x :: x in a <==> x in multiset(a);
    assert forall x :: x in b <==> x in multiset(b);
    forall k | 0 <= k < |b| ensures b[k].model in {None, Some(""), Some(model)} {
      assert b[k] in a;
    }
    ModelOfArrivals(suite, a, model);
    ModelOfArrivals(suite, b, model);
  }

  // The response reports a model.
  predicate Names(a: Arrival) {
    a.model.Some? && a.model.value != ""
  }

  // All responses that report a model report the same one.
  predicate Agreeing(arrivals: seq<Arrival>) {
    forall i, j :: 0 <= i < |arrivals| && 0 <= j < |arrivals| && Names(arrivals[i]) && Names(arrivals[j]) ==>
      arrivals[i].model == arrivals[j].model
  }

  lemma {:induction false} FrontNamesIt(suite: Suite, arrivals: seq<Arrival>)
    requires Fits(suite, arrivals) && arrivals != [] && Names(arrivals[0])
    ensures TallyOf(suite, arrivals).model == arrivals[0].model.value
    decreases |arrivals|
  {
    var n := |arrivals| - 1;
    if n == 0 {
      assert arrivals[..0] == [];
    } else {
      FrontNamesIt(suite, arrivals[..n]);
    }
  }

  function ToFront(arrivals: seq<Arrival>, i: nat): seq<Arrival>
    requires i < |arrivals|
  {
    [arrivals[i]] + (arrivals[..i] + arrivals[i + 1..])
  }

  // With the i-th case first to finish, its model is the effective one.
  lemma {:induction false} FirstToFinishNamesIt(suite: Suite, arrivals: seq<Arrival>, i: nat)
    requires Fits(suite, arrivals) && i < |arrivals| && Names(arrivals[i])
    ensures var b := ToFront(arrivals, i);
            multiset(b) == multiset(arrivals) && Fits(suite, b) && TallyOf(suite, b).model == arrivals[i].model.value
  {
    var b := ToFront(arrivals, i);
    RemoveAt(arrivals, i);
    assert multiset(b) == multiset{arrivals[i]} + multiset(arrivals[..i] + arrivals[i + 1..]);
    FrontNamesIt(suite, b);
  }

  ghost predicate SameModelInAnyOrder(suite: Suite, a: seq<Arrival>)
    requires Fits(suite, a)
  {
    forall b | Fits(suite, b) && multiset(b) == multiset(a) :: TallyOf(suite, b).model == TallyOf(suite, a).model
  }

  lemma {:induction false} AgreeingIsOneModel(a: seq<Arrival>) returns (model: string)
    requires Agreeing(a)
    ensures model != "" && OneModel(a, model)
  {
    if i :| 0 <= i < |a| && Names(a[i]) {
      model := a[i].model.value;
    } else {
      model := "none";
    }
    forall k | 0 <= k < |a| ensures a[k].model in {None, Some(""), Some(model)} {
      assert a[k].model.Some? && !Names(a[k]) ==> a[k].model == Some("");
    }
  }

  // The effective model is the same in all orders of arrival exactly when all responses that
  // report a model agree on it.
  lemma {:induction false} ModelInAnyOrderIff(suite: Suite, a: seq<Arrival>)
    requires Fits(suite, a)
    ensures SameModelInAnyOrder(suite, a) <==> Agreeing(a)
  {
    if Agreeing(a) {
      var model := AgreeingIsOneModel(a);
      forall b | Fits(suite, b) && multiset(b) == multiset(a) ensures TallyOf(suite, b).model == TallyOf(suite, a).model {
        ModelInAnyOrder(suite, a, b, model);
      }
    }
    if SameModelInAnyOrder(suite, a) {
      forall i | 0 <= i < |a| && Names(a[i]) ensures a[i].model.value == TallyOf(suite, a).model {
        FirstToFinishNamesIt(suite, a, i);
      }
    }
  }

  // Where two responses differ, either can be the one whose model is reported.
  lemma {:induction false} ModelDependsOnOrder(suite: Suite, a: seq<Arrival>, i: nat, j: nat)
    requires Fits(suite, a) && i < |a| && j < |a| && Names(a[i]) && Names(a[j]) && a[i].model != a[j].model
    ensures var b, c := ToFront(a, i), ToFront(a, j);
            && multiset(b) == multiset(a) == multiset(c) && Fits(suite, b) && Fits(suite, c)
            && TallyOf(suite, b).model != TallyOf(suite, c).model
  {
    FirstToFinishNamesIt(suite, a, i);
    FirstToFinishNamesIt(suite, a, j);
  }

  // ---------- Weighted averages and gaps stay in 0..100 ----------

  datatype Weighted = Weighted(value: real, weight: real)

  function Weight(w: Weighted): real {
    w.weight
  }

  function Product(w: Weighted): real {
    w.value * w.weight
  }

  function Hundredfold(w: Weighted): real {
    100.0 * w.weight
  }

  function WithWeights(values: map<string, real>, weights: map<string, real>): map<string, Weighted> {
    map k | k in weights :: Weighted(if k in values then values[k] else 0.0, weights[k])
  }

  ghost function AverageOf(m: map<string, Weighted>): real {
    if SumOver(m, Weight) == 0.0 then 0.0 else SumOver(m, Product) / SumOver(m, Weight)
  }

  method WeightedAverage(values: map<string, real>, weights: map<string, real>) returns (average: real)
    ensures average == AverageOf(WithWeights(values, weights))
  {
    var m := WithWeights(values, weights);
    average := AverageBy(m);
  }

  // The loop over a dictionary, in whatever order it comes.
  method AverageBy(m: map<string, Weighted>) returns (average: real)
    ensures average == AverageOf(m)
  {
    var total, weightSum, rest := 0.0, 0.0, m;
    while rest != map[]
      invariant rest.Keys <= m.Keys
      invariant total + SumOver(rest, Product) == SumOver(m, Product)
      invariant weightSum + SumOver(rest, Weight) == SumOver(m, Weight)
      decreases |rest|
    {
      var keys := rest.Keys;
      var k :| k in keys;
      TakeOut(rest, Product, k);
      TakeOut(rest, Weight, k);
      Smaller(rest, k);
      total, weightSum := total + Product(rest[k]), weightSum + Weight(rest[k]);
      rest := rest - {k};
    }
    average := if weightSum == 0.0 then 0.0 else total / weightSum;
  }

  // Each dimension adds its value, or 0 where it has none, times its weight; the average is the
  // whole of that over the whole of the weights.
  lemma {:induction false} AverageSplits(values: map<string, real>, weights: map<string, real>, k: string)
    requires k in weights
    ensures var m, rest := WithWeights(values, weights), WithWeights(values, weights - {k});
            && SumOver(m, Product) == (if k in values then values[k] else 0.0) * weights[k] + SumOver(rest, Product)
            && SumOver(m, Weight) == weights[k] + SumOver(rest, Weight)
            && (SumOver(m, Weight) != 0.0 ==> AverageOf(m) * SumOver(m, Weight) == SumOver(m, Product))
            && (SumOver(m, Weight) == 0.0 ==> AverageOf(m) == 0.0)
  {
    var m := WithWeights(values, weights);
    TakeOut(m, Product, k);
    TakeOut(m, Weight, k);
    assert m - {k} == WithWeights(values, weights - {k});
  }

  predicate InRange(m: map<string, Weighted>) {
    forall k :: k in m ==> 0.0 <= m[k].value <= 100.0 && 0.0 <= m[k].weight
  }

  lemma {:induction false} SumHundredfold(m: map<string, Weighted>)
    ensures SumOver(m, Hundredfold) == 100.0 * SumOver(m, Weight)
    decreases |m|
  {
    if m != map[] {
      var k :| k in m;
      Smaller(m, k);
      TakeOut(m, Hundredfold, k);
      TakeOut(m, Weight, k);
      SumHundredfold(m - {k});
    }
  }

  lemma {:induction false} SumNotNegative(m: map<string, Weighted>, f: Weighted -> real)
    requires forall k :: k in m ==> f(m[k]) >= 0.0
    ensures SumOver(m, f) >= 0.0
    decreases |m|
  {
    if m != map[] {
      var k :| k in m;
      Smaller(m, k);
      TakeOut(m, f, k);
      SumNotNegative(m - {k}, f);
    }
  }

  lemma {:induction false} ProductBounds(w: Weighted)
    requires 0.0 <= w.value <= 100.0 && 0.0 <= w.weight
    ensures 0.0 <= Product(w) <= Hundredfold(w)
  {
    TimesBounds(w.value, w.weight);
    assert Hundredfold(w) - Product(w) == (100.0 - w.value) * w.weight;
  }

  lemma {:induction false} TimesNotNegative(x: real, y: real)
    requires 0.0 <= x && 0.0 <= y
    ensures 0.0 <= x * y
  {
  }

  lemma {:induction false} TimesBounds(x: real, y: real)
    requires 0.0 <= x <= 100.0 && 0.0 <= y
    ensures 0.0 <= x * y && 0.0 <= (100.0 - x) * y
  {
    TimesNotNegative(x, y);
    TimesNotNegative(100.0 - x, y);
  }

  lemma {:induction false} QuotientBounds(x: real, y: real)
    requires 0.0 <= x <= 100.0 * y && y > 0.0
    ensures 0.0 <= x / y <= 100.0
  {
  }

  lemma {:induction false} AverageStaysInRange(m: map<string, Weighted>)
    requires InRange(m)
    ensures 0.0 <= AverageOf(m) <= 100.0
  {
    forall k | k in m ensures 0.0 <= Product(m[k]) <= Hundredfold(m[k]) {
      ProductBounds(m[k]);
    }
    SumAtMost(m, Product, Hundredfold);
    SumHundredfold(m);
    SumNotNegative(m, Product);
    SumNotNegative(m, Weight);
    if SumOver(m, Weight) != 0.0 {
      QuotientBounds(SumOver(m, Product), SumOver(m, Weight));
    }
  }

  lemma {:induction false} SumBounds(scores: seq<real>)
    requires forall i :: 0 <= i < |scores| ==> 0.0 <= scores[i] <= 100.0
    ensures 0.0 <= SumOf(scores) <= 100.0 * |scores| as real
    ensures 0.0 <= Average(scores) <= 100.0
    decreases |scores|
  {
    if scores != [] {
      SumBounds(scores[..|scores| - 1]);
      QuotientBounds(SumOf(scores), |scores| as real);
    }
  }

  predicate ScoresInRange(scores: Scores) {
    forall d, i :: d in scores && 0 <= i < |scores[d]| ==> 0.0 <= scores[d][i] <= 100.0
  }

  lemma {:induction false} TallyInRange(suite: Suite, arrivals: seq<Arrival>)
    requires Fits(suite, arrivals) && forall k :: 0 <= k < |arrivals| ==> 0.0 <= arrivals[k].item.score <= 100.0
    ensures ScoresInRange(TallyOf(suite, arrivals).scores)
    decreases |arrivals|
  {
    if arrivals != [] {
      TallyInRange(suite, arrivals[..|arrivals| - 1]);
    }
  }

  // Whatever the cases score within 0..100, every dimension and the overall score do too.
  lemma {:induction false} AllScoresInRange(suite: Suite, arrivals: seq<Arrival>)
    requires Fits(suite, arrivals) && forall k :: 0 <= k < |arrivals| ==> 0.0 <= arrivals[k].item.score <= 100.0
    requires forall d :: d in suite.weights ==> 0.0 <= suite.weights[d]
    ensures var scores := DimensionScores(suite, TallyOf(suite, arrivals));
            && (forall d :: d in scores ==> 0.0 <= scores[d] <= 100.0)
            && 0.0 <= AverageOf(WithWeights(scores, suite.weights)) <= 100.0
  {
    TallyInRange(suite, arrivals);
    var t := TallyOf(suite, arrivals);
    forall d | d in suite.weights ensures 0.0 <= Average(ScoresIn(t.scores, d)) <= 100.0 {
      SumBounds(ScoresIn(t.scores, d));
    }
    AverageStaysInRange(WithWeights(DimensionScores(suite, t), suite.weights));
  }

  // ---------- Baselines ----------

  datatype Row = Row(metric: string, score: real, scaleMax: real)

  function Abs(x: real): real {
    if x < 0.0 then -x else x
  }

  function BaselineScore(r: Row): real {
    Clamp(r.score / (if r.scaleMax <= 0.0 then 100.0 else r.scaleMax) * 100.0)
  }

  // The last row for a metric counts.
  function BaselineScores(rows: seq<Row>): map<string, real> {
    if rows == [] then map[] else BaselineScores(rows[..|rows| - 1])[rows[|rows| - 1].metric := BaselineScore(rows[|rows| - 1])]
  }

  // The differences for the dimensions that the baseline has.
  function Differences(scores: map<string, real>, weights: map<string, real>, baseline: map<string, real>): map<string, Weighted> {
    map d | d in weights && d in baseline :: Weighted(Abs((if d in scores then scores[d] else 0.0) - baseline[d]), weights[d])
  }

  ghost function GapOf(scores: map<string, real>, weights: map<string, real>, rows: seq<Row>): Option<real> {
    var baseline := BaselineScores(rows);
    if rows == [] then None
    else if "overall" in baseline then Some(Abs(AverageOf(WithWeights(scores, weights)) - baseline["overall"]))
    else if SumOver(Differences(scores, weights, baseline), Weight) == 0.0 then None
    else Some(AverageOf(Differences(scores, weights, baseline)))
  }

  method WeightSum(m: map<string, Weighted>) returns (sum: real)
    ensures sum == SumOver(m, Weight)
  {
    var rest := m;
    sum := 0.0;
    while rest != map[]
      invariant rest.Keys <= m.Keys && sum + SumOver(rest, Weight) == SumOver(m, Weight)
      decreases |rest|
    {
      var keys := rest.Keys;
      var k :| k in keys;
      TakeOut(rest, Weight, k);
      Smaller(rest, k);
      sum := sum + rest[k].weight;
      rest := rest - {k};
    }
  }

  method CompareAgainstBaseline(scores: map<string, real>, weights: map<string, real>, rows: seq<Row>) returns (gap: Option<real>)
    ensures gap == GapOf(scores, weights, rows)
  {
    if |rows| == 0 {
      return None;
    }
    var baseline: map<string, real> := map[];
    for i := 0 to |rows|
      invariant baseline == BaselineScores(rows[..i])
    {
      assert rows[..i + 1][..i] == rows[..i];
      baseline := baseline[rows[i].metric := BaselineScore(rows[i])];
    }
    assert rows[..|rows|] == rows;
    if "overall" in baseline {
      var overall := WeightedAverage(scores, weights);
      return Some(Abs(overall - baseline["overall"]));
    }
    var differences := Differences(scores, weights, baseline);
    var weightSum := WeightSum(differences);
    if weightSum == 0.0 {
      return None;
    }
    var average := AverageBy(differences);
    return Some(average);
  }

  lemma {:induction false} BaselineInRange(rows: seq<Row>)
    ensures forall m :: m in BaselineScores(rows) ==> 0.0 <= BaselineScores(rows)[m] <= 100.0
    decreases |rows|
  {
    if rows != [] {
      BaselineInRange(rows[..|rows| - 1]);
    }
  }

  // A metric's baseline is its last row, as a share of the row's scale, or of a hundred where
  // the scale is not positive, in per cent.
  lemma {:induction false} LastRowCounts(rows: seq<Row>, i: nat)
    requires i < |rows| && forall j :: i < j < |rows| ==> rows[j].metric != rows[i].metric
    ensures rows[i].metric in BaselineScores(rows)
    ensures var scale := if rows[i].scaleMax > 0.0 then rows[i].scaleMax else 100.0;
            BaselineScores(rows)[rows[i].metric]
              == if rows[i].score < 0.0 then 0.0 else if rows[i].score > scale then 100.0 else rows[i].score * 100.0 / scale
    decreases |rows|
  {
    if i < |rows| - 1 {
      LastRowCounts(rows[..|rows| - 1], i);
    } else {
      ShareInRange(rows[i].score, if rows[i].scaleMax > 0.0 then rows[i].scaleMax else 100.0);
    }
  }

  lemma {:induction false} ShareInRange(score: real, scale: real)
    requires scale > 0.0
    ensures var share := score / scale * 100.0;
            && share == score * 100.0 / scale && (score < 0.0 <==> share < 0.0) && (score > scale <==> share > 100.0)
  {
    var q, share := score / scale, score * 100.0 / scale;
    assert q * scale == score && share * scale == score * 100.0;
    assert (share - q * 100.0) * scale == 0.0;
    assert share == q * 100.0;
    assert score > scale <==> q > 1.0;
  }

  // A metric has a baseline exactly when a row is for it.
  lemma {:induction false} BaselineHasMetric(rows: seq<Row>, metric: string)
    ensures metric in BaselineScores(rows) <==> exists r :: r in rows && r.metric == metric
    decreases |rows|
  {
    if rows != [] {
      var n := |rows| - 1;
      BaselineHasMetric(rows[..n], metric);
      assert rows == rows[..n] + [rows[n]];
    }
  }

  // How far a score is from its baseline, and the weight that counts with.
  predicate IsDistance(scores: map<string, real>, weights: map<string, real>, baseline: map<string, real>, d: string, w: Weighted) {
    d in weights && d in baseline && w.weight == weights[d] && w.value >= 0.0
    && var score := if d in scores then scores[d] else 0.0; w.value in {score - baseline[d], baseline[d] - score}
  }

  // The gap is the distance between the overall scores where the baseline has one, and
  // otherwise the weighted mean of the distances in the dimensions it has; there is none
  // without rows or where those dimensions weigh nothing.
  lemma {:induction false} GapMeans(scores: map<string, real>, weights: map<string, real>, rows: seq<Row>) returns (m: map<string, Weighted>)
    ensures var baseline := BaselineScores(rows);
            m.Keys == weights.Keys * baseline.Keys && forall d :: d in m ==> IsDistance(scores, weights, baseline, d, m[d])
    ensures var baseline, gap := BaselineScores(rows), GapOf(scores, weights, rows);
            if rows == [] then gap.None?
            else if "overall" in baseline then
              gap.Some? && gap.value >= 0.0
              && var overall := AverageOf(WithWeights(scores, weights));
              gap.value in {overall - baseline["overall"], baseline["overall"] - overall}
            else if SumOver(m, Weight) == 0.0 then gap.None?
            else gap == Some(AverageOf(m))
  {
    m := Differences(scores, weights, BaselineScores(rows));
  }

  // The gap to any baseline, whatever its scale, is within 0..100.
  lemma {:induction false} GapInRange(scores: map<string, real>, weights: map<string, real>, rows: seq<Row>)
    requires forall d :: d in scores ==> 0.0 <= scores[d] <= 100.0
    requires forall d :: d in weights ==> 0.0 <= weights[d]
    ensures GapOf(scores, weights, rows).Some? ==> 0.0 <= GapOf(scores, weights, rows).value <= 100.0
  {
    BaselineInRange(rows);
    AverageStaysInRange(WithWeights(scores, weights));
    AverageStaysInRange(Differences(scores, weights, BaselineScores(rows)));
  }

  // ---------- The verdict ----------

  datatype Verdict = Incomplete | Normal | Suspect | HighSuspect

  datatype Thresholds = Thresholds(normalMaxGap: real, suspectMaxGap: real, highSuspectFailures: int)

  // completion: in per cent. A gap is None where its baseline was not found.
  datatype Result = Result(completion: real, publicGap: Option<real>, vendorGap: Option<real>, failures: nat)

  function GapValue(gap: Option<real>): real {
    if gap.Some? then gap.value else 0.0
  }

  function Max(a: real, b: real): real {
    if a > b then a else b
  }

  function ObservedGap(r: Result): real {
    Max(Max(0.0, GapValue(r.publicGap)), GapValue(r.vendorGap))
  }

  function VerdictFor(r: Result, th: Thresholds, baselineSelected: bool): (Verdict, real) {
    if r.completion < 80.0 then
      (Incomplete, Clamp(Max(GapValue(r.publicGap), GapValue(r.vendorGap)) + (100.0 - r.completion) / 2.0))
    else if baselineSelected && r.publicGap.None? && r.vendorGap.None? then
      (Incomplete, Clamp((100.0 - r.completion) / 2.0))
    else
      var suspicion := Clamp(ObservedGap(r) + r.failures as real * 20.0 + Max(0.0, (100.0 - r.completion) / 2.0));
      if r.failures >= th.highSuspectFailures || ObservedGap(r) > th.suspectMaxGap then (HighSuspect, suspicion)
      else if r.failures == 1 || ObservedGap(r) > th.normalMaxGap then (Suspect, suspicion)
      else (Normal, suspicion)
  }

  // One of the gaps found, or 0, is above the limit.
  predicate GapAbove(r: Result, limit: real) {
    0.0 > limit || (r.publicGap.Some? && r.publicGap.value > limit) || (r.vendorGap.Some? && r.vendorGap.value > limit)
  }

  // Exactly when each verdict is given, and when nothing at all is suspicious.
  lemma {:induction false} VerdictMeans(r: Result, th: Thresholds, selected: bool)
    ensures var (verdict, suspicion) := VerdictFor(r, th, selected);
            && (verdict == Incomplete <==> r.completion < 80.0 || (selected && r.publicGap.None? && r.vendorGap.None?))
            && (verdict == HighSuspect <==>
                  verdict != Incomplete && (r.failures >= th.highSuspectFailures || GapAbove(r, th.suspectMaxGap)))
            && (verdict == Suspect <==>
                  verdict !in {Incomplete, HighSuspect} && (r.failures == 1 || GapAbove(r, th.normalMaxGap)))
            && 0.0 <= suspicion <= 100.0
            && (verdict != Incomplete ==> (suspicion == 0.0 <==> r.failures == 0 && r.completion >= 100.0 && !GapAbove(r, 0.0)))
  {
  }

  // Each further failure adds twenty to the suspicion, and ten per cent less completion five,
  // until it is full.
  lemma {:induction false} SuspicionAddsUp(r: Result, th: Thresholds, selected: bool, more: nat, less: real)
    requires 80.0 <= r.completion - less && r.completion <= 100.0 && less >= 0.0
    requires !(selected && r.publicGap.None? && r.vendorGap.None?)
    ensures var worse := r.(failures := r.failures + more, completion := r.completion - less);
            var before, after := VerdictFor(r, th, selected).1, VerdictFor(worse, th, selected).1;
            before < 100.0 ==> after == if before + 20.0 * more as real + less / 2.0 > 100.0 then 100.0 else before + 20.0 * more as real + less / 2.0
  {
  }

  function Severity(v: Verdict): int {
    match v
    case Incomplete => -1
    case Normal => 0
    case Suspect => 1
    case HighSuspect => 2
  }

  // At the same completion and with the same baselines found, nothing better.
  predicate NoBetter(r: Result, worse: Result) {
    && worse.completion == r.completion && worse.failures >= r.failures
    && worse.publicGap.Some? == r.publicGap.Some? && GapValue(worse.publicGap) >= GapValue(r.publicGap)
    && worse.vendorGap.Some? == r.vendorGap.Some? && GapValue(worse.vendorGap) >= GapValue(r.vendorGap)
  }

  ghost predicate Monotone(th: Thresholds) {
    forall r, worse, selected :: NoBetter(r, worse) ==>
      Severity(VerdictFor(r, th, selected).0) <= Severity(VerdictFor(worse, th, selected).0)
  }

  lemma {:induction false} SuspicionGrows(r: Result, worse: Result, th: Thresholds, selected: bool)
    requires NoBetter(r, worse)
    ensures VerdictFor(r, th, selected).1 <= VerdictFor(worse, th, selected).1
  {
    assert r.failures as real * 20.0 <= worse.failures as real * 20.0;
  }

  // A worse result never gets a milder verdict, exactly while two failures at most are
  // enough for high suspicion: above that, a second failure clears the first one's suspicion.
  lemma {:induction false} VerdictMonotoneIff(th: Thresholds)
    ensures Monotone(th) <==> th.highSuspectFailures <= 2 || th.normalMaxGap < 0.0 || th.suspectMaxGap < 0.0
  {
    if th.highSuspectFailures > 2 && th.normalMaxGap >= 0.0 && th.suspectMaxGap >= 0.0 {
      var one, two := Result(100.0, Some(0.0), None, 1), Result(100.0, Some(0.0), None, 2);
      assert NoBetter(one, two);
      assert VerdictFor(one, th, true).0 == Suspect && VerdictFor(two, th, true).0 == Normal;
    }
  }

  // ---------- The whole report of a target ----------

  // What the stored baselines hold for the model that was found effective: None where it does
  // not resolve to a canonical model, and no rows where a baseline is not selected.
  datatype Baselines = Baselines(public: seq<Row>, vendor: seq<Row>)

  datatype Report = Unresolved(completion: real, overall: real)
                  | Report(completion: real, overall: real, publicGap: Option<real>, vendorGap: Option<real>,
                           verdict: Verdict, suspicion: real)

  function CompletionRate(suite: Suite, t: Tally): real
    requires suite.cases != []
  {
    t.completed as real * 100.0 / |suite.cases| as real
  }

  ghost function ReportOf(suite: Suite, t: Tally, lookup: string -> Option<Baselines>, th: Thresholds, selected: bool): Report
    requires suite.cases != []
  {
    var scores, completion := DimensionScores(suite, t), CompletionRate(suite, t);
    var overall := AverageOf(WithWeights(scores, suite.weights));
    match lookup(t.model)
    case None => Unresolved(completion, overall)
    case Some(rows) =>
      var public, vendor := GapOf(scores, suite.weights, rows.public), GapOf(scores, suite.weights, rows.vendor);
      var (verdict, suspicion) := VerdictFor(Result(completion, public, vendor, t.critical), th, selected);
      Report(completion, overall, public, vendor, verdict, suspicion)
  }

  // Completion rate, scores, gaps, verdict and suspicion are the same in any order in which
  // the cases finish, where the responses agree on their model.
  lemma {:induction false} ReportInAnyOrder(suite: Suite, a: seq<Arrival>, b: seq<Arrival>,
                                            lookup: string -> Option<Baselines>, th: Thresholds, selected: bool)
    requires Fits(suite, a) && Fits(suite, b) && multiset(a) == multiset(b) && suite.cases != [] && Agreeing(a)
    ensures ReportOf(suite, TallyOf(suite, a), lookup, th, selected) == ReportOf(suite, TallyOf(suite, b), lookup, th, selected)
  {
    OrderDoesNotMatter(suite, a, b);
    ModelInAnyOrderIff(suite, a);
  }
}
