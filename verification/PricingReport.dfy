/** The cost report: usage by route priced, merged into model lines, and totalled by currency. */
module PricingReport {
  import opened Wrappers
  import opened Text
  import opened MapSum
  import opened PricingAliases
  import Config

  datatype Usage = Usage(prompt: int, cached: int, completion: int, total: int)

  datatype Pricing = Pricing(currency: string, input: real, cached: real, output: real,
                             inputUsd: real, cachedUsd: real, outputUsd: real)

  datatype Cost = Cost(currency: string, prompt: real, completion: real, total: real,
                       promptUsd: real, completionUsd: real, totalUsd: real)

  const FREE := Cost("", 0.0, 0.0, 0.0, 0.0, 0.0, 0.0)

  type Catalog = map<string, Pricing>

  // ---------- Prices ----------

  function NormalPricing(p: Pricing): Pricing {
    var currency := Config.NormalCurrency(p.currency);
    var input := if p.input == 0.0 && p.inputUsd > 0.0 then p.inputUsd else p.input;
    var cached := if p.cached == 0.0 && p.cachedUsd > 0.0 then p.cachedUsd else p.cached;
    var output := if p.output == 0.0 && p.outputUsd > 0.0 then p.outputUsd else p.output;
    if currency == "USD" then
      Pricing(currency, input, cached, output,
              if p.inputUsd == 0.0 then input else p.inputUsd,
              if p.cachedUsd == 0.0 && cached > 0.0 then cached else p.cachedUsd,
              if p.outputUsd == 0.0 then output else p.outputUsd)
    else Pricing(currency, input, cached, output, p.inputUsd, p.cachedUsd, p.outputUsd)
  }

  lemma {:induction false} NormalPricingIdempotent(p: Pricing)
    ensures NormalPricing(NormalPricing(p)) == NormalPricing(p)
  {
    Config.CurrencyIdempotent(p.currency);
  }

  function CachedTokens(u: Usage): int {
    var cached := if u.cached < 0 then 0 else u.cached;
    if cached > u.prompt then u.prompt else cached
  }

  function At(tokens: int, rate: real): real {
    tokens as real / 1000000.0 * rate
  }

  function CostOf(u: Usage, pricing: Pricing): Cost {
    var p, cached := NormalPricing(pricing), CachedTokens(u);
    var prompt := At(u.prompt - cached, p.input)
                  + (if cached > 0 then At(cached, if p.cached > 0.0 then p.cached else p.input) else 0.0);
    var completion := At(u.completion, p.output);
    var usd := p.currency == "USD";
    Cost(p.currency, prompt, completion, prompt + completion,
         if usd then prompt else 0.0, if usd then completion else 0.0, if usd then prompt + completion else 0.0)
  }

  function Savings(u: Usage, pricing: Pricing): real {
    var p, cached := NormalPricing(pricing), CachedTokens(u);
    if cached == 0 || p.cached <= 0.0 then 0.0 else At(cached, p.input - p.cached)
  }

  lemma {:induction false} AtAdds(a: int, b: int, rate: real, other: real)
    ensures At(a + b, rate) == At(a, rate) + At(b, rate)
    ensures At(a, rate - other) == At(a, rate) - At(a, other)
    ensures At(0, rate) == 0.0
  {
    assert (a + b) as real == a as real + b as real;
  }

  lemma {:induction false} AtZeroIff(tokens: int, rate: real)
    ensures At(tokens, rate) == 0.0 <==> tokens == 0 || rate == 0.0
  {
    var x := tokens as real / 1000000.0;
    assert x == 0.0 <==> tokens == 0;
    if x != 0.0 && rate != 0.0 {
      assert x * rate != 0.0;
    }
  }

  // What was paid and what was saved make up the price without a cache, exactly when the
  // prompt count is not negative or the cached rate makes no difference.
  lemma {:induction false} SavingsCompleteTheCostIff(u: Usage, pricing: Pricing)
    ensures var p := NormalPricing(pricing);
            var complete := CostOf(u, pricing).total + Savings(u, pricing) == CostOf(u.(cached := 0), pricing).total;
            complete <==> u.prompt >= 0 || p.cached <= 0.0 || p.cached == p.input
  {
    var p, cached := NormalPricing(pricing), CachedTokens(u);
    AtAdds(u.prompt - cached, cached, p.input, p.cached);
    AtAdds(cached, 0, p.input, p.cached);
    AtZeroIff(cached, p.input - p.cached);
  }

  // ---------- What a price and a cost mean ----------

  // A listed rate stands; where none is listed a positive dollar rate takes its place.
  predicate IsRate(listed: real, dollars: real, rate: real) {
    if listed != 0.0 then rate == listed else rate == if dollars > 0.0 then dollars else 0.0
  }

  // A price in dollars lists no other dollar rate than its own, unless it came with one.
  lemma {:induction false} NormalPricingMeans(p: Pricing)
    ensures var n := NormalPricing(p);
            && n.currency == (if Trim(p.currency) == "" then "USD" else Upper(Trim(p.currency)))
            && IsRate(p.input, p.inputUsd, n.input) && IsRate(p.cached, p.cachedUsd, n.cached) && IsRate(p.output, p.outputUsd, n.output)
            && (n.inputUsd != p.inputUsd ==> n.currency == "USD" && p.inputUsd == 0.0 && n.inputUsd == n.input)
            && (n.cachedUsd != p.cachedUsd ==> n.currency == "USD" && p.cachedUsd == 0.0 && n.cachedUsd == n.cached)
            && (n.outputUsd != p.outputUsd ==> n.currency == "USD" && p.outputUsd == 0.0 && n.outputUsd == n.output)
            && (n.currency == "USD" ==> (n.inputUsd == 0.0 ==> n.input == 0.0) && (n.outputUsd == 0.0 ==> n.output == 0.0)
                                        && (n.cachedUsd == 0.0 ==> n.cached <= 0.0))
  {
    TrimmedStays("");
    assert Upper("") == "";
  }

  // No more tokens are cached than the prompt has, and none that were not counted.
  lemma {:induction false} CachedTokensMean(u: Usage)
    ensures CachedTokens(u) <= u.prompt && (u.prompt >= 0 ==> CachedTokens(u) >= 0)
    ensures 0 <= u.cached <= u.prompt ==> CachedTokens(u) == u.cached
    ensures u.cached < 0 <= u.prompt ==> CachedTokens(u) == 0
    ensures u.cached > u.prompt || u.prompt < 0 ==> CachedTokens(u) == u.prompt
  {
  }

  function CachedRate(p: Pricing): real {
    if p.cached > 0.0 then p.cached else p.input
  }

  // A million tokens of one kind cost the rate of that kind.
  lemma {:induction false} MillionTokens(pricing: Pricing, total: int)
    ensures var p := NormalPricing(pricing);
            && CostOf(Usage(1000000, 0, 0, total), pricing).prompt == p.input
            && CostOf(Usage(1000000, 1000000, 0, total), pricing).prompt == CachedRate(p)
            && CostOf(Usage(0, 0, 1000000, total), pricing).completion == p.output
            && Savings(Usage(1000000, 1000000, 0, total), pricing) == p.input - CachedRate(p)
  {
  }

  predicate WellCounted(u: Usage) {
    0 <= u.cached <= u.prompt
  }

  // Costs and savings add up token by token, and so are fixed by those of a million tokens.
  lemma {:induction false} CostAdds(u: Usage, v: Usage, pricing: Pricing)
    requires WellCounted(u) && WellCounted(v)
    ensures CostOf(AddUsage(u, v), pricing) == AddCost(CostOf(u, pricing), CostOf(v, pricing))
    ensures Savings(AddUsage(u, v), pricing) == Savings(u, pricing) + Savings(v, pricing)
  {
    var p := NormalPricing(pricing);
    AtAdds(u.prompt - u.cached, v.prompt - v.cached, p.input, 0.0);
    AtAdds(u.cached, v.cached, CachedRate(p), 0.0);
    AtAdds(0, 0, CachedRate(p), 0.0);
    AtAdds(u.completion, v.completion, p.output, 0.0);
    AtAdds(u.cached, v.cached, p.input - p.cached, 0.0);
  }

  // Each kind of token is charged at its own rate and no other; a total is the sum of its
  // parts, and the dollar amounts are the same amounts for dollars and nothing otherwise.
  lemma {:induction false} CostHasItsParts(u: Usage, v: Usage, pricing: Pricing, other: Pricing)
    ensures var cost, p := CostOf(u, pricing), NormalPricing(pricing);
            && cost.currency == p.currency && cost.total == cost.prompt + cost.completion
            && (p.currency == "USD" ==> cost.promptUsd == cost.prompt && cost.completionUsd == cost.completion && cost.totalUsd == cost.total)
            && (p.currency != "USD" ==> cost.promptUsd == cost.completionUsd == cost.totalUsd == 0.0)
    ensures u.completion == v.completion && NormalPricing(pricing).output == NormalPricing(other).output ==>
              CostOf(u, pricing).completion == CostOf(v, other).completion
    ensures u.prompt == v.prompt && u.cached == v.cached && NormalPricing(pricing).input == NormalPricing(other).input
            && NormalPricing(pricing).cached == NormalPricing(other).cached ==>
              CostOf(u, pricing).prompt == CostOf(v, other).prompt
  {
  }

  // Counts out of range cost what the nearest one in range does.
  lemma {:induction false} CountsAreCorrected(u: Usage, pricing: Pricing)
    ensures u.cached < 0 <= u.prompt ==> CostOf(u, pricing) == CostOf(u.(cached := 0), pricing)
    ensures 0 <= u.prompt < u.cached ==> CostOf(u, pricing) == CostOf(u.(cached := u.prompt), pricing)
    ensures u.prompt < 0 ==> CostOf(u, pricing) == CostOf(u.(prompt := 0, cached := 0), pricing)
  {
    AtAdds(0, 0, NormalPricing(pricing).input, 0.0);
  }

  // ---------- Finding a price ----------

  // The first key, in order, that the catalog has.
  function FirstIn(catalog: Catalog, keys: seq<string>): Option<string> {
    if keys == [] then None
    else
      var front, last := FirstIn(catalog, keys[..|keys| - 1]), keys[|keys| - 1];
      if front.Some? then front else if last in catalog then Some(last) else None
  }

  // The catalog has this key, and none before it.
  ghost predicate IsFirst(catalog: Catalog, keys: seq<string>, key: string) {
    exists i :: 0 <= i < |keys| && keys[i] == key && key in catalog && forall j :: 0 <= j < i ==> keys[j] !in catalog
  }

  method Probe(catalog: Catalog, keys: seq<string>) returns (found: Option<string>)
    ensures found == FirstIn(catalog, keys)
  {
    found := None;
    for i := 0 to |keys|
      invariant FirstIn(catalog, keys[..i]) == None
    {
      assert keys[..i + 1][..i] == keys[..i];
      if keys[i] in catalog {
        FirstStays(catalog, keys, i + 1);
        return Some(keys[i]);
      }
    }
    assert keys[..|keys|] == keys;
  }

  lemma {:induction false} FirstStays(catalog: Catalog, keys: seq<string>, i: nat)
    requires i <= |keys| && FirstIn(catalog, keys[..i]).Some?
    ensures FirstIn(catalog, keys) == FirstIn(catalog, keys[..i])
    decreases |keys|
  {
    if i == |keys| {
      assert keys[..i] == keys;
    } else {
      assert keys[..|keys| - 1][..i] == keys[..i];
      FirstStays(catalog, keys[..|keys| - 1], i);
    }
  }

  // The keys for the upstream itself, and after them the general ones.
  function ScopedKeys(upstream: string, candidates: seq<string>): seq<string> {
    if NormalAlias(upstream) == "" then []
    else seq(|candidates|, i requires 0 <= i < |candidates| => ScopedKey(NormalAlias(upstream), candidates[i]))
  }

  function Resolved(catalog: Catalog, requested: string, effective: string, upstream: string): Option<(string, Pricing)> {
    var candidates := Candidates(requested, effective);
    var scoped, general := FirstIn(catalog, ScopedKeys(upstream, candidates)), FirstIn(catalog, candidates);
    var key := if scoped.Some? then scoped else general;
    if key.Some? && key.value in catalog then Some((key.value, NormalPricing(catalog[key.value]))) else None
  }

  /** A price listed for the upstream itself goes before any general one, whichever candidate
      name it is under; among each kind the earlier candidate wins. */
  method ResolvePricing(catalog: Catalog, requested: string, effective: string, upstream: string)
      returns (found: Option<(string, Pricing)>)
    ensures found == Resolved(catalog, requested, effective, upstream)
    ensures found.Some? ==> found.value.0 in catalog && found.value.1 == NormalPricing(catalog[found.value.0])
    ensures found.None? ==> forall x :: x in Aliases(requested) || x in Aliases(effective) ==> x !in catalog
    ensures var names := Candidates(requested, effective);
            var scoped := seq(|names|, i requires 0 <= i < |names| => ScopedKey(NormalAlias(upstream), names[i]));
            if NormalAlias(upstream) != "" && exists i :: 0 <= i < |names| && scoped[i] in catalog
            then found.Some? && IsFirst(catalog, scoped, found.value.0)
            else if exists i :: 0 <= i < |names| && names[i] in catalog
            then found.Some? && IsFirst(catalog, names, found.value.0)
            else found.None?
  {
    var candidates := PricingLookupCandidates(requested, effective);
    FirstIsThere(catalog, ScopedKeys(upstream, candidates));
    FirstIsThere(catalog, candidates);
    if NormalAlias(upstream) != "" {
      var key := Probe(catalog, ScopedKeys(upstream, candidates));
      if key.Some? {
        return Some((key.value, NormalPricing(catalog[key.value])));
      }
    }
    var key := Probe(catalog, candidates);
    if key.None? {
      return None;
    }
    found := Some((key.value, NormalPricing(catalog[key.value])));
  }

  lemma {:induction false} FirstIsThere(catalog: Catalog, keys: seq<string>)
    ensures FirstIn(catalog, keys).Some? <==> exists i :: 0 <= i < |keys| && keys[i] in catalog
    ensures FirstIn(catalog, keys).Some? ==> FirstIn(catalog, keys).value in catalog && FirstIn(catalog, keys).value in keys
    ensures FirstIn(catalog, keys).Some? ==> IsFirst(catalog, keys, FirstIn(catalog, keys).value)
    decreases |keys|
  {
    if keys != [] {
      var n := |keys| - 1;
      FirstIsThere(catalog, keys[..n]);
      assert forall i :: 0 <= i < n ==> keys[..n][i] == keys[i];
      if FirstIn(catalog, keys[..n]).None? && keys[n] in catalog {
        assert IsFirst(catalog, keys, keys[n]);
      }
    }
  }

  // ---------- Routes and lines ----------

  datatype Route = Route(requested: string, effective: string, upstream: string, usage: Usage)

  datatype Line = Line(display: string, requested: string, effective: string, upstream: string, pricingModel: string,
                       usage: Usage, pricing: Option<Pricing>, cost: Cost)

  function DisplayModel(requested: string, effective: string): string {
    var r, e := Trim(requested), Trim(effective);
    if r == "" && e == "" then "unknown" else if e != "" then e else r
  }

  // The name that routes without a price are grouped by.
  function GroupModel(requested: string, effective: string): string {
    if Norm(requested) != "" then Norm(requested) else Norm(effective)
  }

  // The key under which lines are merged.
  function Key(l: Line): string {
    var pricing := if Norm(l.pricingModel) != "" then Norm(l.pricingModel) else GroupModel(l.requested, l.effective);
    var key := Norm(l.display) + "|" + pricing;
    if Norm(l.upstream) != "" then key + "|" + Norm(l.upstream) else key
  }

  predicate Skipped(r: Route) {
    r.usage.total <= 0 && r.usage.prompt <= 0 && r.usage.completion <= 0
  }

  function LineOf(catalog: Catalog, route: Route): Line {
    var r, e, u := Trim(route.requested), Trim(route.effective), Trim(route.upstream);
    match Resolved(catalog, r, e, u)
    case Some((model, pricing)) => Line(DisplayModel(r, e), r, e, u, model, route.usage, Some(pricing), CostOf(route.usage, pricing))
    case None => Line(DisplayModel(r, e), r, e, u, GroupModel(r, e), route.usage, None, FREE)
  }

  // A line shows the effective model's name, or the requested one, and groups by its price's
  // key, or without a price by the requested model's name, or the effective one.
  lemma {:induction false} LineMeans(catalog: Catalog, route: Route)
    ensures var l := LineOf(catalog, route);
            && l.requested == Trim(route.requested) && l.effective == Trim(route.effective) && l.upstream == Trim(route.upstream)
            && l.usage == route.usage
            && l.display == (if l.effective != "" then l.effective else if l.requested != "" then l.requested else "unknown")
            && (match Resolved(catalog, l.requested, l.effective, l.upstream)
                case Some((key, price)) =>
                  l.pricingModel == key && l.pricing == Some(price) && l.cost == CostOf(route.usage, price)
                case None =>
                  && l.pricingModel == (if Norm(l.requested) != "" then Norm(l.requested) else Norm(l.effective))
                  && l.pricing.None? && l.cost == FREE)
  {
    TrimLowerStable(route.requested);
    TrimLowerStable(route.effective);
  }

  // The lines of the routes that count, one each, before merging.
  function Lines(catalog: Catalog, routes: seq<Route>): seq<Line> {
    if routes == [] then []
    else
      var front, last := Lines(catalog, routes[..|routes| - 1]), routes[|routes| - 1];
      if Skipped(last) then front else front + [LineOf(catalog, last)]
  }

  function MergedName(current: string, candidate: string, fallback: string): string {
    if Trim(current) != "" then current else if Trim(candidate) != "" then candidate else Trim(fallback)
  }

  function AddUsage(a: Usage, b: Usage): Usage {
    Usage(a.prompt + b.prompt, a.cached + b.cached, a.completion + b.completion, a.total + b.total)
  }

  // The first line's currency stays.
  function AddCost(a: Cost, b: Cost): Cost {
    Cost(a.currency, a.prompt + b.prompt, a.completion + b.completion, a.total + b.total,
         a.promptUsd + b.promptUsd, a.completionUsd + b.completionUsd, a.totalUsd + b.totalUsd)
  }

  function Merged(into: Line, item: Line): Line {
    into.(usage := AddUsage(into.usage, item.usage), cost := AddCost(into.cost, item.cost),
          requested := MergedName(into.requested, item.requested, item.effective),
          effective := MergedName(into.effective, item.effective, item.effective),
          upstream := MergedName(into.upstream, item.upstream, ""))
  }

  type Models = map<string, Line>

  function Add(models: Models, item: Line): Models {
    var key := Key(item);
    models[key := if key in models then Merged(models[key], item) else item]
  }

  function ModelsOf(lines: seq<Line>): Models {
    if lines == [] then map[] else Add(ModelsOf(lines[..|lines| - 1]), lines[|lines| - 1])
  }

  datatype Totals = Totals(prompt: real, completion: real, total: real, savings: real)

  const NOTHING := Totals(0.0, 0.0, 0.0, 0.0)

  function Plus(a: Totals, cost: Cost, savings: real): Totals {
    Totals(a.prompt + cost.prompt, a.completion + cost.completion, a.total + cost.total, a.savings + savings)
  }

  function TotalsAt(totals: map<string, Totals>, currency: string): Totals {
    if currency in totals then totals[currency] else NOTHING
  }

  function AddTotals(totals: map<string, Totals>, item: Line): map<string, Totals> {
    match item.pricing
    case None => totals
    case Some(pricing) =>
      var currency := Config.NormalCurrency(item.cost.currency);
      totals[currency := Plus(TotalsAt(totals, currency), item.cost, Savings(item.usage, pricing))]
  }

  function TotalsOf(lines: seq<Line>): map<string, Totals> {
    if lines == [] then map[] else AddTotals(TotalsOf(lines[..|lines| - 1]), lines[|lines| - 1])
  }

  function CachedSum(lines: seq<Line>): int {
    if lines == [] then 0
    else
      var last := lines[|lines| - 1];
      CachedSum(lines[..|lines| - 1]) + CachedOf(last)
  }

  method PriceRoute(catalog: Catalog, route: Route) returns (item: Line)
    ensures item == LineOf(catalog, route)
  {
    var r, e, u := Trim(route.requested), Trim(route.effective), Trim(route.upstream);
    item := Line(DisplayModel(r, e), r, e, u, "", route.usage, None, FREE);
    var found := ResolvePricing(catalog, r, e, u);
    match found
    case Some((model, pricing)) =>
      item := item.(pricingModel := model, pricing := Some(pricing), cost := CostOf(route.usage, pricing));
    case None =>
      item := item.(pricingModel := GroupModel(r, e));
  }

  method MergeLine(before: Models, item: Line) returns (models: Models)
    ensures models == Add(before, item)
  {
    var key := Key(item);
    if key in before {
      models := before[key := Merged(before[key], item)];
    } else {
      models := before[key := item];
    }
  }

  method TotalLine(before: map<string, Totals>, item: Line) returns (totals: map<string, Totals>)
    ensures totals == AddTotals(before, item)
  {
    totals := before;
    if item.pricing.Some? {
      var currency := Config.NormalCurrency(item.cost.currency);
      var acc := if currency in totals then totals[currency] else NOTHING;
      totals := totals[currency := Plus(acc, item.cost, Savings(item.usage, item.pricing.value))];
    }
  }

  lemma {:induction false} NextLine(catalog: Catalog, routes: seq<Route>, i: nat)
    requires i < |routes|
    ensures Lines(catalog, routes[..i + 1])
         == if Skipped(routes[i]) then Lines(catalog, routes[..i]) else Lines(catalog, routes[..i]) + [LineOf(catalog, routes[i])]
  {
    assert routes[..i + 1][..i] == routes[..i];
  }

  function CachedOf(item: Line): int {
    if item.pricing.Some? then CachedTokens(item.usage) else 0
  }

  // What the report holds once these lines are in.
  predicate Holds(lines: seq<Line>, models: Models, totals: map<string, Totals>, cached: int) {
    models == ModelsOf(lines) && totals == TotalsOf(lines) && cached == CachedSum(lines)
  }

  lemma {:induction false} OneLineMore(lines: seq<Line>, item: Line, models: Models, totals: map<string, Totals>, cached: int)
    requires Holds(lines, models, totals, cached)
    ensures Holds(lines + [item], Add(models, item), AddTotals(totals, item), cached + CachedOf(item))
  {
    assert (lines + [item])[..|lines|] == lines;
  }

  // ---------- What is billed ----------

  // The price of a route that counts, if it has one.
  function PriceOf(catalog: Catalog, r: Route): Option<Pricing> {
    if r.usage.total <= 0 && r.usage.prompt <= 0 && r.usage.completion <= 0 then None
    else
      match Resolved(catalog, Trim(r.requested), Trim(r.effective), Trim(r.upstream))
      case None => None
      case Some((_, p)) => Some(p)
  }

  predicate BilledIn(catalog: Catalog, r: Route, currency: string) {
    PriceOf(catalog, r).Some? && PriceOf(catalog, r).value.currency == currency
  }

  function PerMillion(tokens: int, rate: real): real {
    tokens as real * rate / 1000000.0
  }

  // The tokens of each kind times the route's own rates.
  function Bill(u: Usage, p: Pricing): Totals {
    var cached := CachedTokens(u);
    var prompt := PerMillion(u.prompt - cached, p.input) + if cached > 0 then PerMillion(cached, CachedRate(p)) else 0.0;
    Totals(prompt, PerMillion(u.completion, p.output), prompt + PerMillion(u.completion, p.output),
           PerMillion(cached, p.input - CachedRate(p)))
  }

  function SumTotals(a: Totals, b: Totals): Totals {
    Totals(a.prompt + b.prompt, a.completion + b.completion, a.total + b.total, a.savings + b.savings)
  }

  function Billed(catalog: Catalog, routes: seq<Route>, currency: string): Totals {
    if routes == [] then NOTHING
    else
      var front, last := Billed(catalog, routes[..|routes| - 1], currency), routes[|routes| - 1];
      if BilledIn(catalog, last, currency) then SumTotals(front, Bill(last.usage, PriceOf(catalog, last).value)) else front
  }

  function CachedBilled(catalog: Catalog, routes: seq<Route>): int {
    if routes == [] then 0
    else
      var last := routes[|routes| - 1];
      CachedBilled(catalog, routes[..|routes| - 1]) + if PriceOf(catalog, last).Some? then CachedTokens(last.usage) else 0
  }

  lemma {:induction false} BillIsCost(u: Usage, pricing: Pricing)
    requires NormalPricing(pricing) == pricing
    ensures Bill(u, pricing) == Plus(NOTHING, CostOf(u, pricing), Savings(u, pricing))
  {
    var c := CachedTokens(u);
    PerMillionIsAt(u.prompt - c, pricing.input);
    PerMillionIsAt(c, CachedRate(pricing));
    PerMillionIsAt(u.completion, pricing.output);
    PerMillionIsAt(c, pricing.input - CachedRate(pricing));
    AtZeroIff(c, pricing.input - CachedRate(pricing));
  }

  lemma {:induction false} PerMillionIsAt(tokens: int, rate: real)
    ensures PerMillion(tokens, rate) == At(tokens, rate)
  {
    var t := tokens as real;
    assert t / 1000000.0 * rate == t * rate / 1000000.0;
  }

  lemma {:induction false} PriceIsNormal(catalog: Catalog, route: Route)
    ensures PriceOf(catalog, route).Some? ==>
              var p := PriceOf(catalog, route).value; NormalPricing(p) == p && Config.NormalCurrency(p.currency) == p.currency
  {
    var found := Resolved(catalog, Trim(route.requested), Trim(route.effective), Trim(route.upstream));
    if found.Some? {
      NormalPricingIdempotent(catalog[found.value.0]);
      Config.CurrencyIdempotent(catalog[found.value.0].currency);
    }
  }

  lemma {:induction false} BillOfLine(catalog: Catalog, route: Route, before: map<string, Totals>, currency: string)
    requires !Skipped(route)
    ensures TotalsAt(AddTotals(before, LineOf(catalog, route)), currency)
         == if BilledIn(catalog, route, currency)
            then SumTotals(TotalsAt(before, currency), Bill(route.usage, PriceOf(catalog, route).value))
            else TotalsAt(before, currency)
    ensures currency in AddTotals(before, LineOf(catalog, route)) <==> currency in before || BilledIn(catalog, route, currency)
  {
    PriceIsNormal(catalog, route);
    var item, price := LineOf(catalog, route), PriceOf(catalog, route);
    if price.Some? {
      PricedAs(before, item, route.usage, price.value, currency);
    }
  }

  lemma {:induction false} PricedAs(before: map<string, Totals>, item: Line, u: Usage, p: Pricing, currency: string)
    requires item.pricing == Some(p) && item.usage == u && item.cost == CostOf(u, p)
    requires NormalPricing(p) == p && Config.NormalCurrency(p.currency) == p.currency
    ensures TotalsAt(AddTotals(before, item), currency)
         == if p.currency == currency then SumTotals(TotalsAt(before, currency), Bill(u, p)) else TotalsAt(before, currency)
    ensures currency in AddTotals(before, item) <==> currency in before || p.currency == currency
  {
    BillIsCost(u, p);
  }

  // Each currency totals the tokens of the routes priced in it at their own rates.
  lemma {:induction false} TotalsAreBilled(catalog: Catalog, routes: seq<Route>, currency: string)
    ensures TotalsAt(TotalsOf(Lines(catalog, routes)), currency) == Billed(catalog, routes, currency)
    ensures currency in TotalsOf(Lines(catalog, routes)) <==> exists r :: r in routes && BilledIn(catalog, r, currency)
    decreases |routes|
  {
    if routes != [] {
      var front, last := routes[..|routes| - 1], routes[|routes| - 1];
      TotalsAreBilled(catalog, front, currency);
      assert routes == front + [last];
      if !Skipped(last) {
        BillOfLine(catalog, last, TotalsOf(Lines(catalog, front)), currency);
        var lines := Lines(catalog, front);
        assert (lines + [LineOf(catalog, last)])[..|lines|] == lines;
      }
    }
  }

  lemma {:induction false} CachedIsBilled(catalog: Catalog, routes: seq<Route>)
    ensures CachedSum(Lines(catalog, routes)) == CachedBilled(catalog, routes)
    decreases |routes|
  {
    if routes != [] {
      var front, last := routes[..|routes| - 1], routes[|routes| - 1];
      CachedIsBilled(catalog, front);
      var lines := Lines(catalog, front);
      if !Skipped(last) {
        assert (lines + [LineOf(catalog, last)])[..|lines|] == lines;
      }
    }
  }

  // Each currency has a total exactly where a route is billed in it, and the total is the bill.
  ghost predicate EachBilled(catalog: Catalog, routes: seq<Route>, totals: map<string, Totals>) {
    forall currency ::
      && TotalsAt(totals, currency) == Billed(catalog, routes, currency)
      && (currency in totals <==> exists r :: r in routes && BilledIn(catalog, r, currency))
  }

  ghost predicate Bills(catalog: Catalog, routes: seq<Route>, totals: map<string, Totals>, cached: int) {
    EachBilled(catalog, routes, totals) && cached == CachedBilled(catalog, routes)
  }

  lemma {:induction false} ReportBills(catalog: Catalog, routes: seq<Route>, models: Models, totals: map<string, Totals>, cached: int)
    requires Holds(Lines(catalog, routes), models, totals, cached)
    ensures Bills(catalog, routes, totals, cached)
  {
    CachedIsBilled(catalog, routes);
    forall currency {
      TotalsAreBilled(catalog, routes, currency);
    }
  }

  // The loop over the routes.
  method AddRoutes(catalog: Catalog, routes: seq<Route>) returns (models: Models, totals: map<string, Totals>, cachedPromptTokens: int)
    ensures Holds(Lines(catalog, routes), models, totals, cachedPromptTokens)
  {
    models, totals, cachedPromptTokens := map[], map[], 0;
    for i := 0 to |routes|
      invariant Holds(Lines(catalog, routes[..i]), models, totals, cachedPromptTokens)
    {
      NextLine(catalog, routes, i);
      if Skipped(routes[i]) {
        continue;
      }
      var item := PriceRoute(catalog, routes[i]);
      OneLineMore(Lines(catalog, routes[..i]), item, models, totals, cachedPromptTokens);
      totals := TotalLine(totals, item);
      cachedPromptTokens := cachedPromptTokens + (if item.pricing.Some? then CachedTokens(item.usage) else 0);
      models := MergeLine(models, item);
    }
    assert routes[..|routes|] == routes;
  }

  method BuildPricingSnapshot(catalog: Catalog, routes: seq<Route>)
      returns (models: Models, totals: map<string, Totals>, cachedPromptTokens: int)
    ensures Holds(Lines(catalog, routes), models, totals, cachedPromptTokens)
    ensures Bills(catalog, routes, totals, cachedPromptTokens)
  {
    models, totals, cachedPromptTokens := AddRoutes(catalog, routes);
    ReportBills(catalog, routes, models, totals, cachedPromptTokens);
  }

  // ---------- Conservation ----------

  // Something that merging adds up.
  ghost predicate Additive(f: Line -> real) {
    forall a, b :: f(Merged(a, b)) == f(a) + f(b)
  }

  function SumLines(lines: seq<Line>, f: Line -> real): real {
    if lines == [] then 0.0 else SumLines(lines[..|lines| - 1], f) + f(lines[|lines| - 1])
  }

  // Merging loses nothing: whatever adds up is the same over merged lines and over routes.
  lemma {:induction false} MergingConserves(lines: seq<Line>, f: Line -> real)
    requires Additive(f)
    ensures SumOver(ModelsOf(lines), f) == SumLines(lines, f)
    decreases |lines|
  {
    if lines != [] {
      var front, last := lines[..|lines| - 1], lines[|lines| - 1];
      MergingConserves(front, f);
      var models, key := ModelsOf(front), Key(last);
      Update(models, f, key, if key in models then Merged(models[key], last) else last);
    }
  }

  // A model's line adds up exactly the lines with its key, and there is no model without one.
  lemma {:induction false} ModelIsItsLines(lines: seq<Line>, f: Line -> real, key: string)
    requires Additive(f)
    ensures key in ModelsOf(lines) <==> exists i :: 0 <= i < |lines| && Key(lines[i]) == key
    ensures SumLines(lines, (l: Line) => if Key(l) == key then f(l) else 0.0)
         == if key in ModelsOf(lines) then f(ModelsOf(lines)[key]) else 0.0
    decreases |lines|
  {
    if lines != [] {
      var front, last := lines[..|lines| - 1], lines[|lines| - 1];
      ModelIsItsLines(front, f, key);
      assert lines == front + [last];
      var models := ModelsOf(front);
      if key in models {
        assert f(Merged(models[key], last)) == f(models[key]) + f(last);
      }
    }
  }

  // A merged line keeps the first name that is not blank.
  lemma {:induction false} MergedKeepsFirstNames(into: Line, item: Line)
    ensures var m := Merged(into, item);
            && m.display == into.display && m.pricingModel == into.pricingModel && m.pricing == into.pricing
            && m.cost.currency == into.cost.currency
            && m.requested == (if Trim(into.requested) != "" then into.requested
                               else if Trim(item.requested) != "" then item.requested else Trim(item.effective))
            && m.effective == (if Trim(into.effective) != "" then into.effective
                               else if Trim(item.effective) != "" then item.effective else Trim(item.effective))
            && m.upstream == (if Trim(into.upstream) != "" then into.upstream
                              else if Trim(item.upstream) != "" then item.upstream else "")
  {
    TrimmedStays("");
  }

  // Tokens and costs are such things.
  lemma {:induction false} TokensAndCostsAddUp()
    ensures Additive((l: Line) => l.usage.prompt as real) && Additive((l: Line) => l.usage.cached as real)
    ensures Additive((l: Line) => l.usage.completion as real) && Additive((l: Line) => l.usage.total as real)
    ensures Additive((l: Line) => l.cost.prompt) && Additive((l: Line) => l.cost.completion) && Additive((l: Line) => l.cost.total)
    ensures Additive((l: Line) => l.cost.totalUsd)
  {
  }

  predicate FromRules(l: Line) {
    l.pricing.None? ==> l.cost == FREE
  }

  lemma {:induction false} LinesFromRules(catalog: Catalog, routes: seq<Route>)
    ensures forall i :: 0 <= i < |Lines(catalog, routes)| ==> FromRules(Lines(catalog, routes)[i])
    decreases |routes|
  {
    if routes != [] {
      LinesFromRules(catalog, routes[..|routes| - 1]);
    }
  }

  lemma {:induction false} TotalsConserve(lines: seq<Line>)
    requires forall i :: 0 <= i < |lines| ==> FromRules(lines[i])
    ensures SumOver(TotalsOf(lines), (t: Totals) => t.total) == SumLines(lines, (l: Line) => l.cost.total)
    decreases |lines|
  {
    if lines != [] {
      var front, last := lines[..|lines| - 1], lines[|lines| - 1];
      TotalsConserve(front);
      if last.pricing.Some? {
        var currency := Config.NormalCurrency(last.cost.currency);
        Update(TotalsOf(front), (t: Totals) => t.total, currency,
               Plus(TotalsAt(TotalsOf(front), currency), last.cost, Savings(last.usage, last.pricing.value)));
      }
    }
  }

  // What the models cost is what the currencies total.
  lemma {:induction false} ModelCostsAreCurrencyTotals(catalog: Catalog, routes: seq<Route>)
    ensures var lines := Lines(catalog, routes);
            SumOver(ModelsOf(lines), (l: Line) => l.cost.total) == SumOver(TotalsOf(lines), (t: Totals) => t.total)
  {
    var lines := Lines(catalog, routes);
    LinesFromRules(catalog, routes);
    TokensAndCostsAddUp();
    MergingConserves(lines, (l: Line) => l.cost.total);
    TotalsConserve(lines);
  }

  // ---------- Currency by currency ----------

  predicate In(l: Line, currency: string) {
    Config.NormalCurrency(l.cost.currency) == currency
  }

  function CostIn(currency: string): Line -> real {
    (l: Line) => if In(l, currency) then l.cost.total else 0.0
  }

  // A line that costs something is in the currency of the merged line it joins.
  predicate OneCurrency(lines: seq<Line>) {
    forall i :: 0 <= i < |lines| ==> Joins(ModelsOf(lines[..i]), lines[i])
  }

  predicate Joins(models: Models, item: Line) {
    var key := Key(item);
    key in models && item.cost.total != 0.0 ==>
      Config.NormalCurrency(models[key].cost.currency) == Config.NormalCurrency(item.cost.currency)
  }

  lemma {:induction false} TotalIsLinesIn(lines: seq<Line>, currency: string)
    requires forall i :: 0 <= i < |lines| ==> FromRules(lines[i])
    ensures TotalsAt(TotalsOf(lines), currency).total == SumLines(lines, CostIn(currency))
    decreases |lines|
  {
    if lines != [] {
      TotalIsLinesIn(lines[..|lines| - 1], currency);
    }
  }

  lemma {:induction false} ModelsInCurrency(lines: seq<Line>, currency: string)
    requires OneCurrency(lines)
    ensures SumOver(ModelsOf(lines), CostIn(currency)) == SumLines(lines, CostIn(currency))
    decreases |lines|
  {
    if lines != [] {
      var n := |lines| - 1;
      var front, last := lines[..n], lines[n];
      OneCurrencyBefore(lines);
      ModelsInCurrency(front, currency);
      AddInCurrency(ModelsOf(front), last, currency);
    }
  }

  lemma {:induction false} OneCurrencyBefore(lines: seq<Line>)
    requires lines != [] && OneCurrency(lines)
    ensures var n := |lines| - 1; OneCurrency(lines[..n]) && Joins(ModelsOf(lines[..n]), lines[n])
  {
    var n := |lines| - 1;
    PrefixOfOneCurrency(lines, n);
    assert Joins(ModelsOf(lines[..n]), lines[n]);
  }

  lemma {:induction false} AddInCurrency(models: Models, item: Line, currency: string)
    requires Joins(models, item)
    ensures SumOver(Add(models, item), CostIn(currency)) == SumOver(models, CostIn(currency)) + CostIn(currency)(item)
  {
    var key := Key(item);
    Update(models, CostIn(currency), key, if key in models then Merged(models[key], item) else item);
  }

  ghost predicate TotalIsOfModels(lines: seq<Line>, currency: string) {
    TotalsAt(TotalsOf(lines), currency).total == SumOver(ModelsOf(lines), CostIn(currency))
  }

  // Each currency's total is that of its models, at every point of the report's loop.
  ghost predicate TotalsFollowModels(lines: seq<Line>) {
    forall i, currency :: 0 <= i <= |lines| ==> TotalIsOfModels(lines[..i], currency)
  }

  lemma {:induction false} FrontFromRules(lines: seq<Line>, i: nat)
    requires i <= |lines| && forall k :: 0 <= k < |lines| ==> FromRules(lines[k])
    ensures forall k :: 0 <= k < i ==> FromRules(lines[..i][k])
  {
  }

  // A line that joins one of another currency parts that currency's total from its models.
  lemma {:induction false} MixingParts(front: seq<Line>, last: Line)
    requires (forall k :: 0 <= k < |front| ==> FromRules(front[k])) && FromRules(last)
    requires !Joins(ModelsOf(front), last)
    ensures var currency := Config.NormalCurrency(last.cost.currency);
            !(TotalIsOfModels(front, currency) && TotalIsOfModels(front + [last], currency))
  {
    var currency, key := Config.NormalCurrency(last.cost.currency), Key(last);
    var models := ModelsOf(front);
    assert (front + [last])[..|front|] == front;
    TotalIsLinesIn(front, currency);
    TotalIsLinesIn(front + [last], currency);
    Update(models, CostIn(currency), key, Merged(models[key], last));
  }

  lemma {:induction false} PrefixOfOneCurrency(lines: seq<Line>, i: nat)
    requires i <= |lines| && OneCurrency(lines)
    ensures OneCurrency(lines[..i])
  {
    forall k | 0 <= k < i ensures Joins(ModelsOf(lines[..i][..k]), lines[..i][k]) {
      assert lines[..i][..k] == lines[..k];
    }
  }

  // Where merged lines share one currency, each currency's total is that of its models.
  lemma {:induction false} OneCurrencyFollows(lines: seq<Line>, currency: string)
    requires (forall k :: 0 <= k < |lines| ==> FromRules(lines[k])) && OneCurrency(lines)
    ensures TotalIsOfModels(lines, currency)
  {
    TotalIsLinesIn(lines, currency);
    ModelsInCurrency(lines, currency);
  }

  lemma {:induction false} NextJoins(lines: seq<Line>, i: nat)
    requires i < |lines| && forall k :: 0 <= k < |lines| ==> FromRules(lines[k])
    requires TotalsFollowModels(lines)
    ensures Joins(ModelsOf(lines[..i]), lines[i])
  {
    FrontFromRules(lines, i);
    assert lines[..i] + [lines[i]] == lines[..i + 1];
    var currency := Config.NormalCurrency(lines[i].cost.currency);
    assert TotalIsOfModels(lines[..i], currency) && TotalIsOfModels(lines[..i + 1], currency);
    if !Joins(ModelsOf(lines[..i]), lines[i]) {
      MixingParts(lines[..i], lines[i]);
    }
  }

  // So it is throughout exactly when no line that costs something joins a merged line of
  // another currency.
  lemma {:induction false} TotalsFollowModelsIff(catalog: Catalog, routes: seq<Route>)
    ensures var lines := Lines(catalog, routes); TotalsFollowModels(lines) <==> OneCurrency(lines)
  {
    var lines := Lines(catalog, routes);
    LinesFromRules(catalog, routes);
    if OneCurrency(lines) {
      forall i, currency | 0 <= i <= |lines| ensures TotalIsOfModels(lines[..i], currency) {
        FrontFromRules(lines, i);
        PrefixOfOneCurrency(lines, i);
        OneCurrencyFollows(lines[..i], currency);
      }
    }
    if TotalsFollowModels(lines) {
      forall i | 0 <= i < |lines| ensures Joins(ModelsOf(lines[..i]), lines[i]) {
        NextJoins(lines, i);
      }
    }
  }

  // ---------- Which lines merge ----------

  // A catalog key in its own normal form, without the separator of merge keys.
  predicate NormalKey(k: string) {
    k != "" && Norm(k) == k && NormalAlias(k) == k && '|' !in k
  }

  predicate NormalCatalog(catalog: Catalog) {
    forall k :: k in catalog ==> NormalKey(k)
  }

  predicate PlainRoute(r: Route) {
    '|' !in r.requested && '|' !in r.effective && '|' !in r.upstream
  }

  lemma {:induction false} TrimLeftPart(s: string)
    ensures |TrimLeft(s)| <= |s| && TrimLeft(s) == s[|s| - |TrimLeft(s)|..]
    decreases |s|
  {
    if s != [] && Space(s[0]) {
      TrimLeftPart(s[1..]);
    }
  }

  lemma {:induction false} TrimRightPart(s: string)
    ensures TrimRight(s) <= s
    decreases |s|
  {
    if s != [] && Space(s[|s| - 1]) {
      TrimRightPart(s[..|s| - 1]);
    }
  }

  // Trimming leaves nothing but characters that were there.
  lemma {:induction false} TrimPart(s: string)
    ensures forall c :: c in Trim(s) ==> c in s
  {
    TrimLeftPart(s);
    TrimRightPart(TrimLeft(s));
  }

  lemma {:induction false} NormHasNoBar(s: string)
    requires '|' !in s
    ensures '|' !in Norm(s) && '|' !in Trim(s)
  {
    TrimPart(s);
    TrimPart(Lower(s));
  }

  lemma {:induction false} NormTwice(s: string)
    ensures Norm(Norm(s)) == Norm(s)
  {
    TrimPart(Lower(s));
    TrimLowerStable(Lower(s));
    assert forall i :: 0 <= i < |Norm(s)| ==> LowerChar(Norm(s)[i]) == Norm(s)[i] by {
      assert forall c :: c in Lower(s) ==> LowerChar(c) == c;
    }
    assert Lower(Norm(s)) == Norm(s);
  }

  lemma {:induction false} BarComesAt(a: string, b: string)
    requires '|' !in a
    ensures var s := a + "|" + b; |a| < |s| && s[|a|] == '|' && forall i :: 0 <= i < |a| ==> s[i] != '|'
  {
    var s := a + "|" + b;
    assert forall i :: 0 <= i < |a| ==> s[i] == a[i];
  }

  // Parts joined by a bar that none of them has can be told apart again.
  lemma {:induction false} FirstPart(a: string, b: string, a': string, b': string)
    requires a + "|" + b == a' + "|" + b' && '|' !in a && '|' !in a'
    ensures a == a' && b == b'
  {
    BarComesAt(a, b);
    BarComesAt(a', b');
    var s := a + "|" + b;
    assert s[..|a|] == a && s[..|a'|] == a' && s[|a| + 1..] == b && s[|a'| + 1..] == b';
  }

  function PricingPart(l: Line): string {
    if Norm(l.pricingModel) != "" then Norm(l.pricingModel) else GroupModel(l.requested, l.effective)
  }

  lemma {:induction false} HasBar(a: string, b: string)
    ensures '|' in a + "|" + b
  {
    assert (a + "|" + b)[|a|] == '|';
  }

  predicate PlainLine(l: Line) {
    '|' !in Norm(l.display) && '|' !in PricingPart(l) && '|' !in Norm(l.upstream)
  }

  lemma {:induction false} KeyParts(a: Line, b: Line)
    requires PlainLine(a) && PlainLine(b) && Key(a) == Key(b)
    ensures PricingPart(a) == PricingPart(b)
  {
    var x, y := Norm(a.upstream), Norm(b.upstream);
    var p := if x != "" then PricingPart(a) + "|" + x else PricingPart(a);
    var q := if y != "" then PricingPart(b) + "|" + y else PricingPart(b);
    assert Key(a) == Norm(a.display) + "|" + p && Key(b) == Norm(b.display) + "|" + q;
    FirstPart(Norm(a.display), p, Norm(b.display), q);
    if x != "" && y != "" {
      FirstPart(PricingPart(a), x, PricingPart(b), y);
    } else if x != "" {
      HasBar(PricingPart(a), x);
    } else if y != "" {
      HasBar(PricingPart(b), y);
    }
  }

  // A priced line is grouped by the key of its price, another by its model's name.
  lemma {:induction false} PartOfLine(catalog: Catalog, route: Route)
    requires NormalCatalog(catalog)
    ensures var l := LineOf(catalog, route);
            if l.pricing.Some? then l.pricingModel in catalog && PricingPart(l) == l.pricingModel && l.pricing.value == NormalPricing(catalog[l.pricingModel])
            else PricingPart(l) == GroupModel(l.requested, l.effective)
  {
    NormTwice(route.requested);
    NormTwice(Trim(route.requested));
    NormTwice(Trim(route.effective));
  }

  lemma {:induction false} LineIsPlain(catalog: Catalog, route: Route)
    requires NormalCatalog(catalog) && PlainRoute(route)
    ensures PlainLine(LineOf(catalog, route))
  {
    PartOfLine(catalog, route);
    NormHasNoBar(route.requested);
    NormHasNoBar(route.effective);
    NormHasNoBar(route.upstream);
    NormHasNoBar(Trim(route.requested));
    NormHasNoBar(Trim(route.effective));
    NormHasNoBar(Trim(route.upstream));
    NormHasNoBar(Trim(Trim(route.requested)));
    NormHasNoBar(Trim(Trim(route.effective)));
    NormHasNoBar("unknown");
  }

  // A route grouped by the name of a price finds that price.
  lemma {:induction false} GroupedByPriceIsPriced(catalog: Catalog, requested: string, effective: string, upstream: string)
    requires GroupModel(requested, effective) in catalog && NormalKey(GroupModel(requested, effective))
    ensures Resolved(catalog, requested, effective, upstream).Some?
  {
    var k := GroupModel(requested, effective);
    var name := if Norm(requested) != "" then requested else effective;
    assert Norm(name) == k && NormalAlias(name) == NormalAlias(k) == k;
    OwnNameFirst(name);
    AddedMembers([], Aliases(requested));
    AddedMembers(Added([], Aliases(requested)), Aliases(effective));
    var candidates := Candidates(requested, effective);
    assert k in candidates;
    FirstIsThere(catalog, candidates);
    FirstIsThere(catalog, ScopedKeys(upstream, candidates));
    var i :| 0 <= i < |candidates| && candidates[i] == k;
  }

  // Lines that merge are all priced alike or all without a price.
  lemma {:induction false} SameKeySamePrice(catalog: Catalog, a: Route, b: Route)
    requires NormalCatalog(catalog) && PlainRoute(a) && PlainRoute(b)
    requires Key(LineOf(catalog, a)) == Key(LineOf(catalog, b))
    ensures LineOf(catalog, a).pricing == LineOf(catalog, b).pricing
    ensures LineOf(catalog, a).cost.currency == LineOf(catalog, b).cost.currency
  {
    LineIsPlain(catalog, a);
    LineIsPlain(catalog, b);
    PartOfLine(catalog, a);
    PartOfLine(catalog, b);
    KeyParts(LineOf(catalog, a), LineOf(catalog, b));
    UnpricedNotInCatalog(catalog, a);
    UnpricedNotInCatalog(catalog, b);
  }

  lemma {:induction false} UnpricedNotInCatalog(catalog: Catalog, route: Route)
    requires NormalCatalog(catalog)
    ensures var l := LineOf(catalog, route);
            l.pricing.None? ==> GroupModel(l.requested, l.effective) !in catalog
  {
    var r, e, u := Trim(route.requested), Trim(route.effective), Trim(route.upstream);
    if GroupModel(r, e) in catalog {
      GroupedByPriceIsPriced(catalog, r, e, u);
    }
  }

  // ---------- Plain names keep currencies apart ----------

  predicate AllPlain(routes: seq<Route>) {
    forall i :: 0 <= i < |routes| ==> PlainRoute(routes[i])
  }

  // Every line is that of a plain route.
  predicate OfPlainRoutes(catalog: Catalog, lines: seq<Line>, of: seq<Route>) {
    |of| == |lines| && forall i :: 0 <= i < |lines| ==> PlainRoute(of[i]) && lines[i] == LineOf(catalog, of[i])
  }

  lemma {:induction false} RoutesOfLines(catalog: Catalog, routes: seq<Route>) returns (of: seq<Route>)
    requires AllPlain(routes)
    ensures OfPlainRoutes(catalog, Lines(catalog, routes), of)
    decreases |routes|
  {
    of := [];
    if routes != [] {
      var n := |routes| - 1;
      of := RoutesOfLines(catalog, routes[..n]);
      if !Skipped(routes[n]) {
        of := of + [routes[n]];
      }
    }
  }

  // A merged line has the currency of one of the lines that made it.
  lemma {:induction false} ModelCurrency(lines: seq<Line>, key: string)
    requires key in ModelsOf(lines)
    ensures exists j :: 0 <= j < |lines| && Key(lines[j]) == key && lines[j].cost.currency == ModelsOf(lines)[key].cost.currency
    decreases |lines|
  {
    var n := |lines| - 1;
    if key in ModelsOf(lines[..n]) {
      ModelCurrency(lines[..n], key);
      var j :| 0 <= j < n && Key(lines[..n][j]) == key && lines[..n][j].cost.currency == ModelsOf(lines[..n])[key].cost.currency;
      assert lines[j] == lines[..n][j];
    } else {
      assert key == Key(lines[n]);
    }
  }

  lemma {:induction false} PlainLineJoins(catalog: Catalog, lines: seq<Line>, of: seq<Route>, i: nat)
    requires NormalCatalog(catalog) && OfPlainRoutes(catalog, lines, of) && i < |lines|
    ensures Joins(ModelsOf(lines[..i]), lines[i])
  {
    var key := Key(lines[i]);
    if key in ModelsOf(lines[..i]) {
      ModelCurrency(lines[..i], key);
      var j :| 0 <= j < i && Key(lines[..i][j]) == key && lines[..i][j].cost.currency == ModelsOf(lines[..i])[key].cost.currency;
      assert lines[..i][j] == lines[j];
      SameKeySamePrice(catalog, of[j], of[i]);
    }
  }

  lemma {:induction false} PlainLinesShareCurrency(catalog: Catalog, lines: seq<Line>, of: seq<Route>)
    requires NormalCatalog(catalog) && OfPlainRoutes(catalog, lines, of)
    ensures OneCurrency(lines)
  {
    forall i | 0 <= i < |lines| ensures Joins(ModelsOf(lines[..i]), lines[i]) {
      PlainLineJoins(catalog, lines, of, i);
    }
  }

  // With a normal catalog and names without bars, lines that merge share one currency, and so
  // each currency's total is what its models cost, at every point of the report's loop.
  lemma {:induction false} CurrencyTotalsAreOfTheirModels(catalog: Catalog, routes: seq<Route>)
    requires NormalCatalog(catalog) && AllPlain(routes)
    ensures OneCurrency(Lines(catalog, routes)) && TotalsFollowModels(Lines(catalog, routes))
  {
    var of := RoutesOfLines(catalog, routes);
    PlainLinesShareCurrency(catalog, Lines(catalog, routes), of);
    TotalsFollowModelsIff(catalog, routes);
  }

  // ---------- Names with bars collide ----------

  // A name that no stripping rule applies to.
  predicate Simple(name: string) {
    0 < |name| < 4 && forall i :: 0 <= i < |name| ==> 'a' <= name[i] <= 'z' || name[i] == '|'
  }

  lemma {:induction false} SimpleStays(name: string)
    requires Simple(name)
    ensures Norm(name) == name && Trim(name) == name
  {
    TrimmedStays(name);
    assert Lower(name) == name;
  }

  lemma {:induction false} SimpleIsNormal(name: string)
    requires Simple(name)
    ensures Norm(name) == name && Trim(name) == name && NormalAlias(name) == name
  {
    SimpleStays(name);
    assert Replaced(name) == name;
  }

  lemma {:induction false} ShortIsNotTrimmed(name: string, suffixes: seq<string>)
    requires forall s :: s in suffixes ==> |s| > |name|
    ensures TrimmedBy(name, suffixes) == []
    decreases |suffixes|
  {
    if suffixes != [] {
      var n := |suffixes| - 1;
      assert suffixes[n] in suffixes && forall s :: s in suffixes[..n] ==> s in suffixes;
      ShortIsNotTrimmed(name, suffixes[..n]);
    }
  }

  lemma {:induction false} SimpleIsNotStripped(name: string)
    requires Simple(name)
    ensures Stripped(name) == []
  {
    SplitWord(name, '-');
    ShortIsNotTrimmed(name, RELEASE_SUFFIXES);
  }

  lemma {:induction false} UnstrippedAlone(name: string)
    requires name != "" && Stripped(name) == []
    ensures AliasesFrom([], [name]) == [name]
  {
    assert [name][1..] + Stripped(name) == [] && [] + [name] == [name];
    assert AliasesFrom([name], []) == [name];
  }

  lemma {:induction false} SimpleAliases(name: string)
    requires Simple(name)
    ensures Aliases(name) == [name]
  {
    SimpleIsNormal(name);
    SimpleIsNotStripped(name);
    UnstrippedAlone(name);
  }

  lemma {:induction false} SimpleCandidates(requested: string, effective: string)
    requires Simple(requested) && Simple(effective) && requested != effective
    ensures Candidates(requested, effective) == [requested, effective]
  {
    SimpleAliases(requested);
    SimpleAliases(effective);
    assert [requested][..0] == [] && [effective][..0] == [];
    assert Added([], [requested]) == [requested];
    assert Added([requested], [effective]) == [requested, effective];
  }

  const EUROS := Pricing("EUR", 1000000.0, 0.0, 0.0, 0.0, 0.0, 0.0)
  const ONE_TOKEN := Usage(1, 0, 0, 1)
  const UNPRICED := Route("z", "x|y", "", ONE_TOKEN)
  const PRICED := Route("y", "x", "z", ONE_TOKEN)

  lemma {:induction false} FoundNowhere()
    ensures Resolved(map["y" := EUROS], "z", "x|y", "") == None
  {
    SimpleCandidates("z", "x|y");
    FirstIsThere(map["y" := EUROS], ["z", "x|y"]);
    NothingIsNothing();
  }

  predicate Plainly(name: string) {
    Trim(name) == name == Norm(name)
  }

  lemma {:induction false} UnpricedLineOf(catalog: Catalog, route: Route)
    requires Plainly(route.requested) && Plainly(route.effective) && Plainly(route.upstream)
    requires route.requested != "" && route.effective != ""
    requires Resolved(catalog, route.requested, route.effective, route.upstream) == None
    ensures LineOf(catalog, route)
         == Line(route.effective, route.requested, route.effective, route.upstream, route.requested, route.usage, None, FREE)
  {
  }

  lemma {:induction false} UnpricedLine()
    ensures LineOf(map["y" := EUROS], UNPRICED) == Line("x|y", "z", "x|y", "", "z", ONE_TOKEN, None, FREE)
  {
    FoundNowhere();
    SimpleStays("z");
    SimpleStays("x|y");
    NothingIsNothing();
    UnpricedLineOf(map["y" := EUROS], UNPRICED);
  }

  lemma {:induction false} NothingIsNothing()
    ensures Trim("") == "" && Norm("") == "" && NormalAlias("") == ""
  {
    assert Lower("") == "" && Replaced("") == "";
  }

  lemma {:induction false} NotScoped(candidates: seq<string>)
    requires candidates == ["y", "x"]
    ensures FirstIn(map["y" := EUROS], ScopedKeys("z", candidates)) == None
  {
    var scoped := ScopedKeys("z", candidates);
    SimpleIsNormal("x");
    SimpleIsNormal("y");
    SimpleIsNormal("z");
    assert |scoped| == 2 && |scoped[0]| > 1 && |scoped[1]| > 1;
    FirstIsThere(map["y" := EUROS], scoped);
  }

  lemma {:induction false} FoundUnderY()
    ensures Resolved(map["y" := EUROS], "y", "x", "z") == Some(("y", NormalPricing(EUROS)))
  {
    var catalog, keys := map["y" := EUROS], ["y", "x"];
    SimpleCandidates("y", "x");
    NotScoped(keys);
    assert keys[..1] == ["y"] && keys[..1][..0] == [];
    assert FirstIn(catalog, ["y"]) == Some("y");
    assert FirstIn(catalog, keys) == Some("y");
  }

  lemma {:induction false} PricedLine()
    ensures LineOf(map["y" := EUROS], PRICED)
         == Line("x", "y", "x", "z", "y", ONE_TOKEN, Some(NormalPricing(EUROS)), CostOf(ONE_TOKEN, NormalPricing(EUROS)))
  {
    FoundUnderY();
    SimpleIsNormal("x");
    SimpleIsNormal("y");
    SimpleIsNormal("z");
  }

  lemma {:induction false} EurosCost()
    ensures var cost := CostOf(ONE_TOKEN, NormalPricing(EUROS));
            Config.NormalCurrency(cost.currency) == "EUR" && cost.total == 1.0
    ensures Config.NormalCurrency("") == "USD"
  {
    TrimmedStays("EUR");
    NothingIsNothing();
    assert Upper("EUR") == "EUR" && Upper("") == "";
  }

  // The two lines have the same key.
  lemma {:induction false} KeysCollide(a: Line, b: Line)
    requires a == Line("x|y", "z", "x|y", "", "z", ONE_TOKEN, None, FREE)
    requires b.display == "x" && b.pricingModel == "y" && b.upstream == "z"
    ensures Key(a) == "x|y|z" == Key(b)
  {
    UnpricedKey(a);
    PricedKey(b);
  }

  lemma {:induction false} UnpricedKey(a: Line)
    requires a.display == "x|y" && a.pricingModel == "z" && a.upstream == ""
    ensures Key(a) == "x|y|z"
  {
    SimpleIsNormal("x|y");
    SimpleIsNormal("z");
    NothingIsNothing();
    assert "x|y" + "|" + "z" == "x|y|z";
  }

  lemma {:induction false} PricedKey(b: Line)
    requires b.display == "x" && b.pricingModel == "y" && b.upstream == "z"
    ensures Key(b) == "x|y|z"
  {
    SimpleIsNormal("x");
    SimpleIsNormal("y");
    SimpleIsNormal("z");
    assert "x" + "|" + "y" + "|" + "z" == "x|y|z";
  }

  lemma {:induction false} SecondTotalled(a: Line, b: Line, currency: string)
    requires a.pricing.None? && b.pricing.Some? && In(b, currency)
    ensures TotalsAt(TotalsOf([a, b]), currency).total == b.cost.total
  {
    assert [a, b][..1] == [a] && [a][..0] == [];
    assert TotalsOf([a]) == map[];
  }

  lemma {:induction false} TwoMerged(a: Line, b: Line, f: Line -> real)
    requires Key(a) == Key(b)
    ensures SumOver(ModelsOf([a, b]), f) == f(Merged(a, b))
  {
    var key := Key(a);
    assert [a, b][..1] == [a] && [a][..0] == [];
    assert ModelsOf([a]) == map[key := a];
    assert ModelsOf([a, b]) == map[key := Merged(a, b)];
    TakeOut(map[key := Merged(a, b)], f, key);
    assert map[key := Merged(a, b)] - {key} == map[];
  }

  lemma {:induction false} UnpricedTakesIn(a: Line, b: Line)
    requires Key(a) == Key(b) && a.pricing.None? && a.cost == FREE && b.pricing.Some? && In(b, "EUR") && b.cost.total == 1.0
    requires Config.NormalCurrency("") == "USD"
    ensures !TotalIsOfModels([a, b], "EUR")
  {
    SecondTotalled(a, b, "EUR");
    TwoMerged(a, b, CostIn("EUR"));
  }

  lemma {:induction false} TwoLines(catalog: Catalog, r1: Route, r2: Route)
    requires !Skipped(r1) && !Skipped(r2)
    ensures Lines(catalog, [r1, r2]) == [LineOf(catalog, r1), LineOf(catalog, r2)]
  {
    assert [r1, r2][..1] == [r1] && [r1][..0] == [];
    assert Lines(catalog, [r1]) == [LineOf(catalog, r1)];
  }

  lemma {:induction false} CollidingRoutes(catalog: Catalog, r1: Route, r2: Route, a: Line, b: Line)
    requires !Skipped(r1) && !Skipped(r2) && LineOf(catalog, r1) == a && LineOf(catalog, r2) == b
    requires Key(a) == Key(b) && a.pricing.None? && a.cost == FREE && b.pricing.Some? && In(b, "EUR") && b.cost.total == 1.0
    requires Config.NormalCurrency("") == "USD"
    ensures !TotalIsOfModels(Lines(catalog, [r1, r2]), "EUR")
  {
    TwoLines(catalog, r1, r2);
    UnpricedTakesIn(a, b);
  }

  lemma {:induction false} OneKeyCatalog()
    ensures NormalCatalog(map["y" := EUROS])
  {
    SimpleIsNormal("y");
  }

  // A route without a price whose effective model has a bar in its name, and one priced in
  // euros, are merged into a line that counts as dollars.
  lemma {:induction false} MixedCurrenciesDiffer()
    ensures NormalCatalog(map["y" := EUROS]) && !TotalIsOfModels(Lines(map["y" := EUROS], [UNPRICED, PRICED]), "EUR")
  {
    OneKeyCatalog();
    UnpricedLine();
    PricedLine();
    EurosCost();
    var a := Line("x|y", "z", "x|y", "", "z", ONE_TOKEN, None, FREE);
    var b := Line("x", "y", "x", "z", "y", ONE_TOKEN, Some(NormalPricing(EUROS)), CostOf(ONE_TOKEN, NormalPricing(EUROS)));
    KeysCollide(a, b);
    CollidingRoutes(map["y" := EUROS], UNPRICED, PRICED, a, b);
  }
}
