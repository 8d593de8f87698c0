/** The gateway configuration: the defaults that normalisation fills in, and what a copy
    through YAML keeps. */
module Config {
  import opened Wrappers
  import opened Text

  // ---------- The sections. Fields that normalisation leaves alone are one `rest` ----------

  datatype Server = Server(listen: string, readMs: int, idleMs: int, maxBody: int, rest: string)

  datatype Admin = Admin(language: string, historyLimit: int, rest: string)

  datatype Intercept = Intercept(action: string, rest: string)

  datatype Routing = Routing(
    strategy: string, maxRetries: int, backoffInitialMs: int, backoffMaxMs: int,
    healthIntervalSec: int, healthTimeoutMs: int, healthPath: string, stickyTtlSec: int,
    failureThreshold: int, cooldownSec: int, passthroughSec: int,
    statusCodeMin: Option<int>, statusCodes: seq<int>, keywords: seq<string>, maxElapsedMs: int,
    cacheTtlSec: int, cacheEntries: int, queueConcurrent: int, queuePriorityPct: int,
    compressionLevel: int, compressionMin: int, intercepts: seq<Intercept>, rest: string)

  datatype Provider = Provider(
    name: string, adapter: string, baseUrl: string, anthropicUrl: string, class_: string,
    models: seq<string>, aliases: map<string, string>, weight: int, timeoutMs: int, enabled: Option<bool>, rest: string)

  datatype Telemetry = Telemetry(path: string, retentionDays: int, aggregationSec: int, cacheTtlSec: int)

  datatype Source = Source(id: string, vendor: string, url: string, enabled: Option<bool>, timeoutMs: int, refreshMinutes: int)

  datatype Fx = Fx(enabled: Option<bool>, cachePath: string, refreshMinutes: int)

  datatype ManualPrice = ManualPrice(
    provider: string, model: string, currency: string, input: real, cached: real, output: real,
    enabled: Option<bool>, source: string)

  // sourcesSet: whether the text the configuration was read from had a sources key.
  datatype Pricing = Pricing(
    cachePath: string, refreshHours: int, refreshMinutes: int, timeoutMs: int,
    sources: seq<Source>, fx: Fx, manual: seq<ManualPrice>, sourcesSet: bool)

  datatype Alias = Alias(canonical: string, provider: string, models: seq<string>)

  datatype Benchmarking = Benchmarking(
    suite: string, judgeModel: string, judgeProvider: string, judgeTimeoutMs: int,
    maxRuns: int, maxCases: int, caseTimeoutMs: int,
    normalMaxGap: real, suspectMaxGap: real, highSuspectFailures: int, aliases: seq<Alias>, rest: string)

  datatype Compat = Compat(fallbackModels: Option<map<string, string>>, rest: string)

  datatype Config = Config(
    server: Server, admin: Admin, routing: Routing, providers: seq<Provider>, telemetry: Telemetry,
    pricing: Pricing, benchmarking: Benchmarking, compat: Compat)

  // ---------- Words ----------

  const LANGUAGES := {"en", "ja", "ko", "es", "fr", "de"}

  function NormalLanguage(s: string): string {
    if Lower(Trim(s)) in LANGUAGES then Lower(Trim(s)) else "zh"
  }

  const STRATEGIES := {"health_weighted_rr", "round_robin", "weighted_rr"}

  function NormalStrategy(s: string): string {
    var word := Lower(Trim(s));
    if word == "" then "health_weighted_rr" else if word in STRATEGIES then word else Trim(s)
  }

  function NormalClass(s: string): string {
    if Lower(Trim(s)) in {"free", "gratis", "public"} then "free" else "quota_limited"
  }

  function NormalAdapter(value: string, anthropicUrl: string): string {
    var word := Lower(Trim(value));
    if word == "" then if Trim(anthropicUrl) != "" then "anthropic_messages" else "openai_chat_completions"
    else word
  }

  function NormalCurrency(s: string): string {
    if Upper(Trim(s)) == "" then "USD" else Upper(Trim(s))
  }

  // The default for what was left at zero, and for what is not positive.
  function IfZero(v: int, d: int): int {
    if v == 0 then d else v
  }

  function IfNotPositive(v: int, d: int): int {
    if v <= 0 then d else v
  }

  function IfEmpty(s: string, d: string): string {
    if s == "" then d else s
  }

  function IfNone<T>(o: Option<T>, d: T): Option<T> {
    if o.None? then Some(d) else o
  }

  // ---------- Sections ----------

  function NormalServer(s: Server): Server {
    s.(listen := IfEmpty(s.listen, ":18080"), readMs := IfZero(s.readMs, 30000), idleMs := IfZero(s.idleMs, 120000),
       maxBody := IfZero(s.maxBody, 104857600))
  }

  const DEFAULT_HISTORY_LIMIT := 256

  function NormalAdmin(a: Admin): Admin {
    a.(language := NormalLanguage(a.language), historyLimit := IfNotPositive(a.historyLimit, DEFAULT_HISTORY_LIMIT))
  }

  const RETRY_KEYWORDS: seq<string> := [
    "429", "too many requests", "rate limit", "quota exceeded", "insufficient quota", "insufficient_quota",
    "exceeded your current quota", "billing hard limit", "credit balance is too low",
    "stream disconnected before completion", "stream closed before response.completed", "response.completed",
    "upstream request failed", "server busy", "system busy", "temporarily unavailable", "temporarily overloaded",
    "overloaded", "please try again later", "service unavailable"]

  function Map<T, U>(f: T -> U, s: seq<T>): seq<U> {
    seq(|s|, i requires 0 <= i < |s| => f(s[i]))
  }

  function NormalIntercept(i: Intercept): Intercept {
    if Trim(i.action) == "" then i.(action := "fail") else i
  }

  function NormalRouting(r: Routing): Routing {
    r.(strategy := NormalStrategy(r.strategy),
       maxRetries := IfZero(r.maxRetries, 2),
       backoffInitialMs := IfZero(r.backoffInitialMs, 3000), backoffMaxMs := IfZero(r.backoffMaxMs, 30000),
       healthIntervalSec := IfZero(r.healthIntervalSec, 10), healthTimeoutMs := IfZero(r.healthTimeoutMs, 2000),
       healthPath := IfEmpty(r.healthPath, "/v1/models"),
       stickyTtlSec := IfNotPositive(r.stickyTtlSec, 1800),
       failureThreshold := IfZero(r.failureThreshold, 20), cooldownSec := IfZero(r.cooldownSec, 60),
       passthroughSec := IfZero(r.passthroughSec, 600),
       statusCodeMin := IfNone(r.statusCodeMin, 500),
       statusCodes := if r.statusCodes == [] then [408, 429] else r.statusCodes,
       keywords := if r.keywords == [] then RETRY_KEYWORDS else r.keywords,
       maxElapsedMs := IfNotPositive(r.maxElapsedMs, 120000),
       cacheTtlSec := IfZero(r.cacheTtlSec, 300), cacheEntries := IfZero(r.cacheEntries, 1000),
       queueConcurrent := IfZero(r.queueConcurrent, 100), queuePriorityPct := IfZero(r.queuePriorityPct, 60),
       compressionLevel := IfZero(r.compressionLevel, 5), compressionMin := IfZero(r.compressionMin, 1024),
       intercepts := Map(NormalIntercept, r.intercepts))
  }

  function NormalTelemetry(t: Telemetry): Telemetry {
    t.(path := IfEmpty(t.path, "data/telemetry.db"), retentionDays := IfZero(t.retentionDays, 30),
       aggregationSec := IfZero(t.aggregationSec, 60), cacheTtlSec := IfZero(t.cacheTtlSec, 5))
  }

  function NormalCompat(c: Compat): Compat {
    c.(fallbackModels := IfNone(c.fallbackModels, map[]))
  }

  function NormalProvider(p: Provider): Provider {
    p.(class_ := NormalClass(p.class_), adapter := NormalAdapter(p.adapter, p.anthropicUrl),
       weight := IfZero(p.weight, 1), timeoutMs := IfZero(p.timeoutMs, 30000))
  }

  // ---------- Pricing ----------

  function DefaultSource(vendor: string, url: string, minutes: int, timeoutMs: int): Source {
    Source(vendor, vendor, url, Some(vendor != "xiaomi"), timeoutMs, minutes)
  }

  function DefaultSources(minutes: int, timeoutMs: int): (r: seq<Source>)
    ensures |r| == 10
  {
    [DefaultSource("openai", "https://openai.com/api/pricing/", minutes, timeoutMs),
     DefaultSource("anthropic", "https://docs.anthropic.com/en/docs/about-claude/pricing", minutes, timeoutMs),
     DefaultSource("gemini", "https://ai.google.dev/gemini-api/docs/pricing", minutes, timeoutMs),
     DefaultSource("moonshot", "https://platform.moonshot.cn/docs/pricing/chat", minutes, timeoutMs),
     DefaultSource("zhipu", "https://open.bigmodel.cn/pricing", minutes, timeoutMs),
     DefaultSource("minimax", "https://platform.minimaxi.com/docs/pricing", minutes, timeoutMs),
     DefaultSource("deepseek", "https://api-docs.deepseek.com/quick_start/pricing", minutes, timeoutMs),
     DefaultSource("xai", "https://x.ai/api", minutes, timeoutMs),
     DefaultSource("step", "https://platform.stepfun.com/docs/pricing", minutes, timeoutMs),
     DefaultSource("xiaomi", "https://platform.xiaomi.com/", minutes, timeoutMs)]
  }

  function NormalSource(s: Source, minutes: int, timeoutMs: int): Source {
    Source(Trim(s.id), Lower(Trim(s.vendor)), Trim(s.url), IfNone(s.enabled, true),
           IfNotPositive(s.timeoutMs, timeoutMs), IfNotPositive(s.refreshMinutes, minutes))
  }

  function NormalSources(sources: seq<Source>, minutes: int, timeoutMs: int): (r: seq<Source>)
    ensures |r| == |sources| && forall i :: 0 <= i < |r| ==> r[i] == NormalSource(sources[i], minutes, timeoutMs)
  {
    Map(s => NormalSource(s, minutes, timeoutMs), sources)
  }

  function NormalManual(m: ManualPrice): ManualPrice {
    m.(provider := Trim(m.provider), model := Trim(m.model), currency := NormalCurrency(m.currency),
       source := IfEmpty(Trim(m.source), "manual"), enabled := IfNone(m.enabled, true))
  }

  // The refresh interval in minutes, from the hours where only those are given.
  function RefreshMinutes(p: Pricing): int {
    if p.refreshMinutes > 0 then p.refreshMinutes
    else if p.refreshHours > 0 then p.refreshHours * 60
    else 15
  }

  function SourcesFor(p: Pricing): seq<Source> {
    if p.sources == [] && !p.sourcesSet
    then DefaultSources(RefreshMinutes(p), IfNotPositive(p.timeoutMs, 15000))
    else p.sources
  }

  function NormalPricing(p: Pricing): Pricing {
    var minutes, timeoutMs := RefreshMinutes(p), IfNotPositive(p.timeoutMs, 15000);
    Pricing(IfEmpty(p.cachePath, "data/pricing-cache.json"), (minutes + 59) / 60, minutes, timeoutMs,
            NormalSources(SourcesFor(p), minutes, timeoutMs),
            Fx(IfNone(p.fx.enabled, true), IfEmpty(p.fx.cachePath, "data/pricing-fx-cache.json"),
               IfNotPositive(p.fx.refreshMinutes, 1440)),
            Map(NormalManual, p.manual), p.sourcesSet)
  }

  // ---------- Benchmarking ----------

  function TrimmedModels(models: seq<string>): seq<string> {
    if models == [] then []
    else
      var front, last := TrimmedModels(models[..|models| - 1]), Trim(models[|models| - 1]);
      if last == "" then front else front + [last]
  }

  function NormalAlias(a: Alias): Alias {
    Alias(Trim(a.canonical), Trim(a.provider), TrimmedModels(a.models))
  }

  function IfNotPositiveReal(v: real, d: real): real {
    if v <= 0.0 then d else v
  }

  function NormalBenchmarking(b: Benchmarking): Benchmarking {
    b.(suite := IfEmpty(b.suite, "general_protocol_v1"), judgeModel := Trim(b.judgeModel), judgeProvider := Trim(b.judgeProvider),
       judgeTimeoutMs := IfNotPositive(b.judgeTimeoutMs, 30000), maxRuns := IfNotPositive(b.maxRuns, 1),
       maxCases := IfNotPositive(b.maxCases, 2), caseTimeoutMs := IfNotPositive(b.caseTimeoutMs, 30000),
       normalMaxGap := IfNotPositiveReal(b.normalMaxGap, 8.0), suspectMaxGap := IfNotPositiveReal(b.suspectMaxGap, 20.0),
       highSuspectFailures := IfNotPositive(b.highSuspectFailures, 2), aliases := Map(NormalAlias, b.aliases))
  }

  function Normal(c: Config): Config {
    Config(NormalServer(c.server), NormalAdmin(c.admin), NormalRouting(c.routing), Map(NormalProvider, c.providers),
           NormalTelemetry(c.telemetry), NormalPricing(c.pricing), NormalBenchmarking(c.benchmarking), NormalCompat(c.compat))
  }

  // ---------- The loops ----------

  // The pricing section as the object that its normalize method changes in place.
  class PricingSection {
    var cachePath: string
    var refreshHours: int
    var refreshMinutes: int
    var timeoutMs: int
    var sources: seq<Source>
    var fx: Fx
    var manual: seq<ManualPrice>
    const sourcesSet: bool

    function Value(): Pricing
      reads this
    {
      Pricing(cachePath, refreshHours, refreshMinutes, timeoutMs, sources, fx, manual, sourcesSet)
    }

    constructor (p: Pricing)
      ensures Value() == p
    {
      cachePath, refreshHours, refreshMinutes, timeoutMs := p.cachePath, p.refreshHours, p.refreshMinutes, p.timeoutMs;
      sources, fx, manual, sourcesSet := p.sources, p.fx, p.manual, p.sourcesSet;
    }

    method NormalizeSources()
      modifies `sources
      ensures sources == NormalSources(old(sources), refreshMinutes, timeoutMs)
    {
      for i := 0 to |sources|
        invariant |sources| == |old(sources)|
        invariant forall k :: 0 <= k < i ==> sources[k] == NormalSource(old(sources)[k], refreshMinutes, timeoutMs)
        invariant forall k :: i <= k < |sources| ==> sources[k] == old(sources)[k]
      {
        var s := sources[i];
        s := s.(id := Trim(s.id), vendor := Lower(Trim(s.vendor)), url := Trim(s.url));
        if s.refreshMinutes <= 0 {
          s := s.(refreshMinutes := refreshMinutes);
        }
        if s.timeoutMs <= 0 {
          s := s.(timeoutMs := timeoutMs);
        }
        if s.enabled.None? {
          s := s.(enabled := Some(true));
        }
        sources := sources[i := s];
      }
    }

    method NormalizeManual()
      modifies `manual
      ensures manual == Map(NormalManual, old(manual))
    {
      for i := 0 to |manual|
        invariant |manual| == |old(manual)|
        invariant forall k :: 0 <= k < i ==> manual[k] == NormalManual(old(manual)[k])
        invariant forall k :: i <= k < |manual| ==> manual[k] == old(manual)[k]
      {
        var m := manual[i];
        m := m.(provider := Trim(m.provider), model := Trim(m.model), currency := NormalCurrency(m.currency), source := Trim(m.source));
        if m.source == "" {
          m := m.(source := "manual");
        }
        if m.enabled.None? {
          m := m.(enabled := Some(true));
        }
        manual := manual[i := m];
      }
    }

    method NormalizeIntervals()
      modifies `refreshMinutes, `refreshHours, `timeoutMs
      ensures refreshMinutes == RefreshMinutes(old(Value())) && refreshHours == (refreshMinutes + 59) / 60
      ensures timeoutMs == IfNotPositive(old(timeoutMs), 15000)
    {
      if refreshMinutes <= 0 {
        if refreshHours > 0 {
          refreshMinutes := refreshHours * 60;
        } else {
          refreshMinutes := 15;
        }
      }
      refreshHours := (refreshMinutes + 59) / 60;
      if timeoutMs <= 0 {
        timeoutMs := 15000;
      }
    }

    method NormalizePaths()
      modifies `cachePath, `fx
      ensures cachePath == IfEmpty(old(cachePath), "data/pricing-cache.json")
      ensures fx == Fx(IfNone(old(fx).enabled, true), IfEmpty(old(fx).cachePath, "data/pricing-fx-cache.json"),
                       IfNotPositive(old(fx).refreshMinutes, 1440))
    {
      if cachePath == "" {
        cachePath := "data/pricing-cache.json";
      }
      if fx.cachePath == "" {
        fx := fx.(cachePath := "data/pricing-fx-cache.json");
      }
      if fx.refreshMinutes <= 0 {
        fx := fx.(refreshMinutes := 1440);
      }
      if fx.enabled.None? {
        fx := fx.(enabled := Some(true));
      }
    }

    method FillSources()
      modifies `sources
      ensures sources == if old(sources) == [] && !sourcesSet then DefaultSources(refreshMinutes, timeoutMs) else old(sources)
    {
      if |sources| == 0 && !sourcesSet {
        sources := DefaultSources(refreshMinutes, timeoutMs);
      }
    }

    method Normalize()
      modifies this
      ensures Value() == NormalPricing(old(Value()))
    {
      NormalizePaths();
      NormalizeIntervals();
      FillSources();
      assert sources == SourcesFor(old(Value()));
      NormalizeSources();
      NormalizeManual();
    }
  }

  // The models of one alias entry, trimmed, without the empty ones.
  method TrimModels(models: seq<string>) returns (normalized: seq<string>)
    ensures normalized == TrimmedModels(models)
  {
    normalized := [];
    for i := 0 to |models|
      invariant normalized == TrimmedModels(models[..i])
    {
      assert models[..i + 1][..i] == models[..i];
      var value := Trim(models[i]);
      if value != "" {
        normalized := normalized + [value];
      }
    }
    assert models[..|models|] == models;
  }

  // The source with its names trimmed: enabled unless it said otherwise, and with the section's
  // interval and timeout where it has none of its own.
  predicate Filled(s: Source, filled: Source, minutes: int, timeoutMs: int) {
    && filled.id == Trim(s.id) && filled.vendor == Lower(Trim(s.vendor)) && filled.url == Trim(s.url)
    && filled.enabled.Some? && (filled.enabled.value <==> s.enabled.None? || s.enabled.value)
    && filled.refreshMinutes == (if s.refreshMinutes > 0 then s.refreshMinutes else minutes)
    && filled.timeoutMs == (if s.timeoutMs > 0 then s.timeoutMs else timeoutMs)
  }

  // Intervals and timeouts given stay; the hours are the fewest that hold the minutes; and the
  // sources are those listed, or the ten known ones where the text lists none at all.
  lemma {:induction false} PricingMeans(p: Pricing)
    ensures var n := NormalPricing(p);
            && n.refreshMinutes == (if p.refreshMinutes > 0 then p.refreshMinutes else if p.refreshHours > 0 then p.refreshHours * 60 else 15)
            && (n.refreshHours - 1) * 60 < n.refreshMinutes <= n.refreshHours * 60
            && n.timeoutMs == (if p.timeoutMs > 0 then p.timeoutMs else 15000)
            && |n.sources| == (if p.sources == [] && !p.sourcesSet then 10 else |p.sources|) && |n.manual| == |p.manual|
            && forall k :: 0 <= k < |p.sources| ==> Filled(p.sources[k], n.sources[k], n.refreshMinutes, n.timeoutMs)
  {
    var n := NormalPricing(p);
    forall k | 0 <= k < |p.sources| ensures Filled(p.sources[k], n.sources[k], n.refreshMinutes, n.timeoutMs) {
      assert n.sources[k] == NormalSource(p.sources[k], n.refreshMinutes, n.timeoutMs);
    }
  }

  // Each name is trimmed by itself, and left out where that leaves nothing.
  lemma {:induction false} TrimmedModelsInOrder(model: string, a: seq<string>, b: seq<string>)
    ensures TrimmedModels(a + b) == TrimmedModels(a) + TrimmedModels(b)
    ensures TrimmedModels([model]) == if Trim(model) == "" then [] else [Trim(model)]
    decreases |b|
  {
    assert [model][..0] == [];
    if b == [] {
      assert a + b == a;
    } else {
      assert (a + b)[..|a + b| - 1] == a + b[..|b| - 1];
      TrimmedModelsInOrder(model, a, b[..|b| - 1]);
    }
  }

  // ---------- Normalising twice changes nothing more ----------

  // Lower-case trimmed text stays as it is.
  lemma {:induction false} WordStays(s: string)
    ensures Lower(Trim(Lower(Trim(s)))) == Lower(Trim(s))
  {
    TrimLowerStable(s);
    TrimLowerStable(Trim(s));
  }

  lemma {:induction false} LanguageIdempotent(s: string)
    ensures NormalLanguage(NormalLanguage(s)) == NormalLanguage(s)
  {
    WordStays(s);
    Plain("zh");
  }

  lemma {:induction false} StrategyIdempotent(s: string)
    ensures NormalStrategy(NormalStrategy(s)) == NormalStrategy(s)
  {
    WordStays(s);
    TrimLowerStable(s);
    Plain("health_weighted_rr");
  }

  lemma {:induction false} ClassIdempotent(s: string)
    ensures NormalClass(NormalClass(s)) == NormalClass(s)
  {
    Plain("free");
    Plain("quota_limited");
  }

  lemma {:induction false} AdapterIdempotent(s: string, url: string)
    ensures NormalAdapter(NormalAdapter(s, url), url) == NormalAdapter(s, url)
  {
    WordStays(s);
    Plain("anthropic_messages");
    Plain("openai_chat_completions");
  }

  lemma {:induction false} CurrencyIdempotent(s: string)
    ensures NormalCurrency(NormalCurrency(s)) == NormalCurrency(s)
  {
    TrimLowerStable(s);
    TrimLowerStable(Trim(s));
    TrimmedStays("USD");
  }

  lemma {:induction false} MapTwice<T>(f: T -> T, s: seq<T>)
    requires forall i :: 0 <= i < |s| ==> f(f(s[i])) == f(s[i])
    ensures Map(f, Map(f, s)) == Map(f, s)
  {
  }

  lemma {:induction false} RoutingIdempotent(r: Routing)
    ensures NormalRouting(NormalRouting(r)) == NormalRouting(r)
  {
    StrategyIdempotent(r.strategy);
    TrimmedStays("fail");
    MapTwice(NormalIntercept, r.intercepts);
  }

  lemma {:induction false} ProvidersIdempotent(ps: seq<Provider>)
    ensures Map(NormalProvider, Map(NormalProvider, ps)) == Map(NormalProvider, ps)
  {
    forall i | 0 <= i < |ps| ensures NormalProvider(NormalProvider(ps[i])) == NormalProvider(ps[i]) {
      ClassIdempotent(ps[i].class_);
      AdapterIdempotent(ps[i].adapter, ps[i].anthropicUrl);
    }
    MapTwice(NormalProvider, ps);
  }

  lemma {:induction false} SourcesIdempotent(sources: seq<Source>, minutes: int, timeoutMs: int)
    requires minutes > 0 && timeoutMs > 0
    ensures NormalSources(NormalSources(sources, minutes, timeoutMs), minutes, timeoutMs) == NormalSources(sources, minutes, timeoutMs)
  {
    forall i | 0 <= i < |sources|
      ensures NormalSource(NormalSource(sources[i], minutes, timeoutMs), minutes, timeoutMs) == NormalSource(sources[i], minutes, timeoutMs)
    {
      TrimLowerStable(sources[i].id);
      TrimLowerStable(sources[i].vendor);
      TrimLowerStable(sources[i].url);
    }
  }

  lemma {:induction false} ManualIdempotent(manual: seq<ManualPrice>)
    ensures Map(NormalManual, Map(NormalManual, manual)) == Map(NormalManual, manual)
  {
    TrimmedStays("manual");
    forall i | 0 <= i < |manual| ensures NormalManual(NormalManual(manual[i])) == NormalManual(manual[i]) {
      TrimLowerStable(manual[i].provider);
      TrimLowerStable(manual[i].model);
      TrimLowerStable(manual[i].source);
      CurrencyIdempotent(manual[i].currency);
    }
    MapTwice(NormalManual, manual);
  }

  lemma {:induction false} PricingIdempotent(p: Pricing)
    ensures NormalPricing(NormalPricing(p)) == NormalPricing(p)
  {
    SourcesIdempotent(SourcesFor(p), RefreshMinutes(p), IfNotPositive(p.timeoutMs, 15000));
    ManualIdempotent(p.manual);
    SourcesStay(p);
  }

  // Sources once there are not replaced.
  lemma {:induction false} SourcesStay(p: Pricing)
    ensures SourcesFor(NormalPricing(p)) == NormalPricing(p).sources
  {
    assert |DefaultSources(RefreshMinutes(p), IfNotPositive(p.timeoutMs, 15000))| == 10;
  }

  lemma {:induction false} ModelsIdempotent(models: seq<string>)
    ensures TrimmedModels(TrimmedModels(models)) == TrimmedModels(models)
    decreases |models|
  {
    if models != [] {
      var front, last := models[..|models| - 1], Trim(models[|models| - 1]);
      ModelsIdempotent(front);
      TrimLowerStable(models[|models| - 1]);
      if last != "" {
        assert (TrimmedModels(front) + [last])[..|TrimmedModels(front)|] == TrimmedModels(front);
      }
    }
  }

  lemma {:induction false} BenchmarkingIdempotent(b: Benchmarking)
    ensures NormalBenchmarking(NormalBenchmarking(b)) == NormalBenchmarking(b)
  {
    TrimLowerStable(b.judgeModel);
    TrimLowerStable(b.judgeProvider);
    forall i | 0 <= i < |b.aliases| ensures NormalAlias(NormalAlias(b.aliases[i])) == NormalAlias(b.aliases[i]) {
      TrimLowerStable(b.aliases[i].canonical);
      TrimLowerStable(b.aliases[i].provider);
      ModelsIdempotent(b.aliases[i].models);
    }
    MapTwice(NormalAlias, b.aliases);
  }

  lemma {:induction false} NormalIdempotent(c: Config)
    ensures Normal(Normal(c)) == Normal(c)
  {
    LanguageIdempotent(c.admin.language);
    RoutingIdempotent(c.routing);
    ProvidersIdempotent(c.providers);
    PricingIdempotent(c.pricing);
    BenchmarkingIdempotent(c.benchmarking);
  }

  // ---------- Through YAML ----------

  // Marshal and unmarshal: an empty source list is not written, and the flag says what the
  // text had. Everything else comes back as it was.
  function YamlPricing(p: Pricing): Pricing {
    p.(sourcesSet := p.sources != [])
  }

  function Yaml(c: Config): Config {
    c.(pricing := YamlPricing(c.pricing))
  }

  // What a configuration means: its normal form without the flag, which nothing reads later.
  function Meaning(c: Config): Config {
    var n := Normal(c);
    n.(pricing := n.pricing.(sourcesSet := false))
  }

  predicate EmptySourcesChosen(c: Config) {
    c.pricing.sourcesSet && c.pricing.sources == []
  }

  lemma {:induction false} YamlMeansTheSameIff(c: Config)
    ensures Meaning(Yaml(c)) == Meaning(c) <==> !EmptySourcesChosen(c)
  {
    if EmptySourcesChosen(c) {
      assert NormalPricing(c.pricing).sources == [];
      assert |NormalPricing(YamlPricing(c.pricing)).sources| == 10;
    }
  }

  lemma {:induction false} YamlTwice(c: Config)
    ensures Yaml(Yaml(c)) == Yaml(c)
    ensures !EmptySourcesChosen(Yaml(c))
  {
  }

  lemma {:induction false} NormalMeansTheSame(c: Config)
    ensures Meaning(Normal(c)) == Meaning(c)
    ensures EmptySourcesChosen(Normal(c)) <==> EmptySourcesChosen(c)
  {
    NormalIdempotent(c);
  }
}
