/** Compiling a configuration into the snapshot that gatewayd runs. */
module Compiler {
  import opened Wrappers
  import opened Text
  import opened Config

  datatype ModelMapping = ModelMapping(publicModel: string, upstreamModel: string)

  datatype ProviderSnapshot = ProviderSnapshot(
    providerId: string, upstreamId: string, adapter: string, baseUrl: string, anthropicUrl: string,
    models: seq<ModelMapping>, rest: string)

  datatype SourceSnapshot = SourceSnapshot(id: string, vendor: string, url: string, enabled: bool, timeoutMs: int, refreshMinutes: int)

  // The parts of a snapshot whose compilation is not spelled out are `rest`.
  datatype Payload = Payload(listen: string, providers: seq<ProviderSnapshot>, sources: seq<SourceSnapshot>, rest: string)

  datatype Meta = Meta(snapshotId: string, revisionId: string, schema: int, generatedAt: int)

  datatype Snapshot = Snapshot(meta: Meta, payload: Payload)

  const CURRENT_SCHEMA := 1

  // Code that is not modelled: URL parsing, and the field-by-field copies of the sections.
  // parseUrl gives the canonical form of a URL with a scheme and a host, and None otherwise.
  datatype Env = Env(parseUrl: string -> Option<string>, copyProvider: Provider -> string, copyRest: Config -> string)

  ghost predicate RendersUrls(env: Env) {
    forall raw :: env.parseUrl(raw).Some? ==> Trim(env.parseUrl(raw).value) != ""
  }

  // ---------- Upstream ids: the same in the compiler and in the publisher ----------

  function TrimSlashes(s: string): string {
    if s != [] && s[|s| - 1] == '/' then TrimSlashes(s[..|s| - 1]) else s
  }

  function NormalUrl(env: Env, raw: string): string {
    var url := Trim(raw);
    if url == "" then ""
    else match env.parseUrl(url)
      case Some(canonical) => canonical
      case None => TrimSlashes(url)
  }

  function LogicalUpstreamId(env: Env, providerId: string, baseUrl: string, anthropicUrl: string): string {
    var url := if Trim(anthropicUrl) != "" then Trim(anthropicUrl) else Trim(baseUrl);
    if NormalUrl(env, url) != "" then NormalUrl(env, url) else Trim(providerId)
  }

  lemma {:induction false} TrimSlashesKeepsHead(s: string)
    ensures TrimSlashes(s) <= s
    decreases |s|
  {
    if s != [] && s[|s| - 1] == '/' {
      TrimSlashesKeepsHead(s[..|s| - 1]);
    }
  }

  lemma {:induction false} HeadStays(s: string)
    requires s != [] && !Space(s[0])
    ensures Trim(s) != ""
  {
    TrimRightTrims(s);
  }

  lemma {:induction false} UpstreamIdNotBlank(env: Env, providerId: string, baseUrl: string, anthropicUrl: string)
    requires RendersUrls(env) && Trim(providerId) != ""
    ensures Trim(LogicalUpstreamId(env, providerId, baseUrl, anthropicUrl)) != ""
  {
    var url := if Trim(anthropicUrl) != "" then Trim(anthropicUrl) else Trim(baseUrl);
    var normal := NormalUrl(env, url);
    TrimLowerStable(providerId);
    if normal != "" && env.parseUrl(Trim(url)).None? {
      TrimIsTrimmed(url);
      TrimSlashesKeepsHead(Trim(url));
      assert normal[0] == Trim(url)[0];
      HeadStays(normal);
    }
  }

  // A URL without the slashes at its end.
  ghost predicate Unslashed(s: string, url: string) {
    && s <= url && (s == "" || s[|s| - 1] != '/')
    && forall i :: |s| <= i < |url| ==> url[i] == '/'
  }

  lemma {:induction false} TrimSlashesMeans(s: string)
    ensures Unslashed(TrimSlashes(s), s)
    decreases |s|
  {
    if s != [] && s[|s| - 1] == '/' {
      TrimSlashesMeans(s[..|s| - 1]);
    }
  }

  // The id is the canonical form of the Anthropic URL, or of the base URL where there is none;
  // the URL itself but for slashes at its end where it has no such form; and the provider's
  // name where that leaves nothing.
  lemma {:induction false} UpstreamIdMeans(env: Env, providerId: string, baseUrl: string, anthropicUrl: string)
    ensures var url := if Trim(anthropicUrl) != "" then Trim(anthropicUrl) else Trim(baseUrl);
            var id := LogicalUpstreamId(env, providerId, baseUrl, anthropicUrl);
            if url == "" then id == Trim(providerId)
            else match env.parseUrl(url)
              case Some(canonical) => id == if canonical != "" then canonical else Trim(providerId)
              case None => if forall i :: 0 <= i < |url| ==> url[i] == '/' then id == Trim(providerId) else Unslashed(id, url)
  {
    var url := if Trim(anthropicUrl) != "" then Trim(anthropicUrl) else Trim(baseUrl);
    TrimLowerStable(anthropicUrl);
    TrimLowerStable(baseUrl);
    TrimSlashesMeans(url);
  }

  // ---------- Model tables ----------

  function UpstreamModel(model: string, aliases: map<string, string>): string {
    if model in aliases && Trim(aliases[model]) != "" then Trim(aliases[model]) else model
  }

  function Publics(table: seq<ModelMapping>): seq<string> {
    seq(|table|, i requires 0 <= i < |table| => table[i].publicModel)
  }

  /** One entry a model, in the order of first mention. */
  method CompileModelTable(models: seq<string>, aliases: map<string, string>) returns (table: seq<ModelMapping>)
    ensures table == ModelTable(models, aliases)
    ensures Exact(table, aliases) && FirstMentionOrder(table, models)
    ensures forall m :: m in Publics(table) <==> m != "" && Mentioned(models, m)
  {
    ModelTableIsExact(models, aliases);
    ModelTableInOrder(models, aliases);
    table := [];
    var seen: set<string> := {};
    for i := 0 to |models|
      invariant table == ModelTable(models[..i], aliases)
      invariant forall m :: m in seen <==> m in Publics(table)
    {
      assert models[..i + 1][..i] == models[..i];
      var model := Trim(models[i]);
      if model == "" || model in seen {
        continue;
      }
      seen := seen + {model};
      assert Publics(table + [ModelMapping(model, UpstreamModel(model, aliases))]) == Publics(table) + [model];
      table := table + [ModelMapping(model, UpstreamModel(model, aliases))];
    }
    assert models[..|models|] == models;
  }

  function ModelTable(models: seq<string>, aliases: map<string, string>): seq<ModelMapping> {
    if models == [] then []
    else
      var front, model := ModelTable(models[..|models| - 1], aliases), Trim(models[|models| - 1]);
      if model == "" || model in Publics(front) then front else front + [ModelMapping(model, UpstreamModel(model, aliases))]
  }

  predicate Mentioned(models: seq<string>, m: string) {
    exists i :: 0 <= i < |models| && Trim(models[i]) == m
  }

  // No model twice, each with its trimmed alias as the upstream's name for it, or without an
  // alias that is not blank its own name.
  predicate Exact(table: seq<ModelMapping>, aliases: map<string, string>) {
    && (forall i, j :: 0 <= i < j < |table| ==> table[i].publicModel != table[j].publicModel)
    && (forall i :: 0 <= i < |table| ==>
          var m := table[i].publicModel;
          if m in aliases && Trim(aliases[m]) != "" then table[i].upstreamModel == Trim(aliases[m]) else table[i].upstreamModel == m)
  }

  // Entries come in the order of first mention.
  predicate FirstMentionOrder(table: seq<ModelMapping>, models: seq<string>) {
    forall i, j :: 0 <= i < j < |table| ==> MentionedBefore(models, table[i].publicModel, table[j].publicModel)
  }

  predicate MentionedBefore(models: seq<string>, m: string, n: string) {
    exists at :: 0 <= at < |models| && Trim(models[at]) == m && !Mentioned(models[..at + 1], n)
  }

  lemma {:induction false} MentionedMore(models: seq<string>, m: string)
    requires models != []
    ensures Mentioned(models, m) <==> Mentioned(models[..|models| - 1], m) || Trim(models[|models| - 1]) == m
  {
    var front := models[..|models| - 1];
    if Mentioned(front, m) {
      var i :| 0 <= i < |front| && Trim(front[i]) == m;
      assert Trim(models[i]) == m;
    }
    if Mentioned(models, m) {
      var i :| 0 <= i < |models| && Trim(models[i]) == m;
      if i < |front| {
        assert Trim(front[i]) == m;
      }
    }
  }

  lemma {:induction false} EntryKeepsExact(table: seq<ModelMapping>, model: string, aliases: map<string, string>)
    requires Exact(table, aliases) && model !in Publics(table)
    ensures var more := table + [ModelMapping(model, UpstreamModel(model, aliases))];
            Exact(more, aliases) && Publics(more) == Publics(table) + [model]
  {
    assert forall i :: 0 <= i < |table| ==> table[i].publicModel == Publics(table)[i];
  }

  lemma {:induction false} StillBefore(models: seq<string>, m: string, n: string)
    requires models != [] && MentionedBefore(models[..|models| - 1], m, n)
    ensures MentionedBefore(models, m, n)
  {
    var front := models[..|models| - 1];
    var at :| 0 <= at < |front| && Trim(front[at]) == m && !Mentioned(front[..at + 1], n);
    assert front[..at + 1] == models[..at + 1] && models[at] == front[at];
  }

  lemma {:induction false} FirstThenLast(models: seq<string>, m: string, n: string)
    requires models != [] && Mentioned(models[..|models| - 1], m) && !Mentioned(models[..|models| - 1], n)
    ensures MentionedBefore(models, m, n)
  {
    var front := models[..|models| - 1];
    var at :| 0 <= at < |front| && Trim(front[at]) == m;
    assert models[at] == front[at];
    assert forall i :: 0 <= i <= at ==> models[..at + 1][i] == front[i];
  }

  lemma {:induction false} ModelTableInOrder(models: seq<string>, aliases: map<string, string>)
    ensures FirstMentionOrder(ModelTable(models, aliases), models)
    decreases |models|
  {
    if models != [] {
      var n, table := |models| - 1, ModelTable(models, aliases);
      var front := ModelTable(models[..n], aliases);
      ModelTableInOrder(models[..n], aliases);
      ModelTableIsExact(models[..n], aliases);
      forall i, j | 0 <= i < j < |table| ensures MentionedBefore(models, table[i].publicModel, table[j].publicModel) {
        assert table[i] == front[i] && Publics(front)[i] == front[i].publicModel;
        if j < |front| {
          StillBefore(models, table[i].publicModel, table[j].publicModel);
        } else {
          FirstThenLast(models, table[i].publicModel, table[j].publicModel);
        }
      }
    }
  }

  // Every model that is not blank has exactly one entry, under its trimmed name.
  lemma {:induction false} ModelTableIsExact(models: seq<string>, aliases: map<string, string>)
    ensures Exact(ModelTable(models, aliases), aliases)
    ensures forall m :: m in Publics(ModelTable(models, aliases)) <==> m != "" && Mentioned(models, m)
    decreases |models|
  {
    if models != [] {
      var n := |models| - 1;
      var front, model := ModelTable(models[..n], aliases), Trim(models[n]);
      ModelTableIsExact(models[..n], aliases);
      if model != "" && model !in Publics(front) {
        EntryKeepsExact(front, model, aliases);
      }
      forall m ensures Mentioned(models, m) <==> Mentioned(models[..n], m) || model == m {
        MentionedMore(models, m);
      }
    }
  }

  // ---------- Providers ----------

  function CompileProvider(env: Env, p: Provider): Result<ProviderSnapshot> {
    var id, base, anthropic := Trim(p.name), Trim(p.baseUrl), Trim(p.anthropicUrl);
    var table := ModelTable(p.models, p.aliases);
    if id == "" then Err("name must not be empty")
    else if base == "" then Err("base_url must not be empty")
    else if table == [] then Err("models must not be empty")
    else if anthropic != "" && env.parseUrl(anthropic).None? then Err("anthropic_base_url must be an absolute URL")
    else Ok(ProviderSnapshot(id, LogicalUpstreamId(env, id, base, anthropic), NormalAdapter(p.adapter, p.anthropicUrl),
                             base, anthropic, table, env.copyProvider(p)))
  }

  predicate Enabled(o: Option<bool>) {
    o != Some(false)
  }

  function CompileProviders(env: Env, ps: seq<Provider>): Result<seq<ProviderSnapshot>> {
    if ps == [] then Ok([])
    else
      var front, last := CompileProviders(env, ps[..|ps| - 1]), ps[|ps| - 1];
      if front.Err? || !Enabled(last.enabled) then front
      else match CompileProvider(env, last)
        case Err(e) => Err(e)
        case Ok(snapshot) => Ok(front.value + [snapshot])
  }

  function CompileSource(s: Source): SourceSnapshot {
    SourceSnapshot(s.id, s.vendor, s.url, Enabled(s.enabled), s.timeoutMs, s.refreshMinutes)
  }

  // What is compiled depends on the meaning of the configuration alone.
  function CompilePayload(env: Env, c: Config): Result<Payload> {
    var n := Meaning(c);
    match CompileProviders(env, n.providers)
    case Err(e) => Err(e)
    case Ok(providers) =>
      if providers == [] then Err("at least one provider is required")
      else Ok(Payload(n.server.listen, providers, Map(CompileSource, n.pricing.sources), env.copyRest(n)))
  }

  method CompileFromConfig(env: Env, c: Config, snapshotId: string, now: int) returns (r: Result<Snapshot>)
    ensures r == match CompilePayload(env, c)
                 case Err(e) => Err(e)
                 case Ok(payload) => Ok(Snapshot(Meta(snapshotId, "", CURRENT_SCHEMA, now), payload))
  {
    var n := Normal(c);
    var compiled := CompileEnabled(env, n.providers);
    if compiled.Err? {
      return Err(compiled.error);
    }
    if |compiled.value| == 0 {
      return Err("at least one provider is required");
    }
    var sources := Map(CompileSource, n.pricing.sources);
    return Ok(Snapshot(Meta(snapshotId, "", CURRENT_SCHEMA, now), Payload(n.server.listen, compiled.value, sources, env.copyRest(Meaning(c)))));
  }

  // The loop over the providers: disabled ones are passed over, the first error ends it.
  method CompileEnabled(env: Env, ps: seq<Provider>) returns (r: Result<seq<ProviderSnapshot>>)
    ensures r == CompileProviders(env, ps)
  {
    var providers: seq<ProviderSnapshot> := [];
    for i := 0 to |ps|
      invariant CompileProviders(env, ps[..i]) == Ok(providers)
    {
      assert ps[..i + 1][..i] == ps[..i];
      if Enabled(ps[i].enabled) {
        var provider := CompileProvider(env, ps[i]);
        if provider.Err? {
          ErrorStays(env, ps, i + 1);
          return Err(provider.error);
        }
        providers := providers + [provider.value];
      }
    }
    assert ps[..|ps|] == ps;
    return Ok(providers);
  }

  function EnabledOnes(ps: seq<Provider>): seq<Provider> {
    if ps == [] then []
    else EnabledOnes(ps[..|ps| - 1]) + if Enabled(ps[|ps| - 1].enabled) then [ps[|ps| - 1]] else []
  }

  // What the snapshot says of a provider.
  ghost predicate CompiledFrom(env: Env, snapshot: ProviderSnapshot, p: Provider) {
    && snapshot.providerId == Trim(p.name) && snapshot.baseUrl == Trim(p.baseUrl) && snapshot.anthropicUrl == Trim(p.anthropicUrl)
    && snapshot.upstreamId == LogicalUpstreamId(env, p.name, p.baseUrl, p.anthropicUrl)
    && snapshot.adapter == NormalAdapter(p.adapter, p.anthropicUrl) && snapshot.rest == env.copyProvider(p)
    && Exact(snapshot.models, p.aliases) && FirstMentionOrder(snapshot.models, p.models)
    && forall m :: m in Publics(snapshot.models) <==> m != "" && Mentioned(p.models, m)
  }

  lemma {:induction false} ProviderIsCompiled(env: Env, p: Provider)
    requires CompileProvider(env, p).Ok?
    ensures CompiledFrom(env, CompileProvider(env, p).value, p)
  {
    TrimLowerStable(p.name);
    TrimLowerStable(p.baseUrl);
    TrimLowerStable(p.anthropicUrl);
    ModelTableIsExact(p.models, p.aliases);
    ModelTableInOrder(p.models, p.aliases);
  }

  // The snapshot has the enabled providers and no other, in order.
  lemma {:induction false} ProvidersAreCompiled(env: Env, ps: seq<Provider>)
    requires CompileProviders(env, ps).Ok?
    ensures |CompileProviders(env, ps).value| == |EnabledOnes(ps)|
    ensures forall i :: 0 <= i < |EnabledOnes(ps)| ==> CompiledFrom(env, CompileProviders(env, ps).value[i], EnabledOnes(ps)[i])
    decreases |ps|
  {
    if ps != [] {
      ProvidersAreCompiled(env, ps[..|ps| - 1]);
      if Enabled(ps[|ps| - 1].enabled) {
        ProviderIsCompiled(env, ps[|ps| - 1]);
      }
    }
  }

  // The first enabled provider that does not compile is this one.
  predicate FirstFailing(env: Env, ps: seq<Provider>, i: nat) {
    && i < |ps| && Enabled(ps[i].enabled) && !Compilable(env, ps[i])
    && forall j :: 0 <= j < i && Enabled(ps[j].enabled) ==> Compilable(env, ps[j])
  }

  lemma {:induction false} FirstErrorIsGiven(env: Env, ps: seq<Provider>, i: nat)
    requires FirstFailing(env, ps, i)
    ensures CompileProviders(env, ps).Err? && CompileProvider(env, ps[i]).Err?
    ensures CompileProviders(env, ps).error == CompileProvider(env, ps[i]).error
  {
    ProvidersCompileIff(env, ps[..i]);
    ProviderCompilesIff(env, ps[i]);
    assert ps[..i + 1][..i] == ps[..i];
    ErrorStays(env, ps, i + 1);
  }

  // The first error is the result.
  lemma {:induction false} ErrorStays(env: Env, ps: seq<Provider>, i: nat)
    requires i <= |ps| && CompileProviders(env, ps[..i]).Err?
    ensures CompileProviders(env, ps) == CompileProviders(env, ps[..i])
    decreases |ps|
  {
    if i == |ps| {
      assert ps[..i] == ps;
    } else {
      assert ps[..|ps| - 1][..i] == ps[..i];
      ErrorStays(env, ps[..|ps| - 1], i);
    }
  }

  // ---------- When it compiles ----------

  predicate Named(models: seq<string>) {
    exists i :: 0 <= i < |models| && Trim(models[i]) != ""
  }

  predicate Compilable(env: Env, p: Provider) {
    && Trim(p.name) != "" && Trim(p.baseUrl) != "" && Named(p.models)
    && (Trim(p.anthropicUrl) == "" || env.parseUrl(Trim(p.anthropicUrl)).Some?)
  }

  predicate AllCompilable(env: Env, ps: seq<Provider>) {
    forall i :: 0 <= i < |ps| && Enabled(ps[i].enabled) ==> Compilable(env, ps[i])
  }

  predicate SomeEnabled(ps: seq<Provider>) {
    exists i :: 0 <= i < |ps| && Enabled(ps[i].enabled)
  }

  lemma {:induction false} TableIsEmptyIff(models: seq<string>, aliases: map<string, string>)
    ensures ModelTable(models, aliases) == [] <==> !Named(models)
  {
    ModelTableIsExact(models, aliases);
    var publics := Publics(ModelTable(models, aliases));
    assert publics == [] <==> forall m :: m !in publics by {
      assert publics != [] ==> publics[0] in publics;
    }
    if Named(models) {
      var i :| 0 <= i < |models| && Trim(models[i]) != "";
      assert Mentioned(models, Trim(models[i]));
    }
  }

  lemma {:induction false} ProviderCompilesIff(env: Env, p: Provider)
    ensures CompileProvider(env, p).Ok? <==> Compilable(env, p)
  {
    TableIsEmptyIff(p.models, p.aliases);
  }

  lemma {:induction false} OneMoreProvider(env: Env, ps: seq<Provider>)
    requires ps != []
    ensures var front, last := ps[..|ps| - 1], ps[|ps| - 1];
            && (SomeEnabled(ps) <==> SomeEnabled(front) || Enabled(last.enabled))
            && (AllCompilable(env, ps) <==> AllCompilable(env, front) && (Enabled(last.enabled) ==> Compilable(env, last)))
  {
    var n := |ps| - 1;
    assert forall i :: 0 <= i < n ==> ps[..n][i] == ps[i];
    if SomeEnabled(ps[..n]) {
      var i :| 0 <= i < n && Enabled(ps[..n][i].enabled);
      assert Enabled(ps[i].enabled);
    }
  }

  lemma {:induction false} ProvidersCompileIff(env: Env, ps: seq<Provider>)
    ensures CompileProviders(env, ps).Ok? <==> AllCompilable(env, ps)
    ensures CompileProviders(env, ps).Ok? ==> (CompileProviders(env, ps).value == [] <==> !SomeEnabled(ps))
    decreases |ps|
  {
    if ps != [] {
      ProvidersCompileIff(env, ps[..|ps| - 1]);
      ProviderCompilesIff(env, ps[|ps| - 1]);
      OneMoreProvider(env, ps);
    }
  }

  // Normalising changes nothing that decides whether a provider compiles.
  lemma {:induction false} NormalProvidersCompileIff(env: Env, ps: seq<Provider>)
    ensures SomeEnabled(Map(NormalProvider, ps)) <==> SomeEnabled(ps)
    ensures AllCompilable(env, Map(NormalProvider, ps)) <==> AllCompilable(env, ps)
  {
    var normal := Map(NormalProvider, ps);
    forall i | 0 <= i < |ps|
      ensures Enabled(normal[i].enabled) == Enabled(ps[i].enabled) && Compilable(env, normal[i]) == Compilable(env, ps[i])
    {
      assert normal[i] == NormalProvider(ps[i]);
    }
    if SomeEnabled(ps) {
      var i :| 0 <= i < |ps| && Enabled(ps[i].enabled);
      assert Enabled(normal[i].enabled);
    }
  }

  // A configuration compiles exactly when a provider is enabled and every enabled one has a
  // name, a base URL, a model, and no Anthropic URL that is not absolute.
  lemma {:induction false} CompilesIff(env: Env, c: Config)
    ensures CompilePayload(env, c).Ok? <==> SomeEnabled(c.providers) && AllCompilable(env, c.providers)
  {
    NormalProvidersCompileIff(env, c.providers);
    ProvidersCompileIff(env, Map(NormalProvider, c.providers));
  }

  // A source as listed; one that says nothing of it is enabled.
  predicate SourceFrom(snapshot: SourceSnapshot, s: Source) {
    && snapshot.id == s.id && snapshot.vendor == s.vendor && snapshot.url == s.url
    && snapshot.timeoutMs == s.timeoutMs && snapshot.refreshMinutes == s.refreshMinutes
    && (snapshot.enabled <==> s.enabled.None? || s.enabled.value)
  }

  // A snapshot holds the configuration's listen address, its enabled providers and its pricing
  // sources, each in order.
  ghost predicate HoldsConfig(env: Env, payload: Payload, c: Config) {
    && payload.listen == c.server.listen && payload.rest == env.copyRest(c)
    && |payload.providers| == |EnabledOnes(c.providers)|
    && (forall i :: 0 <= i < |payload.providers| ==> CompiledFrom(env, payload.providers[i], EnabledOnes(c.providers)[i]))
    && |payload.sources| == |c.pricing.sources|
    && (forall i :: 0 <= i < |payload.sources| ==> SourceFrom(payload.sources[i], c.pricing.sources[i]))
  }

  lemma {:induction false} PayloadHoldsConfig(env: Env, c: Config)
    requires CompilePayload(env, c).Ok?
    ensures HoldsConfig(env, CompilePayload(env, c).value, Meaning(c)) && CompilePayload(env, c).value.providers != []
  {
    PayloadHolds(env, CompilePayload(env, c).value, Meaning(c));
  }

  lemma {:induction false} PayloadHolds(env: Env, payload: Payload, c: Config)
    requires CompileProviders(env, c.providers).Ok? && payload.providers == CompileProviders(env, c.providers).value
    requires payload.listen == c.server.listen && payload.rest == env.copyRest(c)
    requires payload.sources == Map(CompileSource, c.pricing.sources)
    ensures HoldsConfig(env, payload, c)
  {
    ProvidersAreCompiled(env, c.providers);
    forall i | 0 <= i < |payload.sources| ensures SourceFrom(payload.sources[i], c.pricing.sources[i]) {
      assert payload.sources[i] == CompileSource(c.pricing.sources[i]);
    }
  }

  // ---------- What compiling depends on ----------

  lemma {:induction false} NormalisingChangesNoSnapshot(env: Env, c: Config)
    ensures CompilePayload(env, Normal(c)) == CompilePayload(env, c)
  {
    NormalMeansTheSame(c);
  }

  // A copy through YAML compiles to the same snapshot, or the same error, exactly when the
  // operator did not ask for no pricing sources at all.
  lemma {:induction false} YamlCompilesTheSameIff(env: Env, c: Config)
    ensures CompilePayload(env, Yaml(c)) == CompilePayload(env, c)
       <==> !EmptySourcesChosen(c) || CompilePayload(env, c).Err?
  {
    YamlMeansTheSameIff(c);
    if EmptySourcesChosen(c) && CompilePayload(env, c).Ok? {
      assert Meaning(c).pricing.sources == [];
      assert |Meaning(Yaml(c)).pricing.sources| == 10;
      assert |Map(CompileSource, Meaning(Yaml(c)).pricing.sources)| == 10;
    }
  }

  lemma {:induction false} CompiledProvidersHaveIds(env: Env, ps: seq<Provider>)
    requires RendersUrls(env) && CompileProviders(env, ps).Ok?
    ensures forall i :: 0 <= i < |CompileProviders(env, ps).value| ==> Settled(env, CompileProviders(env, ps).value[i])
    decreases |ps|
  {
    if ps != [] {
      var last := ps[|ps| - 1];
      CompiledProvidersHaveIds(env, ps[..|ps| - 1]);
      if Enabled(last.enabled) {
        TrimLowerStable(last.name);
        UpstreamIdNotBlank(env, Trim(last.name), Trim(last.baseUrl), Trim(last.anthropicUrl));
      }
    }
  }

  // Has its upstream id, and the one that would be filled in for it.
  predicate Settled(env: Env, p: ProviderSnapshot) {
    Trim(p.upstreamId) != "" && p.upstreamId == LogicalUpstreamId(env, p.providerId, p.baseUrl, p.anthropicUrl)
  }
}
