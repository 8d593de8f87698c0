/** The search through fallback models once every provider of the requested model has failed.

    What the search cannot decide is an oracle: whether the client has gone, how much time has
    passed, in which order routing offers the candidates, and how each attempt turns out. */
module Fallback {

  const MAX_FALLBACK_ATTEMPTS := 10

  datatype Provider = Provider(id: string, publicModels: seq<string>, fallbackModels: seq<string>)
  datatype Attempt = Attempt(model: string, candidate: string)

  // How one attempt ends. Only Served writes to the client.
  datatype Outcome = CompatFailed | ForwardFailed | ErrorStatus | AdaptFailed | Served

  datatype Oracle = Oracle(
    cancelled: nat -> bool,             // at the n-th check, has the client gone?
    elapsedMs: nat -> int,              // at the n-th check, the time since the request began
    candidates: string -> seq<string>,  // the ordered candidates of a model
    outcome: nat -> Outcome)            // of the n-th attempt

  // ---------- Which models ----------

  // The fallback names that providers of the model list, in order, repeats and all.
  function Offered(providers: seq<Provider>, model: string): seq<string> {
    if providers == [] then []
    else
      Offered(providers[..|providers| - 1], model)
      + (var p := providers[|providers| - 1]; if model in p.publicModels then p.fallbackModels else [])
  }

  predicate Acceptable(name: string, model: string) {
    name != "" && name != model
  }

  // The acceptable names at their first occurrence.
  function Distinct(names: seq<string>, model: string): seq<string> {
    if names == [] then []
    else
      var before := Distinct(names[..|names| - 1], model);
      var name := names[|names| - 1];
      if Acceptable(name, model) && name !in before then before + [name] else before
  }

  lemma {:induction false} OfferedStep(providers: seq<Provider>, i: nat, model: string)
    requires i < |providers|
    ensures Offered(providers[..i + 1], model)
         == Offered(providers[..i], model) + (if model in providers[i].publicModels then providers[i].fallbackModels else [])
  {
    assert providers[..i + 1][..i] == providers[..i];
  }

  lemma {:induction false} DistinctStep(names: seq<string>, more: seq<string>, j: nat, model: string)
    requires j < |more|
    ensures var before := Distinct(names + more[..j], model);
            Distinct(names + more[..j + 1], model)
              == if Acceptable(more[j], model) && more[j] !in before then before + [more[j]] else before
  {
    var grown := names + more[..j + 1];
    assert grown[..|grown| - 1] == names + more[..j] && grown[|grown| - 1] == more[j];
  }

  method Matches(p: Provider, model: string) returns (matched: bool)
    ensures matched <==> model in p.publicModels
  {
    for j := 0 to |p.publicModels|
      invariant model !in p.publicModels[..j]
    {
      if p.publicModels[j] == model {
        return true;
      }
    }
    return false;
  }

  // Adds the acceptable names of one provider that are not there yet.
  method AddFallbacks(names: seq<string>, model: string, known: seq<string>, seen: set<string>, ghost before: seq<string>)
      returns (fallbacks: seq<string>, seen': set<string>)
    requires known == Distinct(before, model) && forall f :: f in seen <==> f in known
    ensures fallbacks == Distinct(before + names, model) && forall f :: f in seen' <==> f in fallbacks
  {
    fallbacks, seen' := known, seen;
    assert before + names[..0] == before;
    for j := 0 to |names|
      invariant fallbacks == Distinct(before + names[..j], model)
      invariant forall f :: f in seen' <==> f in fallbacks
    {
      var fb := names[j];
      DistinctStep(before, names, j, model);
      if fb == "" {
        continue;
      }
      if fb == model {
        continue;
      }
      if fb in seen' {
        continue;
      }
      seen' := seen' + {fb};
      fallbacks := fallbacks + [fb];
    }
    assert names[..|names|] == names;
  }

  method ResolveFallbackModels(providers: seq<Provider>, model: string) returns (fallbacks: seq<string>)
    ensures fallbacks == Distinct(Offered(providers, model), model)
  {
    fallbacks := [];
    var seen: set<string> := {};
    for i := 0 to |providers|
      invariant fallbacks == Distinct(Offered(providers[..i], model), model)
      invariant forall f :: f in seen <==> f in fallbacks
    {
      var p := providers[i];
      ghost var offered := Offered(providers[..i], model);
      OfferedStep(providers, i, model);
      var matched := Matches(p, model);
      if !matched {
        assert offered + [] == offered;
        continue;
      }
      fallbacks, seen := AddFallbacks(p.fallbackModels, model, fallbacks, seen, offered);
    }
    assert providers[..|providers|] == providers;
  }

  // Exactly the names that some provider of the model offers, but for the empty name and the
  // model itself.
  lemma {:induction false} FallbacksAreOffered(providers: seq<Provider>, model: string, name: string)
    ensures name in Distinct(Offered(providers, model), model)
       <==> Acceptable(name, model) && exists p :: p in providers && model in p.publicModels && name in p.fallbackModels
  {
    DistinctMembers(Offered(providers, model), model, name);
    OfferedMembers(providers, model, name);
  }

  lemma {:induction false} DistinctMembers(names: seq<string>, model: string, name: string)
    ensures name in Distinct(names, model) <==> name in names && Acceptable(name, model)
    decreases |names|
  {
    if names != [] {
      DistinctMembers(names[..|names| - 1], model, name);
      assert names == names[..|names| - 1] + [names[|names| - 1]];
    }
  }

  lemma {:induction false} OfferedMembers(providers: seq<Provider>, model: string, name: string)
    ensures name in Offered(providers, model) <==> exists p :: p in providers && model in p.publicModels && name in p.fallbackModels
    decreases |providers|
  {
    if providers != [] {
      OfferedMembers(providers[..|providers| - 1], model, name);
      assert providers == providers[..|providers| - 1] + [providers[|providers| - 1]];
    }
  }

  // Offers are read provider by provider, each one's as it lists them.
  lemma {:induction false} OfferedInOrder(p: Provider, a: seq<Provider>, b: seq<Provider>, model: string)
    ensures Offered(a + b, model) == Offered(a, model) + Offered(b, model)
    ensures Offered([p], model) == if model in p.publicModels then p.fallbackModels else []
    decreases |b|
  {
    assert [p][..0] == [];
    if b == [] {
      assert a + b == a;
    } else {
      var n := |b| - 1;
      assert (a + b)[..|a + b| - 1] == a + b[..n];
      OfferedInOrder(p, a, b[..n], model);
    }
  }

  // No name comes twice, and the order is that of first occurrence: whatever precedes a name
  // among the offers is kept ahead of it.
  lemma {:induction false} FallbacksInFirstOrder(names: seq<string>, model: string, i: nat, j: nat)
    requires i < j < |Distinct(names, model)|
    ensures var d := Distinct(names, model);
            d[i] != d[j] && exists at :: 0 <= at < |names| && names[at] == d[i] && d[j] !in names[..at + 1]
    decreases |names|
  {
    var n := |names| - 1;
    var before, name := Distinct(names[..n], model), names[n];
    if j < |before| {
      FallbacksInFirstOrder(names[..n], model, i, j);
      var at :| 0 <= at < n && names[..n][at] == before[i] && before[j] !in names[..n][..at + 1];
      assert names[at] == before[i] && names[..n][..at + 1] == names[..at + 1];
    } else {
      DistinctMembers(names[..n], model, before[i]);
      DistinctMembers(names[..n], model, name);
      var at :| 0 <= at < n && names[..n][at] == before[i];
      assert names[at] == before[i] && names[..n][..at + 1] == names[..at + 1];
      DistinctMembers(names[..at + 1], model, name);
    }
  }

  // ---------- The search ----------

  function PlanFor(model: string, candidates: seq<string>): seq<Attempt> {
    seq(|candidates|, i requires 0 <= i < |candidates| => Attempt(model, candidates[i]))
  }

  // Every candidate of every model, in order.
  function Plan(models: seq<string>, candidates: string -> seq<string>): seq<Attempt> {
    if models == [] then []
    else Plan(models[..|models| - 1], candidates) + PlanFor(models[|models| - 1], candidates(models[|models| - 1]))
  }

  lemma {:induction false} PlanPrefix(models: seq<string>, candidates: string -> seq<string>, i: nat)
    requires i <= |models|
    ensures Plan(models[..i], candidates) <= Plan(models, candidates)
    decreases |models|
  {
    if i == |models| {
      assert models[..i] == models;
    } else {
      PlanPrefix(models[..|models| - 1], candidates, i);
      assert models[..|models| - 1][..i] == models[..i];
    }
  }

  lemma {:induction false} PlanStep(models: seq<string>, candidates: string -> seq<string>, i: nat)
    requires i < |models|
    ensures Plan(models[..i + 1], candidates) == Plan(models[..i], candidates) + PlanFor(models[i], candidates(models[i]))
    ensures Plan(models[..i + 1], candidates) <= Plan(models, candidates)
  {
    assert models[..i + 1][..i] == models[..i];
    PlanPrefix(models, candidates, i + 1);
  }

  // How many candidates these models have between them.
  function CandidateCount(models: seq<string>, candidates: string -> seq<string>): nat {
    if models == [] then 0
    else CandidateCount(models[..|models| - 1], candidates) + |candidates(models[|models| - 1])|
  }

  lemma {:induction false} CountStep(models: seq<string>, candidates: string -> seq<string>, i: nat)
    requires i < |models|
    ensures CandidateCount(models[..i + 1], candidates) == CandidateCount(models[..i], candidates) + |candidates(models[i])|
  {
    assert models[..i + 1][..i] == models[..i];
  }

  lemma {:induction false} PlanHasAll(models: seq<string>, candidates: string -> seq<string>)
    ensures |Plan(models, candidates)| == CandidateCount(models, candidates)
    decreases |models|
  {
    if models != [] {
      PlanHasAll(models[..|models| - 1], candidates);
    }
  }

  // The j-th candidate of the i-th model comes after all those of the models before.
  lemma {:induction false} PlaceInPlan(models: seq<string>, candidates: string -> seq<string>, i: nat, j: nat)
    requires i < |models| && j < |candidates(models[i])|
    ensures var place := CandidateCount(models[..i], candidates) + j;
            && place < |Plan(models, candidates)| == CandidateCount(models, candidates)
            && Plan(models, candidates)[place] == Attempt(models[i], candidates(models[i])[j])
  {
    PlanHasAll(models[..i], candidates);
    PlanHasAll(models, candidates);
    PlanStep(models, candidates, i);
    assert Plan(models[..i + 1], candidates)[|Plan(models[..i], candidates)| + j] == Attempt(models[i], candidates(models[i])[j]);
  }

  // A candidate is planned for a model exactly when the model is one of them and has it.
  lemma {:induction false} PlanMembers(models: seq<string>, candidates: string -> seq<string>, a: Attempt)
    ensures a in Plan(models, candidates) <==> a.model in models && a.candidate in candidates(a.model)
    decreases |models|
  {
    if models != [] {
      var n := |models| - 1;
      PlanMembers(models[..n], candidates, a);
      assert models == models[..n] + [models[n]];
      var last := PlanFor(models[n], candidates(models[n]));
      if a.model == models[n] && a.candidate in candidates(models[n]) {
        var j :| 0 <= j < |candidates(models[n])| && candidates(models[n])[j] == a.candidate;
        assert last[j] == a;
      }
    }
  }

  // These attempts went through the candidates of the models in order, from the first.
  ghost predicate InOrder(attempts: seq<Attempt>, models: seq<string>, candidates: string -> seq<string>) {
    && |attempts| <= CandidateCount(models, candidates)
    && forall i, j :: 0 <= i < |models| && 0 <= j < |candidates(models[i])|
                      && CandidateCount(models[..i], candidates) + j < |attempts| ==>
                        attempts[CandidateCount(models[..i], candidates) + j] == Attempt(models[i], candidates(models[i])[j])
  }

  lemma {:induction false} PlannedInOrder(attempts: seq<Attempt>, models: seq<string>, candidates: string -> seq<string>)
    requires attempts <= Plan(models, candidates)
    ensures InOrder(attempts, models, candidates)
  {
    PlanHasAll(models, candidates);
    forall i, j | 0 <= i < |models| && 0 <= j < |candidates(models[i])|
                  && CandidateCount(models[..i], candidates) + j < |attempts|
      ensures attempts[CandidateCount(models[..i], candidates) + j] == Attempt(models[i], candidates(models[i])[j]) {
      PlaceInPlan(models, candidates, i, j);
    }
  }

  // Every candidate of every model had its attempt.
  ghost predicate AllTried(attempts: seq<Attempt>, models: seq<string>, candidates: string -> seq<string>) {
    && InOrder(attempts, models, candidates) && |attempts| == CandidateCount(models, candidates)
    && forall m, c :: m in models && c in candidates(m) ==> Attempt(m, c) in attempts
  }

  lemma {:induction false} FullOrderTriesAll(attempts: seq<Attempt>, models: seq<string>, candidates: string -> seq<string>)
    requires InOrder(attempts, models, candidates) && |attempts| == CandidateCount(models, candidates)
    ensures AllTried(attempts, models, candidates)
  {
    forall m, c | m in models && c in candidates(m) ensures Attempt(m, c) in attempts {
      var i :| 0 <= i < |models| && models[i] == m;
      var j :| 0 <= j < |candidates(m)| && candidates(m)[j] == c;
      PlaceInPlan(models, candidates, i, j);
      assert attempts[CandidateCount(models[..i], candidates) + j] == Attempt(m, c);
    }
  }

  lemma {:induction false} PrefixThrough<T>(a: seq<T>, b: seq<T>, c: seq<T>, whole: seq<T>)
    requires a <= b <= a + c <= whole
    ensures b <= whole
  {
  }

  predicate Stops(o: Oracle, budgetMs: int, check: nat) {
    o.cancelled(check) || (budgetMs > 0 && o.elapsedMs(check) >= budgetMs)
  }

  // What the search does to the world: the attempts it makes and the responses it writes.
  class Exchange {
    var attempts: seq<Attempt>
    var responses: nat

    constructor ()
      ensures attempts == [] && responses == 0
    {
      attempts, responses := [], 0;
    }
  }

  // None of the attempts so far was served, and there have not been too many.
  predicate Fruitless(o: Oracle, attempts: seq<Attempt>) {
    |attempts| <= MAX_FALLBACK_ATTEMPTS && forall i :: 0 <= i < |attempts| ==> o.outcome(i) != Served
  }

  // The last of these attempts was served and no other.
  predicate ServedAtLast(o: Oracle, attempts: seq<Attempt>) {
    && 0 < |attempts| <= MAX_FALLBACK_ATTEMPTS
    && o.outcome(|attempts| - 1) == Served
    && forall i :: 0 <= i < |attempts| - 1 ==> o.outcome(i) != Served
  }

  // No check stopped the search, unless it was the last one and the search gave up there.
  predicate StoppedOnlyAtLast(o: Oracle, budgetMs: int, checks: nat, gaveUp: bool) {
    && (forall i :: 0 <= i < checks - 1 ==> !Stops(o, budgetMs, i))
    && (checks > 0 && !gaveUp ==> !Stops(o, budgetMs, checks - 1))
  }

  datatype Progress = Running | GaveUp | Done

  // What trying the candidates of one model leaves.
  ghost predicate Tried(o: Oracle, budgetMs: int, before: seq<Attempt>, segment: seq<Attempt>, checked: nat,
                        attempts: seq<Attempt>, checks: nat, progress: Progress)
  {
    && before <= attempts <= before + segment
    && checks - checked == |attempts| - |before| + (if progress == GaveUp then 1 else 0)
    && StoppedOnlyAtLast(o, budgetMs, checks, progress == GaveUp)
    && match progress
       case Running => attempts == before + segment && Fruitless(o, attempts)
       case GaveUp => Fruitless(o, attempts)
                      && (|attempts| == MAX_FALLBACK_ATTEMPTS || (checks > 0 && Stops(o, budgetMs, checks - 1)))
       case Done => ServedAtLast(o, attempts)
  }

  // One more check passed and one more attempt made, the last one with this outcome.
  lemma {:induction false} OneMoreTried(o: Oracle, budgetMs: int, before: seq<Attempt>, segment: seq<Attempt>, checked: nat,
                                        c: nat, attempts: seq<Attempt>, checks: nat)
    requires c < |segment| && Tried(o, budgetMs, before, segment[..c], checked, attempts, checks, Running)
    ensures !Stops(o, budgetMs, checks) && |attempts| < MAX_FALLBACK_ATTEMPTS && o.outcome(|attempts|) != Served ==>
              Tried(o, budgetMs, before, segment[..c + 1], checked, attempts + [segment[c]], checks + 1, Running)
    ensures !Stops(o, budgetMs, checks) && |attempts| < MAX_FALLBACK_ATTEMPTS && o.outcome(|attempts|) == Served ==>
              Tried(o, budgetMs, before, segment, checked, attempts + [segment[c]], checks + 1, Done)
    ensures Stops(o, budgetMs, checks) || |attempts| >= MAX_FALLBACK_ATTEMPTS ==>
              Tried(o, budgetMs, before, segment, checked, attempts, checks + 1, GaveUp)
  {
    assert segment[..c + 1] == segment[..c] + [segment[c]];
    assert before + segment[..c + 1] <= before + segment;
  }

  // Gives each candidate of one model its attempt.
  method TryCandidates(x: Exchange, o: Oracle, model: string, candidates: seq<string>, budgetMs: int, checked: nat)
      returns (progress: Progress, checks: nat)
    requires Fruitless(o, x.attempts) && StoppedOnlyAtLast(o, budgetMs, checked, false)
    modifies x
    ensures Tried(o, budgetMs, old(x.attempts), PlanFor(model, candidates), checked, x.attempts, checks, progress)
    ensures x.responses == old(x.responses) + if progress == Done then 1 else 0
  {
    ghost var before, segment := x.attempts, PlanFor(model, candidates);
    checks := checked;
    for c := 0 to |candidates|
      invariant Tried(o, budgetMs, before, segment[..c], checked, x.attempts, checks, Running)
      invariant x.responses == old(x.responses)
    {
      OneMoreTried(o, budgetMs, before, segment, checked, c, x.attempts, checks);
      checks := checks + 1;
      if o.cancelled(checks - 1) {
        return GaveUp, checks;
      }
      if budgetMs > 0 && o.elapsedMs(checks - 1) >= budgetMs {
        return GaveUp, checks;
      }
      if |x.attempts| >= MAX_FALLBACK_ATTEMPTS {
        return GaveUp, checks;
      }
      x.attempts := x.attempts + [Attempt(model, candidates[c])];
      match o.outcome(|x.attempts| - 1) {
        case CompatFailed => continue;
        case ForwardFailed => continue;
        case ErrorStatus => continue;
        case AdaptFailed => continue;
        case Served =>
          x.responses := x.responses + 1;
          return Done, checks;
      }
    }
    assert segment[..|candidates|] == segment;
    return Running, checks;
  }

  // A check for each model entered and one for each attempt, and the one that stopped it all.
  predicate Checked(models: seq<string>, candidates: string -> seq<string>, entered: nat, attempts: nat, checks: nat, stopped: bool) {
    && entered <= |models|
    && CandidateCount(models[..entered], candidates) >= attempts
    && (entered > 0 ==> CandidateCount(models[..entered - 1], candidates) <= attempts)
    && checks == attempts + entered + if stopped then 1 else 0
  }

  // How the search over these models stands once it has ended.
  ghost predicate Ended(o: Oracle, models: seq<string>, budgetMs: int, attempts: seq<Attempt>, ok: bool, checks: nat, stopped: bool) {
    && attempts <= Plan(models, o.candidates)
    && StoppedOnlyAtLast(o, budgetMs, checks, stopped)
    && (ok ==> !stopped && ServedAtLast(o, attempts))
    && (!ok ==> Fruitless(o, attempts))
    && (!ok && !stopped ==> attempts == Plan(models, o.candidates))
    && (stopped ==> |attempts| == MAX_FALLBACK_ATTEMPTS || (checks > 0 && Stops(o, budgetMs, checks - 1)))
  }

  // How it stands before the m-th model.
  ghost predicate Underway(o: Oracle, models: seq<string>, budgetMs: int, m: nat, attempts: seq<Attempt>, checks: nat)
    requires m <= |models|
  {
    attempts == Plan(models[..m], o.candidates) && Fruitless(o, attempts)
    && StoppedOnlyAtLast(o, budgetMs, checks, false) && checks == |attempts| + m
  }

  // The check before a model stops the search.
  lemma {:induction false} EndsBetween(o: Oracle, models: seq<string>, budgetMs: int, m: nat, attempts: seq<Attempt>, checks: nat)
    requires m <= |models| && Underway(o, models, budgetMs, m, attempts, checks) && Stops(o, budgetMs, checks)
    ensures Ended(o, models, budgetMs, attempts, false, checks + 1, true)
    ensures Checked(models, o.candidates, m, |attempts|, checks + 1, true)
  {
    PlanPrefix(models, o.candidates, m);
    PlanHasAll(models[..m], o.candidates);
    if m > 0 {
      CountStep(models, o.candidates, m - 1);
    }
  }

  lemma {:induction false} EndsAtLast(o: Oracle, models: seq<string>, budgetMs: int, attempts: seq<Attempt>, checks: nat)
    requires Underway(o, models, budgetMs, |models|, attempts, checks)
    ensures Ended(o, models, budgetMs, attempts, false, checks, false)
    ensures Checked(models, o.candidates, |models|, |attempts|, checks, false)
  {
    assert models[..|models|] == models;
    PlanHasAll(models, o.candidates);
    if models != [] {
      CountStep(models, o.candidates, |models| - 1);
    }
  }

  // The search ends among the candidates of the m-th model, or goes on after them.
  lemma {:induction false} EndsInside(o: Oracle, models: seq<string>, budgetMs: int, m: nat, before: seq<Attempt>, checked: nat,
                                      attempts: seq<Attempt>, checks: nat, progress: Progress)
    requires m < |models| && checked > 0 && Underway(o, models, budgetMs, m, before, checked - 1)
    requires Tried(o, budgetMs, before, PlanFor(models[m], o.candidates(models[m])), checked, attempts, checks, progress)
    ensures progress == Running ==> Underway(o, models, budgetMs, m + 1, attempts, checks)
    ensures progress != Running ==>
              && Ended(o, models, budgetMs, attempts, progress == Done, checks, progress == GaveUp)
              && Checked(models, o.candidates, m + 1, |attempts|, checks, progress == GaveUp)
  {
    PlanStep(models, o.candidates, m);
    PlanHasAll(models[..m], o.candidates);
    CountStep(models, o.candidates, m);
    if progress != Running {
      PrefixThrough(before, attempts, PlanFor(models[m], o.candidates(models[m])), Plan(models, o.candidates));
    }
  }

  method TryModels(x: Exchange, o: Oracle, models: seq<string>, budgetMs: int)
      returns (ok: bool, checks: nat, ghost stopped: bool, ghost entered: nat)
    requires x.attempts == []
    modifies x
    ensures Ended(o, models, budgetMs, x.attempts, ok, checks, stopped)
    ensures Checked(models, o.candidates, entered, |x.attempts|, checks, stopped)
    ensures x.responses == old(x.responses) + if ok then 1 else 0
  {
    checks, stopped, entered := 0, false, 0;
    for m := 0 to |models|
      invariant Underway(o, models, budgetMs, m, x.attempts, checks)
      invariant x.responses == old(x.responses)
    {
      ghost var before := x.attempts;
      checks := checks + 1;
      if o.cancelled(checks - 1) {
        EndsBetween(o, models, budgetMs, m, before, checks - 1);
        return false, checks, true, m;
      }
      if budgetMs > 0 && o.elapsedMs(checks - 1) >= budgetMs {
        EndsBetween(o, models, budgetMs, m, before, checks - 1);
        return false, checks, true, m;
      }
      var candidates := o.candidates(models[m]);
      ghost var checked := checks;
      var progress;
      progress, checks := TryCandidates(x, o, models[m], candidates, budgetMs, checks);
      EndsInside(o, models, budgetMs, m, before, checked, x.attempts, checks, progress);
      if progress != Running {
        return progress == Done, checks, progress == GaveUp, m + 1;
      }
    }
    EndsAtLast(o, models, budgetMs, x.attempts, checks);
    return false, checks, false, |models|;
  }

  lemma {:induction false} ChecksBefore(o: Oracle, budgetMs: int, checks: nat, stopped: bool)
    requires StoppedOnlyAtLast(o, budgetMs, checks, stopped)
    ensures forall i :: 0 <= i < checks - (if stopped then 1 else 0) ==>
              !o.cancelled(i) && (budgetMs > 0 ==> o.elapsedMs(i) < budgetMs)
  {
    forall i | 0 <= i < checks - (if stopped then 1 else 0)
      ensures !o.cancelled(i) && (budgetMs > 0 ==> o.elapsedMs(i) < budgetMs) {
      assert !Stops(o, budgetMs, i);
    }
  }

  /** Attempts run through the candidates of the fallback models from the first, ten at most;
      the first one served is the last, and is the only one that writes. Giving up early needs
      the cap, a client that has gone, or a budget that is spent; and no attempt is made after
      a check has found one of these. */
  method TryFallbackModels(x: Exchange, o: Oracle, providers: seq<Provider>, model: string, budgetMs: int)
      returns (ok: bool, checks: nat, ghost stopped: bool, ghost entered: nat)
    requires x.attempts == []
    modifies x
    ensures var models := Distinct(Offered(providers, model), model);
            && InOrder(x.attempts, models, o.candidates)
            && (!ok && !stopped ==> AllTried(x.attempts, models, o.candidates))
            && Checked(models, o.candidates, entered, |x.attempts|, checks, stopped)
    ensures |x.attempts| <= 10
    ensures ok ==> !stopped && x.attempts != [] && o.outcome(|x.attempts| - 1) == Served
    ensures forall i :: 0 <= i < |x.attempts| - (if ok then 1 else 0) ==> o.outcome(i) != Served
    ensures forall i :: 0 <= i < checks - (if stopped then 1 else 0) ==>
              !o.cancelled(i) && (budgetMs > 0 ==> o.elapsedMs(i) < budgetMs)
    ensures stopped && |x.attempts| < 10 ==>
              checks > 0 && (o.cancelled(checks - 1) || (budgetMs > 0 && o.elapsedMs(checks - 1) >= budgetMs))
    ensures x.responses == old(x.responses) + if ok then 1 else 0
  {
    var fallbacks := ResolveFallbackModels(providers, model);
    if |fallbacks| == 0 {
      FullOrderTriesAll([], [], o.candidates);
      return false, 0, false, 0;
    }
    ok, checks, stopped, entered := TryModels(x, o, fallbacks, budgetMs);
    ChecksBefore(o, budgetMs, checks, stopped);
    PlannedInOrder(x.attempts, fallbacks, o.candidates);
    PlanHasAll(fallbacks, o.candidates);
    if !ok && !stopped {
      FullOrderTriesAll(x.attempts, fallbacks, o.candidates);
    }
  }

  // Every candidate of every other model that a provider of this one falls back to.
  ghost predicate EachTried(o: Oracle, providers: seq<Provider>, model: string, attempts: seq<Attempt>) {
    forall p, m, c | p in providers && model in p.publicModels && m in p.fallbackModels && c in o.candidates(m) ::
      m != "" && m != model ==> Attempt(m, c) in attempts
  }

  lemma {:induction false} AllTriedIsEachTried(o: Oracle, providers: seq<Provider>, model: string, attempts: seq<Attempt>)
    requires AllTried(attempts, Distinct(Offered(providers, model), model), o.candidates)
    ensures EachTried(o, providers, model, attempts)
  {
    forall p, m, c | p in providers && model in p.publicModels && m in p.fallbackModels && c in o.candidates(m)
      ensures m != "" && m != model ==> Attempt(m, c) in attempts {
      FallbacksAreOffered(providers, model, m);
    }
  }

  /** With a client that stays and time to spare, the search succeeds exactly when one of the
      first ten candidates can serve; and where there are ten at most, it fails only after
      every candidate of every fallback model that a provider offers has had its attempt. */
  method FallbackIsComplete(o: Oracle, providers: seq<Provider>, model: string, budgetMs: int) returns (ok: bool, attempts: seq<Attempt>)
    requires forall check: nat :: !o.cancelled(check) && (budgetMs > 0 ==> o.elapsedMs(check) < budgetMs)
    ensures var models := Distinct(Offered(providers, model), model);
            var count := CandidateCount(models, o.candidates);
            && InOrder(attempts, models, o.candidates)
            && (ok <==> exists i :: 0 <= i < count && i < 10 && o.outcome(i) == Served)
            && (!ok ==> |attempts| == if count < 10 then count else 10)
            && (!ok && count <= 10 ==> EachTried(o, providers, model, attempts))
  {
    var x := new Exchange();
    var checks;
    ghost var stopped, entered;
    ok, checks, stopped, entered := TryFallbackModels(x, o, providers, model, budgetMs);
    attempts := x.attempts;
    ghost var models := Distinct(Offered(providers, model), model);
    if !ok && CandidateCount(models, o.candidates) <= 10 {
      FullOrderTriesAll(attempts, models, o.candidates);
      AllTriedIsEachTried(o, providers, model, attempts);
    }
  }

}
