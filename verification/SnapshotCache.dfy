/** The result cache in front of the telemetry store: a snapshot is stored under the data
    version read before it was computed, and served while the version is unchanged. Any
    number of snapshot calls run at once with any number of record calls. */
module SnapshotCache {
  import opened TelemetryStore

  // What a snapshot takes from memory, and how much had been recorded when each part was
  // read: parts are read under the lock one at a time.
  datatype Value = Value(summary: Summary, requests: seq<Item>, errors: seq<Item>)
  datatype Moments = Moments(summary: nat, requests: nat, errors: nat)

  datatype Cached = Cached(version: nat, value: Value, read: Moments)

  // A snapshot call. What the cache held when its version was read is kept for the proofs.
  datatype Call =
    | Begun(version: nat, before: seq<Cached>)
    | Missed(version: nat)
    | Summed(version: nat, summary: Summary, at: nat)
    | Listed(version: nat, summary: Summary, requests: seq<Item>, at: nat, later: nat)
    | Computed(entry: Cached)
    | Stored(entry: Cached)
    | Hit(version: nat, before: seq<Cached>, entry: Cached)

  datatype World = World(found: Found, log: seq<Item>, memory: Memory, cache: seq<Cached>, calls: seq<Call>)

  datatype Event =
    | NewRecord(item: Item)
    | Begin
    | LookUp(call: nat, unexpired: bool)   // whether the cached entry is within its lifetime
    | ReadSummary(call: nat)
    | ReadRequests(call: nat)
    | ReadErrors(call: nat)
    | StoreResult(call: nat)

  function Start(found: Found): World {
    World(found, [], Remembered(found, []), [], [])
  }

  predicate Possible(w: World, e: Event) {
    match e
    case NewRecord(_) => true
    case Begin => true
    case LookUp(c, _) => c < |w.calls| && w.calls[c].Begun?
    case ReadSummary(c) => c < |w.calls| && w.calls[c].Missed?
    case ReadRequests(c) => c < |w.calls| && w.calls[c].Summed?
    case ReadErrors(c) => c < |w.calls| && w.calls[c].Listed?
    case StoreResult(c) => c < |w.calls| && w.calls[c].Computed?
  }

  // The cache holds one entry at most, kept as a sequence of none or one.
  function After(w: World, e: Event): World
    requires Possible(w, e)
  {
    var now := |w.log|;
    match e
    case NewRecord(item) => w.(log := w.log + [item], memory := Recorded(w.memory, item))
    case Begin => w.(calls := w.calls + [Begun(w.memory.version, w.cache)])
    case LookUp(c, unexpired) =>
      var call := w.calls[c];
      if unexpired && w.cache != [] && w.cache[0].version == call.version
      then w.(calls := w.calls[c := Hit(call.version, call.before, w.cache[0])])
      else w.(calls := w.calls[c := Missed(call.version)])
    case ReadSummary(c) => w.(calls := w.calls[c := Summed(w.calls[c].version, w.memory.summary, now)])
    case ReadRequests(c) =>
      var call := w.calls[c];
      w.(calls := w.calls[c := Listed(call.version, call.summary, w.memory.requests, call.at, now)])
    case ReadErrors(c) =>
      var call := w.calls[c];
      w.(calls := w.calls[c := Computed(Cached(call.version, Value(call.summary, call.requests, w.memory.errors),
                                               Moments(call.at, call.later, now)))])
    case StoreResult(c) => w.(cache := [w.calls[c].entry], calls := w.calls[c := Stored(w.calls[c].entry)])
  }

  function Follow(w: World, e: Event): World {
    if Possible(w, e) then After(w, e) else w
  }

  function History(w: World, events: seq<Event>): World
    decreases |events|
  {
    if events == [] then w else Follow(History(w, events[..|events| - 1]), events[|events| - 1])
  }

  // ---------- What every part read is ----------

  // What memory held when n records had been made.
  function At(found: Found, log: seq<Item>, n: nat): Memory
    requires n <= |log|
  {
    Remembered(found, log[..n])
  }

  // Each part is that of memory at its own moment, and no moment is before the version.
  predicate Sound(found: Found, log: seq<Item>, entry: Cached) {
    var r := entry.read;
    && entry.version <= r.summary <= r.requests <= r.errors <= |log|
    && entry.value.summary == At(found, log, r.summary).summary
    && entry.value.requests == At(found, log, r.requests).requests
    && entry.value.errors == At(found, log, r.errors).errors
  }

  // An entry already in the cache when a version was read was computed by then.
  predicate Earlier(before: seq<Cached>, version: nat) {
    forall k :: 0 <= k < |before| ==> before[k].read.errors <= version
  }

  predicate SoundCall(found: Found, log: seq<Item>, call: Call) {
    match call
    case Begun(v, before) => v <= |log| && Earlier(before, v)
    case Missed(v) => v <= |log|
    case Summed(v, s, n) => v <= n <= |log| && s == At(found, log, n).summary
    case Listed(v, s, rs, n, m) => v <= n <= m <= |log| && s == At(found, log, n).summary && rs == At(found, log, m).requests
    case Computed(entry) => Sound(found, log, entry)
    case Stored(entry) => Sound(found, log, entry)
    case Hit(v, before, entry) => entry.version == v && Sound(found, log, entry) && Earlier(before, v)
  }

  predicate Healthy(w: World) {
    && w.memory == Remembered(w.found, w.log)
    && (forall k :: 0 <= k < |w.cache| ==> Sound(w.found, w.log, w.cache[k]))
    && (forall c :: 0 <= c < |w.calls| ==> SoundCall(w.found, w.log, w.calls[c]))
  }

  lemma {:induction false} LaterSame(found: Found, log: seq<Item>, item: Item, n: nat)
    requires n <= |log|
    ensures At(found, log + [item], n) == At(found, log, n)
  {
    assert (log + [item])[..n] == log[..n];
  }

  lemma {:induction false} LaterStillSound(found: Found, log: seq<Item>, item: Item, entry: Cached)
    requires Sound(found, log, entry)
    ensures Sound(found, log + [item], entry)
  {
    LaterSame(found, log, item, entry.read.summary);
    LaterSame(found, log, item, entry.read.requests);
    LaterSame(found, log, item, entry.read.errors);
  }

  lemma {:induction false} LaterStillSoundCall(found: Found, log: seq<Item>, item: Item, call: Call)
    requires SoundCall(found, log, call)
    ensures SoundCall(found, log + [item], call)
  {
    match call
    case Summed(_, _, n) => LaterSame(found, log, item, n);
    case Listed(_, _, _, n, m) =>
      LaterSame(found, log, item, n);
      LaterSame(found, log, item, m);
    case Computed(entry) => LaterStillSound(found, log, item, entry);
    case Stored(entry) => LaterStillSound(found, log, item, entry);
    case Hit(_, _, entry) => LaterStillSound(found, log, item, entry);
    case _ =>
  }

  lemma {:induction false} RecordStaysHealthy(w: World, item: Item)
    requires Healthy(w)
    ensures Healthy(After(w, NewRecord(item)))
  {
    RecordedIsRemembered(w.found, w.log, item);
    forall k | 0 <= k < |w.cache| ensures Sound(w.found, w.log + [item], w.cache[k]) {
      LaterStillSound(w.found, w.log, item, w.cache[k]);
    }
    forall c | 0 <= c < |w.calls| ensures SoundCall(w.found, w.log + [item], w.calls[c]) {
      LaterStillSoundCall(w.found, w.log, item, w.calls[c]);
    }
  }

  // A call's own steps leave it sound; nothing else of the world matters to it.
  lemma {:induction false} OwnStepStaysSound(w: World, e: Event, c: nat)
    requires Possible(w, e) && Healthy(w) && !e.NewRecord? && !e.Begin? && c == e.call
    ensures SoundCall(w.found, w.log, After(w, e).calls[c])
  {
    assert w.log[..|w.log|] == w.log && SoundCall(w.found, w.log, w.calls[c]);
    if e.LookUp? && w.cache != [] {
      assert Sound(w.found, w.log, w.cache[0]);
    }
  }

  lemma {:induction false} AfterStaysHealthy(w: World, e: Event)
    requires Possible(w, e) && Healthy(w)
    ensures Healthy(After(w, e))
  {
    match e
    case NewRecord(item) => RecordStaysHealthy(w, item);
    case Begin => CacheIsEarlier(w);
    case StoreResult(c) => StoringStaysHealthy(w, c);
    case LookUp(c, _) =>
      OwnStepStaysSound(w, e, c);
      OneCallChanged(w, After(w, e), c);
    case _ =>
      OwnStepStaysSound(w, e, e.call);
      OneCallChanged(w, After(w, e), e.call);
  }

  lemma {:induction false} StoringStaysHealthy(w: World, c: nat)
    requires Possible(w, StoreResult(c)) && Healthy(w)
    ensures Healthy(After(w, StoreResult(c)))
  {
    assert SoundCall(w.found, w.log, w.calls[c]);
  }

  lemma {:induction false} OneCallChanged(w: World, w': World, c: nat)
    requires Healthy(w) && c < |w.calls| && |w'.calls| == |w.calls| && w' == w.(calls := w.calls[c := w'.calls[c]])
    requires SoundCall(w'.found, w'.log, w'.calls[c])
    ensures Healthy(w')
  {
  }

  lemma {:induction false} CacheIsEarlier(w: World)
    requires Healthy(w)
    ensures Earlier(w.cache, |w.log|)
  {
    forall k | 0 <= k < |w.cache| ensures w.cache[k].read.errors <= |w.log| {
      assert Sound(w.found, w.log, w.cache[k]);
    }
  }

  lemma {:induction false} HistoryStaysHealthy(found: Found, events: seq<Event>)
    requires Hydrated(found)
    ensures Healthy(History(Start(found), events)) && History(Start(found), events).found == found
    decreases |events|
  {
    if events != [] {
      var before, last := History(Start(found), events[..|events| - 1]), events[|events| - 1];
      HistoryStaysHealthy(found, events[..|events| - 1]);
      if Possible(before, last) {
        AfterStaysHealthy(before, last);
      }
    }
  }

  // ---------- Main results ----------

  predicate IsHit(w: World, c: nat) {
    c < |w.calls| && w.calls[c].Hit?
  }

  // Every part of a hit is that part of memory at some moment of the call: not before its
  // version was read, not after it looked.
  lemma {:induction false} EveryPartIsCurrent(found: Found, events: seq<Event>, c: nat)
    requires Hydrated(found) && IsHit(History(Start(found), events), c)
    ensures var w := History(Start(found), events);
            var hit := w.calls[c];
            exists i, j, k :: hit.version <= i <= j <= k <= |w.log|
              && hit.entry.value == Value(At(w.found, w.log, i).summary, At(w.found, w.log, j).requests, At(w.found, w.log, k).errors)
  {
    HistoryStaysHealthy(found, events);
    var w := History(Start(found), events);
    assert SoundCall(w.found, w.log, w.calls[c]);
    var r := w.calls[c].entry.read;
    assert w.calls[c].version <= r.summary <= r.requests <= r.errors <= |w.log|;
  }

  lemma {:induction false} EarlierEntryIsExact(found: Found, log: seq<Item>, hit: Call)
    requires hit.Hit? && SoundCall(found, log, hit) && hit.entry in hit.before
    ensures hit.version <= |log|
    ensures var m := At(found, log, hit.version); hit.entry.value == Value(m.summary, m.requests, m.errors)
  {
    var k :| 0 <= k < |hit.before| && hit.before[k] == hit.entry;
    var r := hit.entry.read;
    assert r.errors <= hit.version;
    assert r.summary == hit.version && r.requests == hit.version && r.errors == hit.version;
  }

  // Where the entry was there already when the version was read, all parts are of that
  // very moment.
  lemma {:induction false} HitIsAtomic(found: Found, events: seq<Event>, c: nat)
    requires Hydrated(found) && IsHit(History(Start(found), events), c)
    requires var hit := History(Start(found), events).calls[c]; hit.entry in hit.before
    ensures var w := History(Start(found), events);
            var hit := w.calls[c];
            && hit.version <= |w.log|
            && var m := At(found, w.log, hit.version); hit.entry.value == Value(m.summary, m.requests, m.errors)
  {
    HistoryStaysHealthy(found, events);
    var w := History(Start(found), events);
    assert SoundCall(w.found, w.log, w.calls[c]);
    EarlierEntryIsExact(found, w.log, w.calls[c]);
  }

  lemma {:induction false} SummaryIff(found: Found, log: seq<Item>, v: nat, n: nat)
    requires v <= n <= |log|
    ensures At(found, log, n).summary == At(found, log, v).summary <==> forall i :: v <= i < n ==> log[i].Error?
  {
    var since := log[v..n];
    assert log[..n] == log[..v] + since;
    SumAppend(log[..v], since);
    RequestsAddUp(since);
    if AllErrors(since) {
      ErrorsAddNothing(since);
    }
    Since(log, v, n);
    OnlyNothingAddsNothing(SumOf(found.rows), SumOf(log[..v]), SumOf(since));
  }

  lemma {:induction false} Since(log: seq<Item>, v: nat, n: nat)
    requires v <= n <= |log|
    ensures AllErrors(log[v..n]) <==> forall i :: v <= i < n ==> log[i].Error?
  {
    var since := log[v..n];
    AllErrorsIff(since);
    assert forall i :: v <= i < n ==> log[i] == since[i - v];
  }

  lemma {:induction false} OnlyNothingAddsNothing(a: Summary, b: Summary, c: Summary)
    requires c.requests == 0 ==> c == NOTHING
    ensures Add(a, Add(b, c)) == Add(a, b) <==> c.requests == 0
  {
  }

  // In general the totals of a hit are those of the version exactly when no request was
  // recorded between that version and the reading of the totals.
  lemma {:induction false} HitSummaryIff(found: Found, events: seq<Event>, c: nat)
    requires Hydrated(found) && IsHit(History(Start(found), events), c)
    ensures var w := History(Start(found), events);
            var hit := w.calls[c];
            var n := hit.entry.read.summary;
            && hit.version <= n <= |w.log|
            && (hit.entry.value.summary == At(found, w.log, hit.version).summary
                <==> forall i :: hit.version <= i < n ==> w.log[i].Error?)
  {
    HistoryStaysHealthy(found, events);
    var w := History(Start(found), events);
    var hit := w.calls[c];
    assert SoundCall(found, w.log, hit);
    SummaryIff(found, w.log, hit.version, hit.entry.read.summary);
  }

  predicate AllErrors(items: seq<Item>) {
    items == [] || (AllErrors(items[..|items| - 1]) && items[|items| - 1].Error?)
  }

  lemma {:induction false} AllErrorsIff(items: seq<Item>)
    ensures AllErrors(items) <==> forall i :: 0 <= i < |items| ==> items[i].Error?
    decreases |items|
  {
    if items != [] {
      AllErrorsIff(items[..|items| - 1]);
    }
  }

  // Records add something to the totals unless they are all errors.
  lemma {:induction false} ErrorsAddNothing(items: seq<Item>)
    requires AllErrors(items)
    ensures SumOf(items) == NOTHING
    decreases |items|
  {
    if items != [] {
      ErrorsAddNothing(items[..|items| - 1]);
    }
  }

  lemma {:induction false} RequestsAddUp(items: seq<Item>)
    ensures SumOf(items).requests >= if AllErrors(items) then 0 else 1
    decreases |items|
  {
    if items != [] {
      RequestsAddUp(items[..|items| - 1]);
    }
  }

  // ---------- Exactly when a hit is of one moment ----------

  // No request, or no error, among the records from v up to n.
  predicate NoneBetween(log: seq<Item>, requests: bool, v: nat, n: nat)
    requires v <= n <= |log|
  {
    forall i :: v <= i < n ==> log[i].Request? != requests
  }

  lemma {:induction false} NewestSame(log: seq<Item>, requests: bool, older: seq<Item>, v: nat, n: nat)
    requires v <= n <= |log| && NoneBetween(log, requests, v, n)
    ensures NewestFirst(log[..n], requests, older) == NewestFirst(log[..v], requests, older)
    decreases n
  {
    if v < n {
      assert log[..n][..n - 1] == log[..n - 1];
      NewestSame(log, requests, older, v, n - 1);
    }
  }

  // The newest of the records since v heads the list.
  lemma {:induction false} NewestHead(log: seq<Item>, requests: bool, older: seq<Item>, v: nat, n: nat)
    requires v <= n <= |log| && !NoneBetween(log, requests, v, n)
    ensures var list := NewestFirst(log[..n], requests, older);
            list != [] && list[0] in log[v..n]
    decreases n
  {
    assert log[..n][..n - 1] == log[..n - 1];
    if log[n - 1].Request? == requests {
      assert log[v..n][n - 1 - v] == log[n - 1];
    } else {
      assert forall i :: v <= i < n && log[i].Request? == requests ==> i < n - 1;
      NewestHead(log, requests, older, v, n - 1);
      assert log[v..n] == log[v..n - 1] + [log[n - 1]];
    }
  }

  lemma {:induction false} NewestMembers(items: seq<Item>, requests: bool, older: seq<Item>, x: Item)
    requires x in NewestFirst(items, requests, older)
    ensures x in items || x in older
    decreases |items|
  {
    if items != [] && !(items[|items| - 1].Request? == requests && x == items[|items| - 1]) {
      NewestMembers(items[..|items| - 1], requests, older, x);
      assert items == items[..|items| - 1] + [items[|items| - 1]];
    }
  }

  // No two records are the same.
  predicate DistinctRecords(found: Found, log: seq<Item>) {
    && (forall i, j :: 0 <= i < j < |log| ==> log[i] != log[j])
    && (forall i :: 0 <= i < |log| ==> log[i] !in found.requests && log[i] !in found.errors)
  }

  function RecentList(found: Found, log: seq<Item>, requests: bool, n: nat): seq<Item>
    requires n <= |log|
  {
    if requests then At(found, log, n).requests else At(found, log, n).errors
  }

  // A recent list is the same at two moments exactly when nothing of its kind came in between.
  lemma {:induction false} ListSameIff(found: Found, log: seq<Item>, requests: bool, v: nat, n: nat)
    requires DistinctRecords(found, log) && v <= n <= |log|
    ensures RecentList(found, log, requests, n) == RecentList(found, log, requests, v) <==> NoneBetween(log, requests, v, n)
  {
    var older := if requests then found.requests else found.errors;
    var now, earlier := NewestFirst(log[..n], requests, older), NewestFirst(log[..v], requests, older);
    if NoneBetween(log, requests, v, n) {
      NewestSame(log, requests, older, v, n);
    } else {
      NewestHead(log, requests, older, v, n);
      assert RecentList(found, log, requests, n)[0] == now[0];
      if now[0] in earlier {
        NewestMembers(log[..v], requests, older, now[0]);
      }
      assert forall x :: x in RecentList(found, log, requests, v) ==> x in earlier;
    }
  }

  lemma {:induction false} EntryExactIff(found: Found, log: seq<Item>, entry: Cached)
    requires DistinctRecords(found, log) && Sound(found, log, entry)
    ensures var m := At(found, log, entry.version);
            var same := entry.value == Value(m.summary, m.requests, m.errors);
            same <==> NoneBetween(log, true, entry.version, entry.read.requests) && NoneBetween(log, false, entry.version, entry.read.errors)
  {
    ListSameIff(found, log, true, entry.version, entry.read.requests);
    ListSameIff(found, log, false, entry.version, entry.read.errors);
    SummaryIff(found, log, entry.version, entry.read.summary);
  }

  // With distinct records, a hit is memory as it was at its version exactly when no request
  // came between that version and the reading of the requests, and no error between it and
  // the reading of the errors.
  lemma {:induction false} HitExactIff(found: Found, events: seq<Event>, c: nat)
    requires Hydrated(found) && IsHit(History(Start(found), events), c)
    requires DistinctRecords(found, History(Start(found), events).log)
    ensures var w := History(Start(found), events);
            var hit := w.calls[c];
            var r := hit.entry.read;
            && hit.version <= r.requests <= r.errors <= |w.log|
            && var m := At(found, w.log, hit.version);
               var same := hit.entry.value == Value(m.summary, m.requests, m.errors);
               same <==> NoneBetween(w.log, true, hit.version, r.requests) && NoneBetween(w.log, false, hit.version, r.errors)
  {
    HistoryStaysHealthy(found, events);
    var w := History(Start(found), events);
    assert SoundCall(found, w.log, w.calls[c]);
    EntryExactIff(found, w.log, w.calls[c].entry);
  }

  // ---------- A hit that is not ----------

  const EMPTY := Found([], [], [])

  lemma {:induction false} OneMore(start: World, events: seq<Event>, last: Event) returns (more: seq<Event>)
    requires Possible(History(start, events), last)
    ensures History(start, more) == After(History(start, events), last)
  {
    HistoryTail(start, events, last);
    more := events + [last];
  }

  // A call that finds nothing in the cache.
  lemma {:induction false} Miss(start: World) returns (events: seq<Event>)
    requires start.calls == [] && start.cache == []
    ensures History(start, events) == start.(calls := [Missed(start.memory.version)])
  {
    events := OneMore(start, [], Begin);
    events := OneMore(start, events, LookUp(0, true));
  }

  // It has read all but the errors when a second one begins.
  lemma {:induction false} HalfRead(start: World) returns (events: seq<Event>)
    requires start.calls == [] && start.cache == []
    ensures var v, now := start.memory.version, |start.log|;
            History(start, events)
              == start.(calls := [Listed(v, start.memory.summary, start.memory.requests, now, now), Begun(v, [])])
  {
    events := Miss(start);
    events := OneMore(start, events, ReadSummary(0));
    events := OneMore(start, events, ReadRequests(0));
    events := OneMore(start, events, Begin);
  }

  // An error comes in, the first call finishes, and the second one finds its result.
  lemma {:induction false} TornRun(start: World, e: Item) returns (events: seq<Event>)
    requires start.calls == [] && start.cache == [] && e.Error?
    ensures var w, m := History(start, events), start.memory;
            && w.found == start.found && w.log == start.log + [e] && IsHit(w, 1) && w.calls[1].version == m.version
            && w.calls[1].entry.value == Value(m.summary, m.requests, Recorded(m, e).errors)
  {
    events := HalfRead(start);
    events := OneMore(start, events, NewRecord(e));
    events := OneMore(start, events, ReadErrors(0));
    events := OneMore(start, events, StoreResult(0));
    events := OneMore(start, events, LookUp(1, true));
  }

  // A hit can mix moments: here its totals are older than its list of errors.
  lemma {:induction false} HitCanBeTorn()
    ensures exists events :: var w := History(Start(EMPTY), events);
              && IsHit(w, 1)
              && w.calls[1].version == 0
              && w.calls[1].entry.value == Value(At(w.found, w.log, 0).summary, At(w.found, w.log, 0).requests, [Error("e")])
              && At(w.found, w.log, 0).errors == []
  {
    var events := TornRun(Start(EMPTY), Error("e"));
    assert History(Start(EMPTY), events).log[..0] == [];
    assert IsHit(History(Start(EMPTY), events), 1);
  }

  lemma {:induction false} HistoryTail(w: World, events: seq<Event>, last: Event)
    ensures History(w, events + [last]) == Follow(History(w, events), last)
  {
    assert (events + [last])[..|events|] == events;
  }
}
