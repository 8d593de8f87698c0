/** Rotation over a provider's API keys: the rotator object, and what its callers see over
    consecutive and interleaved calls.

    Times are integers with ZERO_TIME for Go's zero time; the rotation index is an int64 and
    wraps as one. */
module KeyRotation {

  const MAX_FAIL_COUNT := 3
  const ZERO_TIME := 0
  const MIN_INT64 := -0x8000_0000_0000_0000
  const MAX_INT64 := 0x7FFF_FFFF_FFFF_FFFF

  datatype Key = Key(name: string, value: string, disabled: bool, failCount: int, lastFail: int)

  // ---------- One call as a function of the keys ----------

  predicate Usable(k: Key) {
    !k.disabled && k.failCount < MAX_FAIL_COUNT
  }

  // Go's %, which takes the sign of the dividend.
  function Remainder(a: int, n: int): int
    requires n > 0
  {
    if a >= 0 then a % n else -((-a) % n)
  }

  function Start(index: int, n: int): nat
    requires n > 0
  {
    var start := Remainder(index, n);
    if start < 0 then 0 else start
  }

  function Bump(index: int): int {
    if index == MAX_INT64 then MIN_INT64 else index + 1
  }

  // The i-th slot from start, going round.
  function Slot(start: nat, i: nat, n: nat): (slot: nat)
    requires n > 0
    ensures slot < n
  {
    (start + i) % n
  }

  // The slot the search settles on, having already passed over i slots; -1 for none.
  function Search(keys: seq<Key>, start: nat, i: nat): int
    requires i <= |keys|
    decreases |keys| - i
  {
    if i == |keys| then -1
    else
      var slot := Slot(start, i, |keys|);
      if Usable(keys[slot]) then slot else Search(keys, start, i + 1)
  }

  // The slot whose key Next hands out, -1 for none.
  function Pick(keys: seq<Key>, index: int): int {
    if keys == [] then -1 else Search(keys, Start(index, |keys|), 0)
  }

  function ValueAt(keys: seq<Key>, slot: int): string
    requires -1 <= slot < |keys|
  {
    if slot < 0 then "" else keys[slot].value
  }

  function IndexOf(keys: seq<Key>, value: string): (r: int)
    ensures -1 <= r < |keys|
    ensures r >= 0 ==> keys[r].value == value && forall i :: 0 <= i < r ==> keys[i].value != value
    ensures r < 0 ==> forall i :: 0 <= i < |keys| ==> keys[i].value != value
  {
    if keys == [] then -1
    else if keys[0].value == value then 0
    else var r := IndexOf(keys[1..], value); if r < 0 then -1 else r + 1
  }

  function Succeeded(k: Key): Key {
    k.(failCount := 0, lastFail := ZERO_TIME)
  }

  function Failed(k: Key, now: int): Key {
    k.(failCount := k.failCount + 1, lastFail := now)
  }

  predicate Recoverable(k: Key, cooldown: int, now: int) {
    k.failCount >= MAX_FAIL_COUNT && k.lastFail != ZERO_TIME && cooldown > 0 && now - k.lastFail >= cooldown
  }

  function Recovered(k: Key, cooldown: int, now: int): Key {
    if Recoverable(k, cooldown, now) then k.(failCount := 0) else k
  }

  function UpdateFirst(keys: seq<Key>, value: string, update: Key -> Key): seq<Key> {
    var i := if value == "" then -1 else IndexOf(keys, value);
    if i < 0 then keys else keys[i := update(keys[i])]
  }

  // Slot i has the first key of this value.
  predicate FirstOf(keys: seq<Key>, value: string, i: nat)
    requires i < |keys|
  {
    value != "" && keys[i].value == value && forall j :: 0 <= j < i ==> keys[j].value != value
  }

  // ---------- The object ----------

  class KeyRotator {
    const keys: array<Key>
    var index: int

    constructor (apiKeys: seq<Key>)
      ensures fresh(keys) && index == 0
      ensures keys[..] == seq(|apiKeys|, i requires 0 <= i < |apiKeys| => apiKeys[i].(lastFail := ZERO_TIME))
    {
      keys := new Key[|apiKeys|](i requires 0 <= i < |apiKeys| => apiKeys[i].(lastFail := ZERO_TIME));
      index := 0;
    }

    method Next() returns (value: string)
      modifies `index
      ensures -1 <= Pick(keys[..], old(index)) < keys.Length
      ensures value == ValueAt(keys[..], Pick(keys[..], old(index)))
      ensures index == if keys.Length == 0 then old(index) else Bump(old(index))
    {
      SearchRange(keys[..], old(index));
      var n := keys.Length;
      if n == 0 {
        return "";
      }
      var start := Start(index, n);
      index := Bump(index);
      for i := 0 to n
        invariant Pick(keys[..], old(index)) == Search(keys[..], start, i)
      {
        var slot := Slot(start, i, n);
        if keys[slot].disabled {
          continue;
        }
        if keys[slot].failCount >= MAX_FAIL_COUNT {
          continue;
        }
        return keys[slot].value;
      }
      return "";
    }

    method ReportSuccess(value: string)
      modifies keys
      ensures keys[..] == UpdateFirst(old(keys[..]), value, Succeeded)
      ensures forall i :: 0 <= i < keys.Length ==>
        keys[i] == if FirstOf(old(keys[..]), value, i) then old(keys[i]).(failCount := 0, lastFail := 0) else old(keys[i])
    {
      if value == "" {
        return;
      }
      for i := 0 to keys.Length
        invariant keys[..] == old(keys[..])
        invariant forall j :: 0 <= j < i ==> keys[j].value != value
      {
        if keys[i].value == value {
          keys[i] := keys[i].(failCount := 0, lastFail := ZERO_TIME);
          return;
        }
      }
    }

    method ReportFailure(value: string, now: int)
      modifies keys
      ensures keys[..] == UpdateFirst(old(keys[..]), value, k => Failed(k, now))
      ensures forall i :: 0 <= i < keys.Length ==>
        keys[i] == if FirstOf(old(keys[..]), value, i)
                   then old(keys[i]).(failCount := old(keys[i]).failCount + 1, lastFail := now) else old(keys[i])
    {
      if value == "" {
        return;
      }
      for i := 0 to keys.Length
        invariant keys[..] == old(keys[..])
        invariant forall j :: 0 <= j < i ==> keys[j].value != value
      {
        if keys[i].value == value {
          keys[i] := keys[i].(failCount := keys[i].failCount + 1, lastFail := now);
          return;
        }
      }
    }

    method TryRecover(cooldown: int, now: int) returns (recovered: bool)
      modifies keys
      ensures forall i :: 0 <= i < keys.Length ==> keys[i] == Recovered(old(keys[i]), cooldown, now)
      ensures recovered <==> exists i :: 0 <= i < keys.Length && Recoverable(old(keys[i]), cooldown, now)
      ensures forall i :: 0 <= i < keys.Length ==>
        var was := old(keys[i]);
        if was.failCount >= 3 && was.lastFail != 0 && cooldown > 0 && now - was.lastFail >= cooldown
        then keys[i] == was.(failCount := 0) && recovered
        else keys[i] == was
      ensures recovered ==> keys[..] != old(keys[..])
    {
      recovered := false;
      for i := 0 to keys.Length
        invariant forall j :: 0 <= j < i ==> keys[j] == Recovered(old(keys[j]), cooldown, now)
        invariant forall j :: i <= j < keys.Length ==> keys[j] == old(keys[j])
        invariant recovered <==> exists j :: 0 <= j < i && Recoverable(old(keys[j]), cooldown, now)
      {
        if keys[i].failCount >= MAX_FAIL_COUNT && keys[i].lastFail != ZERO_TIME {
          if cooldown > 0 && now - keys[i].lastFail >= cooldown {
            keys[i] := keys[i].(failCount := 0);
            recovered := true;
          }
        }
      }
    }
  }

  // ---------- Consecutive Next calls ----------

  // The slots handed out by m Next calls in a row.
  function Picks(keys: seq<Key>, index: int, m: nat): seq<int>
    decreases m
  {
    if m == 0 then [] else [Pick(keys, index)] + Picks(keys, Bump(index), m - 1)
  }

  lemma {:induction false} SearchFinds(keys: seq<Key>, start: nat, i: nat)
    requires i <= |keys|
    ensures var r := Search(keys, start, i);
            if r < 0 then r == -1 && forall j :: i <= j < |keys| ==> !Usable(keys[Slot(start, j, |keys|)])
            else r < |keys| && Usable(keys[r])
    decreases |keys| - i
  {
    if i < |keys| {
      SearchFinds(keys, start, i + 1);
    }
  }

  lemma {:induction false} SearchRange(keys: seq<Key>, index: int)
    ensures -1 <= Pick(keys, index) < |keys|
    ensures Pick(keys, index) >= 0 ==> Usable(keys[Pick(keys, index)])
  {
    if keys != [] {
      SearchFinds(keys, Start(index, |keys|), 0);
    }
  }

  // The key handed out is the first one, going round from the slot of the index, that is not
  // disabled and has fewer than three failures; a negative index starts at the first slot.
  lemma {:induction false} PickIsFirstUsable(keys: seq<Key>, index: int) returns (start: nat, past: nat)
    ensures Pick(keys, index) >= 0 ==>
              && keys != [] && start == (if index < 0 then 0 else index % |keys|)
              && past < |keys| && Pick(keys, index) == Slot(start, past, |keys|)
              && forall j :: 0 <= j <= past ==>
                   var k := keys[Slot(start, j, |keys|)];
                   if j < past then k.disabled || k.failCount >= 3 else !k.disabled && k.failCount < 3
  {
    start, past := 0, 0;
    if keys != [] {
      start := Start(index, |keys|);
      past := SearchPasses(keys, start, 0);
    }
  }

  lemma {:induction false} SearchPasses(keys: seq<Key>, start: nat, i: nat) returns (past: nat)
    requires i <= |keys|
    ensures var slot := Search(keys, start, i);
            slot >= 0 ==> i <= past < |keys| && slot == Slot(start, past, |keys|) && Usable(keys[slot])
                          && forall j :: i <= j < past ==> !Usable(keys[Slot(start, j, |keys|)])
    decreases |keys| - i
  {
    past := i;
    if i < |keys| && !Usable(keys[Slot(start, i, |keys|)]) {
      past := SearchPasses(keys, start, i + 1);
    }
  }

  // Nothing is handed out exactly when no key is usable.
  lemma {:induction false} PickNoneIff(keys: seq<Key>, index: int)
    ensures Pick(keys, index) < 0 <==> forall u :: 0 <= u < |keys| ==> !Usable(keys[u])
  {
    SearchRange(keys, index);
    if keys != [] && Pick(keys, index) < 0 {
      var n, start := |keys|, Start(index, |keys|);
      SearchFinds(keys, start, 0);
      forall u | 0 <= u < n ensures !Usable(keys[u]) {
        var _ := OffsetTo(start, u, n);
      }
    }
  }

  // Some offset below n takes start to u, going round.
  lemma {:induction false} OffsetTo(start: nat, u: nat, n: nat) returns (j: nat)
    requires u < n
    ensures j < n && Slot(start, j, n) == u
  {
    var q, r := start / n, start % n;
    if u >= r {
      j := u - r;
      ModIsRemainder(start + j, q, u, n);
    } else {
      j := u + n - r;
      assert (q + 1) * n == q * n + n;
      ModIsRemainder(start + j, q + 1, u, n);
    }
  }

  lemma {:induction false} ModIsRemainder(x: int, q: int, r: int, n: int)
    requires 0 <= r < n && x == q * n + r
    ensures x % n == r
  {
    var q', r' := x / n, x % n;
    assert (q - q') * n == r' - r;
    if q > q' {
      AtLeastOnce(q - q', n);
    } else if q < q' {
      AtLeastOnce(q' - q, n);
    }
  }

  lemma {:induction false} AtLeastOnce(k: int, n: int)
    requires k >= 1 && n >= 0
    ensures k * n >= n
  {
    assert (k - 1) * n >= 0;
  }

  lemma {:induction false} PicksAt(keys: seq<Key>, index: int, m: nat, j: nat)
    requires j < m && index <= MAX_INT64 && (index < 0 || index + m <= MAX_INT64 + 1)
    requires index < 0 ==> index + m <= 0
    ensures |Picks(keys, index, m)| == m && Picks(keys, index, m)[j] == Pick(keys, index + j)
    decreases m
  {
    if m > 1 {
      PicksAt(keys, Bump(index), m - 1, if j == 0 then 0 else j - 1);
    }
  }

  // While the index does not wrap, n calls in a row hand out every usable key of n, and
  // never an unusable one.
  lemma {:induction false} EveryUsableKeyServed(keys: seq<Key>, index: nat, u: nat)
    requires u < |keys| && index + |keys| <= MAX_INT64 + 1
    ensures |Picks(keys, index, |keys|)| == |keys|
    ensures Usable(keys[u]) ==> u in Picks(keys, index, |keys|)
    ensures forall slot :: slot in Picks(keys, index, |keys|) ==> -1 <= slot < |keys| && (slot >= 0 ==> Usable(keys[slot]))
  {
    var n := |keys|;
    var picks := Picks(keys, index, n);
    PicksAreUsable(keys, index);
    if Usable(keys[u]) {
      var j := OffsetTo(index, u, n);
      PicksAt(keys, index, n, j);
      StartsAt(index + j, u, n);
      assert Pick(keys, index + j) == u;
      assert picks[j] == u;
    }
  }

  lemma {:induction false} PicksAreUsable(keys: seq<Key>, index: nat)
    requires keys != [] && index + |keys| <= MAX_INT64 + 1
    ensures |Picks(keys, index, |keys|)| == |keys|
    ensures forall slot :: slot in Picks(keys, index, |keys|) ==> -1 <= slot < |keys| && (slot >= 0 ==> Usable(keys[slot]))
  {
    var n := |keys|;
    var picks := Picks(keys, index, n);
    PicksAt(keys, index, n, 0);
    forall i | 0 <= i < n ensures -1 <= picks[i] < n && (picks[i] >= 0 ==> Usable(keys[picks[i]])) {
      PicksAt(keys, index, n, i);
      SearchRange(keys, index + i);
    }
  }

  // A search that starts at u looks at u first.
  lemma {:induction false} StartsAt(index: nat, u: nat, n: nat)
    requires u < n && index % n == u
    ensures Start(index, n) == u && Slot(u, 0, n) == u
  {
    ModIsRemainder(u, 0, u, n);
  }

  // Once the index has wrapped to a negative value every call starts at the first slot again,
  // so n calls serve all usable keys exactly when no more than one is usable.
  lemma {:induction false} WrappedIndexStarves(keys: seq<Key>, index: int)
    requires keys != [] && MIN_INT64 <= index && index + |keys| <= 0
    ensures (forall u :: 0 <= u < |keys| && Usable(keys[u]) ==> u in Picks(keys, index, |keys|))
       <==> (forall u, w :: 0 <= u < |keys| && 0 <= w < |keys| && Usable(keys[u]) && Usable(keys[w]) ==> u == w)
  {
    var n := |keys|;
    var first := Search(keys, 0, 0);
    var picks := Picks(keys, index, n);
    forall j | 0 <= j < n ensures |picks| == n && picks[j] == first {
      PicksAt(keys, index, n, j);
      NegativeStartsAtZero(index + j, n);
    }
    assert picks[0] == first;
    SearchFinds(keys, 0, 0);
    if first < 0 {
      forall u | 0 <= u < n ensures !Usable(keys[u]) {
        ModIsRemainder(u, 0, u, n);
        assert Slot(0, u, n) == u;
      }
    } else {
      assert first in picks;
    }
  }

  lemma {:induction false} NegativeStartsAtZero(index: int, n: nat)
    requires index < 0 && n > 0
    ensures Start(index, n) == 0
  {
  }

  // ---------- Runs of calls and reports ----------

  datatype Event = Next | Success(value: string) | Failure(value: string, now: int) | Recover(cooldown: int, now: int)

  function AfterEvent(keys: seq<Key>, e: Event): seq<Key> {
    match e
    case Next => keys
    case Success(value) => UpdateFirst(keys, value, Succeeded)
    case Failure(value, now) => UpdateFirst(keys, value, k => Failed(k, now))
    case Recover(cooldown, now) => seq(|keys|, i requires 0 <= i < |keys| => Recovered(keys[i], cooldown, now))
  }

  function AfterEvents(keys: seq<Key>, events: seq<Event>): (after: seq<Key>)
    ensures |after| == |keys|
  {
    if events == [] then keys
    else AfterEvent(AfterEvents(keys, events[..|events| - 1]), events[|events| - 1])
  }

  predicate DistinctValues(keys: seq<Key>) {
    && (forall i :: 0 <= i < |keys| ==> keys[i].value != "")
    && (forall i, j :: 0 <= i < j < |keys| ==> keys[i].value != keys[j].value)
  }

  // The slot that the reports about its value reach.
  predicate First(keys: seq<Key>, u: nat) {
    u < |keys| && keys[u].value != "" && forall i :: 0 <= i < u ==> keys[i].value != keys[u].value
  }

  function Failures(value: string, events: seq<Event>): nat {
    if events == [] then 0
    else Failures(value, events[..|events| - 1])
         + (var e := events[|events| - 1]; if e.Failure? && e.value == value then 1 else 0)
  }

  // The i-th event resets the key: a success of its value, or a TryRecover that finds it
  // quarantined for at least the cooldown.
  predicate Resets(keys: seq<Key>, events: seq<Event>, u: nat, i: nat)
    requires u < |keys| && i < |events|
  {
    match events[i]
    case Success(value) => value == keys[u].value
    case Recover(cooldown, now) => Recoverable(AfterEvents(keys, events[..i])[u], cooldown, now)
    case _ => false
  }

  // r is the place of the key's last reset among the events, or -1.
  predicate IsLastReset(keys: seq<Key>, events: seq<Event>, u: nat, r: int)
    requires u < |keys|
  {
    && -1 <= r < |events| && (r >= 0 ==> Resets(keys, events, u, r))
    && forall i :: r < i < |events| ==> !Resets(keys, events, u, i)
  }

  // The failures since that reset, with those the key was loaded with if there was none.
  function FailuresSince(keys: seq<Key>, events: seq<Event>, u: nat, r: int): int
    requires u < |keys| && -1 <= r < |events|
  {
    (if r < 0 then keys[u].failCount else 0) + Failures(keys[u].value, events[r + 1..])
  }

  lemma {:induction false} SomeLastReset(keys: seq<Key>, events: seq<Event>, u: nat) returns (r: int)
    requires u < |keys|
    ensures IsLastReset(keys, events, u, r)
    decreases |events|
  {
    r := |events| - 1;
    while r >= 0 && !Resets(keys, events, u, r)
      invariant -1 <= r < |events|
      invariant forall i :: r < i < |events| ==> !Resets(keys, events, u, i)
    {
      r := r - 1;
    }
  }

  // A report about a value changes the first key of that value and no other.
  lemma {:induction false} EventActsOnFirst(keys: seq<Key>, e: Event, u: nat)
    requires First(keys, u)
    ensures var after := AfterEvent(keys, e);
            && |after| == |keys| && First(after, u)
            && (forall w :: 0 <= w < |keys| ==> after[w].value == keys[w].value && after[w].disabled == keys[w].disabled)
            && after[u] == (match e
                 case Next => keys[u]
                 case Success(value) => if value == keys[u].value then Succeeded(keys[u]) else keys[u]
                 case Failure(value, now) => if value == keys[u].value then Failed(keys[u], now) else keys[u]
                 case Recover(cooldown, now) => Recovered(keys[u], cooldown, now))
            && (forall w :: u < w < |keys| && keys[w].value == keys[u].value && !e.Recover? ==> after[w] == keys[w])
  {
    if (e.Success? || e.Failure?) && e.value != "" {
      var i := IndexOf(keys, e.value);
      if e.value == keys[u].value {
        assert i == u;
      }
    }
  }

  lemma {:induction false} DistinctAreFirst(keys: seq<Key>, u: nat)
    requires DistinctValues(keys) && u < |keys|
    ensures First(keys, u)
  {
  }

  lemma {:induction false} ResetsBefore(keys: seq<Key>, events: seq<Event>, u: nat, i: nat)
    requires u < |keys| && i < |events| - 1
    ensures Resets(keys, events[..|events| - 1], u, i) == Resets(keys, events, u, i)
  {
    assert events[..|events| - 1][..i] == events[..i];
  }

  lemma {:induction false} ValuesStay(keys: seq<Key>, events: seq<Event>, u: nat)
    requires First(keys, u)
    ensures var after := AfterEvents(keys, events);
            && First(after, u)
            && forall w :: 0 <= w < |keys| ==> after[w].value == keys[w].value && after[w].disabled == keys[w].disabled
    decreases |events|
  {
    if events != [] {
      var before := events[..|events| - 1];
      ValuesStay(keys, before, u);
      EventActsOnFirst(AfterEvents(keys, before), events[|events| - 1], u);
    }
  }

  lemma {:induction false} LastResetBefore(keys: seq<Key>, events: seq<Event>, u: nat, r: int)
    requires u < |keys| && IsLastReset(keys, events, u, r) && r < |events| - 1
    ensures IsLastReset(keys, events[..|events| - 1], u, r)
  {
    var n := |events| - 1;
    forall i | 0 <= i < n ensures Resets(keys, events[..n], u, i) == Resets(keys, events, u, i) {
      ResetsBefore(keys, events, u, i);
    }
  }

  lemma {:induction false} OneMoreEvent(keys: seq<Key>, events: seq<Event>, u: nat, r: int)
    requires u < |keys| && -1 <= r < |events| - 1
    ensures var n := |events| - 1;
            FailuresSince(keys, events, u, r)
              == FailuresSince(keys, events[..n], u, r) + (if events[n].Failure? && events[n].value == keys[u].value then 1 else 0)
  {
    var n := |events| - 1;
    var since := events[r + 1..];
    assert since[..|since| - 1] == events[..n][r + 1..] && since[|since| - 1] == events[n];
  }

  // What the next event does to the count of a key that it does not reset, or does.
  lemma {:induction false} NextCount(keys: seq<Key>, e: Event, u: nat, resets: bool)
    requires First(keys, u)
    requires resets == (match e
                        case Success(value) => value == keys[u].value
                        case Recover(cooldown, now) => Recoverable(keys[u], cooldown, now)
                        case _ => false)
    ensures AfterEvent(keys, e)[u].failCount
         == if resets then 0 else keys[u].failCount + (if e.Failure? && e.value == keys[u].value then 1 else 0)
  {
    EventActsOnFirst(keys, e, u);
  }

  // The count of a key is that of its failures since its last reset.
  lemma {:induction false} CountIsFailuresSince(keys: seq<Key>, events: seq<Event>, u: nat, r: int)
    requires First(keys, u) && IsLastReset(keys, events, u, r)
    ensures AfterEvents(keys, events)[u].failCount == FailuresSince(keys, events, u, r)
    decreases |events|
  {
    if events != [] {
      var n := |events| - 1;
      ValuesStay(keys, events[..n], u);
      NextCount(AfterEvents(keys, events[..n]), events[n], u, Resets(keys, events, u, n));
      if r < n {
        LastResetBefore(keys, events, u, r);
        CountIsFailuresSince(keys, events[..n], u, r);
        OneMoreEvent(keys, events, u, r);
      }
    }
  }

  // A slot is handed out for some index exactly when its key is usable.
  lemma {:induction false} PickedIff(keys: seq<Key>, u: nat)
    requires u < |keys|
    ensures Usable(keys[u]) <==> exists index: nat :: Pick(keys, index) == u
  {
    if Usable(keys[u]) {
      ModIsRemainder(u, 0, u, |keys|);
      StartsAt(u, u, |keys|);
      assert Pick(keys, u) == u;
    }
    forall index: nat ensures Pick(keys, index) == u ==> Usable(keys[u]) {
      SearchRange(keys, index);
    }
  }

  // Whatever was reported about it and the other keys: a key is never handed out exactly when
  // it is disabled or has failed three times since its last reset.
  lemma {:induction false} Quarantine(keys: seq<Key>, events: seq<Event>, u: nat, r: int)
    requires DistinctValues(keys) && u < |keys| && IsLastReset(keys, events, u, r)
    ensures var after := AfterEvents(keys, events);
            && (forall index: int :: -1 <= Pick(after, index) < |after|)
            && ((forall index: int :: ValueAt(after, Pick(after, index)) != keys[u].value)
                <==> keys[u].disabled || FailuresSince(keys, events, u, r) >= MAX_FAIL_COUNT)
  {
    var after := AfterEvents(keys, events);
    DistinctAreFirst(keys, u);
    CountIsFailuresSince(keys, events, u, r);
    ValuesStay(keys, events, u);
    PickedIff(after, u);
    forall index: int ensures -1 <= Pick(after, index) < |after| && (Pick(after, index) >= 0 ==> Usable(after[Pick(after, index)])) {
      SearchRange(after, index);
    }
    if Usable(after[u]) {
      var index: nat :| Pick(after, index) == u;
      assert ValueAt(after, Pick(after, index)) == keys[u].value;
    }
  }

  // Every key of every run has a last reset, or none, and is quarantined by the failures since.
  lemma {:induction false} QuarantineOfEveryKey(keys: seq<Key>, events: seq<Event>, u: nat) returns (r: int)
    requires DistinctValues(keys) && u < |keys|
    ensures IsLastReset(keys, events, u, r)
    ensures var after := AfterEvents(keys, events);
            && (forall index: int :: -1 <= Pick(after, index) < |after|)
            && ((forall index: int :: ValueAt(after, Pick(after, index)) != keys[u].value)
                <==> keys[u].disabled || FailuresSince(keys, events, u, r) >= MAX_FAIL_COUNT)
  {
    r := SomeLastReset(keys, events, u);
    Quarantine(keys, events, u, r);
  }

  // ---------- Keys that share a value ----------

  ghost predicate HandedOut(keys: seq<Key>, value: string) {
    exists index: nat :: 0 <= Pick(keys, index) < |keys| && keys[Pick(keys, index)].value == value
  }

  lemma {:induction false} HandedOutIff(keys: seq<Key>, value: string)
    ensures HandedOut(keys, value) <==> exists w :: 0 <= w < |keys| && keys[w].value == value && Usable(keys[w])
  {
    if w :| 0 <= w < |keys| && keys[w].value == value && Usable(keys[w]) {
      PickedIff(keys, w);
      var index: nat :| Pick(keys, index) == w;
    }
    if HandedOut(keys, value) {
      var index: nat :| 0 <= Pick(keys, index) < |keys| && keys[Pick(keys, index)].value == value;
      SearchRange(keys, index);
      assert Usable(keys[Pick(keys, index)]);
    }
  }

  // The reports reach only the first key of a value; the others stay as they were loaded.
  lemma {:induction false} OthersStay(keys: seq<Key>, events: seq<Event>, u: nat, w: nat)
    requires First(keys, u) && u < w < |keys| && keys[w].value == keys[u].value && keys[w].lastFail == ZERO_TIME
    ensures AfterEvents(keys, events)[w] == keys[w]
    decreases |events|
  {
    if events != [] {
      var before := events[..|events| - 1];
      OthersStay(keys, before, u, w);
      ValuesStay(keys, before, u);
      EventActsOnFirst(AfterEvents(keys, before), events[|events| - 1], u);
    }
  }

  // As the keys were loaded, without times of failure.
  predicate Loaded(keys: seq<Key>) {
    forall i :: 0 <= i < |keys| ==> keys[i].lastFail == ZERO_TIME
  }

  // Once the first key of a value has failed three times, the value is handed out all the
  // same exactly when another key was loaded with it that is usable.
  lemma {:induction false} FailedValueEscapesIff(keys: seq<Key>, events: seq<Event>, u: nat, r: int)
    requires First(keys, u) && Loaded(keys) && IsLastReset(keys, events, u, r)
    requires FailuresSince(keys, events, u, r) >= MAX_FAIL_COUNT
    ensures HandedOut(AfterEvents(keys, events), keys[u].value)
       <==> exists w :: u < w < |keys| && keys[w].value == keys[u].value && Usable(keys[w])
  {
    var after := AfterEvents(keys, events);
    CountIsFailuresSince(keys, events, u, r);
    ValuesStay(keys, events, u);
    HandedOutIff(after, keys[u].value);
    forall w | u < w < |keys| && keys[w].value == keys[u].value ensures after[w] == keys[w] {
      OthersStay(keys, events, u, w);
    }
    if w :| u < w < |keys| && keys[w].value == keys[u].value && Usable(keys[w]) {
      assert after[w].value == keys[u].value && Usable(after[w]);
    }
  }

  // Either kind of reset puts an enabled key back into the rotation: it is what Next hands
  // out when its slot comes up.
  lemma {:induction false} ResetEndsQuarantine(keys: seq<Key>, e: Event, u: nat, index: nat)
    requires DistinctValues(keys) && u < |keys| && !keys[u].disabled
    requires e == Success(keys[u].value) || (e.Recover? && Recoverable(keys[u], e.cooldown, e.now))
    requires index % |keys| == u
    ensures Pick(AfterEvent(keys, e), index) == u
  {
    DistinctAreFirst(keys, u);
    EventActsOnFirst(keys, e, u);
    StartsAt(index, u, |keys|);
  }

  // A key loaded with a failure count of three or more has no failure time, and TryRecover
  // never revives it.
  lemma {:induction false} LoadedFailuresNeverRecover(keys: seq<Key>, events: seq<Event>, u: nat, index: int)
    requires DistinctValues(keys) && u < |keys|
    requires keys[u].failCount >= MAX_FAIL_COUNT && keys[u].lastFail == ZERO_TIME
    requires forall e :: e in events ==> e.Next? || e.Recover? || e.value != keys[u].value
    ensures var after := AfterEvents(keys, events);
            -1 <= Pick(after, index) < |after| && Pick(after, index) != u
  {
    RunLeavesKey(keys, events, u);
    SearchRange(AfterEvents(keys, events), index);
  }

  lemma {:induction false} RunLeavesKey(keys: seq<Key>, events: seq<Event>, u: nat)
    requires DistinctValues(keys) && u < |keys| && keys[u].lastFail == ZERO_TIME
    requires forall e :: e in events ==> e.Next? || e.Recover? || e.value != keys[u].value
    ensures var after := AfterEvents(keys, events);
            DistinctValues(after) && |after| == |keys| && after[u] == keys[u]
    decreases |events|
  {
    if events != [] {
      var before := events[..|events| - 1];
      RunLeavesKey(keys, before, u);
      DistinctAreFirst(AfterEvents(keys, before), u);
      EventActsOnFirst(AfterEvents(keys, before), events[|events| - 1], u);
    }
  }

  // Two keys of one value, loaded fresh: it is handed out for ever.
  lemma {:induction false} DuplicateValuesEscape(events: seq<Event>)
    ensures var keys := [Key("a", "v", false, 0, ZERO_TIME), Key("b", "v", false, 0, ZERO_TIME)];
            HandedOut(AfterEvents(keys, events), "v")
  {
    var keys := [Key("a", "v", false, 0, ZERO_TIME), Key("b", "v", false, 0, ZERO_TIME)];
    OthersStay(keys, events, 0, 1);
    HandedOutIff(AfterEvents(keys, events), "v");
    assert Usable(AfterEvents(keys, events)[1]);
  }
}
