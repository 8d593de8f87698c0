/** Where the publisher's state is kept: tables cleared and filled again in one transaction and
    read back in order, a file replaced by a rename, and a store that moves over from the
    second to the first. */
module StateStore {
  import opened Wrappers
  import Ledger

  // A row that is kept under its id. What it holds is one field; the text it is written as
  // reads back as it was.
  datatype Body = OfRevision(revision: Ledger.Revision) | OfPublish(record: Ledger.Record)

  datatype Entry = Entry(id: string, body: Body)

  datatype State = State(version: int, activeId: string, revisions: seq<Entry>, publishes: seq<Entry>)

  const CURRENT_VERSION := 1

  // ---------- Tables ----------

  datatype Row = Row(pos: int, body: Body)

  type Table = map<string, Row>

  datatype Header = Header(version: int, activeId: string)

  datatype Database = Database(header: Option<Header>, revisions: Table, publishes: Table)

  const EMPTY := Database(None, map[], map[])

  predicate Distinct(entries: seq<Entry>) {
    forall i, j :: 0 <= i < j < |entries| ==> entries[i].id != entries[j].id
  }

  // Rows numbered in the order of the entries.
  function TableOf(entries: seq<Entry>): Table {
    if entries == [] then map[]
    else
      var n := |entries| - 1;
      TableOf(entries[..n])[entries[n].id := Row(n, entries[n].body)]
  }

  function DatabaseOf(s: State): Database {
    Database(Some(Header(s.version, s.activeId)), TableOf(s.revisions), TableOf(s.publishes))
  }

  // What ORDER BY pos gives: all rows, each once, none before one with a smaller number.
  predicate InOrder(t: Table, out: seq<Entry>) {
    && |out| == |t|
    && (forall i :: 0 <= i < |out| ==> out[i].id in t && t[out[i].id].body == out[i].body)
    && (forall i, j :: 0 <= i < j < |out| ==> out[i].id != out[j].id && t[out[i].id].pos <= t[out[j].id].pos)
  }

  // Every entry has its row at its own position, and there are no other rows.
  predicate Holds(t: Table, entries: seq<Entry>) {
    && (forall id :: id in t ==> 0 <= t[id].pos < |entries| && entries[t[id].pos] == Entry(id, t[id].body))
    && (forall i :: 0 <= i < |entries| ==> entries[i].id in t && t[entries[i].id].pos == i)
  }

  lemma {:induction false} OneMoreRow(t: Table, entries: seq<Entry>, e: Entry)
    requires Holds(t, entries) && e.id !in t
    ensures Holds(t[e.id := Row(|entries|, e.body)], entries + [e])
  {
  }

  lemma {:induction false} LastIsNew(t: Table, entries: seq<Entry>)
    requires Distinct(entries) && entries != [] && Holds(t, entries[..|entries| - 1])
    ensures entries[|entries| - 1].id !in t
  {
  }

  lemma {:induction false} TableHolds(entries: seq<Entry>)
    requires Distinct(entries)
    ensures Holds(TableOf(entries), entries) && |TableOf(entries)| == |entries|
    decreases |entries|
  {
    if entries != [] {
      var n := |entries| - 1;
      TableHolds(entries[..n]);
      LastIsNew(TableOf(entries[..n]), entries);
      OneMoreRow(TableOf(entries[..n]), entries[..n], entries[n]);
      assert entries[..n] + [entries[n]] == entries;
    }
  }

  // Numbers that grow strictly, below n and n of them, are 0 to n - 1.
  lemma {:induction false} StrictlyGrowing(pos: seq<int>, k: nat)
    requires k < |pos|
    requires forall i :: 0 <= i < |pos| ==> 0 <= pos[i] < |pos|
    requires forall i, j :: 0 <= i < j < |pos| ==> pos[i] < pos[j]
    ensures pos[k] == k
  {
    AtLeast(pos, k);
    AtMost(pos, k);
  }

  lemma {:induction false} AtLeast(pos: seq<int>, k: nat)
    requires k < |pos| && (forall i :: 0 <= i < |pos| ==> 0 <= pos[i])
    requires forall i, j :: 0 <= i < j < |pos| ==> pos[i] < pos[j]
    ensures pos[k] >= k
  {
    if k > 0 {
      AtLeast(pos, k - 1);
    }
  }

  lemma {:induction false} AtMost(pos: seq<int>, k: nat)
    requires k < |pos| && (forall i :: 0 <= i < |pos| ==> pos[i] < |pos|)
    requires forall i, j :: 0 <= i < j < |pos| ==> pos[i] < pos[j]
    ensures pos[k] <= k
    decreases |pos| - k
  {
    if k + 1 < |pos| {
      AtMost(pos, k + 1);
    }
  }

  lemma {:induction false} FillStep(entries: seq<Entry>, i: nat)
    requires i < |entries| && Distinct(entries[..i])
    ensures entries[i].id in TableOf(entries[..i]) ==> !Distinct(entries)
    ensures entries[i].id !in TableOf(entries[..i]) ==> Distinct(entries[..i + 1])
  {
    var t := TableOf(entries[..i]);
    TableHolds(entries[..i]);
    if entries[i].id in t {
      assert entries[..i][t[entries[i].id].pos].id == entries[i].id;
    }
  }

  function Positions(t: Table, out: seq<Entry>): seq<int>
    requires forall i :: 0 <= i < |out| ==> out[i].id in t
  {
    seq(|out|, i requires 0 <= i < |out| => t[out[i].id].pos)
  }

  lemma {:induction false} PositionsGrow(entries: seq<Entry>, out: seq<Entry>)
    requires Distinct(entries) && InOrder(TableOf(entries), out)
    ensures var pos := Positions(TableOf(entries), out);
            && |pos| == |entries|
            && (forall i :: 0 <= i < |pos| ==> 0 <= pos[i] < |entries| && entries[pos[i]] == out[i])
            && (forall i, j :: 0 <= i < j < |pos| ==> pos[i] < pos[j])
  {
    TableHolds(entries);
  }

  // Reading a filled table in order gives back the entries in their order.
  lemma {:induction false} ReadBack(entries: seq<Entry>, out: seq<Entry>)
    requires Distinct(entries) && InOrder(TableOf(entries), out)
    ensures out == entries
  {
    PositionsGrow(entries, out);
    forall i | 0 <= i < |out| ensures out[i] == entries[i] {
      StrictlyGrowing(Positions(TableOf(entries), out), i);
    }
  }

  class SqliteStore {
    var db: Database

    constructor ()
      ensures db == EMPTY
    {
      db := EMPTY;
    }

    // Inserts the entries one by one; a repeated id breaks the primary key.
    method Fill(entries: seq<Entry>, inserts: nat -> bool) returns (t: Table, ok: bool)
      ensures ok <==> Distinct(entries) && forall i: nat :: i < |entries| ==> inserts(i)
      ensures ok ==> t == TableOf(entries)
    {
      t, ok := map[], true;
      for i := 0 to |entries|
        invariant t == TableOf(entries[..i]) && Distinct(entries[..i])
        invariant forall k: nat :: k < i ==> inserts(k)
      {
        FillStep(entries, i);
        assert entries[..i + 1][..i] == entries[..i];
        if !inserts(i) || entries[i].id in t {
          return t, false;
        }
        t := t[entries[i].id := Row(i, entries[i].body)];
      }
      assert entries[..|entries|] == entries;
    }

    /** The whole state or nothing: a failure or a crash before the commit leaves the tables as
        they were. */
    method Save(s: State, inserts: nat -> bool, commits: bool) returns (ok: bool)
      modifies this
      ensures ok <==> commits && Distinct(s.revisions) && Distinct(s.publishes)
                      && forall i: nat :: i < |s.revisions| || i < |s.publishes| ==> inserts(i)
      ensures db == if ok then DatabaseOf(s) else old(db)
    {
      var tx := db.(header := Some(Header(s.version, s.activeId)), revisions := map[], publishes := map[]);
      var revisions, filled := Fill(s.revisions, inserts);
      if !filled {
        return false;
      }
      var publishes;
      publishes, filled := Fill(s.publishes, inserts);
      if !filled || !commits {
        return false;
      }
      tx := tx.(revisions := revisions, publishes := publishes);
      db := tx;
      return true;
    }

    method Select(t: Table) returns (out: seq<Entry>)
      ensures InOrder(t, out)
    {
      out := [];
      var rest := t;
      while rest != map[]
        invariant rest.Keys <= t.Keys && forall id :: id in rest ==> rest[id] == t[id]
        invariant |out| + |rest| == |t|
        invariant forall i :: 0 <= i < |out| ==> out[i].id in t && out[i].id !in rest && t[out[i].id].body == out[i].body
        invariant forall i, j :: 0 <= i < j < |out| ==> out[i].id != out[j].id && t[out[i].id].pos <= t[out[j].id].pos
        invariant forall i, id :: 0 <= i < |out| && id in rest ==> t[out[i].id].pos <= t[id].pos
        decreases |rest|
      {
        var id := First(rest);
        out := out + [Entry(id, rest[id].body)];
        RestSmaller(rest, id);
        rest := rest - {id};
      }
    }

    method First(t: Table) returns (id: string)
      requires t != map[]
      ensures id in t && forall other :: other in t ==> t[id].pos <= t[other].pos
    {
      var keys := t.Keys;
      id :| id in keys;
      keys := keys - {id};
      while keys != {}
        invariant keys <= t.Keys && id in t
        invariant forall other :: other in t && other !in keys ==> t[id].pos <= t[other].pos
        decreases |keys|
      {
        var other :| other in keys;
        keys := keys - {other};
        if t[other].pos < t[id].pos {
          id := other;
        }
      }
    }

    /** What was saved last; nothing before the first save; an error for another version. */
    method Load() returns (state: Option<State>, ok: bool)
      ensures db.header.None? ==> ok && state.None?
      ensures db.header.Some? ==> (ok <==> db.header.value.version in {0, CURRENT_VERSION})
      ensures ok && db.header.Some? ==>
        && state.Some? && state.value.version == CURRENT_VERSION && state.value.activeId == db.header.value.activeId
        && InOrder(db.revisions, state.value.revisions) && InOrder(db.publishes, state.value.publishes)
      ensures !ok ==> state.None?
    {
      if db.header.None? {
        return None, true;
      }
      var version := if db.header.value.version == 0 then CURRENT_VERSION else db.header.value.version;
      if version != CURRENT_VERSION {
        return None, false;
      }
      var revisions := Select(db.revisions);
      var publishes := Select(db.publishes);
      return Some(State(version, db.header.value.activeId, revisions, publishes)), true;
    }
  }

  lemma {:induction false} RestSmaller(t: Table, id: string)
    requires id in t
    ensures |t - {id}| == |t| - 1
  {
    assert t.Keys == (t - {id}).Keys + {id};
    assert |t.Keys| == |t| && |(t - {id}).Keys| == |t - {id}|;
  }

  // ---------- Runs of saves and crashes ----------

  // One attempt to save: what, and whether it got as far as the commit.
  datatype Attempt = Attempt(state: State, committed: bool)

  predicate Lands(a: Attempt) {
    a.committed && Distinct(a.state.revisions) && Distinct(a.state.publishes)
  }

  function DatabaseAfter(attempts: seq<Attempt>): Database {
    if attempts == [] then EMPTY
    else
      var last := attempts[|attempts| - 1];
      if Lands(last) then DatabaseOf(last.state) else DatabaseAfter(attempts[..|attempts| - 1])
  }

  function LastLanded(attempts: seq<Attempt>): Option<State> {
    if attempts == [] then None
    else
      var last := attempts[|attempts| - 1];
      if Lands(last) then Some(last.state) else LastLanded(attempts[..|attempts| - 1])
  }

  predicate Reads(db: Database, state: Option<State>) {
    match db.header
    case None => state.None?
    case Some(h) =>
      && state.Some? && state.value.version == CURRENT_VERSION && state.value.activeId == h.activeId
      && InOrder(db.revisions, state.value.revisions) && InOrder(db.publishes, state.value.publishes)
  }

  // Whatever attempts failed or crashed, reading gives exactly the last state that landed.
  lemma {:induction false} LoadGivesTheLastSave(attempts: seq<Attempt>, state: Option<State>)
    requires forall k :: 0 <= k < |attempts| ==> attempts[k].state.version == CURRENT_VERSION
    requires Reads(DatabaseAfter(attempts), state)
    ensures state == LastLanded(attempts)
    decreases |attempts|
  {
    if attempts != [] {
      var last := attempts[|attempts| - 1];
      if Lands(last) {
        ReadBack(last.state.revisions, state.value.revisions);
        ReadBack(last.state.publishes, state.value.publishes);
      } else {
        LoadGivesTheLastSave(attempts[..|attempts| - 1], state);
      }
    }
  }

  // ---------- The file store ----------

  // What a file holds: an encoded state, or what a write cut short left of one.
  datatype Content = Encoded(state: State) | CutShort

  datatype FileLuck = AllWell | WriteFails(left: Option<Content>) | RenameFails | CrashesBeforeRename

  class FileStore {
    var file: Option<Content>
    var tmp: Option<Content>

    constructor ()
      ensures file.None?
    {
      file, tmp := None, None;
    }

    method Save(s: State, luck: FileLuck) returns (ok: bool)
      modifies this
      ensures ok <==> luck.AllWell?
      ensures file == if ok then Some(Encoded(s)) else old(file)
    {
      if luck.WriteFails? {
        tmp := luck.left;
        return false;
      }
      tmp := Some(Encoded(s));
      if luck.CrashesBeforeRename? {
        return false;
      }
      if luck.RenameFails? {
        tmp := None;
        return false;
      }
      file, tmp := tmp, None;
      return true;
    }
  }

  // ---------- Moving over ----------

  // The primary and the legacy store by what they hold, and how often the legacy one is read.
  datatype Stores = Stores(primary: Option<State>, fallback: Option<State>, fallbackReads: nat)

  // Which of the operations of one load succeed.
  datatype LoadLuck = LoadLuck(primaryReads: bool, fallbackReads: bool, copies: bool)

  datatype LoadResult = Unreadable | Read(state: Option<State>)

  class MigratingStore {
    var primary: Option<State>
    var fallback: Option<State>
    var fallbackReads: nat

    function Value(): Stores
      reads this
    {
      Stores(primary, fallback, fallbackReads)
    }

    constructor (stores: Stores)
      ensures Value() == stores
    {
      primary, fallback, fallbackReads := stores.primary, stores.fallback, stores.fallbackReads;
    }

    method Load(luck: LoadLuck) returns (r: LoadResult)
      modifies this
      ensures (Value(), r) == Loaded(old(Value()), luck)
    {
      if !luck.primaryReads {
        return Unreadable;
      }
      if primary.Some? {
        return Read(primary);
      }
      fallbackReads := fallbackReads + 1;
      if !luck.fallbackReads {
        return Unreadable;
      }
      r := Read(fallback);
      if fallback.Some? && luck.copies {
        primary := fallback;
      }
    }

    method Save(s: State, ok: bool)
      modifies this
      ensures Value() == Kept(old(Value()), s, ok)
    {
      if ok {
        primary := Some(s);
      }
    }
  }

  function Loaded(s: Stores, luck: LoadLuck): (Stores, LoadResult) {
    if !luck.primaryReads then (s, Unreadable)
    else if s.primary.Some? then (s, Read(s.primary))
    else
      var read := s.(fallbackReads := s.fallbackReads + 1);
      if !luck.fallbackReads then (read, Unreadable)
      else (if s.fallback.Some? && luck.copies then read.(primary := s.fallback) else read, Read(s.fallback))
  }

  function Kept(s: Stores, state: State, ok: bool): Stores {
    if ok then s.(primary := Some(state)) else s
  }

  datatype Use = Loading(luck: LoadLuck) | Saving(state: State, ok: bool)

  function Used(s: Stores, uses: seq<Use>): Stores
    decreases |uses|
  {
    if uses == [] then s
    else
      var before := Used(s, uses[..|uses| - 1]);
      match uses[|uses| - 1]
      case Loading(luck) => Loaded(before, luck).0
      case Saving(state, ok) => Kept(before, state, ok)
  }

  function LastSaved(first: State, uses: seq<Use>): State {
    if uses == [] then first
    else
      var last := uses[|uses| - 1];
      if last.Saving? && last.ok then last.state else LastSaved(first, uses[..|uses| - 1])
  }

  // Once the primary store holds a state, the legacy store is never read again, and every
  // load gives the last state saved, or an error where the primary cannot be read.
  lemma {:induction false} LegacyIsForgotten(s: Stores, uses: seq<Use>)
    requires s.primary.Some?
    ensures Used(s, uses) == s.(primary := Some(LastSaved(s.primary.value, uses)))
    ensures forall luck: LoadLuck :: Loaded(Used(s, uses), luck).1
              == if luck.primaryReads then Read(Some(LastSaved(s.primary.value, uses))) else Unreadable
    decreases |uses|
  {
    if uses != [] {
      LegacyIsForgotten(s, uses[..|uses| - 1]);
    }
  }
}
