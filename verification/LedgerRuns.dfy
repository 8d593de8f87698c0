/** Whole runs of the publisher: any sequence of its operations, replies and failed saves,
    with crashes and restarts in between. */
module LedgerRuns {
  import opened Wrappers
  import opened Text
  import opened Config
  import opened Compiler
  import opened Ledger

  // open: the publishes that ended without their settling being stored.
  datatype World = World(ledger: Ledger, durable: Option<Stored>, open: set<string>)

  // One call, with what the gateway replies and which of its saves succeed.
  datatype Op =
    | Replace(revisions: seq<Revision>, activeId: string, stored: bool)
    | Upsert(revision: Revision, activate: bool, stored: bool)
    | Publish(id: string, kind: string, ticket: Ticket, reply: Reply, stagedStored: bool, settledStored: bool)
    | Update(config: Config, about: string, newId: string, ticket: Ticket, reply: Reply,
             stagedStored: bool, settledStored: bool, lastStored: bool)
    | Policy(historyLimit: int)
    | Crash
    | CrashWhilePublishing(id: string, kind: string, ticket: Ticket, stagedStored: bool)

  function Save(w: World, l: Ledger, ok: bool): World {
    w.(ledger := l, durable := if ok then Some(Persisted(l)) else w.durable)
  }

  function Restarted(durable: Option<Stored>): Ledger {
    if durable.Some? && Restorable(durable.value) then Restored(NEW, durable.value) else NEW
  }

  // A restart has only what was stored.
  function Crashed(w: World): World {
    w.(ledger := Restarted(w.durable))
  }

  // The ledger and the store after the staged save; the publish is open until it is settled
  // and stored.
  function StagedWorld(env: Env, w: World, i: int, kind: string, t: Ticket, stored: bool): World
    requires 0 <= i < |w.ledger.revisions| && Compiled(env, w.ledger.revisions[i], t.now).Ok?
  {
    var staged := StagedLedger(w.ledger, i, Compiled(env, w.ledger.revisions[i], t.now).value, kind, t);
    Save(w.(open := w.open + {t.publishId}), staged, stored)
  }

  function PublishedWorld(env: Env, w: World, i: int, kind: string, t: Ticket, reply: Reply, staged: bool, settled: bool): World
    requires 0 <= i < |w.ledger.revisions| && Compiled(env, w.ledger.revisions[i], t.now).Ok?
  {
    var w1 := StagedWorld(env, w, i, kind, t, staged);
    Save(if settled then w1.(open := w.open) else w1, PublishedLedger(env, w.ledger, i, kind, t, reply), settled)
  }

  function UpdatedWorld(env: Env, w: World, op: Op): World
    requires op.Update? && CompilePayload(env, op.config).Ok?
  {
    NewRevisionCompiles(env, op.config, op.about, op.newId, op.ticket);
    var r := NewRevision(env, op.config, op.about, op.newId, op.ticket);
    var w1 := PublishedWorld(env, w.(ledger := Appended(w.ledger, r)), |w.ledger.revisions|, "publish", op.ticket,
                             op.reply, op.stagedStored, op.settledStored);
    if op.reply.NotConfigured? then w1.(ledger := Updated(env, w.ledger, r, op.ticket, op.reply))
    else Save(w1, Updated(env, w.ledger, r, op.ticket, op.reply), op.lastStored)
  }

  // As far as a publish gets before its reply.
  function BeforeReply(env: Env, w: World, id: string, kind: string, t: Ticket, stored: bool): World {
    var i := Find(w.ledger.revisions, id);
    if i < 0 || Compiled(env, w.ledger.revisions[i], t.now).Err? then w else StagedWorld(env, w, i, kind, t, stored)
  }

  function After(env: Env, w: World, op: Op): World {
    match op
    case Replace(rs, activeId, stored) =>
      if Replaceable(w.ledger, rs, activeId) then Save(w, Replaced(w.ledger, rs, activeId), stored) else w
    case Upsert(r, activate, stored) =>
      if Trim(r.id) != "" then Save(w, Upserted(w.ledger, r, activate), stored) else w
    case Publish(id, kind, t, reply, staged, settled) =>
      var i := Find(w.ledger.revisions, id);
      if i < 0 || Compiled(env, w.ledger.revisions[i], t.now).Err? then w
      else PublishedWorld(env, w, i, kind, t, reply, staged, settled)
    case Update(config, _, _, _, _, _, _, _) =>
      if CompilePayload(env, config).Err? then w else UpdatedWorld(env, w, op)
    case Policy(n) => w.(ledger := Limited(w.ledger, n))
    case Crash => Crashed(w)
    case CrashWhilePublishing(id, kind, t, staged) => Crashed(BeforeReply(env, w, id, kind, t, staged))
  }

  function Run(env: Env, ops: seq<Op>): World
    decreases |ops|
  {
    if ops == [] then World(NEW, None, {}) else After(env, Run(env, ops[..|ops| - 1]), ops[|ops| - 1])
  }

  // The ids that updates generate are new, and never blank.
  predicate FreshId(w: World, op: Op) {
    op.Update? ==> op.newId != "" && Trim(op.newId) == op.newId && op.newId !in Ids(w.ledger.revisions)
  }

  predicate FreshIds(env: Env, ops: seq<Op>)
    decreases |ops|
  {
    ops != [] ==> FreshIds(env, ops[..|ops| - 1]) && FreshId(Run(env, ops[..|ops| - 1]), ops[|ops| - 1])
  }

  // ---------- The ledger stays valid and its records settled ----------

  predicate SettledBut(publishes: seq<Record>, open: set<string>) {
    forall i :: 0 <= i < |publishes| && publishes[i].status.Staged? ==> publishes[i].publishId in open
  }

  predicate ValidStored(st: Stored, open: set<string>) {
    && WellNamed(st.revisions) && (st.activeId == "" || st.activeId in Ids(st.revisions))
    && SettledBut(st.publishes, open)
  }

  predicate ValidWorld(w: World) {
    && Valid(w.ledger) && SettledBut(w.ledger.publishes, w.open)
    && (w.durable.Some? ==> ValidStored(w.durable.value, w.open))
  }

  lemma {:induction false} PersistedIsValid(l: Ledger, open: set<string>)
    requires Valid(l) && SettledBut(l.publishes, open)
    ensures ValidStored(Persisted(l), open)
    ensures Ids(Persisted(l).revisions) == Ids(l.revisions)
  {
    assert HasActive(l) ==> Ids(Persisted(l).revisions)[l.active] == l.revisions[l.active].id;
  }

  lemma {:induction false} SaveStaysValid(w: World, l: Ledger, ok: bool)
    requires Valid(l) && SettledBut(l.publishes, w.open) && (w.durable.Some? ==> ValidStored(w.durable.value, w.open))
    ensures ValidWorld(Save(w, l, ok))
  {
    PersistedIsValid(l, w.open);
  }

  lemma {:induction false} StoredIsRestorable(st: Stored, open: set<string>)
    requires ValidStored(st, open)
    ensures Restorable(st) && Valid(Restored(NEW, st)) && SettledBut(Restored(NEW, st).publishes, open)
    ensures Ids(Restored(NEW, st).revisions) == Ids(st.revisions)
    ensures ActiveId(Restored(NEW, st)) == if st.activeId == "" then None else Some(st.activeId)
  {
    var rs := Unmarshalled(st.revisions);
    UnmarshalledNames(st.revisions);
    if st.activeId != "" {
      NamedIsNotBlank(st.revisions, st.activeId);
    }
    FindInIds(rs, Trim(st.activeId));
    SyncedStaysValid(Ledger(rs, Find(rs, Trim(st.activeId)), [], DEFAULT_HISTORY_LIMIT));
  }

  lemma {:induction false} UnmarshalledNames(rs: seq<Revision>)
    requires WellNamed(rs)
    ensures WellNamed(Unmarshalled(rs)) && Ids(Unmarshalled(rs)) == Ids(rs) && "" !in Ids(rs)
  {
  }

  lemma {:induction false} RestartStaysValid(durable: Option<Stored>, open: set<string>)
    requires durable.Some? ==> ValidStored(durable.value, open)
    ensures Valid(Restarted(durable)) && SettledBut(Restarted(durable).publishes, open)
  {
    if durable.Some? {
      StoredIsRestorable(durable.value, open);
    }
  }

  lemma {:induction false} LimitedKeepsSettled(l: Ledger, open: set<string>)
    requires SettledBut(l.publishes, open)
    ensures SettledBut(Synced(l).publishes, open)
  {
  }

  lemma {:induction false} MoreOpen(w: World, open: set<string>)
    requires ValidWorld(w) && w.open <= open
    ensures ValidWorld(w.(open := open))
  {
  }

  lemma {:induction false} StagedOnes(l: Ledger, i: int, snapshot: Snapshot, kind: string, t: Ticket, open: set<string>)
    requires SettledBut(l.publishes, open) && 0 <= i < |l.revisions|
    ensures SettledBut(StagedLedger(l, i, snapshot, kind, t).publishes, open + {t.publishId})
  {
    var all := l.publishes + [StagedRecord(l.revisions[i], kind, t)];
    assert SettledBut(all, open + {t.publishId});
  }

  lemma {:induction false} StagedWorldValid(env: Env, w: World, i: int, kind: string, t: Ticket, stored: bool)
    requires ValidWorld(w) && 0 <= i < |w.ledger.revisions| && Compiled(env, w.ledger.revisions[i], t.now).Ok?
    ensures ValidWorld(StagedWorld(env, w, i, kind, t, stored))
  {
    var snapshot := Compiled(env, w.ledger.revisions[i], t.now).value;
    var w0 := w.(open := w.open + {t.publishId});
    StagedStaysValid(w.ledger, i, snapshot, kind, t);
    StagedOnes(w.ledger, i, snapshot, kind, t, w.open);
    MoreOpen(w, w0.open);
    SaveStaysValid(w0, StagedLedger(w.ledger, i, snapshot, kind, t), stored);
  }

  lemma {:induction false} PublishedWorldValid(env: Env, w: World, i: int, kind: string, t: Ticket, reply: Reply, staged: bool, settled: bool)
    requires ValidWorld(w) && 0 <= i < |w.ledger.revisions| && Compiled(env, w.ledger.revisions[i], t.now).Ok?
    ensures ValidWorld(PublishedWorld(env, w, i, kind, t, reply, staged, settled))
    ensures var l := PublishedWorld(env, w, i, kind, t, reply, staged, settled).ledger;
            Ids(l.revisions) == Ids(w.ledger.revisions)
              && ActiveId(l) == if reply.Applied? then Some(w.ledger.revisions[i].id) else ActiveId(w.ledger)
  {
    var snapshot := Compiled(env, w.ledger.revisions[i], t.now).value;
    var w1 := StagedWorld(env, w, i, kind, t, staged);
    StagedWorldValid(env, w, i, kind, t, staged);
    PublishStaysValid(w.ledger, i, snapshot, kind, t, reply);
    SettledOnes(w.ledger, i, snapshot, kind, t, reply, w.open);
    var l := PublishedLedger(env, w.ledger, i, kind, t, reply);
    if settled {
      PersistedIsValid(l, w.open);
    } else {
      SaveStaysValid(w1, l, false);
    }
  }

  // Once settled, only the records that were open before are.
  lemma {:induction false} SettledOnes(l: Ledger, i: int, snapshot: Snapshot, kind: string, t: Ticket, reply: Reply, open: set<string>)
    requires Valid(l) && SettledBut(l.publishes, open) && 0 <= i < |l.revisions|
    ensures SettledBut(SettledLedger(StagedLedger(l, i, snapshot, kind, t), i, reply).publishes, open)
  {
    var staged := StagedLedger(l, i, snapshot, kind, t);
    StagedStaysValid(l, i, snapshot, kind, t);
    var n := |staged.publishes| - 1;
    assert SettledBut(staged.publishes[..n], open);
    var status := if reply.Applied? then Observed else Failed;
    forall error ensures SettledBut(WithLast(staged.publishes, status, error), open) {
      assert WithLast(staged.publishes, status, error)[..n] == staged.publishes[..n];
    }
    LimitedKeepsSettled(staged.(publishes := WithLast(staged.publishes, Observed, ""), active := i), open);
  }

  lemma {:induction false} UpdatedWorldValid(env: Env, w: World, op: Op)
    requires ValidWorld(w) && op.Update? && CompilePayload(env, op.config).Ok? && FreshId(w, op)
    ensures ValidWorld(UpdatedWorld(env, w, op))
    ensures ActiveId(UpdatedWorld(env, w, op).ledger) == if op.reply.Applied? then Some(op.newId) else ActiveId(w.ledger)
  {
    NewRevisionCompiles(env, op.config, op.about, op.newId, op.ticket);
    var r := NewRevision(env, op.config, op.about, op.newId, op.ticket);
    var w0 := w.(ledger := Appended(w.ledger, r));
    StillWellNamed(w.ledger.revisions, r);
    assert ValidWorld(w0);
    PublishedWorldValid(env, w0, |w.ledger.revisions|, "publish", op.ticket, op.reply, op.stagedStored, op.settledStored);
    var w1 := PublishedWorld(env, w0, |w.ledger.revisions|, "publish", op.ticket, op.reply, op.stagedStored, op.settledStored);
    UpdatedStaysValid(env, w.ledger, r, op.ticket, op.reply);
    SaveStaysValid(w1, Updated(env, w.ledger, r, op.ticket, op.reply), op.lastStored);
  }

  lemma {:induction false} ReplaceStaysValid(w: World, rs: seq<Revision>, activeId: string, stored: bool)
    requires ValidWorld(w) && Replaceable(w.ledger, rs, activeId)
    ensures ValidWorld(Save(w, Replaced(w.ledger, rs, activeId), stored))
  {
    ReplacedStaysValid(w.ledger, rs, activeId);
    LimitedKeepsSettled(w.ledger.(revisions := ClonedAll(rs), active := Find(ClonedAll(rs), WantedActive(w.ledger, activeId))), w.open);
    SaveStaysValid(w, Replaced(w.ledger, rs, activeId), stored);
  }

  lemma {:induction false} UpsertStaysValid(w: World, r: Revision, activate: bool, stored: bool)
    requires ValidWorld(w) && Trim(r.id) != ""
    ensures ValidWorld(Save(w, Upserted(w.ledger, r, activate), stored))
  {
    UpsertedStaysValid(w.ledger, r, activate);
    SaveStaysValid(w, Upserted(w.ledger, r, activate), stored);
  }

  lemma {:induction false} AfterStaysValid(env: Env, w: World, op: Op)
    requires ValidWorld(w) && FreshId(w, op)
    ensures ValidWorld(After(env, w, op))
  {
    match op
    case Replace(rs, activeId, stored) =>
      if Replaceable(w.ledger, rs, activeId) {
        ReplaceStaysValid(w, rs, activeId, stored);
      }
    case Upsert(r, activate, stored) =>
      if Trim(r.id) != "" {
        UpsertStaysValid(w, r, activate, stored);
      }
    case Publish(id, kind, t, reply, staged, settled) =>
      var i := Find(w.ledger.revisions, id);
      if i >= 0 && Compiled(env, w.ledger.revisions[i], t.now).Ok? {
        PublishedWorldValid(env, w, i, kind, t, reply, staged, settled);
      }
    case Update(config, _, _, _, _, _, _, _) =>
      if CompilePayload(env, config).Ok? {
        UpdatedWorldValid(env, w, op);
      }
    case Policy(n) =>
    case Crash => RestartStaysValid(w.durable, w.open);
    case CrashWhilePublishing(id, kind, t, staged) =>
      var i := Find(w.ledger.revisions, id);
      if i < 0 || Compiled(env, w.ledger.revisions[i], t.now).Err? {
        RestartStaysValid(w.durable, w.open);
      } else {
        StagedWorldValid(env, w, i, kind, t, staged);
        var w1 := StagedWorld(env, w, i, kind, t, staged);
        RestartStaysValid(w1.durable, w1.open);
      }
  }

  // ---------- Main results on runs ----------

  // In every run with new generated ids: ids are distinct and not blank, the active index is
  // in range, the history is within its positive limit, in memory and in the store; and the
  // only records not settled are those of publishes that died or could not be stored.
  lemma {:induction false} LedgerInvariant(env: Env, ops: seq<Op>)
    requires FreshIds(env, ops)
    ensures ValidWorld(Run(env, ops))
    decreases |ops|
  {
    if ops != [] {
      LedgerInvariant(env, ops[..|ops| - 1]);
      AfterStaysValid(env, Run(env, ops[..|ops| - 1]), ops[|ops| - 1]);
    }
  }

  // Publishing and updating move the active revision only on an Applied reply, and then to
  // the revision published.
  lemma {:induction false} ActiveMovesOnlyWhenApplied(env: Env, ops: seq<Op>, op: Op)
    requires FreshIds(env, ops) && FreshId(Run(env, ops), op) && (op.Publish? || op.Update?)
    ensures var w := Run(env, ops);
            var before, after := ActiveId(w.ledger), ActiveId(After(env, w, op).ledger);
            after != before ==> op.reply.Applied? && after == Some(if op.Publish? then op.id else op.newId)
  {
    var w := Run(env, ops);
    LedgerInvariant(env, ops);
    if op.Publish? {
      PublishMovesActive(env, w, op);
    } else if CompilePayload(env, op.config).Ok? {
      UpdatedWorldValid(env, w, op);
    }
  }

  lemma {:induction false} PublishMovesActive(env: Env, w: World, op: Op)
    requires ValidWorld(w) && op.Publish?
    ensures var after := ActiveId(After(env, w, op).ledger);
            after == ActiveId(w.ledger) || (op.reply.Applied? && after == Some(op.id))
  {
    var i := Find(w.ledger.revisions, op.id);
    if i >= 0 && Compiled(env, w.ledger.revisions[i], op.ticket.now).Ok? {
      PublishedWorldValid(env, w, i, op.kind, op.ticket, op.reply, op.stagedStored, op.settledStored);
    }
  }

  // ---------- Every record tells the truth about one publish ----------

  predicate RecordOf(record: Record, revisionId: string, kind: string, t: Ticket) {
    && record.publishId == t.publishId && record.revisionId == revisionId && record.snapshotId == t.snapshotId
    && record.kind == kind && record.requestedAt == t.now
  }

  // The record is of this call: still staged, or with what its reply was.
  predicate AccountOf(record: Record, op: Op) {
    match op
    case Publish(id, kind, t, reply, _, _) => RecordOf(record, id, kind, t) && (record.status.Staged? || Tells(record, reply))
    case Update(_, _, newId, t, reply, _, _, _) => RecordOf(record, newId, "publish", t) && (record.status.Staged? || Tells(record, reply))
    case CrashWhilePublishing(id, kind, t, _) => RecordOf(record, id, kind, t) && record.status.Staged?
    case _ => false
  }

  // Each of these records is of one of the calls.
  ghost predicate Accounts(publishes: seq<Record>, ops: seq<Op>) {
    forall record :: record in publishes ==> exists op :: op in ops && AccountOf(record, op)
  }

  ghost predicate AccountsFor(w: World, ops: seq<Op>) {
    && 0 < w.ledger.limit && Accounts(w.ledger.publishes, ops)
    && (w.durable.Some? ==> Accounts(w.durable.value.publishes, ops))
  }

  lemma {:induction false} FewerAccounts(publishes: seq<Record>, fewer: seq<Record>, ops: seq<Op>, op: Op)
    requires Accounts(publishes, ops) && forall r :: r in fewer ==> r in publishes || AccountOf(r, op)
    ensures Accounts(fewer, ops + [op])
  {
    forall record | record in fewer ensures exists o :: o in ops + [op] && AccountOf(record, o) {
      if record in publishes {
        var o :| o in ops && AccountOf(record, o);
        assert o in ops + [op];
      } else {
        assert op in ops + [op];
      }
    }
  }

  // These records are some of those there were, and perhaps one of this call.
  ghost predicate FromBefore(before: seq<Record>, after: seq<Record>, op: Op) {
    forall r :: r in after ==> r in before || AccountOf(r, op)
  }

  lemma {:induction false} SyncedFromBefore(l: Ledger, op: Op)
    requires 0 < l.limit
    ensures 0 < Synced(l).limit && FromBefore(l.publishes, Synced(l).publishes, op)
  {
    SyncedMeans(l);
  }

  lemma {:induction false} RestartFromStore(durable: Option<Stored>, op: Op)
    ensures 0 < Restarted(durable).limit
    ensures FromBefore(if durable.Some? then durable.value.publishes else [], Restarted(durable).publishes, op)
  {
    if durable.Some? {
      RestoredParts(durable.value);
    }
  }

  lemma {:induction false} KeptFromBefore(before: seq<Record>, last: Record, after: seq<Record>, limit: int, op: Op)
    requires KeepsNewest(before + [last], after, limit) && AccountOf(last, op)
    ensures FromBefore(before, after, op)
  {
    forall r | r in after ensures r in before || AccountOf(r, op) {
      assert r in before + [last];
    }
  }

  // One of the two ways in which a call publishes.
  predicate Publishes(op: Op, id: string, kind: string, t: Ticket, reply: Reply) {
    match op
    case Publish(i, k, ticket, rep, _, _) => id == i && kind == k && t == ticket && reply == rep
    case Update(_, _, newId, ticket, rep, _, _, _) => id == newId && kind == "publish" && t == ticket && reply == rep
    case _ => false
  }

  lemma {:induction false} PublishFromBefore(env: Env, l: Ledger, i: int, kind: string, t: Ticket, reply: Reply, op: Op)
    requires 0 <= i < |l.revisions| && Compiled(env, l.revisions[i], t.now).Ok? && 0 < l.limit
    requires Publishes(op, l.revisions[i].id, kind, t, reply)
    ensures var after := PublishedLedger(env, l, i, kind, t, reply);
            0 < after.limit && FromBefore(l.publishes, after.publishes, op)
  {
    var after := PublishedLedger(env, l, i, kind, t, reply);
    PublishIsRecorded(env, l, i, kind, t, reply);
    KeptFromBefore(l.publishes, after.publishes[|after.publishes| - 1], after.publishes,
                   if after.limit < l.limit then after.limit else l.limit, op);
  }

  lemma {:induction false} StagedFromBefore(l: Ledger, i: int, snapshot: Snapshot, kind: string, t: Ticket, op: Op)
    requires 0 <= i < |l.revisions| && 0 < l.limit && AccountOf(StagedRecord(l.revisions[i], kind, t), op)
    ensures FromBefore(l.publishes, StagedLedger(l, i, snapshot, kind, t).publishes, op)
  {
    StagingStages(l, i, snapshot, kind, t);
    KeptFromBefore(l.publishes, StagedRecord(l.revisions[i], kind, t), StagedLedger(l, i, snapshot, kind, t).publishes, l.limit, op);
  }

  function StoredPublishes(w: World): seq<Record> {
    if w.durable.Some? then w.durable.value.publishes else []
  }

  // A call adds no record to memory or store but its own.
  ghost predicate AddsOwn(w: World, after: World, op: Op) {
    && 0 < after.ledger.limit
    && FromBefore(w.ledger.publishes + StoredPublishes(w), after.ledger.publishes, op)
    && FromBefore(w.ledger.publishes + StoredPublishes(w), StoredPublishes(after), op)
  }

  lemma {:induction false} SaveAddsOwn(w: World, l: Ledger, ok: bool, op: Op)
    requires 0 < l.limit && FromBefore(w.ledger.publishes, l.publishes, op)
    ensures AddsOwn(w, Save(w, l, ok), op)
  {
  }

  lemma {:induction false} PublishAddsOwn(env: Env, w: World, i: int, kind: string, t: Ticket, reply: Reply, staged: bool, settled: bool, op: Op)
    requires 0 <= i < |w.ledger.revisions| && Compiled(env, w.ledger.revisions[i], t.now).Ok? && 0 < w.ledger.limit
    requires Publishes(op, w.ledger.revisions[i].id, kind, t, reply)
    ensures var after := PublishedWorld(env, w, i, kind, t, reply, staged, settled);
            && AddsOwn(w, after, op) && FromBefore(w.ledger.publishes, after.ledger.publishes, op)
  {
    PublishFromBefore(env, w.ledger, i, kind, t, reply, op);
    StagedFromBefore(w.ledger, i, Compiled(env, w.ledger.revisions[i], t.now).value, kind, t, op);
  }

  lemma {:induction false} UpdateAddsOwn(env: Env, w: World, op: Op)
    requires op.Update? && CompilePayload(env, op.config).Ok? && 0 < w.ledger.limit
    ensures AddsOwn(w, UpdatedWorld(env, w, op), op)
  {
    NewRevisionCompiles(env, op.config, op.about, op.newId, op.ticket);
    var r := NewRevision(env, op.config, op.about, op.newId, op.ticket);
    var w0 := w.(ledger := Appended(w.ledger, r));
    PublishAddsOwn(env, w0, |w.ledger.revisions|, "publish", op.ticket, op.reply, op.stagedStored, op.settledStored, op);
  }

  lemma {:induction false} CrashAddsOwn(env: Env, w: World, id: string, kind: string, t: Ticket, stored: bool, op: Op)
    requires 0 < w.ledger.limit && op == CrashWhilePublishing(id, kind, t, stored)
    ensures AddsOwn(w, Crashed(BeforeReply(env, w, id, kind, t, stored)), op)
  {
    var i, w1 := Find(w.ledger.revisions, id), BeforeReply(env, w, id, kind, t, stored);
    if i >= 0 && Compiled(env, w.ledger.revisions[i], t.now).Ok? {
      StagedFromBefore(w.ledger, i, Compiled(env, w.ledger.revisions[i], t.now).value, kind, t, op);
    }
    RestartFromStore(w1.durable, op);
  }

  lemma {:induction false} ReplaceAddsOwn(w: World, rs: seq<Revision>, activeId: string, stored: bool, op: Op)
    requires 0 < w.ledger.limit
    ensures AddsOwn(w, Save(w, Replaced(w.ledger, rs, activeId), stored), op)
  {
    SyncedFromBefore(w.ledger.(revisions := ClonedAll(rs), active := Find(ClonedAll(rs), WantedActive(w.ledger, activeId))), op);
    SaveAddsOwn(w, Replaced(w.ledger, rs, activeId), stored, op);
  }

  lemma {:induction false} UpsertAddsOwn(w: World, r: Revision, activate: bool, stored: bool, op: Op)
    requires 0 < w.ledger.limit
    ensures AddsOwn(w, Save(w, Upserted(w.ledger, r, activate), stored), op)
  {
    var l, c := w.ledger, Cloned(r);
    var at := Find(l.revisions, c.id);
    SyncedFromBefore(l.(revisions := if at >= 0 then l.revisions[at := c] else l.revisions + [c],
                        active := if activate then if at >= 0 then at else |l.revisions| else l.active), op);
    SaveAddsOwn(w, Upserted(l, r, activate), stored, op);
  }

  lemma {:induction false} AfterAddsOwn(env: Env, w: World, op: Op)
    requires 0 < w.ledger.limit
    ensures AddsOwn(w, After(env, w, op), op)
  {
    match op
    case Replace(rs, activeId, stored) => ReplaceAddsOwn(w, rs, activeId, stored, op);
    case Upsert(r, activate, stored) => UpsertAddsOwn(w, r, activate, stored, op);
    case Publish(id, kind, t, reply, staged, settled) =>
      var i := Find(w.ledger.revisions, id);
      if i >= 0 && Compiled(env, w.ledger.revisions[i], t.now).Ok? {
        PublishAddsOwn(env, w, i, kind, t, reply, staged, settled, op);
      }
    case Update(config, _, _, _, _, _, _, _) =>
      if CompilePayload(env, config).Ok? {
        UpdateAddsOwn(env, w, op);
      }
    case Policy(n) =>
    case Crash => RestartFromStore(w.durable, op);
    case CrashWhilePublishing(id, kind, t, staged) => CrashAddsOwn(env, w, id, kind, t, staged, op);
  }

  // In every run each record, in memory or in the store, is of one call of the run: with its
  // ids, its kind and its time, Observed only where the reply was Applied, and Failed only
  // with the error that the reply gave.
  lemma {:induction false} RecordsTellTheRun(env: Env, ops: seq<Op>)
    ensures AccountsFor(Run(env, ops), ops)
    decreases |ops|
  {
    if ops != [] {
      var front, op := ops[..|ops| - 1], ops[|ops| - 1];
      var w := Run(env, front);
      RecordsTellTheRun(env, front);
      AfterAddsOwn(env, w, op);
      assert Accounts(w.ledger.publishes + StoredPublishes(w), front);
      FewerAccounts(w.ledger.publishes + StoredPublishes(w), After(env, w, op).ledger.publishes, front, op);
      FewerAccounts(w.ledger.publishes + StoredPublishes(w), StoredPublishes(After(env, w, op)), front, op);
      assert ops == front + [op];
    }
  }

  // At any point of a run, a publish of a revision that compiles is put on record with what
  // came of it, and an update likewise.
  lemma {:induction false} EveryPublishIsRecorded(env: Env, ops: seq<Op>, op: Op)
    ensures var before, after := Run(env, ops).ledger, After(env, Run(env, ops), op).ledger;
            match op
            case Publish(id, kind, t, reply, _, _) =>
              id in Ids(before.revisions) && Compiled(env, before.revisions[Find(before.revisions, id)], t.now).Ok? ==>
                Recorded(before, after, before.revisions[Find(before.revisions, id)], kind, t, reply)
            case Update(config, about, newId, t, reply, _, _, _) =>
              CompilePayload(env, config).Ok? ==>
                Recorded(before, after, NewRevision(env, config, about, newId, t), "publish", t, reply)
            case _ => true
  {
    var w := Run(env, ops);
    RecordsTellTheRun(env, ops);
    match op
    case Publish(id, kind, t, reply, staged, settled) =>
      var i := Find(w.ledger.revisions, id);
      if i >= 0 && Compiled(env, w.ledger.revisions[i], t.now).Ok? {
        PublishIsRecorded(env, w.ledger, i, kind, t, reply);
      }
    case Update(config, about, newId, t, reply, _, _, _) =>
      if CompilePayload(env, config).Ok? {
        NewRevisionCompiles(env, config, about, newId, t);
        UpdateIsRecorded(env, w.ledger, NewRevision(env, config, about, newId, t), t, reply);
      }
    case _ =>
  }

  // Restarting brings back what was last saved: the same revisions in the same order, the
  // active one, each configuration in its normal form, and of the publishes the newest that
  // the active configuration's limit allows.
  lemma {:induction false} RestartBringsBackTheLastSave(l: Ledger)
    requires Valid(l)
    ensures var back := Restarted(Some(Persisted(l)));
            && Ids(back.revisions) == Ids(l.revisions) && back.active == l.active
            && (forall i :: 0 <= i < |l.revisions| ==> BroughtBack(l.revisions[i], back.revisions[i]))
            && KeepsNewest(l.publishes, back.publishes, back.limit)
            && back.limit == (if HasActive(l) && l.revisions[l.active].config.Some?
                              then IfNotPositive(l.revisions[l.active].config.value.admin.historyLimit, DEFAULT_HISTORY_LIMIT)
                              else DEFAULT_HISTORY_LIMIT)
  {
    var all := set p | p in PublishIds(l.publishes);
    assert forall i :: 0 <= i < |l.publishes| ==> PublishIds(l.publishes)[i] == l.publishes[i].publishId;
    PersistedIsValid(l, all);
    StoredIsRestorable(Persisted(l), all);
    SameIdsSameActive(l, Restored(NEW, Persisted(l)));
    RestoredParts(Persisted(l));
    MarshalledAndBack(l.revisions);
    if HasActive(l) && l.revisions[l.active].config.Some? {
      assert IfNotPositive(IfNotPositive(l.revisions[l.active].config.value.admin.historyLimit, DEFAULT_HISTORY_LIMIT), DEFAULT_HISTORY_LIMIT)
          == IfNotPositive(l.revisions[l.active].config.value.admin.historyLimit, DEFAULT_HISTORY_LIMIT);
    }
  }

  lemma {:induction false} RestoredParts(st: Stored)
    ensures var back := Restored(NEW, st);
            && back.revisions == Unmarshalled(st.revisions)
            && back.publishes == Newest(st.publishes, back.limit)
            && back.limit == (if HasActive(back) && back.revisions[back.active].config.Some?
                              then IfNotPositive(back.revisions[back.active].config.value.admin.historyLimit, DEFAULT_HISTORY_LIMIT)
                              else DEFAULT_HISTORY_LIMIT)
  {
  }

  lemma {:induction false} MarshalledAndBack(rs: seq<Revision>)
    ensures var back := Unmarshalled(Marshalled(rs));
            |back| == |rs| && forall i :: 0 <= i < |rs| && Trim(rs[i].id) == rs[i].id ==> BroughtBack(rs[i], back[i])
  {
  }

  lemma {:induction false} SameIdsSameActive(l: Ledger, back: Ledger)
    requires Valid(l) && Valid(back) && Ids(back.revisions) == Ids(l.revisions) && ActiveId(back) == ActiveId(l)
    ensures back.active == l.active
  {
    if HasActive(l) {
      assert l.revisions[back.active].id == Ids(back.revisions)[back.active];
    }
  }

  function PublishIds(publishes: seq<Record>): seq<string> {
    seq(|publishes|, i requires 0 <= i < |publishes| => publishes[i].publishId)
  }

  predicate BroughtBack(r: Revision, back: Revision) {
    && back.id == r.id && back.about == r.about && back.snapshot == r.snapshot
    && back.config == if r.config.Some? then Some(Normal(Yaml(r.config.value))) else None
  }

  // ---------- Kept snapshots are those of their configurations ----------

  predicate Coherent(env: Env, r: Revision) {
    r.snapshot.Some? && r.config.Some? ==> CompilePayload(env, r.config.value) == Ok(r.snapshot.value.payload)
  }

  // A snapshot compiled without pricing sources, kept with a configuration that has some.
  predicate LostSources(r: Revision) {
    && r.snapshot.Some? && r.config.Some?
    && r.snapshot.value.payload.sources == [] && Meaning(r.config.value).pricing.sources != []
  }

  // Strictly: coherent, and no configuration that asks for no sources. Otherwise at least
  // coherent but for having lost the choice of none.
  predicate Sound(env: Env, strict: bool, r: Revision) {
    if strict then Coherent(env, r) && (r.config.Some? ==> !EmptySourcesChosen(r.config.value))
    else Coherent(env, r) || LostSources(r)
  }

  predicate AllSound(env: Env, strict: bool, rs: seq<Revision>) {
    forall i :: 0 <= i < |rs| ==> Sound(env, strict, rs[i])
  }

  // What compileSnapshotLocked returns is what compiling the configuration afresh would give.
  lemma {:induction false} KeptSnapshotIsFresh(env: Env, r: Revision, now: int)
    requires Coherent(env, r) && r.config.Some?
    ensures Compiled(env, r, now).Ok? <==> CompilePayload(env, r.config.value).Ok?
    ensures Compiled(env, r, now).Ok? ==>
      Compiled(env, r, now).value.payload == CompilePayload(env, r.config.value).value
      && Coherent(env, r.(snapshot := Some(Compiled(env, r, now).value)))
  {
  }

  lemma {:induction false} CoherentIff(env: Env, r: Revision)
    requires Coherent(env, r) || LostSources(r)
    ensures Coherent(env, r) <==> !LostSources(r)
  {
    if Coherent(env, r) && r.snapshot.Some? && r.config.Some? {
      assert |r.snapshot.value.payload.sources| == |Meaning(r.config.value).pricing.sources|;
    }
  }

  lemma {:induction false} NoSourcesCompiled(env: Env, r: Revision)
    requires Coherent(env, r) && r.snapshot.Some? && r.config.Some? && EmptySourcesChosen(r.config.value)
    ensures r.snapshot.value.payload.sources == [] && |Meaning(Yaml(r.config.value)).pricing.sources| == 10
  {
    assert Meaning(r.config.value).pricing.sources == [];
  }

  // Through the store and back it stays so exactly when the configuration does not ask for
  // no pricing sources: the copy through YAML forgets that.
  lemma {:induction false} RestartKeepsCoherentIff(env: Env, r: Revision)
    requires Coherent(env, r) && r.config.Some? && r.snapshot.Some?
    ensures Coherent(env, Unmarshalled(Marshalled([r]))[0]) <==> !EmptySourcesChosen(r.config.value)
  {
    var c := r.config.value;
    YamlCompilesTheSameIff(env, c);
    NormalisingChangesNoSnapshot(env, Yaml(c));
  }

  lemma {:induction false} ClonedSound(env: Env, strict: bool, r: Revision)
    requires r.snapshot.None? || Sound(env, strict, r)
    ensures Sound(env, strict, Cloned(r))
  {
    if r.config.Some? {
      YamlKeepsSound(env, strict, r);
    }
  }

  lemma {:induction false} YamlKeepsSound(env: Env, strict: bool, r: Revision)
    requires r.config.Some? && (r.snapshot.None? || Sound(env, strict, r))
    ensures Sound(env, strict, r.(config := Some(Yaml(r.config.value))))
    ensures forall id :: Sound(env, strict, r.(id := id, config := Some(Yaml(r.config.value))))
  {
    var c := r.config.value;
    YamlTwice(c);
    YamlCompilesTheSameIff(env, c);
    YamlMeansTheSameIff(c);
    if !strict && r.snapshot.Some? && EmptySourcesChosen(c) {
      assert Meaning(c).pricing.sources == [];
      NoSourcesCompiled(env, r);
    }
  }

  lemma {:induction false} ReadBackSound(env: Env, strict: bool, r: Revision)
    requires Sound(env, strict, r)
    ensures Sound(env, strict, Marshalled([r])[0]) && Sound(env, strict, Unmarshalled([r])[0])
  {
    if r.config.Some? {
      YamlKeepsSound(env, strict, r);
      NormalisingChangesNoSnapshot(env, r.config.value);
      NormalMeansTheSame(r.config.value);
    }
  }

  lemma {:induction false} StoreSound(env: Env, strict: bool, rs: seq<Revision>)
    requires AllSound(env, strict, rs)
    ensures AllSound(env, strict, Marshalled(rs)) && AllSound(env, strict, Unmarshalled(rs))
  {
    forall i | 0 <= i < |rs| ensures Sound(env, strict, Marshalled(rs)[i]) && Sound(env, strict, Unmarshalled(rs)[i]) {
      ReadBackSound(env, strict, rs[i]);
    }
  }

  // What compileSnapshotLocked returns is fresh, or a kept snapshot that lost its sources.
  lemma {:induction false} KeptOrLost(env: Env, r: Revision, now: int)
    requires r.config.Some? && (Coherent(env, r) || LostSources(r))
    ensures Compiled(env, r, now).Err? ==> CompilePayload(env, r.config.value).Err?
    ensures Compiled(env, r, now).Ok? ==>
      var kept := r.(snapshot := Some(Compiled(env, r, now).value)); Coherent(env, kept) || LostSources(kept)
  {
    if r.snapshot.Some? && !NeedsRefresh(r.snapshot.value.payload) {
      assert r.(snapshot := Some(Compiled(env, r, now).value)) == r;
    }
  }

  // What callers bring in: strictly, no choice of no pricing sources either.
  predicate SoundOp(env: Env, strict: bool, op: Op) {
    match op
    case Replace(rs, _, _) => forall i :: 0 <= i < |rs| ==> rs[i].snapshot.None? || Sound(env, strict, rs[i])
    case Upsert(r, _, _) => r.snapshot.None? || Sound(env, strict, r)
    case Update(config, _, _, _, _, _, _, _) => strict ==> !EmptySourcesChosen(config)
    case _ => true
  }

  predicate SoundWorld(env: Env, strict: bool, w: World) {
    AllSound(env, strict, w.ledger.revisions) && (w.durable.Some? ==> AllSound(env, strict, w.durable.value.revisions))
  }

  lemma {:induction false} SaveStaysSound(env: Env, strict: bool, w: World, l: Ledger, ok: bool)
    requires AllSound(env, strict, l.revisions) && (w.durable.Some? ==> AllSound(env, strict, w.durable.value.revisions))
    ensures SoundWorld(env, strict, Save(w, l, ok))
  {
    StoreSound(env, strict, l.revisions);
  }

  lemma {:induction false} StagedSound(env: Env, strict: bool, rs: seq<Revision>, i: int, now: int)
    requires AllSound(env, strict, rs) && 0 <= i < |rs| && Compiled(env, rs[i], now).Ok?
    ensures AllSound(env, strict, rs[i := rs[i].(snapshot := Some(Compiled(env, rs[i], now).value))])
  {
    StagedRevisionSound(env, strict, rs[i], now);
    AllSoundWith(env, strict, rs, i, rs[i].(snapshot := Some(Compiled(env, rs[i], now).value)));
  }

  lemma {:induction false} StagedRevisionSound(env: Env, strict: bool, r: Revision, now: int)
    requires Sound(env, strict, r) && Compiled(env, r, now).Ok?
    ensures Sound(env, strict, r.(snapshot := Some(Compiled(env, r, now).value)))
  {
    if r.config.Some? {
      if strict {
        KeptSnapshotIsFresh(env, r, now);
      } else {
        KeptOrLost(env, r, now);
      }
    }
  }

  lemma {:induction false} StagedWorldSound(env: Env, strict: bool, w: World, i: int, kind: string, t: Ticket, stored: bool)
    requires SoundWorld(env, strict, w) && 0 <= i < |w.ledger.revisions| && Compiled(env, w.ledger.revisions[i], t.now).Ok?
    ensures SoundWorld(env, strict, StagedWorld(env, w, i, kind, t, stored))
  {
    var staged := StagedLedger(w.ledger, i, Compiled(env, w.ledger.revisions[i], t.now).value, kind, t);
    StagedSound(env, strict, w.ledger.revisions, i, t.now);
    SaveStaysSound(env, strict, w.(open := w.open + {t.publishId}), staged, stored);
  }

  lemma {:induction false} PublishedWorldSound(env: Env, strict: bool, w: World, i: int, kind: string, t: Ticket, reply: Reply, staged: bool, settled: bool)
    requires SoundWorld(env, strict, w) && 0 <= i < |w.ledger.revisions| && Compiled(env, w.ledger.revisions[i], t.now).Ok?
    ensures SoundWorld(env, strict, PublishedWorld(env, w, i, kind, t, reply, staged, settled))
  {
    var w1 := StagedWorld(env, w, i, kind, t, staged);
    StagedWorldSound(env, strict, w, i, kind, t, staged);
    StagedSound(env, strict, w.ledger.revisions, i, t.now);
    PublishKeepsRevisions(env, w.ledger, i, kind, t, reply);
    SaveStaysSound(env, strict, if settled then w1.(open := w.open) else w1, PublishedLedger(env, w.ledger, i, kind, t, reply), settled);
  }

  lemma {:induction false} RestartedSound(env: Env, strict: bool, durable: Option<Stored>)
    requires durable.Some? ==> AllSound(env, strict, durable.value.revisions)
    ensures AllSound(env, strict, Restarted(durable).revisions)
  {
    if durable.Some? {
      StoreSound(env, strict, durable.value.revisions);
    }
  }

  lemma {:induction false} NewRevisionSound(env: Env, strict: bool, config: Config, about: string, id: string, t: Ticket)
    requires CompilePayload(env, config).Ok? && (strict ==> !EmptySourcesChosen(config))
    ensures Sound(env, strict, NewRevision(env, config, about, id, t))
  {
  }

  lemma {:induction false} UpdatedWorldSound(env: Env, strict: bool, w: World, op: Op)
    requires SoundWorld(env, strict, w) && op.Update? && SoundOp(env, strict, op) && CompilePayload(env, op.config).Ok?
    ensures SoundWorld(env, strict, UpdatedWorld(env, w, op))
  {
    NewRevisionCompiles(env, op.config, op.about, op.newId, op.ticket);
    var r := NewRevision(env, op.config, op.about, op.newId, op.ticket);
    var w0 := w.(ledger := Appended(w.ledger, r));
    NewRevisionSound(env, strict, op.config, op.about, op.newId, op.ticket);
    AllSoundWith(env, strict, w.ledger.revisions, -1, r);
    PublishedWorldSound(env, strict, w0, |w.ledger.revisions|, "publish", op.ticket, op.reply, op.stagedStored, op.settledStored);
    var w1 := PublishedWorld(env, w0, |w.ledger.revisions|, "publish", op.ticket, op.reply, op.stagedStored, op.settledStored);
    SaveStaysSound(env, strict, w1, Updated(env, w.ledger, r, op.ticket, op.reply), op.lastStored);
  }

  lemma {:induction false} ReplaceStaysSound(env: Env, strict: bool, w: World, rs: seq<Revision>, activeId: string, stored: bool)
    requires SoundWorld(env, strict, w) && forall i :: 0 <= i < |rs| ==> rs[i].snapshot.None? || Sound(env, strict, rs[i])
    ensures SoundWorld(env, strict, Save(w, Replaced(w.ledger, rs, activeId), stored))
  {
    forall i | 0 <= i < |rs| ensures Sound(env, strict, ClonedAll(rs)[i]) {
      ClonedSound(env, strict, rs[i]);
    }
    SaveStaysSound(env, strict, w, Replaced(w.ledger, rs, activeId), stored);
  }

  lemma {:induction false} UpsertStaysSound(env: Env, strict: bool, w: World, r: Revision, activate: bool, stored: bool)
    requires SoundWorld(env, strict, w) && (r.snapshot.None? || Sound(env, strict, r))
    ensures SoundWorld(env, strict, Save(w, Upserted(w.ledger, r, activate), stored))
  {
    ClonedSound(env, strict, r);
    UpsertedRevisions(w.ledger, r, activate);
    AllSoundWith(env, strict, w.ledger.revisions, Find(w.ledger.revisions, Cloned(r).id), Cloned(r));
    SaveStaysSound(env, strict, w, Upserted(w.ledger, r, activate), stored);
  }

  function With(rs: seq<Revision>, at: int, r: Revision): seq<Revision>
    requires at < |rs|
  {
    if at >= 0 then rs[at := r] else rs + [r]
  }

  lemma {:induction false} UpsertedRevisions(l: Ledger, r: Revision, activate: bool)
    ensures Upserted(l, r, activate).revisions == With(l.revisions, Find(l.revisions, Cloned(r).id), Cloned(r))
  {
  }

  lemma {:induction false} AllSoundWith(env: Env, strict: bool, rs: seq<Revision>, at: int, r: Revision)
    requires AllSound(env, strict, rs) && Sound(env, strict, r) && at < |rs|
    ensures AllSound(env, strict, With(rs, at, r))
  {
    var with := With(rs, at, r);
    forall i | 0 <= i < |with| ensures Sound(env, strict, with[i]) {
      assert with[i] == r || (i < |rs| && with[i] == rs[i]);
    }
  }

  lemma {:induction false} CrashStaysSound(env: Env, strict: bool, w: World)
    requires SoundWorld(env, strict, w)
    ensures SoundWorld(env, strict, Crashed(w))
  {
    RestartedSound(env, strict, w.durable);
  }

  lemma {:induction false} AfterStaysSound(env: Env, strict: bool, w: World, op: Op)
    requires SoundWorld(env, strict, w) && SoundOp(env, strict, op)
    ensures SoundWorld(env, strict, After(env, w, op))
  {
    match op
    case Replace(rs, activeId, stored) => ReplaceStaysSound(env, strict, w, rs, activeId, stored);
    case Upsert(r, activate, stored) => UpsertStaysSound(env, strict, w, r, activate, stored);
    case Publish(id, kind, t, reply, staged, settled) => PublishStaysSound(env, strict, w, id, kind, t, reply, staged, settled);
    case Update(_, _, _, _, _, _, _, _) => UpdateStaysSound(env, strict, w, op);
    case Policy(n) => assert Limited(w.ledger, n).revisions == w.ledger.revisions;
    case Crash => CrashStaysSound(env, strict, w);
    case CrashWhilePublishing(id, kind, t, staged) =>
      BeforeReplySound(env, strict, w, id, kind, t, staged);
      CrashStaysSound(env, strict, BeforeReply(env, w, id, kind, t, staged));
  }

  lemma {:induction false} UpdateStaysSound(env: Env, strict: bool, w: World, op: Op)
    requires SoundWorld(env, strict, w) && op.Update? && SoundOp(env, strict, op)
    ensures SoundWorld(env, strict, After(env, w, op))
  {
    if CompilePayload(env, op.config).Ok? {
      UpdatedWorldSound(env, strict, w, op);
    }
  }

  lemma {:induction false} PublishStaysSound(env: Env, strict: bool, w: World, id: string, kind: string, t: Ticket, reply: Reply,
                                             staged: bool, settled: bool)
    requires SoundWorld(env, strict, w)
    ensures SoundWorld(env, strict, After(env, w, Publish(id, kind, t, reply, staged, settled)))
  {
    var i := Find(w.ledger.revisions, id);
    if i >= 0 && Compiled(env, w.ledger.revisions[i], t.now).Ok? {
      PublishedWorldSound(env, strict, w, i, kind, t, reply, staged, settled);
    }
  }

  lemma {:induction false} BeforeReplySound(env: Env, strict: bool, w: World, id: string, kind: string, t: Ticket, stored: bool)
    requires SoundWorld(env, strict, w)
    ensures SoundWorld(env, strict, BeforeReply(env, w, id, kind, t, stored))
  {
    var i := Find(w.ledger.revisions, id);
    if i >= 0 && Compiled(env, w.ledger.revisions[i], t.now).Ok? {
      StagedWorldSound(env, strict, w, i, kind, t, stored);
    }
  }

  lemma {:induction false} RunStaysSound(env: Env, strict: bool, ops: seq<Op>)
    requires forall k :: 0 <= k < |ops| ==> SoundOp(env, strict, ops[k])
    ensures SoundWorld(env, strict, Run(env, ops))
    decreases |ops|
  {
    if ops != [] {
      RunStaysSound(env, strict, ops[..|ops| - 1]);
      AfterStaysSound(env, strict, Run(env, ops[..|ops| - 1]), ops[|ops| - 1]);
    }
  }

  // Over every run in which a snapshot that a caller brings is that of its configuration and
  // no configuration asks for no pricing sources: publishing sends what the revision's current
  // configuration compiles to, or fails just when that does.
  lemma {:induction false} EverySnapshotIsFresh(env: Env, ops: seq<Op>, i: nat, now: int)
    requires forall k :: 0 <= k < |ops| ==> SoundOp(env, true, ops[k])
    requires i < |Run(env, ops).ledger.revisions| && Run(env, ops).ledger.revisions[i].config.Some?
    ensures var r := Run(env, ops).ledger.revisions[i];
            var afresh := CompilePayload(env, r.config.value);
            match Compiled(env, r, now)
            case Ok(snapshot) => afresh == Ok(snapshot.payload)
            case Err(_) => afresh.Err?
  {
    RunStaysSound(env, true, ops);
    KeptSnapshotIsFresh(env, Run(env, ops).ledger.revisions[i], now);
  }

  // Over every run in which a snapshot that a caller brings is that of its configuration,
  // updates with any configuration included: what publishing sends is fresh exactly when it
  // has pricing sources or its current configuration means none.
  lemma {:induction false} EverySnapshotIsFreshIff(env: Env, ops: seq<Op>, i: nat, now: int)
    requires forall k :: 0 <= k < |ops| ==> SoundOp(env, false, ops[k])
    requires i < |Run(env, ops).ledger.revisions| && Run(env, ops).ledger.revisions[i].config.Some?
    ensures var r := Run(env, ops).ledger.revisions[i];
            var c := r.config.value;
            match Compiled(env, r, now)
            case Ok(snapshot) =>
              CompilePayload(env, c) == Ok(snapshot.payload) <==> snapshot.payload.sources != [] || Meaning(c).pricing.sources == []
            case Err(_) => CompilePayload(env, c).Err?
  {
    RunStaysSound(env, false, ops);
    FreshIff(env, Run(env, ops).ledger.revisions[i], now);
  }

  lemma {:induction false} FreshIff(env: Env, r: Revision, now: int)
    requires r.config.Some? && Sound(env, false, r)
    ensures match Compiled(env, r, now)
            case Ok(snapshot) =>
              var c := r.config.value;
              CompilePayload(env, c) == Ok(snapshot.payload) <==> snapshot.payload.sources != [] || Meaning(c).pricing.sources == []
            case Err(_) => CompilePayload(env, r.config.value).Err?
  {
    KeptOrLost(env, r, now);
    if Compiled(env, r, now).Ok? {
      CoherentIff(env, r.(snapshot := Some(Compiled(env, r, now).value)));
    }
  }

  // An update that asks for no pricing sources, published and stored.
  function EmptyUpdate(c: Config, newId: string, t: Ticket): Op {
    Update(c, "", newId, t, Applied, true, true, true)
  }

  const BLANK := World(NEW, None, {})

  lemma {:induction false} TwoOps(env: Env, first: Op, second: Op)
    ensures Run(env, [first]) == After(env, BLANK, first)
    ensures Run(env, [first, second]) == After(env, After(env, BLANK, first), second)
  {
    assert [first, second][..1] == [first] && [first][..0] == [];
  }

  // One revision, kept with the snapshot of its configuration, and stored.
  predicate HoldsOne(env: Env, w: World, r: Revision, c: Config, id: string) {
    && ValidWorld(w) && w.ledger.revisions == [r] && w.durable == Some(Persisted(w.ledger))
    && r.id == id && r.config == Some(c) && r.snapshot.Some? && Coherent(env, r)
  }

  lemma {:induction false} AppliedUpdate(env: Env, w: World, op: Op)
    requires op.Update? && op.reply.Applied? && op.lastStored && CompilePayload(env, op.config).Ok?
    ensures var r := NewRevision(env, op.config, op.about, op.newId, op.ticket);
            && Compiled(env, r, op.ticket.now).Ok?
            && After(env, w, op).ledger == UpdatedOnce(env, w.ledger, r, op.ticket, Applied)
            && After(env, w, op).durable == Some(Persisted(After(env, w, op).ledger))
  {
    NewRevisionCompiles(env, op.config, op.about, op.newId, op.ticket);
  }

  lemma {:induction false} OnlyRevision(env: Env, op: Op, r: Revision)
    requires op.Update? && op.reply.Applied? && op.lastStored && CompilePayload(env, op.config).Ok?
    requires r == NewRevision(env, op.config, op.about, op.newId, op.ticket) && Compiled(env, r, op.ticket.now).Ok?
    ensures var w := After(env, BLANK, op);
            && w.ledger.revisions == [r.(snapshot := Some(Compiled(env, r, op.ticket.now).value))]
            && w.durable == Some(Persisted(w.ledger))
  {
    AppliedUpdate(env, BLANK, op);
    UpdatedNames(env, NEW, r, op.ticket, Applied);
  }

  lemma {:induction false} NewIsCoherent(env: Env, c: Config, newId: string, t: Ticket) returns (created: Revision, r: Revision)
    requires CompilePayload(env, c).Ok?
    ensures created == NewRevision(env, c, "", newId, t) && Compiled(env, created, t.now).Ok?
    ensures r == created.(snapshot := Some(Compiled(env, created, t.now).value)) && Coherent(env, r)
    ensures r.id == newId && r.config == Some(c) && r.snapshot.Some?
  {
    NewRevisionCompiles(env, c, "", newId, t);
    created := NewRevision(env, c, "", newId, t);
    r := created.(snapshot := Some(Compiled(env, created, t.now).value));
  }

  lemma {:induction false} AfterEmptyUpdate(env: Env, op: Op, c: Config, newId: string, t: Ticket) returns (r: Revision)
    requires CompilePayload(env, c).Ok? && newId != "" && Trim(newId) == newId && op == EmptyUpdate(c, newId, t)
    ensures HoldsOne(env, After(env, BLANK, op), r, c, newId)
  {
    var created;
    created, r := NewIsCoherent(env, c, newId, t);
    OnlyRevision(env, op, created);
    UpdateStaysValid(env, BLANK, op);
  }

  lemma {:induction false} UpdateStaysValid(env: Env, w: World, op: Op)
    requires ValidWorld(w) && op.Update? && FreshId(w, op)
    ensures ValidWorld(After(env, w, op))
  {
    if CompilePayload(env, op.config).Ok? {
      UpdatedWorldValid(env, w, op);
    }
  }

  // One snapshot, kept beside a configuration that compiles to another.
  predicate Stale(env: Env, l: Ledger, id: string) {
    |l.revisions| == 1 && l.revisions[0].id == id && !Coherent(env, l.revisions[0])
  }

  lemma {:induction false} CrashMakesStale(env: Env, w: World, r: Revision, c: Config, id: string)
    requires HoldsOne(env, w, r, c, id) && EmptySourcesChosen(c)
    ensures Stale(env, After(env, w, Crash).ledger, id)
  {
    RestartLosesSources(env, w, r);
    CrashRestarts(env, w);
  }

  lemma {:induction false} CrashRestarts(env: Env, w: World)
    ensures After(env, w, Crash).ledger == Restarted(w.durable)
  {
  }

  // The restart that reads such an update back keeps the snapshot without sources beside a
  // configuration with the default ones.
  lemma {:induction false} EmptySourcesAreLost(env: Env, c: Config, newId: string, t: Ticket)
    requires EmptySourcesChosen(c) && CompilePayload(env, c).Ok? && newId != "" && Trim(newId) == newId
    ensures Stale(env, Run(env, [EmptyUpdate(c, newId, t), Crash]).ledger, newId)
  {
    var update := EmptyUpdate(c, newId, t);
    var r := AfterEmptyUpdate(env, update, c, newId, t);
    CrashMakesStale(env, After(env, BLANK, update), r, c, newId);
    TwoOps(env, update, Crash);
  }

  lemma {:induction false} RestartLosesSources(env: Env, w: World, r: Revision)
    requires ValidWorld(w) && w.ledger.revisions == [r] && w.durable == Some(Persisted(w.ledger))
    requires r.config.Some? && r.snapshot.Some? && Coherent(env, r) && EmptySourcesChosen(r.config.value)
    ensures Stale(env, Restarted(w.durable), r.id)
  {
    StoredIsRestorable(w.durable.value, w.open);
    RestoredParts(w.durable.value);
    RestartKeepsCoherentIff(env, r);
  }

  // A stored snapshot without upstream ids is mended into the snapshot it was: the ids are
  // computed the same way in both places.
  lemma {:induction false} BackfillRestoresIds(env: Env, c: Config, stripped: Payload)
    requires RendersUrls(env) && CompilePayload(env, c).Ok?
    requires var payload := CompilePayload(env, c).value;
             stripped == payload.(providers := seq(|payload.providers|, i requires 0 <= i < |payload.providers| =>
                                                     payload.providers[i].(upstreamId := "")))
    ensures Backfilled(env, stripped) == CompilePayload(env, c).value
    ensures !NeedsRefresh(CompilePayload(env, c).value)
  {
    var payload := CompilePayload(env, c).value;
    CompiledProvidersHaveIds(env, Meaning(c).providers);
    assert forall i :: 0 <= i < |payload.providers| ==> Settled(env, payload.providers[i]);
    assert Backfilled(env, stripped).providers == payload.providers;
  }
}
