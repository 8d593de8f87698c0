/** The publisher: the ledger of revisions, the active one, the bounded history of publishes,
    their durable copy, and publishing to gatewayd. */
module Ledger {
  import opened Wrappers
  import opened Text
  import opened Config
  import opened Compiler

  datatype Revision = Revision(id: string, about: string, config: Option<Config>, snapshot: Option<Snapshot>)

  datatype Status = Staged | Observed | Failed

  datatype Record = Record(publishId: string, revisionId: string, snapshotId: string, kind: string,
                           requestedAt: int, status: Status, error: string)

  // active: an index, or -1. limit: how many publish records are kept.
  datatype Ledger = Ledger(revisions: seq<Revision>, active: int, publishes: seq<Record>, limit: int)

  datatype Stored = Stored(activeId: string, revisions: seq<Revision>, publishes: seq<Record>)

  // What is sent to gatewayd. The bytes are the serialised snapshot.
  datatype Request = Request(snapshotId: string, revisionId: string, bytes: Snapshot, schema: int, generatedAt: int)

  datatype Reply = NotConfigured | CallFailed(error: string) | Refused(error: string) | Applied

  datatype PublishResult = Published(snapshotId: string, revisionId: string) | NotPublished(revisionId: string, error: string)

  const NEW := Ledger([], -1, [], DEFAULT_HISTORY_LIMIT)

  // ---------- Looking up ----------

  function Ids(revisions: seq<Revision>): seq<string> {
    seq(|revisions|, i requires 0 <= i < |revisions| => revisions[i].id)
  }

  function Find(revisions: seq<Revision>, id: string): (r: int)
    ensures -1 <= r < |revisions|
    ensures r >= 0 ==> revisions[r].id == id && forall j :: 0 <= j < r ==> revisions[j].id != id
    ensures r < 0 ==> id !in Ids(revisions)
  {
    if revisions == [] then -1
    else
      var n := |revisions| - 1;
      var r := Find(revisions[..n], id);
      if r >= 0 then r else
      assert forall j :: 0 <= j < n ==> Ids(revisions[..n])[j] == revisions[j].id;
      if revisions[n].id == id then n else -1
  }

  predicate HasActive(l: Ledger) {
    0 <= l.active < |l.revisions|
  }

  // ---------- History ----------

  function Newest(publishes: seq<Record>, limit: int): seq<Record> {
    if limit <= 0 || |publishes| <= limit then publishes else publishes[|publishes| - limit..]
  }

  function Limited(l: Ledger, limit: int): Ledger {
    l.(limit := IfNotPositive(limit, DEFAULT_HISTORY_LIMIT), publishes := Newest(l.publishes, IfNotPositive(limit, DEFAULT_HISTORY_LIMIT)))
  }

  // The active revision's configuration decides how much history is kept.
  function Synced(l: Ledger): Ledger {
    if HasActive(l) && l.revisions[l.active].config.Some?
    then Limited(l, l.revisions[l.active].config.value.admin.historyLimit)
    else l
  }

  // ---------- Changing revisions ----------

  function Cloned(r: Revision): Revision {
    r.(id := Trim(r.id), config := if r.config.Some? then Some(Yaml(r.config.value)) else None)
  }

  function ClonedAll(rs: seq<Revision>): seq<Revision> {
    seq(|rs|, i requires 0 <= i < |rs| => Cloned(rs[i]))
  }

  predicate WellNamed(rs: seq<Revision>) {
    && (forall i :: 0 <= i < |rs| ==> rs[i].id != "" && Trim(rs[i].id) == rs[i].id)
    && (forall i, j :: 0 <= i < j < |rs| ==> rs[i].id != rs[j].id)
  }

  // Without an active id of its own, the call keeps the active revision by its id.
  function WantedActive(l: Ledger, activeId: string): string {
    if Trim(activeId) == "" && HasActive(l) then l.revisions[l.active].id else activeId
  }

  predicate Replaceable(l: Ledger, revisions: seq<Revision>, activeId: string) {
    && WellNamed(ClonedAll(revisions))
    && (Trim(WantedActive(l, activeId)) == "" || WantedActive(l, activeId) in Ids(ClonedAll(revisions)))
  }

  function Replaced(l: Ledger, revisions: seq<Revision>, activeId: string): Ledger {
    var rs := ClonedAll(revisions);
    Synced(l.(revisions := rs, active := Find(rs, WantedActive(l, activeId))))
  }

  function Upserted(l: Ledger, revision: Revision, activate: bool): Ledger {
    var r := Cloned(revision);
    var at := Find(l.revisions, r.id);
    if at >= 0 then Synced(l.(revisions := l.revisions[at := r], active := if activate then at else l.active))
    else Synced(l.(revisions := l.revisions + [r], active := if activate then |l.revisions| else l.active))
  }

  // ---------- The snapshot of a revision ----------

  predicate NeedsRefresh(payload: Payload) {
    exists i :: 0 <= i < |payload.providers| && Trim(payload.providers[i].upstreamId) == ""
  }

  function Backfilled(env: Env, payload: Payload): Payload {
    payload.(providers := seq(|payload.providers|, i requires 0 <= i < |payload.providers| =>
      var p := payload.providers[i];
      if Trim(p.upstreamId) == "" then p.(upstreamId := LogicalUpstreamId(env, p.providerId, p.baseUrl, p.anthropicUrl)) else p))
  }

  // The snapshot kept with the revision, recompiled or mended if a provider lacks its id.
  function Compiled(env: Env, r: Revision, now: int): Result<Snapshot> {
    if r.snapshot.Some? && !NeedsRefresh(r.snapshot.value.payload) then Ok(r.snapshot.value)
    else if r.config.None? then
      if r.snapshot.Some? then Ok(r.snapshot.value.(payload := Backfilled(env, r.snapshot.value.payload)))
      else Err("no config payload")
    else match CompilePayload(env, r.config.value)
      case Err(e) => Err(e)
      case Ok(payload) => Ok(Snapshot(Meta("", "", CURRENT_SCHEMA, now), payload))
  }

  // The provider with its upstream id, filled in where it was blank.
  predicate Mended(env: Env, p: ProviderSnapshot, was: ProviderSnapshot) {
    && p == was.(upstreamId := p.upstreamId)
    && p.upstreamId == if Trim(was.upstreamId) != "" then was.upstreamId
                       else LogicalUpstreamId(env, was.providerId, was.baseUrl, was.anthropicUrl)
  }

  // All ids filled in, and nothing else changed.
  ghost predicate AllMended(env: Env, after: Payload, before: Payload) {
    && after == before.(providers := after.providers) && |after.providers| == |before.providers|
    && forall i :: 0 <= i < |after.providers| ==> Mended(env, after.providers[i], before.providers[i])
  }

  lemma {:induction false} BackfillMends(env: Env, payload: Payload)
    ensures AllMended(env, Backfilled(env, payload), payload)
  {
  }

  lemma {:induction false} RefreshIff(payload: Payload)
    ensures !NeedsRefresh(payload) <==> forall p :: p in payload.providers ==> Trim(p.upstreamId) != ""
  {
    var ps := payload.providers;
    assert forall p :: p in ps <==> exists i :: 0 <= i < |ps| && ps[i] == p;
  }

  // A kept snapshot with all its ids is sent as it is; one that lacks any is compiled anew from
  // the configuration, as is a missing one; and without a configuration its ids are filled in.
  lemma {:induction false} CompiledMeans(env: Env, r: Revision, now: int)
    ensures var result := Compiled(env, r, now);
            if r.snapshot.Some? && forall p :: p in r.snapshot.value.payload.providers ==> Trim(p.upstreamId) != "" then
              result == Ok(r.snapshot.value)
            else if r.config.Some? then
              match CompilePayload(env, r.config.value)
              case Err(e) => result == Err(e)
              case Ok(payload) => result == Ok(Snapshot(Meta("", "", 1, now), payload))
            else if r.snapshot.None? then result.Err?
            else result.Ok? && result.value.meta == r.snapshot.value.meta && AllMended(env, result.value.payload, r.snapshot.value.payload)
  {
    if r.snapshot.Some? {
      RefreshIff(r.snapshot.value.payload);
      BackfillMends(env, r.snapshot.value.payload);
    }
  }

  // ---------- Publishing ----------

  // The identifiers and the time of one publish.
  datatype Ticket = Ticket(snapshotId: string, publishId: string, now: int)

  function RequestFor(r: Revision, snapshot: Snapshot, t: Ticket): Request {
    var schema := if snapshot.meta.schema == 0 then CURRENT_SCHEMA else snapshot.meta.schema;
    var at := if snapshot.meta.generatedAt == 0 then t.now else snapshot.meta.generatedAt;
    Request(t.snapshotId, r.id, Snapshot(Meta(t.snapshotId, r.id, schema, at), snapshot.payload), schema, at)
  }

  function StagedRecord(r: Revision, kind: string, t: Ticket): Record {
    Record(t.publishId, r.id, t.snapshotId, kind, t.now, Staged, "")
  }

  // The ledger with the publish staged and the snapshot kept.
  function StagedLedger(l: Ledger, i: int, snapshot: Snapshot, kind: string, t: Ticket): Ledger
    requires 0 <= i < |l.revisions|
  {
    var r := l.revisions[i];
    l.(revisions := l.revisions[i := r.(snapshot := Some(snapshot))],
       publishes := Newest(l.publishes + [StagedRecord(r, kind, t)], l.limit))
  }

  function WithLast(publishes: seq<Record>, status: Status, error: string): seq<Record>
    requires publishes != []
  {
    var n := |publishes| - 1;
    publishes[n := publishes[n].(status := status, error := error)]
  }

  // What the reply makes of a staged publish of revision i.
  function SettledLedger(l: Ledger, i: int, reply: Reply): Ledger
    requires l.publishes != []
  {
    match reply
    case Applied => Synced(l.(publishes := WithLast(l.publishes, Observed, ""), active := i))
    case NotConfigured => l.(publishes := WithLast(l.publishes, Failed, "gateway not configured"))
    case CallFailed(e) => l.(publishes := WithLast(l.publishes, Failed, e))
    case Refused(e) => l.(publishes := WithLast(l.publishes, Failed, e))
  }

  // A whole publish of revision i, whose snapshot compiles.
  function PublishedLedger(env: Env, l: Ledger, i: int, kind: string, t: Ticket, reply: Reply): Ledger
    requires 0 <= i < |l.revisions| && Compiled(env, l.revisions[i], t.now).Ok?
  {
    SettledLedger(StagedLedger(l, i, Compiled(env, l.revisions[i], t.now).value, kind, t), i, reply)
  }

  lemma {:induction false} PublishKeepsRevisions(env: Env, l: Ledger, i: int, kind: string, t: Ticket, reply: Reply)
    requires 0 <= i < |l.revisions| && Compiled(env, l.revisions[i], t.now).Ok?
    ensures var after := PublishedLedger(env, l, i, kind, t, reply);
            && after.revisions == l.revisions[i := l.revisions[i].(snapshot := Some(Compiled(env, l.revisions[i], t.now).value))]
            && after.active == if reply.Applied? then i else l.active
  {
    SettlingKeepsRevisions(StagedLedger(l, i, Compiled(env, l.revisions[i], t.now).value, kind, t), i, reply);
  }

  lemma {:induction false} SettlingKeepsRevisions(l: Ledger, i: int, reply: Reply)
    requires l.publishes != []
    ensures var after := SettledLedger(l, i, reply);
            after.revisions == l.revisions && after.active == if reply.Applied? then i else l.active
  {
  }

  // ---------- What a publish records ----------

  // The newest of these records, as many as the limit allows.
  predicate KeepsNewest(before: seq<Record>, after: seq<Record>, limit: int) {
    |after| == (if |before| < limit then |before| else limit) && after == before[|before| - |after|..]
  }

  // The active revision's own limit, if it has a configuration, bounds the history.
  predicate SyncedFrom(l: Ledger, s: Ledger) {
    && s.revisions == l.revisions && s.active == l.active && 0 < s.limit
    && (if HasActive(l) && l.revisions[l.active].config.Some? then
          var limit := l.revisions[l.active].config.value.admin.historyLimit;
          s.limit == (if limit > 0 then limit else 256) && KeepsNewest(l.publishes, s.publishes, s.limit)
        else s == l)
  }

  lemma {:induction false} SyncedMeans(l: Ledger)
    requires 0 < l.limit
    ensures SyncedFrom(l, Synced(l))
    ensures |l.publishes| <= l.limit ==> KeepsNewest(l.publishes, Synced(l).publishes, Synced(l).limit)
  {
  }

  // The caller learns of success exactly from an Applied reply.
  predicate Answers(result: Result<PublishResult>, reply: Reply, id: string, t: Ticket) {
    match reply
    case Applied => result == Ok(Published(t.snapshotId, id))
    case NotConfigured => result == Err("gateway not configured")
    case CallFailed(e) => result == Ok(NotPublished(id, e))
    case Refused(e) => result == Ok(NotPublished(id, e))
  }

  // A request carries the snapshot under the ids of this publish, labelled alike inside and
  // out, and with a schema and a time even where the snapshot has none.
  predicate Carries(request: Request, snapshot: Snapshot, id: string, t: Ticket) {
    && request.bytes.payload == snapshot.payload
    && request.snapshotId == request.bytes.meta.snapshotId == t.snapshotId
    && request.revisionId == request.bytes.meta.revisionId == id
    && request.schema == request.bytes.meta.schema == (if snapshot.meta.schema == 0 then CURRENT_SCHEMA else snapshot.meta.schema)
    && request.generatedAt == request.bytes.meta.generatedAt
         == (if snapshot.meta.generatedAt == 0 then t.now else snapshot.meta.generatedAt)
  }

  // What came of the publish: observed exactly when the reply was Applied, and otherwise
  // failed with the error that stopped it.
  predicate Tells(record: Record, reply: Reply) {
    if reply.Applied? then record.status == Observed && record.error == ""
    else record.status == Failed && record.error == if reply.NotConfigured? then "gateway not configured" else reply.error
  }

  // The limit in force once the reply is in: that of the revision if it became active.
  function LimitAfter(l: Ledger, r: Revision, reply: Reply): int {
    if !reply.Applied? || r.config.None? then l.limit
    else if r.config.value.admin.historyLimit > 0 then r.config.value.admin.historyLimit
    else 256
  }

  // One publish more on record, made of this revision at this time, with what came of it; the
  // records before it are as they were, but for the oldest ones that no longer fit.
  ghost predicate Recorded(before: Ledger, after: Ledger, r: Revision, kind: string, t: Ticket, reply: Reply) {
    && after.limit == LimitAfter(before, r, reply) && after.publishes != []
    && var last := after.publishes[|after.publishes| - 1];
    && KeepsNewest(before.publishes + [last], after.publishes, if after.limit < before.limit then after.limit else before.limit)
    && last.publishId == t.publishId && last.revisionId == r.id && last.snapshotId == t.snapshotId
    && last.kind == kind && last.requestedAt == t.now && Tells(last, reply)
  }

  // Staging adds the record of this publish.
  ghost predicate Stages(l: Ledger, staged: Ledger, r: Revision, kind: string, t: Ticket) {
    && 0 < l.limit == staged.limit && staged.publishes != []
    && KeepsNewest(l.publishes + [StagedRecord(r, kind, t)], staged.publishes, l.limit)
    && staged.publishes[|staged.publishes| - 1] == StagedRecord(r, kind, t)
  }

  // Settling writes the reply into the last record.
  ghost predicate Settles(l: Ledger, after: Ledger, r: Revision, reply: Reply, last: Record) {
    && l.publishes != [] && 0 < after.limit == LimitAfter(l, r, reply)
    && KeepsNewest(l.publishes[|l.publishes| - 1 := last], after.publishes, after.limit)
    && last == l.publishes[|l.publishes| - 1].(status := last.status, error := last.error) && Tells(last, reply)
  }

  lemma {:induction false} StagingStages(l: Ledger, i: int, snapshot: Snapshot, kind: string, t: Ticket)
    requires 0 <= i < |l.revisions| && 0 < l.limit
    ensures Stages(l, StagedLedger(l, i, snapshot, kind, t), l.revisions[i], kind, t)
  {
  }

  lemma {:induction false} SyncedSettles(l: Ledger, settled: Ledger, after: Ledger, i: int, r: Revision, last: Record)
    requires l.publishes != [] && 0 < l.limit && |l.publishes| <= l.limit
    requires 0 <= i < |l.revisions| && r.config == l.revisions[i].config
    requires last == l.publishes[|l.publishes| - 1].(status := Observed, error := "")
    requires settled == l.(publishes := l.publishes[|l.publishes| - 1 := last], active := i) && SyncedFrom(settled, after)
    ensures Settles(l, after, r, Applied, last)
  {
  }

  lemma {:induction false} AppliedSettles(l: Ledger, i: int, r: Revision) returns (last: Record)
    requires l.publishes != [] && 0 < l.limit && |l.publishes| <= l.limit
    requires 0 <= i < |l.revisions| && r.config == l.revisions[i].config
    ensures Settles(l, SettledLedger(l, i, Applied), r, Applied, last)
  {
    last := l.publishes[|l.publishes| - 1].(status := Observed, error := "");
    var settled := l.(publishes := l.publishes[|l.publishes| - 1 := last], active := i);
    SyncedMeans(settled);
    SyncedSettles(l, settled, Synced(settled), i, r, last);
  }

  lemma {:induction false} FailedSettles(l: Ledger, after: Ledger, r: Revision, reply: Reply, error: string) returns (last: Record)
    requires l.publishes != [] && 0 < l.limit && |l.publishes| <= l.limit && !reply.Applied?
    requires error == if reply.NotConfigured? then "gateway not configured" else reply.error
    requires after == l.(publishes := WithLast(l.publishes, Failed, error))
    ensures Settles(l, after, r, reply, last)
  {
    last := l.publishes[|l.publishes| - 1].(status := Failed, error := error);
  }

  lemma {:induction false} SettlingSettles(l: Ledger, i: int, r: Revision, reply: Reply) returns (last: Record)
    requires l.publishes != [] && 0 < l.limit && |l.publishes| <= l.limit
    requires 0 <= i < |l.revisions| && r.config == l.revisions[i].config
    ensures Settles(l, SettledLedger(l, i, reply), r, reply, last)
  {
    match reply
    case Applied => last := AppliedSettles(l, i, r);
    case NotConfigured => last := FailedSettles(l, SettledLedger(l, i, reply), r, reply, "gateway not configured");
    case CallFailed(e) => last := FailedSettles(l, SettledLedger(l, i, reply), r, reply, e);
    case Refused(e) => last := FailedSettles(l, SettledLedger(l, i, reply), r, reply, e);
  }

  lemma {:induction false} StagedThenSettled(before: Ledger, staged: Ledger, after: Ledger, r: Revision, kind: string, t: Ticket, reply: Reply, last: Record)
    requires Stages(before, staged, r, kind, t) && Settles(staged, after, r, reply, last)
    ensures Recorded(before, after, r, kind, t, reply)
  {
    KeptThenKept(before.publishes, StagedRecord(r, kind, t), last, staged.publishes, before.limit, after.publishes, after.limit);
  }

  lemma {:induction false} KeptThenKept(before: seq<Record>, record: Record, last: Record, kept: seq<Record>, m: int, after: seq<Record>, n: int)
    requires 0 < m && 0 < n && kept != []
    requires KeepsNewest(before + [record], kept, m) && KeepsNewest(kept[|kept| - 1 := last], after, n)
    ensures KeepsNewest(before + [last], after, if n < m then n else m) && after != [] && after[|after| - 1] == last
  {
    LastReplaced(before, record, last, kept, m);
    NewestTwice(before + [last], kept[|kept| - 1 := last], after, m, n);
  }

  lemma {:induction false} PublishIsRecorded(env: Env, l: Ledger, i: int, kind: string, t: Ticket, reply: Reply)
    requires 0 <= i < |l.revisions| && Compiled(env, l.revisions[i], t.now).Ok? && 0 < l.limit
    ensures Recorded(l, PublishedLedger(env, l, i, kind, t, reply), l.revisions[i], kind, t, reply)
  {
    SettledIsRecorded(l, i, Compiled(env, l.revisions[i], t.now).value, kind, t, reply);
  }

  lemma {:induction false} SettledIsRecorded(l: Ledger, i: int, snapshot: Snapshot, kind: string, t: Ticket, reply: Reply)
    requires 0 <= i < |l.revisions| && 0 < l.limit
    ensures Recorded(l, SettledLedger(StagedLedger(l, i, snapshot, kind, t), i, reply), l.revisions[i], kind, t, reply)
  {
    var staged := StagedLedger(l, i, snapshot, kind, t);
    StagingStages(l, i, snapshot, kind, t);
    var last := SettlingSettles(staged, i, l.revisions[i], reply);
    StagedThenSettled(l, staged, SettledLedger(staged, i, reply), l.revisions[i], kind, t, reply, last);
  }

  lemma {:induction false} LastReplaced(before: seq<Record>, record: Record, last: Record, kept: seq<Record>, limit: int)
    requires 0 < limit && KeepsNewest(before + [record], kept, limit)
    ensures kept != [] && KeepsNewest(before + [last], kept[|kept| - 1 := last], limit)
  {
  }

  lemma {:induction false} NewestTwice(all: seq<Record>, some: seq<Record>, fewer: seq<Record>, m: int, n: int)
    requires 0 < m && 0 < n && KeepsNewest(all, some, m) && KeepsNewest(some, fewer, n)
    ensures KeepsNewest(all, fewer, if n < m then n else m)
  {
  }

  // ---------- The invariant of the ledger ----------

  predicate Valid(l: Ledger) {
    && WellNamed(l.revisions)
    && -1 <= l.active < |l.revisions|
    && 0 < l.limit && |l.publishes| <= l.limit
  }

  // The revision id that is active, if any.
  function ActiveId(l: Ledger): Option<string> {
    if HasActive(l) then Some(l.revisions[l.active].id) else None
  }

  lemma {:induction false} SyncedStaysValid(l: Ledger)
    requires WellNamed(l.revisions) && -1 <= l.active < |l.revisions| && 0 < l.limit
    requires |l.publishes| <= l.limit || (HasActive(l) && l.revisions[l.active].config.Some?)
    ensures Valid(Synced(l)) && Synced(l).revisions == l.revisions && Synced(l).active == l.active
  {
  }

  // A replacement activates the revision asked for, or without one keeps the active id.
  lemma {:induction false} ReplacedStaysValid(l: Ledger, revisions: seq<Revision>, activeId: string)
    requires Valid(l) && Replaceable(l, revisions, activeId)
    ensures Valid(Replaced(l, revisions, activeId))
    ensures ActiveId(Replaced(l, revisions, activeId)) == if Trim(activeId) != "" then Some(activeId) else ActiveId(l)
  {
    var rs, wanted := ClonedAll(revisions), WantedActive(l, activeId);
    SyncedStaysValid(l.(revisions := rs, active := Find(rs, wanted)));
    FindInIds(rs, wanted);
    if wanted in Ids(rs) {
      NamedIsNotBlank(rs, wanted);
    }
  }

  lemma {:induction false} NamedIsNotBlank(rs: seq<Revision>, id: string)
    requires WellNamed(rs) && id in Ids(rs)
    ensures Trim(id) == id != ""
  {
    var i :| 0 <= i < |rs| && Ids(rs)[i] == id;
    assert rs[i].id == id;
  }

  // Putting a revision in the place of its id, or at the end, keeps the names.
  lemma {:induction false} PutStaysNamed(before: seq<Revision>, r: Revision, at: int, rs: seq<Revision>)
    requires WellNamed(before) && r.id != "" && Trim(r.id) == r.id && at == Find(before, r.id)
    requires rs == if at >= 0 then before[at := r] else before + [r]
    ensures WellNamed(rs) && |before| <= |rs| && forall k :: 0 <= k < |before| ==> rs[k].id == before[k].id
  {
    if at >= 0 {
      assert forall k :: 0 <= k < |before| ==> rs[k].id == before[k].id;
    } else {
      StillWellNamed(before, r);
    }
  }

  lemma {:induction false} UpsertedStaysValid(l: Ledger, revision: Revision, activate: bool)
    requires Valid(l) && Trim(revision.id) != ""
    ensures Valid(Upserted(l, revision, activate))
    ensures ActiveId(Upserted(l, revision, activate)) == if activate then Some(Trim(revision.id)) else ActiveId(l)
  {
    var r := Cloned(revision);
    var at := Find(l.revisions, r.id);
    TrimLowerStable(revision.id);
    var rs := if at >= 0 then l.revisions[at := r] else l.revisions + [r];
    PutStaysNamed(l.revisions, r, at, rs);
    SyncedStaysValid(l.(revisions := rs, active := if activate then if at >= 0 then at else |l.revisions| else l.active));
  }

  // A copy of a revision: its id trimmed and its configuration as YAML gives it back.
  predicate IsCopy(r: Revision, of: Revision) {
    && r.id == Trim(of.id) && r.about == of.about && r.snapshot == of.snapshot
    && r.config == match of.config case None => None case Some(c) => Some(Yaml(c))
  }

  // These revisions with a copy of one more in the place of the one with its id, or at the end.
  ghost predicate HasCopy(before: seq<Revision>, rs: seq<Revision>, of: Revision) {
    && |rs| == |before| + (if Trim(of.id) in Ids(before) then 0 else 1)
    && forall k :: 0 <= k < |rs| ==>
         if k < |before| && before[k].id != Trim(of.id) then rs[k] == before[k] else IsCopy(rs[k], of)
  }

  lemma {:induction false} UpsertedMeans(l: Ledger, revision: Revision, activate: bool)
    requires Valid(l) && Trim(revision.id) != ""
    ensures HasCopy(l.revisions, Upserted(l, revision, activate).revisions, revision)
    ensures var after := Upserted(l, revision, activate); KeepsNewest(l.publishes, after.publishes, after.limit)
  {
    var r, at := Cloned(revision), Find(l.revisions, Trim(revision.id));
    CopyPut(l.revisions, r, revision, at);
    var next := if at >= 0 then l.revisions[at := r] else l.revisions + [r];
    SyncedOver(l, next, if activate then if at >= 0 then at else |l.revisions| else l.active);
  }

  lemma {:induction false} SyncedOver(l: Ledger, revisions: seq<Revision>, active: int)
    requires Valid(l)
    ensures var after := Synced(l.(revisions := revisions, active := active));
            after.revisions == revisions && KeepsNewest(l.publishes, after.publishes, after.limit)
  {
    SyncedMeans(l.(revisions := revisions, active := active));
  }

  lemma {:induction false} CopyPut(before: seq<Revision>, r: Revision, of: Revision, at: int)
    requires WellNamed(before) && IsCopy(r, of) && at == Find(before, r.id)
    ensures HasCopy(before, if at >= 0 then before[at := r] else before + [r], of)
  {
    FindInIds(before, r.id);
    assert forall k :: 0 <= k < |before| ==> Ids(before)[k] == before[k].id;
  }

  // A replacement holds copies of exactly the revisions given, in order.
  lemma {:induction false} ReplacedMeans(l: Ledger, revisions: seq<Revision>, activeId: string)
    requires Valid(l) && Replaceable(l, revisions, activeId)
    ensures var rs := Replaced(l, revisions, activeId).revisions;
            |rs| == |revisions| && forall k :: 0 <= k < |rs| ==> IsCopy(rs[k], revisions[k])
    ensures var after := Replaced(l, revisions, activeId); KeepsNewest(l.publishes, after.publishes, after.limit)
  {
    var rs := ClonedAll(revisions);
    SyncedOver(l, rs, Find(rs, WantedActive(l, activeId)));
  }

  lemma {:induction false} StagedStaysValid(l: Ledger, i: int, snapshot: Snapshot, kind: string, t: Ticket)
    requires Valid(l) && 0 <= i < |l.revisions|
    ensures var s := StagedLedger(l, i, snapshot, kind, t);
            && Valid(s) && s.publishes != [] && s.publishes[|s.publishes| - 1] == StagedRecord(l.revisions[i], kind, t)
            && Ids(s.revisions) == Ids(l.revisions) && s.active == l.active
  {
  }

  lemma {:induction false} SettledStaysValid(l: Ledger, i: int, reply: Reply)
    requires Valid(l) && l.publishes != [] && 0 <= i < |l.revisions|
    ensures Valid(SettledLedger(l, i, reply)) && SettledLedger(l, i, reply).revisions == l.revisions
    ensures SettledLedger(l, i, reply).active == if reply.Applied? then i else l.active
  {
    SyncedStaysValid(l.(publishes := WithLast(l.publishes, Observed, ""), active := i));
  }

  // ---------- The object ----------

  function Persisted(l: Ledger): Stored {
    Stored(if HasActive(l) then l.revisions[l.active].id else "", Marshalled(l.revisions), l.publishes)
  }

  // Configurations are stored as YAML text; so a revision stored is its copy through YAML.
  function Marshalled(rs: seq<Revision>): seq<Revision> {
    seq(|rs|, i requires 0 <= i < |rs| => rs[i].(config := if rs[i].config.Some? then Some(Yaml(rs[i].config.value)) else None))
  }

  function Unmarshalled(rs: seq<Revision>): seq<Revision> {
    seq(|rs|, i requires 0 <= i < |rs| =>
      rs[i].(id := Trim(rs[i].id), config := if rs[i].config.Some? then Some(Normal(rs[i].config.value)) else None))
  }

  predicate Restorable(st: Stored) {
    var rs := Unmarshalled(st.revisions);
    WellNamed(rs) && (Trim(st.activeId) == "" || Trim(st.activeId) in Ids(rs))
  }

  function Restored(l: Ledger, st: Stored): Ledger {
    var rs := Unmarshalled(st.revisions);
    var synced := Synced(l.(revisions := rs, active := Find(rs, Trim(st.activeId)), publishes := []));
    synced.(publishes := Newest(st.publishes, synced.limit))
  }

  // How a state-changing call ends: refused with nothing changed, changed but not stored, or
  // done.
  datatype Outcome = Rejected | Unsaved | Done

  class Publisher {
    var revisions: seq<Revision>
    var activeIdx: int
    var publishes: seq<Record>
    var limit: int
    var durable: Option<Stored>
    var saves: nat
    const env: Env
    const saved: nat -> bool     // which of the saves succeed

    function State(): Ledger
      reads this
    {
      Ledger(revisions, activeIdx, publishes, limit)
    }

    constructor (env: Env, saved: nat -> bool, durable: Option<Stored>)
      ensures State() == NEW && this.durable == durable && saves == 0 && this.env == env && this.saved == saved
    {
      revisions, activeIdx, publishes, limit := [], -1, [], DEFAULT_HISTORY_LIMIT;
      this.durable, saves, this.env, this.saved := durable, 0, env, saved;
    }

    method FindRevision(id: string) returns (r: int)
      ensures r == Find(revisions, id)
    {
      for i := 0 to |revisions|
        invariant Find(revisions[..i], id) == -1
      {
        assert revisions[..i + 1][..i] == revisions[..i];
        if revisions[i].id == id {
          FoundFirst(revisions, id, i);
          return i;
        }
      }
      assert revisions[..|revisions|] == revisions;
      return -1;
    }

    method PersistState() returns (ok: bool)
      modifies `durable, `saves
      ensures ok == saved(old(saves)) && saves == old(saves) + 1
      ensures durable == if ok then Some(Persisted(State())) else old(durable)
    {
      ok := saved(saves);
      saves := saves + 1;
      if ok {
        durable := Some(Persisted(State()));
      }
    }

    method TrimPublishes()
      modifies `publishes
      ensures publishes == Newest(old(publishes), limit)
    {
      if limit <= 0 || |publishes| <= limit {
        return;
      }
      publishes := publishes[|publishes| - limit..];
    }

    method SetPolicy(historyLimit: int)
      modifies `limit, `publishes
      ensures State() == Limited(old(State()), historyLimit)
      ensures limit == if historyLimit > 0 then historyLimit else 256
      ensures KeepsNewest(old(publishes), publishes, limit)
    {
      limit := IfNotPositive(historyLimit, DEFAULT_HISTORY_LIMIT);
      TrimPublishes();
    }

    method SyncPolicyFromActiveRevision()
      modifies `limit, `publishes
      ensures State() == Synced(old(State()))
    {
      if activeIdx < 0 || activeIdx >= |revisions| {
        return;
      }
      if revisions[activeIdx].config.None? {
        return;
      }
      SetPolicy(revisions[activeIdx].config.value.admin.historyLimit);
    }

    // Takes the revisions over one by one, refusing a blank or repeated id.
    method TakeOver(prepared: seq<Revision>, wanted: string) returns (taken: seq<Revision>, active: int, ok: bool)
      requires forall i :: 0 <= i < |prepared| ==> Trim(prepared[i].id) == prepared[i].id
      ensures ok <==> WellNamed(prepared)
      ensures ok ==> taken == prepared && active == Find(prepared, wanted)
    {
      taken, active, ok := [], -1, true;
      var seen: set<string> := {};
      for i := 0 to |prepared|
        invariant taken == prepared[..i] && TakenSoFar(taken, active, seen, wanted)
      {
        var r := prepared[i];
        if r.id == "" || r.id in seen {
          NotWellNamed(prepared, i);
          return taken, active, false;
        }
        OneMoreTaken(taken, active, seen, wanted, r);
        assert prepared[..i + 1] == prepared[..i] + [r];
        seen := seen + {r.id};
        taken := taken + [r];
        if r.id == wanted {
          active := i;
        }
      }
    }

    method ReplaceRevisions(supplied: seq<Revision>, activeId: string) returns (outcome: Outcome)
      modifies `revisions, `activeIdx, `publishes, `limit, `durable, `saves
      ensures outcome == Rejected <==> !Replaceable(old(State()), supplied, activeId)
      ensures outcome == Rejected ==> State() == old(State()) && durable == old(durable)
      ensures outcome != Rejected ==> State() == Replaced(old(State()), supplied, activeId)
      ensures outcome == Done ==> durable == Some(Persisted(State()))
      ensures outcome == Unsaved ==> durable == old(durable)
    {
      var wanted := activeId;
      if Trim(activeId) == "" && 0 <= activeIdx < |revisions| {
        wanted := revisions[activeIdx].id;
      }
      ClonedIdsTrimmed(supplied);
      var cloned, active, ok := TakeOver(ClonedAll(supplied), wanted);
      if !ok || (Trim(wanted) != "" && active == -1) {
        return Rejected;
      }
      FindInIds(cloned, wanted);
      revisions, activeIdx := cloned, active;
      SyncPolicyFromActiveRevision();
      var stored := PersistState();
      outcome := if stored then Done else Unsaved;
    }

    // Restores the ledger from the store, if it holds one.
    method LoadState() returns (loaded: bool, ok: bool)
      modifies `revisions, `activeIdx, `publishes, `limit
      ensures ok <==> durable.None? || Restorable(durable.value)
      ensures loaded <==> durable.Some? && Restorable(durable.value)
      ensures State() == if loaded then Restored(old(State()), durable.value) else old(State())
    {
      if durable.None? {
        return false, true;
      }
      var st := durable.value;
      UnmarshalledIdsTrimmed(st.revisions);
      var taken, active, named := TakeOver(Unmarshalled(st.revisions), Trim(st.activeId));
      if !named || (Trim(st.activeId) != "" && active == -1) {
        FindInIds(Unmarshalled(st.revisions), Trim(st.activeId));
        return false, false;
      }
      FindInIds(taken, Trim(st.activeId));
      revisions, activeIdx, publishes := taken, active, [];
      SyncPolicyFromActiveRevision();
      publishes := st.publishes;
      TrimPublishes();
      return true, true;
    }

    method UpsertRevision(revision: Revision, activate: bool) returns (outcome: Outcome)
      modifies `revisions, `activeIdx, `publishes, `limit, `durable, `saves
      ensures outcome == Rejected <==> Trim(revision.id) == ""
      ensures outcome == Rejected ==> State() == old(State()) && durable == old(durable)
      ensures outcome != Rejected ==> State() == Upserted(old(State()), revision, activate)
      ensures outcome == Done ==> durable == Some(Persisted(State()))
      ensures outcome == Unsaved ==> durable == old(durable)
    {
      if Trim(revision.id) == "" {
        return Rejected;
      }
      var cloned := Cloned(revision);
      var at := FindRevision(cloned.id);
      if at >= 0 {
        revisions := revisions[at := cloned];
        if activate {
          activeIdx := at;
        }
      } else {
        revisions := revisions + [cloned];
        if activate {
          activeIdx := |revisions| - 1;
        }
      }
      SyncPolicyFromActiveRevision();
      var stored := PersistState();
      outcome := if stored then Done else Unsaved;
    }

    method CompileSnapshot(i: int, now: int) returns (r: Result<Snapshot>)
      requires 0 <= i < |revisions|
      modifies `revisions
      ensures r == Compiled(env, old(revisions)[i], now)
      ensures revisions == if r.Ok? then old(revisions)[i := old(revisions)[i].(snapshot := Some(r.value))] else old(revisions)
    {
      var rev := revisions[i];
      if rev.snapshot.Some? && !NeedsRefresh(rev.snapshot.value.payload) {
        assert revisions == revisions[i := rev.(snapshot := Some(rev.snapshot.value))];
        return Ok(rev.snapshot.value);
      }
      if rev.config.None? {
        if rev.snapshot.None? {
          return Err("no config payload");
        }
        r := Ok(rev.snapshot.value.(payload := Backfilled(env, rev.snapshot.value.payload)));
      } else {
        r := CompileFromConfig(env, rev.config.value, "", now);
        if r.Err? {
          return;
        }
      }
      revisions := revisions[i := rev.(snapshot := Some(r.value))];
    }

    method StagePublish(i: int, kind: string, t: Ticket) returns (request: Result<Request>)
      requires 0 <= i < |revisions| && 0 < limit
      modifies `revisions, `publishes, `durable, `saves
      ensures var compiled := Compiled(env, old(revisions)[i], t.now);
        && (compiled.Err? ==> request == Err(compiled.error) && State() == old(State()) && durable == old(durable) && saves == old(saves))
        && (compiled.Ok? ==>
              && request == Ok(RequestFor(old(revisions)[i], compiled.value, t))
              && State() == StagedLedger(old(State()), i, compiled.value, kind, t)
              && saves == old(saves) + 1
              && durable == if saved(old(saves)) then Some(Persisted(State())) else old(durable))
    {
      ghost var before := State();
      var compiled := CompileSnapshot(i, t.now);
      if compiled.Err? {
        return Err(compiled.error);
      }
      assert saves == old(saves) && durable == old(durable);
      StagedTwice(before, i, compiled.value, kind, t);
      RequestUsesId(before.revisions[i], revisions[i], compiled.value, t);
      request := StageCompiled(i, compiled.value, kind, t);
      assert State() == StagedLedger(before, i, compiled.value, kind, t);
    }

    // The record of a publish whose snapshot is kept already, and its request.
    method StageCompiled(i: int, snapshot: Snapshot, kind: string, t: Ticket) returns (request: Result<Request>)
      requires 0 <= i < |revisions|
      modifies `publishes, `durable, `saves
      ensures request == Ok(RequestFor(revisions[i], snapshot, t))
      ensures publishes == Newest(old(publishes) + [StagedRecord(revisions[i], kind, t)], limit)
      ensures saves == old(saves) + 1 && durable == if saved(old(saves)) then Some(Persisted(State())) else old(durable)
    {
      request := Ok(RequestFor(revisions[i], snapshot, t));
      AppendRecord(StagedRecord(revisions[i], kind, t));
      var ok := PersistState();
    }

    method AppendRecord(record: Record)
      modifies `publishes
      ensures publishes == Newest(old(publishes) + [record], limit)
    {
      publishes := publishes + [record];
      TrimPublishes();
    }

    method SettlePublish(i: int, reply: Reply)
      requires 0 <= i < |revisions| && publishes != []
      modifies `activeIdx, `publishes, `limit, `durable, `saves
      ensures State() == SettledLedger(old(State()), i, reply) && saves == old(saves) + 1
      ensures durable == if saved(old(saves)) then Some(Persisted(State())) else old(durable)
    {
      var last := |publishes| - 1;
      match reply {
        case NotConfigured =>
          publishes := publishes[last := publishes[last].(status := Failed, error := "gateway not configured")];
        case CallFailed(e) =>
          publishes := publishes[last := publishes[last].(status := Failed, error := e)];
        case Refused(e) =>
          publishes := publishes[last := publishes[last].(status := Failed, error := e)];
        case Applied =>
          publishes := publishes[last := publishes[last].(status := Observed, error := "")];
          activeIdx := i;
          SyncPolicyFromActiveRevision();
      }
      var ok := PersistState();
    }

    // Stages, stores, sends, and settles by the reply. The two saves that may fail are only
    // logged.
    method PublishRevision(i: int, kind: string, t: Ticket, reply: Reply) returns (result: Result<PublishResult>, sent: Option<Request>)
      requires 0 <= i < |revisions| && 0 < limit
      modifies `revisions, `activeIdx, `publishes, `limit, `durable, `saves
      ensures var compiled := Compiled(env, old(revisions)[i], t.now);
        && (compiled.Err? ==> result == Err(compiled.error) && sent.None? && State() == old(State()) && durable == old(durable))
        && (compiled.Ok? ==>
              && State() == PublishedLedger(env, old(State()), i, kind, t, reply)
              && Recorded(old(State()), State(), old(revisions)[i], kind, t, reply)
              && saves == old(saves) + 2
              && sent == (if reply.NotConfigured? then None else Some(RequestFor(old(revisions)[i], compiled.value, t)))
              && result == ResultOf(reply, old(revisions)[i].id, t)
              && durable == AfterTwoSaves(old(durable), StagedLedger(old(State()), i, compiled.value, kind, t), saved(old(saves)),
                                          State(), saved(old(saves) + 1)))
    {
      var id := revisions[i].id;
      var request := StagePublish(i, kind, t);
      if request.Err? {
        return Err(request.error), None;
      }
      PublishIsRecorded(env, old(State()), i, kind, t, reply);
      SettlePublish(i, reply);
      sent := if reply.NotConfigured? then None else Some(request.value);
      result := ResultOf(reply, id, t);
    }

    method Publish(id: string, kind: string, t: Ticket, reply: Reply) returns (result: Result<PublishResult>, sent: Option<Request>)
      requires Valid(State())
      modifies `revisions, `activeIdx, `publishes, `limit, `durable, `saves
      ensures Valid(State()) && Ids(revisions) == Ids(old(revisions))
      ensures result.Ok? && result.value.Published? ==> reply.Applied? && ActiveId(State()) == Some(id)
      ensures !(result.Ok? && result.value.Published?) ==> ActiveId(State()) == ActiveId(old(State()))
      ensures id !in Ids(old(revisions)) ==> result.Err? && sent.None? && State() == old(State())
      ensures id in Ids(old(revisions)) ==>
        var r := old(revisions)[Find(old(revisions), id)];
        match Compiled(env, r, t.now)
        case Err(e) => result == Err(e) && sent.None? && State() == old(State())
        case Ok(snapshot) =>
          && Recorded(old(State()), State(), r, kind, t, reply)
          && Answers(result, reply, id, t)
          && (sent.None? <==> reply.NotConfigured?) && (sent.Some? ==> Carries(sent.value, snapshot, id, t))
    {
      var i := FindRevision(id);
      FindInIds(revisions, id);
      if i < 0 {
        return Err("revision not found"), None;
      }
      ghost var before := State();
      ghost var compiled := Compiled(env, revisions[i], t.now);
      result, sent := PublishRevision(i, kind, t, reply);
      if compiled.Ok? {
        PublishStaysValid(before, i, compiled.value, kind, t, reply);
      }
    }

    // Publishes a revision that compiles.
    method PublishCompiled(i: int, t: Ticket, reply: Reply) returns (result: Result<PublishResult>)
      requires 0 <= i < |revisions| && 0 < limit && Compiled(env, revisions[i], t.now).Ok?
      modifies `revisions, `activeIdx, `publishes, `limit, `durable, `saves
      ensures State() == PublishedLedger(env, old(State()), i, "publish", t, reply)
      ensures result == ResultOf(reply, old(revisions)[i].id, t)
      ensures saved(old(saves) + 1) ==> durable == Some(Persisted(State()))
    {
      var sent;
      result, sent := PublishRevision(i, "publish", t, reply);
    }

    // Appends a revision and publishes it.
    method PublishNew(r: Revision, t: Ticket, reply: Reply) returns (result: Result<PublishResult>)
      requires 0 < limit && Compiled(env, r, t.now).Ok?
      modifies `revisions, `activeIdx, `publishes, `limit, `durable, `saves
      ensures State() == UpdatedOnce(env, old(State()), r, t, reply)
      ensures result == ResultOf(reply, r.id, t)
      ensures saved(old(saves) + 1) ==> durable == Some(Persisted(State()))
    {
      ghost var before := State();
      var at := |revisions|;
      AppendRevision(r);
      ghost var grown := State();
      assert saves == old(saves);
      result := PublishCompiled(at, t, reply);
      assert saved(old(saves) + 1) ==> durable == Some(Persisted(State()));
      PublishedIsUpdated(env, before, grown, at, r, t, reply, State());
    }

    method AppendRevision(r: Revision)
      modifies `revisions
      ensures State() == Appended(old(State()), r) && |revisions| == |old(revisions)| + 1 && revisions[|old(revisions)|] == r
    {
      revisions := revisions + [r];
    }

    /** A new revision from a configuration, published at once. An error takes it out of the
        list again, but not out of what was stored meanwhile. */
    method UpdateConfig(config: Config, about: string, id: string, t: Ticket, reply: Reply) returns (result: Result<PublishResult>)
      requires 0 < limit
      modifies `revisions, `activeIdx, `publishes, `limit, `durable, `saves
      ensures CompilePayload(env, config).Err? ==> result.Err? && State() == old(State()) && durable == old(durable)
      ensures CompilePayload(env, config).Ok? ==>
        var r := NewRevision(env, config, about, id, t);
        && State() == Updated(env, old(State()), r, t, reply)
        && (result.Err? <==> reply.NotConfigured?)
        && (reply.NotConfigured? && saved(old(saves) + 1) ==>
              durable == Some(Persisted(UpdatedOnce(env, old(State()), r, t, reply))))
    {
      var snapshot := CompileFromConfig(env, config, "", t.now);
      if snapshot.Err? {
        return Err(snapshot.error);
      }
      NewRevisionCompiles(env, config, about, id, t);
      var at := |revisions|;
      result := PublishNew(Revision(id, about, Some(config), Some(snapshot.value)), t, reply);
      if result.Err? {
        NotConfiguredKeepsActive(env, old(State()), NewRevision(env, config, about, id, t), t);
        revisions := revisions[..at];
        return;
      }
      var ok := PersistState();
    }
  }

  function NewRevision(env: Env, config: Config, about: string, id: string, t: Ticket): Revision
    requires CompilePayload(env, config).Ok?
  {
    Revision(id, about, Some(config), Some(Snapshot(Meta("", "", CURRENT_SCHEMA, t.now), CompilePayload(env, config).value)))
  }

  function Appended(l: Ledger, r: Revision): Ledger {
    l.(revisions := l.revisions + [r])
  }

  // The ledger with a revision appended and its publish settled.
  function UpdatedOnce(env: Env, l: Ledger, r: Revision, t: Ticket, reply: Reply): Ledger
    requires Compiled(env, r, t.now).Ok?
  {
    PublishedLedger(env, Appended(l, r), |l.revisions|, "publish", t, reply)
  }

  lemma {:induction false} PublishedIsUpdated(env: Env, before: Ledger, grown: Ledger, at: int, r: Revision, t: Ticket, reply: Reply, after: Ledger)
    requires grown == Appended(before, r) && at == |before.revisions| && Compiled(env, r, t.now).Ok?
    requires grown.revisions[at] == r && after == PublishedLedger(env, grown, at, "publish", t, reply)
    ensures after == UpdatedOnce(env, before, r, t, reply)
  {
  }

  // An error takes the revision out again.
  function Updated(env: Env, l: Ledger, r: Revision, t: Ticket, reply: Reply): Ledger
    requires Compiled(env, r, t.now).Ok?
  {
    var once := UpdatedOnce(env, l, r, t, reply);
    if reply.NotConfigured? then once.(revisions := l.revisions) else once
  }

  lemma {:induction false} UpdateIsRecorded(env: Env, l: Ledger, r: Revision, t: Ticket, reply: Reply)
    requires Compiled(env, r, t.now).Ok? && 0 < l.limit
    ensures Recorded(l, Updated(env, l, r, t, reply), r, "publish", t, reply)
  {
    PublishIsRecorded(env, Appended(l, r), |l.revisions|, "publish", t, reply);
  }

  // What is in the list while the publish is under way, and so what is stored.
  function KeptRevisions(env: Env, l: Ledger, r: Revision, t: Ticket): seq<Revision>
    requires Compiled(env, r, t.now).Ok?
  {
    l.revisions + [r.(snapshot := Some(Compiled(env, r, t.now).value))]
  }

  lemma {:induction false} NewRevisionCompiles(env: Env, config: Config, about: string, id: string, t: Ticket)
    requires CompilePayload(env, config).Ok?
    ensures Compiled(env, NewRevision(env, config, about, id, t), t.now).Ok?
    ensures Compiled(env, NewRevision(env, config, about, id, t), t.now).value.payload == CompilePayload(env, config).value
  {
  }

  lemma {:induction false} NotConfiguredKeepsActive(env: Env, l: Ledger, r: Revision, t: Ticket)
    requires Compiled(env, r, t.now).Ok?
    ensures var once := UpdatedOnce(env, l, r, t, NotConfigured);
            once.revisions == KeptRevisions(env, l, r, t) && once.active == l.active
  {
    UpdatedNames(env, l, r, t, NotConfigured);
  }

  // What stays in the durable copy after an update that ended in an error: one revision more
  // than the list in memory.
  lemma {:induction false} ErrorLeavesOrphan(env: Env, l: Ledger, r: Revision, t: Ticket)
    requires Compiled(env, r, t.now).Ok?
    ensures Ids(Persisted(UpdatedOnce(env, l, r, t, NotConfigured)).revisions) == Ids(Updated(env, l, r, t, NotConfigured).revisions) + [r.id]
  {
    UpdatedNames(env, l, r, t, NotConfigured);
    MarshalledIds(KeptRevisions(env, l, r, t));
  }

  lemma {:induction false} MarshalledIds(rs: seq<Revision>)
    ensures Ids(Marshalled(rs)) == Ids(rs)
  {
  }

  lemma {:induction false} UpdatedNames(env: Env, l: Ledger, r: Revision, t: Ticket, reply: Reply)
    requires Compiled(env, r, t.now).Ok?
    ensures UpdatedOnce(env, l, r, t, reply).revisions == KeptRevisions(env, l, r, t)
    ensures UpdatedOnce(env, l, r, t, reply).active == if reply.Applied? then |l.revisions| else l.active
    ensures Ids(KeptRevisions(env, l, r, t)) == Ids(l.revisions) + [r.id]
  {
    PublishKeepsRevisions(env, Appended(l, r), |l.revisions|, "publish", t, reply);
    ReplaceLast(l.revisions, r, r.(snapshot := Some(Compiled(env, r, t.now).value)));
  }

  lemma {:induction false} ReplaceLast(rs: seq<Revision>, r: Revision, r': Revision)
    requires r'.id == r.id
    ensures (rs + [r])[|rs|] == r && (rs + [r])[|rs| := r'] == rs + [r'] && Ids(rs + [r']) == Ids(rs) + [r.id]
  {
  }

  // A generated id that is new is all it takes to keep the ledger valid.
  lemma {:induction false} UpdatedStaysValid(env: Env, l: Ledger, r: Revision, t: Ticket, reply: Reply)
    requires Valid(l) && Compiled(env, r, t.now).Ok? && r.id != "" && Trim(r.id) == r.id
    requires r.id !in Ids(l.revisions)
    ensures Valid(Updated(env, l, r, t, reply))
    ensures ActiveId(Updated(env, l, r, t, reply)) == if reply.Applied? then Some(r.id) else ActiveId(l)
  {
    var n := |l.revisions|;
    var grown := Appended(l, r);
    StillWellNamed(l.revisions, r);
    assert Valid(grown) && ActiveId(grown) == ActiveId(l);
    PublishStaysValid(grown, n, Compiled(env, r, t.now).value, "publish", t, reply);
    NotConfiguredKeepsActive(env, l, r, t);
  }

  lemma {:induction false} UpdatedStaysValidIff(env: Env, l: Ledger, r: Revision, t: Ticket, reply: Reply)
    requires Valid(l) && Compiled(env, r, t.now).Ok? && r.id != "" && Trim(r.id) == r.id
    ensures Valid(Updated(env, l, r, t, reply)) <==> r.id !in Ids(l.revisions) || reply.NotConfigured?
  {
    UpdatedNames(env, l, r, t, reply);
    if r.id !in Ids(l.revisions) {
      UpdatedStaysValid(env, l, r, t, reply);
    } else {
      var kept, n := KeptRevisions(env, l, r, t), |l.revisions|;
      var k :| 0 <= k < n && Ids(l.revisions)[k] == r.id;
      assert Ids(kept)[k] == Ids(kept)[n] && kept[k].id == kept[n].id;
      if reply.NotConfigured? {
        RemovedStaysValid(env, l, r, t);
      }
    }
  }

  // Whatever the id was, an update that ended in an error leaves a valid ledger.
  lemma {:induction false} RemovedStaysValid(env: Env, l: Ledger, r: Revision, t: Ticket)
    requires Valid(l) && Compiled(env, r, t.now).Ok?
    ensures Valid(Updated(env, l, r, t, NotConfigured))
    ensures ActiveId(Updated(env, l, r, t, NotConfigured)) == ActiveId(l)
  {
    NotConfiguredKeepsActive(env, l, r, t);
  }

  function AfterTwoSaves(before: Option<Stored>, staged: Ledger, first: bool, settled: Ledger, second: bool): Option<Stored> {
    if second then Some(Persisted(settled)) else if first then Some(Persisted(staged)) else before
  }

  function ResultOf(reply: Reply, id: string, t: Ticket): Result<PublishResult> {
    match reply
    case NotConfigured => Err("gateway not configured")
    case CallFailed(e) => Ok(NotPublished(id, e))
    case Refused(e) => Ok(NotPublished(id, e))
    case Applied => Ok(Published(t.snapshotId, id))
  }

  lemma {:induction false} PublishStaysValid(l: Ledger, i: int, snapshot: Snapshot, kind: string, t: Ticket, reply: Reply)
    requires Valid(l) && 0 <= i < |l.revisions|
    ensures var after := SettledLedger(StagedLedger(l, i, snapshot, kind, t), i, reply);
            && Valid(after) && Ids(after.revisions) == Ids(l.revisions)
            && ActiveId(after) == if reply.Applied? then Some(l.revisions[i].id) else ActiveId(l)
  {
    var staged := StagedLedger(l, i, snapshot, kind, t);
    StagedStaysValid(l, i, snapshot, kind, t);
    SettledStaysValid(staged, i, reply);
    assert forall k :: 0 <= k < |l.revisions| ==> Ids(staged.revisions)[k] == l.revisions[k].id;
  }

  lemma {:induction false} ClonedIdsTrimmed(rs: seq<Revision>)
    ensures forall i :: 0 <= i < |rs| ==> Trim(ClonedAll(rs)[i].id) == ClonedAll(rs)[i].id
  {
    forall i | 0 <= i < |rs| ensures Trim(ClonedAll(rs)[i].id) == ClonedAll(rs)[i].id {
      TrimLowerStable(rs[i].id);
    }
  }

  lemma {:induction false} UnmarshalledIdsTrimmed(rs: seq<Revision>)
    ensures forall i :: 0 <= i < |rs| ==> Trim(Unmarshalled(rs)[i].id) == Unmarshalled(rs)[i].id
  {
    forall i | 0 <= i < |rs| ensures Trim(Unmarshalled(rs)[i].id) == Unmarshalled(rs)[i].id {
      TrimLowerStable(rs[i].id);
    }
  }

  lemma {:induction false} StagedTwice(l: Ledger, i: int, snapshot: Snapshot, kind: string, t: Ticket)
    requires 0 <= i < |l.revisions|
    ensures var rs := l.revisions[i := l.revisions[i].(snapshot := Some(snapshot))];
            && rs[i].id == l.revisions[i].id
            && StagedLedger(l, i, snapshot, kind, t)
                 == l.(revisions := rs, publishes := Newest(l.publishes + [StagedRecord(rs[i], kind, t)], l.limit))
  {
  }

  // A request takes the id of the revision and its snapshot from outside it.
  lemma {:induction false} RequestUsesId(r: Revision, r': Revision, snapshot: Snapshot, t: Ticket)
    requires r.id == r'.id
    ensures RequestFor(r, snapshot, t) == RequestFor(r', snapshot, t)
  {
  }

  lemma {:induction false} NotWellNamed(rs: seq<Revision>, i: nat)
    requires i < |rs| && (rs[i].id == "" || rs[i].id in Ids(rs[..i]))
    ensures !WellNamed(rs)
  {
    if rs[i].id != "" {
      var j :| 0 <= j < i && Ids(rs[..i])[j] == rs[i].id;
      assert rs[j].id == rs[i].id;
    }
  }

  lemma {:induction false} StillWellNamed(rs: seq<Revision>, r: Revision)
    requires WellNamed(rs) && r.id != "" && Trim(r.id) == r.id && r.id !in Ids(rs)
    ensures WellNamed(rs + [r]) && Ids(rs + [r]) == Ids(rs) + [r.id]
  {
    assert forall j :: 0 <= j < |rs| ==> Ids(rs)[j] == rs[j].id;
  }

  // Well named, their ids seen, and the wanted one found among them.
  ghost predicate TakenSoFar(taken: seq<Revision>, active: int, seen: set<string>, wanted: string) {
    WellNamed(taken) && active == Find(taken, wanted) && forall s :: s in seen <==> s in Ids(taken)
  }

  lemma {:induction false} OneMoreTaken(taken: seq<Revision>, active: int, seen: set<string>, wanted: string, r: Revision)
    requires TakenSoFar(taken, active, seen, wanted) && r.id != "" && Trim(r.id) == r.id && r.id !in seen
    ensures TakenSoFar(taken + [r], if r.id == wanted then |taken| else active, seen + {r.id}, wanted)
  {
    FindAppend(taken, r, wanted);
    StillWellNamed(taken, r);
  }

  lemma {:induction false} FoundFirst(rs: seq<Revision>, id: string, i: nat)
    requires i < |rs| && rs[i].id == id && Find(rs[..i], id) == -1
    ensures Find(rs, id) == i
  {
    assert Ids(rs)[i] == id;
    forall k | 0 <= k < i ensures rs[k].id != id {
      assert Ids(rs[..i])[k] == rs[k].id;
    }
  }

  lemma {:induction false} FindInIds(rs: seq<Revision>, id: string)
    ensures Find(rs, id) >= 0 <==> id in Ids(rs)
  {
    if Find(rs, id) >= 0 {
      assert Ids(rs)[Find(rs, id)] == id;
    }
  }

  lemma {:induction false} FindAppend(rs: seq<Revision>, r: Revision, id: string)
    requires r.id !in Ids(rs)
    ensures Find(rs + [r], id) == if r.id == id then |rs| else Find(rs, id)
  {
    assert (rs + [r])[..|rs|] == rs;
    FindInIds(rs, id);
  }
}
