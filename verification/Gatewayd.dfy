/** The gateway's own code for a call and for a start, one after the other as a single goroutine
    runs it, and its agreement with the steps of the whole system. */
module Gatewayd {
  import opened Wrappers
  import opened Sequences
  import opened Text
  import opened Compiler
  import opened Ledger
  import opened PublishSystem

  // The files after the first n of the four operations that persist a request: write and
  // rename the payload, write and rename the labels.
  function DiskAfter(d: Disk, r: Request, n: nat): Disk {
    var d1 := if n >= 1 then d.(payloadTmp := Some(r)) else d;
    var d2 := if n >= 2 then d1.(payload := Some(r), payloadTmp := None) else d1;
    var d3 := if n >= 3 then d2.(metaTmp := Some(r)) else d2;
    if n >= 4 then d3.(meta := Some(r), metaTmp := None) else d3
  }

  // What a start makes of the files: nothing without a payload, nor with labels that cannot
  // be read, nor with a snapshot that does not pass the checks.
  function RestoredFrom(d: Disk, metaReadable: bool): Option<Served> {
    if d.payload.None? || !metaReadable then None
    else
      var labels := RestoreLabel(d.payload.value, d.meta);
      if Acceptable(labels, d.payload.value.bytes)
      then Some(Served(labels, d.payload.value.bytes, FromDisk(d.payload.value, d.meta)))
      else None
  }

  class Daemon {
    var served: Option<Served>
    var disk: Disk

    constructor (disk: Disk)
      ensures served.None? && this.disk == disk
    {
      served, this.disk := None, disk;
    }

    method ApplyRequest(labels: Label, bytes: Snapshot, origin: Origin) returns (ok: bool)
      modifies `served
      ensures ok <==> Acceptable(labels, bytes)
      ensures ok <==> labels.snapshotId != "" && labels.schema == 1 && bytes.payload.listen != "" && bytes.payload.providers != []
      ensures served == if ok then Some(Served(labels, bytes, origin)) else old(served)
    {
      if labels.snapshotId == "" {
        return false;
      }
      if labels.schema != CURRENT_SCHEMA {
        return false;
      }
      if bytes.payload.listen == "" {
        return false;
      }
      if |bytes.payload.providers| == 0 {
        return false;
      }
      served := Some(Served(labels, bytes, origin));
      return true;
    }

    // Gives up at the first operation that fails.
    method PersistLastApplied(r: Request, succeeding: nat)
      modifies `disk
      ensures disk == DiskAfter(old(disk), r, succeeding)
      ensures disk.payload == (if succeeding >= 2 then Some(r) else old(disk).payload)
      ensures disk.meta == (if succeeding >= 4 then Some(r) else old(disk).meta)
    {
      if succeeding < 1 {
        return;
      }
      disk := disk.(payloadTmp := Some(r));
      if succeeding < 2 {
        return;
      }
      disk := disk.(payload := disk.payloadTmp, payloadTmp := None);
      if succeeding < 3 {
        return;
      }
      disk := disk.(metaTmp := Some(r));
      if succeeding < 4 {
        return;
      }
      disk := disk.(meta := disk.metaTmp, metaTmp := None);
    }

    /** The call: swapped in first, kept on disk as far as that goes, and answered as applied
        either way. */
    method ApplySnapshot(r: Request, succeeding: nat) returns (applied: bool)
      modifies this
      ensures applied <==> Acceptable(LabelOf(r), r.bytes)
      ensures served == if applied then Some(Served(LabelOf(r), r.bytes, FromCall)) else old(served)
      ensures applied ==> served.value.labels == Label(r.snapshotId, r.revisionId, r.schema, r.generatedAt)
      ensures disk == if applied then DiskAfter(old(disk), r, succeeding) else old(disk)
    {
      applied := ApplyRequest(LabelOf(r), r.bytes, FromCall);
      if applied {
        PersistLastApplied(r, succeeding);
      }
    }

    method TryRestore(metaReadable: bool)
      requires served.None?
      modifies `served
      ensures served == RestoredFrom(disk, metaReadable)
      ensures served.Some? ==> disk.payload.Some? && metaReadable && served.value.bytes == disk.payload.value.bytes
      ensures served.Some? && disk.meta.Some? && Trim(disk.meta.value.snapshotId) != "" ==>
        var m := disk.meta.value; served.value.labels == Label(m.snapshotId, m.revisionId, m.schema, m.generatedAt)
      ensures served.Some? && disk.meta.None? ==>
        var own := disk.payload.value.bytes.meta;
        served.value.labels == Label(if Trim(own.snapshotId) == "" then "disk-cache" else Trim(own.snapshotId),
                                     own.revisionId, own.schema, own.generatedAt)
    {
      if disk.payload.None? || !metaReadable {
        return;
      }
      var payload := disk.payload.value;
      var labels := RestoreLabel(payload, disk.meta);
      var ok := ApplyRequest(labels, payload.bytes, FromDisk(payload, disk.meta));
    }
  }

  function PersistSteps(env: Env, s: State, n: nat): State {
    if n == 0 then s else Next(env, PersistSteps(env, s, n - 1), Persist(0, true))
  }

  // The steps of the system do to the files what the code does.
  lemma {:induction false} StepsDoWhatTheCodeDoes(env: Env, s: State, k: nat, r: Request, n: nat)
    requires Handling(s, k, r) && n <= 4
    ensures PersistSteps(env, s, n).disk == DiskAfter(s.disk, r, n)
    ensures PersistSteps(env, s, n).gateway.served == s.gateway.served
  {
    HandlerAfter(env, s, k, r, n);
  }

  // The handler's place after n operations.
  function HandlersAfter(k: nat, n: nat): seq<Handler> {
    if n == 0 then [Handler(k, Accepted)]
    else if n == 1 then [Handler(k, PayloadWritten)]
    else if n == 2 then [Handler(k, PayloadRenamed)]
    else if n == 3 then [Handler(k, MetaWritten)]
    else []
  }

  predicate Reached(s: State, k: nat, r: Request, n: nat, d: Disk, g: Gateway) {
    && k < |s.sent| && s.sent[k].request == r
    && s.gateway == g.(handlers := HandlersAfter(k, n)) && s.disk == DiskAfter(d, r, n)
  }

  lemma {:induction false} NextOperation(env: Env, s: State, k: nat, r: Request, n: nat, d: Disk, g: Gateway)
    requires Reached(s, k, r, n, d, g) && n < 4
    ensures Reached(Next(env, s, Persist(0, true)), k, r, n + 1, d, g)
  {
    assert PublishSystem.Enabled(env, s, Persist(0, true));
    if n == 3 {
      assert Without(s.gateway.handlers, 0) == [];
    }
  }

  lemma {:induction false} HandlerAfter(env: Env, s: State, k: nat, r: Request, n: nat)
    requires Handling(s, k, r) && n <= 4
    ensures Reached(PersistSteps(env, s, n), k, r, n, s.disk, s.gateway)
    decreases n
  {
    if n > 0 {
      HandlerAfter(env, s, k, r, n - 1);
      NextOperation(env, PersistSteps(env, s, n - 1), k, r, n - 1, s.disk, s.gateway);
    }
  }

  // A persist that runs through heals the files: a start then reports the payload's own ids.
  lemma {:induction false} WholePersistHeals(env: Env, d: Disk, x: Sent)
    requires Built(env, x)
    ensures RestoredFrom(DiskAfter(d, x.request, 4), true).Some? ==>
      RestoredFrom(DiskAfter(d, x.request, 4), true).value.labels == LabelIn(x.request.bytes)
  {
    BuiltLabels(env, x);
  }

  // After any shorter one, the ids a start reports are the payload's exactly when the payload
  // was not renamed, or the labels on disk were the same already.
  lemma {:induction false} CutPersistMislabelsIff(env: Env, d: Disk, was: Sent, x: Sent, n: nat)
    requires Built(env, was) && Built(env, x) && d.payload == Some(was.request) && d.meta == Some(was.request) && n < 4
    ensures var after := DiskAfter(d, x.request, n);
            var honest := RestoreLabel(after.payload.value, after.meta) == LabelIn(after.payload.value.bytes);
            honest <==> (n < 2 || LabelOf(was.request) == LabelOf(x.request))
  {
    BuiltLabels(env, was);
    BuiltLabels(env, x);
  }
}
