/** controld and gatewayd together: the publisher's calls, requests that arrive late or never,
    replies that get lost, a gateway that swaps the snapshot in and keeps it on disk in two
    files, restarts of either side at any step. */
module PublishSystem {
  import opened Wrappers
  import opened Sequences
  import opened Text
  import opened Config
  import opened Compiler
  import opened Ledger
  import opened LedgerRuns

  // A request with the revision it was built from.
  datatype Sent = Sent(request: Request, revision: Revision, ticket: Ticket)

  // The call that holds the publisher's lock while it waits for its reply.
  datatype Waiting = Waiting(request: nat, revision: int)

  datatype Label = Label(snapshotId: string, revisionId: string, schema: int, generatedAt: int)

  // Where the served snapshot came from: a call, or the files, by the requests they hold.
  datatype Origin = FromCall | FromDisk(payload: Request, meta: Option<Request>)

  datatype Served = Served(labels: Label, bytes: Snapshot, origin: Origin)

  datatype Stage = Received | Accepted | PayloadWritten | PayloadRenamed | MetaWritten

  datatype Handler = Handler(request: nat, stage: Stage)

  // Restoring at start: the files are read one after the other and then applied.
  datatype Boot = NotRead | PayloadRead(payload: Option<Request>) | BothRead(bytes: Request, meta: Option<Request>) | Over

  datatype Gateway = Gateway(up: bool, served: Option<Served>, boot: Boot, handlers: seq<Handler>)

  // Each file by the request whose bytes, or whose labels, it holds.
  datatype Disk = Disk(payload: Option<Request>, meta: Option<Request>, payloadTmp: Option<Request>, metaTmp: Option<Request>)

  // How a restore came to its files: whether the payload it read had been left without its
  // meta rename by then, and the last meta rename between its two reads.
  datatype Reading = Reading(cut: bool, renamed: Option<Request>)

  datatype State = State(
    world: World, waiting: Option<Waiting>,
    gateway: Gateway, disk: Disk,
    sent: seq<Sent>, replies: map<nat, bool>,
    cut: bool,   // the last payload rename was not followed by its meta rename
    reading: Reading)

  const START := State(World(NEW, None, {}), None, Gateway(false, None, Over, []), Disk(None, None, None, None), [], map[],
                       false, Reading(false, None))

  datatype Step =
    | Call(op: Op)                                   // an operation that sends nothing
    | BeginPublish(id: string, kind: string, ticket: Ticket, stored: bool)
    | BeginUpdate(config: Config, about: string, newId: string, ticket: Ticket, stored: bool)
    | EndPublish(reply: Reply, stored: bool)
    | ControlCrash
    | GatewayStart
    | GatewayCrash
    | Deliver(request: nat)
    | Accept(handler: nat)
    | Persist(handler: nat, ok: bool)                // its next file operation
    | BootReadPayload
    | BootReadMeta(readable: bool)
    | BootApply

  function LabelOf(r: Request): Label {
    Label(r.snapshotId, r.revisionId, r.schema, r.generatedAt)
  }

  function LabelIn(bytes: Snapshot): Label {
    Label(bytes.meta.snapshotId, bytes.meta.revisionId, bytes.meta.schema, bytes.meta.generatedAt)
  }

  // The checks of the gateway on what it is asked to serve.
  predicate Acceptable(labels: Label, bytes: Snapshot) {
    labels.snapshotId != "" && labels.schema == CURRENT_SCHEMA && bytes.payload.listen != "" && bytes.payload.providers != []
  }

  // The labels a restore gives the payload: those of the meta file, or without one its own.
  function RestoreLabel(payload: Request, meta: Option<Request>): Label {
    var from := if meta.Some? then LabelOf(meta.value) else Label("", "", 0, 0);
    if Trim(from.snapshotId) != "" then from
    else
      var own := LabelIn(payload.bytes);
      Label(if Trim(own.snapshotId) == "" then "disk-cache" else Trim(own.snapshotId),
            if from.revisionId == "" then own.revisionId else from.revisionId,
            if from.schema == 0 then own.schema else from.schema,
            if from.generatedAt == 0 then own.generatedAt else from.generatedAt)
  }

  // ---------- Steps ----------

  predicate GoodTicket(t: Ticket) {
    t.snapshotId != "" && Trim(t.snapshotId) == t.snapshotId
  }

  predicate Publishable(env: Env, l: Ledger, i: int, t: Ticket) {
    0 <= i < |l.revisions| && Compiled(env, l.revisions[i], t.now).Ok? && GoodTicket(t)
  }

  predicate Enabled(env: Env, s: State, step: Step) {
    match step
    case Call(op) => s.waiting.None? && (op.Replace? || op.Upsert? || op.Policy?)
    case BeginPublish(id, _, t, _) => s.waiting.None? && Publishable(env, s.world.ledger, Find(s.world.ledger.revisions, id), t)
    case BeginUpdate(config, _, newId, t, _) =>
      s.waiting.None? && CompilePayload(env, config).Ok? && GoodTicket(t)
      && newId != "" && Trim(newId) == newId && newId !in Ids(s.world.ledger.revisions)
    case EndPublish(reply, _) =>
      s.waiting.Some? && s.world.ledger.publishes != [] && 0 <= s.waiting.value.revision < |s.world.ledger.revisions|
      && (match reply
          case NotConfigured => false
          case CallFailed(_) => true
          case Applied => s.waiting.value.request in s.replies && s.replies[s.waiting.value.request]
          case Refused(_) => s.waiting.value.request in s.replies && !s.replies[s.waiting.value.request])
    case ControlCrash => true
    case GatewayStart => !s.gateway.up
    case GatewayCrash => s.gateway.up
    case Deliver(k) => s.gateway.up && k < |s.sent|
    case Accept(h) => h < |s.gateway.handlers| && s.gateway.handlers[h].stage.Received? && s.gateway.handlers[h].request < |s.sent|
    case Persist(h, ok) =>
      && h < |s.gateway.handlers| && !s.gateway.handlers[h].stage.Received? && s.gateway.handlers[h].request < |s.sent|
      // A rename needs the temporary file that another handler may have renamed already.
      && (ok && s.gateway.handlers[h].stage.PayloadWritten? ==> s.disk.payloadTmp.Some?)
      && (ok && s.gateway.handlers[h].stage.MetaWritten? ==> s.disk.metaTmp.Some?)
    case BootReadPayload => s.gateway.up && s.gateway.boot.NotRead?
    case BootReadMeta(_) => s.gateway.up && s.gateway.boot.PayloadRead?
    case BootApply => s.gateway.up && s.gateway.boot.BothRead?
  }

  // Staging revision i of a ledger and sending the request.
  function Begin(env: Env, s: State, w: World, i: int, kind: string, t: Ticket, stored: bool): State
    requires Publishable(env, w.ledger, i, t)
  {
    var r := w.ledger.revisions[i];
    var request := RequestFor(r, Compiled(env, r, t.now).value, t);
    s.(world := StagedWorld(env, w, i, kind, t, stored), waiting := Some(Waiting(|s.sent|, i)),
       sent := s.sent + [Sent(request, r, t)])
  }

  function Serving(g: Gateway, labels: Label, bytes: Snapshot, origin: Origin): Gateway {
    if Acceptable(labels, bytes) then g.(served := Some(Served(labels, bytes, origin))) else g
  }

  function Handled(s: State, h: nat): State
    requires h < |s.gateway.handlers| && s.gateway.handlers[h].request < |s.sent|
  {
    var k := s.gateway.handlers[h].request;
    var r := s.sent[k].request;
    if Acceptable(LabelOf(r), r.bytes) then
      s.(gateway := Serving(s.gateway, LabelOf(r), r.bytes, FromCall).(handlers := s.gateway.handlers[h := Handler(k, Accepted)]))
    else
      s.(gateway := s.gateway.(handlers := Without(s.gateway.handlers, h)), replies := s.replies[k := false])
  }

  // The handler is through with its files, all done or given up; the call has succeeded.
  function Answered(s: State, h: nat): State
    requires h < |s.gateway.handlers|
  {
    s.(gateway := s.gateway.(handlers := Without(s.gateway.handlers, h)), replies := s.replies[s.gateway.handlers[h].request := true])
  }

  function Persisting(s: State, h: nat, ok: bool): State
    requires h < |s.gateway.handlers| && s.gateway.handlers[h].request < |s.sent|
    requires !s.gateway.handlers[h].stage.Received?
  {
    var k := s.gateway.handlers[h].request;
    var r := Some(s.sent[k].request);
    if !ok then Answered(s, h)
    else match s.gateway.handlers[h].stage
      case Accepted => s.(disk := s.disk.(payloadTmp := r), gateway := s.gateway.(handlers := s.gateway.handlers[h := Handler(k, PayloadWritten)]))
      case PayloadWritten =>
        s.(disk := s.disk.(payload := s.disk.payloadTmp, payloadTmp := None), cut := true,
           gateway := s.gateway.(handlers := s.gateway.handlers[h := Handler(k, PayloadRenamed)]))
      case PayloadRenamed => s.(disk := s.disk.(metaTmp := r), gateway := s.gateway.(handlers := s.gateway.handlers[h := Handler(k, MetaWritten)]))
      case MetaWritten =>
        Answered(s.(disk := s.disk.(meta := s.disk.metaTmp, metaTmp := None), cut := false,
                    reading := if s.gateway.boot.PayloadRead? then s.reading.(renamed := s.disk.metaTmp) else s.reading), h)
  }

  function Apply(env: Env, s: State, step: Step): State
    requires Enabled(env, s, step)
  {
    match step
    case Call(op) => s.(world := After(env, s.world, op))
    case BeginPublish(id, kind, t, stored) => Begin(env, s, s.world, Find(s.world.ledger.revisions, id), kind, t, stored)
    case BeginUpdate(config, about, newId, t, stored) =>
      NewRevisionCompiles(env, config, about, newId, t);
      var w := s.world.(ledger := Appended(s.world.ledger, NewRevision(env, config, about, newId, t)));
      Begin(env, s, w, |s.world.ledger.revisions|, "publish", t, stored)
    case EndPublish(reply, stored) =>
      s.(world := Save(s.world, SettledLedger(s.world.ledger, s.waiting.value.revision, reply), stored), waiting := None)
    case ControlCrash => s.(world := s.world.(ledger := Restarted(s.world.durable)), waiting := None)
    case GatewayStart => s.(gateway := Gateway(true, None, NotRead, []))
    case GatewayCrash => s.(gateway := Gateway(false, None, Over, []))
    case Deliver(k) => s.(gateway := s.gateway.(handlers := s.gateway.handlers + [Handler(k, Received)]))
    case Accept(h) => Handled(s, h)
    case Persist(h, ok) => Persisting(s, h, ok)
    case BootReadPayload => s.(gateway := s.gateway.(boot := PayloadRead(s.disk.payload)), reading := Reading(s.cut, None))
    case BootReadMeta(readable) =>
      var boot := if s.gateway.boot.payload.None? || !readable then Over
                  else BothRead(s.gateway.boot.payload.value, s.disk.meta);
      s.(gateway := s.gateway.(boot := boot))
    case BootApply =>
      var p, m := s.gateway.boot.bytes, s.gateway.boot.meta;
      s.(gateway := Serving(s.gateway, RestoreLabel(p, m), p.bytes, FromDisk(p, m)).(boot := Over))
  }

  function Next(env: Env, s: State, step: Step): State {
    if Enabled(env, s, step) then Apply(env, s, step) else s
  }

  function Reach(env: Env, steps: seq<Step>): State
    decreases |steps|
  {
    if steps == [] then START else Next(env, Reach(env, steps[..|steps| - 1]), steps[|steps| - 1])
  }

  // ---------- Provenance ----------

  // What publishRevisionLocked builds from a revision.
  predicate Built(env: Env, x: Sent) {
    && Compiled(env, x.revision, x.ticket.now).Ok? && GoodTicket(x.ticket)
    && x.request == RequestFor(x.revision, Compiled(env, x.revision, x.ticket.now).value, x.ticket)
  }

  // The revision as the ledger keeps it once its publish is staged: with the snapshot sent.
  function AsStaged(env: Env, x: Sent): Revision
    requires Built(env, x)
  {
    x.revision.(snapshot := Some(Compiled(env, x.revision, x.ticket.now).value))
  }

  // The step is the publish that x was sent for: of a revision that the ledger has, or of the
  // one that the update appends. The ledger keeps it with the snapshot that was sent.
  predicate Stages(env: Env, s: State, step: Step, x: Sent) {
    && Built(env, x) && Enabled(env, s, step)
    && (match step
        case BeginPublish(id, _, t, _) => t == x.ticket && id == x.revision.id && x.revision in s.world.ledger.revisions
        case BeginUpdate(config, about, newId, t, _) => t == x.ticket && x.revision == NewRevision(env, config, about, newId, t)
        case _ => false)
    && AsStaged(env, x) in Apply(env, s, step).world.ledger.revisions
  }

  // The j-th step of the run sent x.
  predicate StagedAt(env: Env, steps: seq<Step>, j: nat, x: Sent) {
    j < |steps| && Stages(env, Reach(env, steps[..j]), steps[j], x)
  }

  ghost predicate FromLedger(env: Env, steps: seq<Step>, x: Sent) {
    exists j: nat :: StagedAt(env, steps, j, x)
  }

  ghost predicate AllFromLedger(env: Env, steps: seq<Step>, sent: seq<Sent>) {
    forall k :: 0 <= k < |sent| ==> FromLedger(env, steps, sent[k])
  }

  predicate WasSent(sent: seq<Sent>, r: Request) {
    exists k :: 0 <= k < |sent| && sent[k].request == r
  }

  predicate FileSent(sent: seq<Sent>, file: Option<Request>) {
    file.Some? ==> WasSent(sent, file.value)
  }

  predicate DiskSent(sent: seq<Sent>, d: Disk) {
    FileSent(sent, d.payload) && FileSent(sent, d.meta) && FileSent(sent, d.payloadTmp) && FileSent(sent, d.metaTmp)
  }

  predicate BootSent(sent: seq<Sent>, b: Boot) {
    match b
    case PayloadRead(p) => FileSent(sent, p)
    case BothRead(p, m) => WasSent(sent, p) && FileSent(sent, m)
    case _ => true
  }

  predicate ServedSent(sent: seq<Sent>, v: Served) {
    match v.origin
    case FromCall => exists k :: 0 <= k < |sent| && v.bytes == sent[k].request.bytes && v.labels == LabelOf(sent[k].request)
    case FromDisk(p, m) => WasSent(sent, p) && FileSent(sent, m) && v.bytes == p.bytes && v.labels == RestoreLabel(p, m)
  }

  predicate AllSent(s: State) {
    && DiskSent(s.sent, s.disk) && BootSent(s.sent, s.gateway.boot)
    && (s.gateway.served.Some? ==> ServedSent(s.sent, s.gateway.served.value))
    && (forall h :: 0 <= h < |s.gateway.handlers| ==> s.gateway.handlers[h].request < |s.sent|)
  }

  predicate AllBuilt(env: Env, sent: seq<Sent>) {
    forall k :: 0 <= k < |sent| ==> Built(env, sent[k])
  }

  lemma {:induction false} SentMore(sent: seq<Sent>, x: Sent, r: Request)
    requires WasSent(sent, r)
    ensures WasSent(sent + [x], r)
  {
    var k :| 0 <= k < |sent| && sent[k].request == r;
    assert (sent + [x])[k].request == r;
  }

  lemma {:induction false} AllSentMore(s: State, s': State, x: Sent)
    requires AllSent(s) && s'.sent == s.sent + [x] && s'.disk == s.disk && s'.gateway == s.gateway
    ensures AllSent(s')
  {
    forall r | WasSent(s.sent, r) ensures WasSent(s'.sent, r) {
      SentMore(s.sent, x, r);
    }
    if s.gateway.served.Some? && s.gateway.served.value.origin.FromCall? {
      var v := s.gateway.served.value;
      var k :| 0 <= k < |s.sent| && v.bytes == s.sent[k].request.bytes && v.labels == LabelOf(s.sent[k].request);
      assert s'.sent[k] == s.sent[k];
    }
  }

  lemma {:induction false} HandledKeepsSent(s: State, h: nat)
    requires h < |s.gateway.handlers| && s.gateway.handlers[h].request < |s.sent| && AllSent(s)
    ensures AllSent(Handled(s, h))
  {
    assert WasSent(s.sent, s.sent[s.gateway.handlers[h].request].request);
  }

  lemma {:induction false} PersistingKeepsDiskSent(s: State, h: nat, ok: bool)
    requires h < |s.gateway.handlers| && s.gateway.handlers[h].request < |s.sent| && DiskSent(s.sent, s.disk)
    requires !s.gateway.handlers[h].stage.Received?
    ensures DiskSent(s.sent, Persisting(s, h, ok).disk)
  {
    assert WasSent(s.sent, s.sent[s.gateway.handlers[h].request].request);
  }

  lemma {:induction false} PersistingKeepsSent(s: State, h: nat, ok: bool)
    requires h < |s.gateway.handlers| && s.gateway.handlers[h].request < |s.sent| && AllSent(s)
    requires !s.gateway.handlers[h].stage.Received?
    ensures AllSent(Persisting(s, h, ok))
  {
    PersistingKeepsDiskSent(s, h, ok);
    PersistingKeepsHandlers(s, h, ok);
  }

  lemma {:induction false} PersistingKeepsHandlers(s: State, h: nat, ok: bool)
    requires h < |s.gateway.handlers| && s.gateway.handlers[h].request < |s.sent|
    requires forall i :: 0 <= i < |s.gateway.handlers| ==> s.gateway.handlers[i].request < |s.sent|
    requires !s.gateway.handlers[h].stage.Received?
    ensures var s' := Persisting(s, h, ok);
            && s'.sent == s.sent && s'.gateway.boot == s.gateway.boot && s'.gateway.served == s.gateway.served
            && forall i :: 0 <= i < |s'.gateway.handlers| ==> s'.gateway.handlers[i].request < |s.sent|
  {
  }

  lemma {:induction false} StepKeepsSent(env: Env, s: State, step: Step)
    requires Enabled(env, s, step) && AllSent(s)
    ensures AllSent(Apply(env, s, step))
  {
    match step
    case BeginPublish(_, _, _, _) => AllSentMore(s, Apply(env, s, step), Apply(env, s, step).sent[|s.sent|]);
    case BeginUpdate(_, _, _, _, _) => AllSentMore(s, Apply(env, s, step), Apply(env, s, step).sent[|s.sent|]);
    case Accept(h) => HandledKeepsSent(s, h);
    case Persist(h, ok) => PersistingKeepsSent(s, h, ok);
    case _ =>
  }

  // Steps of the gateway alone.
  predicate OfGateway(step: Step) {
    !step.Call? && !step.BeginPublish? && !step.BeginUpdate? && !step.EndPublish? && !step.ControlCrash?
  }

  lemma {:induction false} GatewayActsAlone(env: Env, s: State, step: Step)
    requires Enabled(env, s, step) && OfGateway(step)
    ensures Apply(env, s, step).sent == s.sent && Apply(env, s, step).world == s.world
  {
  }

  lemma {:induction false} BeginPublishStages(env: Env, s: State, id: string, kind: string, t: Ticket, stored: bool)
    requires Enabled(env, s, BeginPublish(id, kind, t, stored))
    ensures var step := BeginPublish(id, kind, t, stored);
            var sent := Apply(env, s, step).sent;
            |sent| == |s.sent| + 1 && sent[..|s.sent|] == s.sent && Stages(env, s, step, sent[|s.sent|])
  {
    var i := Find(s.world.ledger.revisions, id);
    var staged := Apply(env, s, BeginPublish(id, kind, t, stored)).world.ledger;
    assert staged.revisions[i] == s.world.ledger.revisions[i].(snapshot := Some(Compiled(env, s.world.ledger.revisions[i], t.now).value));
  }

  lemma {:induction false} BeginUpdateStages(env: Env, s: State, config: Config, about: string, newId: string, t: Ticket, stored: bool)
    requires Enabled(env, s, BeginUpdate(config, about, newId, t, stored))
    ensures var step := BeginUpdate(config, about, newId, t, stored);
            var sent := Apply(env, s, step).sent;
            |sent| == |s.sent| + 1 && sent[..|s.sent|] == s.sent && Stages(env, s, step, sent[|s.sent|])
  {
    NewRevisionCompiles(env, config, about, newId, t);
    var r, n := NewRevision(env, config, about, newId, t), |s.world.ledger.revisions|;
    var grown := Appended(s.world.ledger, r);
    assert grown.revisions[n] == r;
    var staged := StagedLedger(grown, n, Compiled(env, r, t.now).value, "publish", t);
    assert staged.revisions[n] == r.(snapshot := Some(Compiled(env, r, t.now).value));
  }

  // Only the two steps that begin a publish send anything.
  lemma {:induction false} StepSends(env: Env, s: State, step: Step)
    requires Enabled(env, s, step)
    ensures var sent := Apply(env, s, step).sent;
            sent == s.sent || (|sent| == |s.sent| + 1 && sent[..|s.sent|] == s.sent && Stages(env, s, step, sent[|s.sent|]))
  {
    match step
    case BeginPublish(id, kind, t, stored) => BeginPublishStages(env, s, id, kind, t, stored);
    case BeginUpdate(config, about, newId, t, stored) => BeginUpdateStages(env, s, config, about, newId, t, stored);
    case _ =>
      if OfGateway(step) {
        GatewayActsAlone(env, s, step);
      }
  }

  lemma {:induction false} StillFromLedger(env: Env, steps: seq<Step>, x: Sent)
    requires steps != [] && FromLedger(env, steps[..|steps| - 1], x)
    ensures FromLedger(env, steps, x)
  {
    var front := steps[..|steps| - 1];
    var j: nat :| StagedAt(env, front, j, x);
    assert front[..j] == steps[..j] && front[j] == steps[j];
    assert StagedAt(env, steps, j, x);
  }

  lemma {:induction false} LastStaged(env: Env, steps: seq<Step>, x: Sent)
    requires steps != [] && Stages(env, Reach(env, steps[..|steps| - 1]), steps[|steps| - 1], x)
    ensures FromLedger(env, steps, x)
  {
    assert StagedAt(env, steps, |steps| - 1, x);
  }

  lemma {:induction false} AllStillFromLedger(env: Env, steps: seq<Step>, sent: seq<Sent>)
    requires steps != [] && AllFromLedger(env, steps[..|steps| - 1], sent)
    ensures AllFromLedger(env, steps, sent)
  {
    forall k | 0 <= k < |sent| ensures FromLedger(env, steps, sent[k]) {
      StillFromLedger(env, steps, sent[k]);
    }
  }

  lemma {:induction false} OneMoreFromLedger(env: Env, steps: seq<Step>, sent: seq<Sent>, x: Sent)
    requires AllFromLedger(env, steps, sent) && FromLedger(env, steps, x)
    ensures AllFromLedger(env, steps, sent + [x])
  {
  }

  lemma {:induction false} ReachFromLedger(env: Env, steps: seq<Step>)
    ensures AllFromLedger(env, steps, Reach(env, steps).sent)
    decreases |steps|
  {
    if steps != [] {
      var before, last := Reach(env, steps[..|steps| - 1]), steps[|steps| - 1];
      var sent := Reach(env, steps).sent;
      ReachFromLedger(env, steps[..|steps| - 1]);
      AllStillFromLedger(env, steps, before.sent);
      if Enabled(env, before, last) {
        StepSends(env, before, last);
        if sent != before.sent {
          LastStaged(env, steps, sent[|before.sent|]);
          OneMoreFromLedger(env, steps, before.sent, sent[|before.sent|]);
          assert sent == before.sent + [sent[|before.sent|]];
        }
      }
    }
  }

  lemma {:induction false} FromLedgerIsBuilt(env: Env, steps: seq<Step>, sent: seq<Sent>)
    requires AllFromLedger(env, steps, sent)
    ensures AllBuilt(env, sent)
  {
    forall k | 0 <= k < |sent| ensures Built(env, sent[k]) {
      assert FromLedger(env, steps, sent[k]);
      var j: nat :| StagedAt(env, steps, j, sent[k]);
    }
  }

  lemma {:induction false} ReachKeepsAllSent(env: Env, steps: seq<Step>)
    ensures AllSent(Reach(env, steps))
    decreases |steps|
  {
    if steps != [] {
      var before, last := Reach(env, steps[..|steps| - 1]), steps[|steps| - 1];
      ReachKeepsAllSent(env, steps[..|steps| - 1]);
      if Enabled(env, before, last) {
        StepKeepsSent(env, before, last);
      }
    }
  }

  // Memory, files and a restore under way hold only requests that were sent, each for a
  // publish of a revision that the ledger had at the time.
  lemma {:induction false} ReachKeepsSent(env: Env, steps: seq<Step>)
    ensures AllSent(Reach(env, steps))
    ensures AllBuilt(env, Reach(env, steps).sent) && AllFromLedger(env, steps, Reach(env, steps).sent)
  {
    ReachKeepsAllSent(env, steps);
    ReachFromLedger(env, steps);
    FromLedgerIsBuilt(env, steps, Reach(env, steps).sent);
  }

  // ---------- Main results ----------

  // Whatever was lost, delayed or restarted: what gatewayd serves is a snapshot that the
  // publisher built from a revision of its ledger at some step of the run, and sent.
  lemma {:induction false} ServedWasBuilt(env: Env, steps: seq<Step>)
    requires Reach(env, steps).gateway.served.Some?
    ensures var s := Reach(env, steps);
            exists k, j: nat :: 0 <= k < |s.sent| && StagedAt(env, steps, j, s.sent[k])
              && s.gateway.served.value.bytes == s.sent[k].request.bytes
  {
    ReachKeepsSent(env, steps);
    var s := Reach(env, steps);
    var v := s.gateway.served.value;
    var k :| 0 <= k < |s.sent| && v.bytes == s.sent[k].request.bytes;
    assert FromLedger(env, steps, s.sent[k]);
    var j: nat :| StagedAt(env, steps, j, s.sent[k]);
  }

  // A request carries the labels of its own payload.
  lemma {:induction false} BuiltLabels(env: Env, x: Sent)
    requires Built(env, x)
    ensures LabelIn(x.request.bytes) == LabelOf(x.request) && Trim(x.request.snapshotId) == x.request.snapshotId != ""
  {
  }

  // Restored from files that were written for requests with different labels.
  predicate MixedFiles(o: Origin) {
    o.FromDisk? && o.meta.Some? && LabelOf(o.meta.value) != LabelOf(o.payload)
  }

  // The reported ids are those of the payload exactly when it did not come from files of
  // which the one with the ids was written for another request.
  lemma {:induction false} LabelsMatchIff(env: Env, steps: seq<Step>)
    requires Reach(env, steps).gateway.served.Some?
    ensures var v := Reach(env, steps).gateway.served.value;
            v.labels == LabelIn(v.bytes) <==> !MixedFiles(v.origin)
  {
    ReachKeepsSent(env, steps);
    var s := Reach(env, steps);
    var v := s.gateway.served.value;
    match v.origin
    case FromCall =>
      var k :| 0 <= k < |s.sent| && v.bytes == s.sent[k].request.bytes && v.labels == LabelOf(s.sent[k].request);
      BuiltLabels(env, s.sent[k]);
    case FromDisk(p, m) =>
      SentLabels(env, s.sent, p);
      if m.Some? {
        SentLabels(env, s.sent, m.value);
      }
  }

  lemma {:induction false} SentLabels(env: Env, sent: seq<Sent>, r: Request)
    requires AllBuilt(env, sent) && WasSent(sent, r)
    ensures LabelIn(r.bytes) == LabelOf(r) && Trim(r.snapshotId) == r.snapshotId != ""
  {
    var k :| 0 <= k < |sent| && sent[k].request == r;
    BuiltLabels(env, sent[k]);
  }

  // ---------- One call at a time ----------

  // The gateway is given a call only when no other is being handled, while it starts or later.
  predicate Serial(env: Env, steps: seq<Step>)
    decreases |steps|
  {
    steps != [] ==>
      Serial(env, steps[..|steps| - 1])
      && (steps[|steps| - 1].Deliver? ==> Reach(env, steps[..|steps| - 1]).gateway.handlers == [])
  }

  predicate Renaming(s: State) {
    |s.gateway.handlers| == 1 && s.gateway.handlers[0].stage in {PayloadRenamed, MetaWritten}
  }

  // Both files are of one request, unless the last payload rename has no meta rename after it.
  predicate FilesAgree(s: State) {
    && |s.gateway.handlers| <= 1
    && (!s.cut ==> s.disk.payload == s.disk.meta && !Renaming(s))
    && (|s.gateway.handlers| == 1 && s.gateway.handlers[0].request < |s.sent| ==>
          var r := Some(s.sent[s.gateway.handlers[0].request].request);
          && (s.gateway.handlers[0].stage.PayloadWritten? ==> s.disk.payloadTmp == r)
          && (Renaming(s) ==> s.disk.payload == r)
          && (s.gateway.handlers[0].stage.MetaWritten? ==> s.disk.metaTmp == r))
    && (forall h :: 0 <= h < |s.gateway.handlers| ==> s.gateway.handlers[h].request < |s.sent|)
  }

  lemma {:induction false} PersistingKeepsAgreement(s: State, h: nat, ok: bool)
    requires h < |s.gateway.handlers| && FilesAgree(s) && !s.gateway.handlers[h].stage.Received?
    ensures FilesAgree(Persisting(s, h, ok))
  {
  }

  lemma {:induction false} StepKeepsAgreement(env: Env, s: State, step: Step)
    requires Enabled(env, s, step) && FilesAgree(s)
    requires step.Deliver? ==> s.gateway.handlers == []
    ensures FilesAgree(Apply(env, s, step))
  {
    match step
    case Persist(h, ok) => PersistingKeepsAgreement(s, h, ok);
    case Accept(h) => HandledKeepsAgreement(s, h);
    case _ =>
  }

  lemma {:induction false} HandledKeepsAgreement(s: State, h: nat)
    requires h < |s.gateway.handlers| && s.gateway.handlers[h].stage.Received? && FilesAgree(s)
    ensures FilesAgree(Handled(s, h))
  {
  }

  lemma {:induction false} SerialKeepsAgreement(env: Env, steps: seq<Step>)
    requires Serial(env, steps)
    ensures FilesAgree(Reach(env, steps))
    decreases |steps|
  {
    if steps != [] {
      var before, last := Reach(env, steps[..|steps| - 1]), steps[|steps| - 1];
      SerialKeepsAgreement(env, steps[..|steps| - 1]);
      if Enabled(env, before, last) {
        StepKeepsAgreement(env, before, last);
      }
    }
  }

  // What a restore has read so far, by what is on disk and what was renamed meanwhile.
  predicate ReadingAgrees(s: State) {
    match s.gateway.boot
    case PayloadRead(p) => MetaAgrees(s.reading, p, s.disk.meta)
    case BothRead(p, m) => MetaAgrees(s.reading, Some(p), m)
    case _ => true
  }

  // The meta is that of the payload unless the payload had been left without it, or another
  // was renamed since the payload was read; then it is that one.
  predicate MetaAgrees(reading: Reading, payload: Option<Request>, meta: Option<Request>) {
    if reading.renamed.Some? then meta == reading.renamed else !reading.cut ==> meta == payload
  }

  predicate ServedAgrees(s: State) {
    s.gateway.served.Some? && s.gateway.served.value.origin.FromDisk? ==>
      s.gateway.boot.Over? && MetaAgrees(s.reading, Some(s.gateway.served.value.origin.payload), s.gateway.served.value.origin.meta)
  }

  // A restore serves at the end of its reading; until then only calls do.
  predicate RestoreAgrees(s: State) {
    FilesAgree(s) && ReadingAgrees(s) && ServedAgrees(s)
  }

  lemma {:induction false} PersistingKeepsRestore(s: State, h: nat, ok: bool)
    requires h < |s.gateway.handlers| && RestoreAgrees(s) && !s.gateway.handlers[h].stage.Received?
    requires ok && s.gateway.handlers[h].stage.MetaWritten? ==> s.disk.metaTmp.Some?
    ensures RestoreAgrees(Persisting(s, h, ok))
  {
    PersistingKeepsAgreement(s, h, ok);
  }

  lemma {:induction false} HandledKeepsRestore(s: State, h: nat)
    requires h < |s.gateway.handlers| && s.gateway.handlers[h].request < |s.sent| && ReadingAgrees(s) && ServedAgrees(s)
    ensures ReadingAgrees(Handled(s, h)) && ServedAgrees(Handled(s, h))
  {
  }

  lemma {:induction false} BootKeepsRestore(env: Env, s: State, step: Step)
    requires Enabled(env, s, step) && RestoreAgrees(s) && (step.BootReadPayload? || step.BootReadMeta? || step.BootApply?)
    ensures ReadingAgrees(Apply(env, s, step)) && ServedAgrees(Apply(env, s, step))
  {
  }

  lemma {:induction false} StepKeepsRestore(env: Env, s: State, step: Step)
    requires Enabled(env, s, step) && RestoreAgrees(s)
    requires step.Deliver? ==> s.gateway.handlers == []
    ensures RestoreAgrees(Apply(env, s, step))
  {
    StepKeepsAgreement(env, s, step);
    match step
    case Accept(h) => HandledKeepsRestore(s, h);
    case Persist(h, ok) => PersistingKeepsRestore(s, h, ok);
    case BootReadPayload => BootKeepsRestore(env, s, step);
    case BootReadMeta(_) => BootKeepsRestore(env, s, step);
    case BootApply => BootKeepsRestore(env, s, step);
    case _ =>
  }

  lemma {:induction false} SerialKeepsRestore(env: Env, steps: seq<Step>)
    requires Serial(env, steps)
    ensures RestoreAgrees(Reach(env, steps))
    decreases |steps|
  {
    if steps != [] {
      var before, last := Reach(env, steps[..|steps| - 1]), steps[|steps| - 1];
      SerialKeepsRestore(env, steps[..|steps| - 1]);
      if Enabled(env, before, last) {
        StepKeepsRestore(env, before, last);
      }
    }
  }

  // Serving one revision's snapshot under another's labels.
  predicate Mislabelled(s: State) {
    s.gateway.served.Some? && s.gateway.served.value.labels != LabelIn(s.gateway.served.value.bytes)
  }

  // With one call at a time, served labels are not the payload's own only after a restore that
  // found the payload left without its meta rename, or saw a meta rename between its reads.
  lemma {:induction false} MislabelledOnlyAfterCutOrRename(env: Env, steps: seq<Step>)
    requires Serial(env, steps) && Mislabelled(Reach(env, steps))
    ensures var s := Reach(env, steps);
            && s.gateway.served.value.origin.FromDisk?
            && (s.reading.cut || s.reading.renamed.Some?)
  {
    LabelsMatchIff(env, steps);
    SerialKeepsRestore(env, steps);
  }

  predicate DistinctIds(sent: seq<Sent>) {
    forall i, j :: 0 <= i < j < |sent| ==> sent[i].request.snapshotId != sent[j].request.snapshotId
  }

  lemma {:induction false} SameLabelsSameRequest(sent: seq<Sent>, a: Request, b: Request)
    requires DistinctIds(sent) && WasSent(sent, a) && WasSent(sent, b)
    ensures LabelOf(a) == LabelOf(b) <==> a == b
  {
    var i :| 0 <= i < |sent| && sent[i].request == a;
    var j :| 0 <= j < |sent| && sent[j].request == b;
    assert i != j ==> a.snapshotId != b.snapshotId;
  }

  // A restore that read payload p and labels m: the last meta rename between the two reads was
  // another request's, or there was none and the labels left on disk were another's.
  predicate ReadApart(reading: Reading, p: Request, m: Option<Request>) {
    match reading.renamed
    case Some(r) => r != p
    case None => reading.cut && m.Some? && m.value != p
  }

  // With one call at a time and distinct snapshot ids, exactly then.
  lemma {:induction false} ServedMislabelledIff(env: Env, steps: seq<Step>)
    requires Serial(env, steps) && DistinctIds(Reach(env, steps).sent) && Reach(env, steps).gateway.served.Some?
    ensures var s := Reach(env, steps);
            Mislabelled(s) <==> match s.gateway.served.value.origin
                                case FromCall => false
                                case FromDisk(p, m) => ReadApart(s.reading, p, m)
  {
    var s := Reach(env, steps);
    LabelsMatchIff(env, steps);
    SerialKeepsRestore(env, steps);
    ReachKeepsSent(env, steps);
    match s.gateway.served.value.origin
    case FromCall =>
    case FromDisk(p, m) =>
      if m.Some? {
        SameLabelsSameRequest(s.sent, m.value, p);
      }
  }

  // ---------- The control side keeps its invariants ----------

  predicate ControlValid(s: State) {
    && ValidWorld(s.world)
    && (s.waiting.Some? ==> s.world.ledger.publishes != [] && 0 <= s.waiting.value.revision < |s.world.ledger.revisions|)
  }

  lemma {:induction false} BeginStaysValid(env: Env, s: State, w: World, i: int, kind: string, t: Ticket, stored: bool)
    requires Publishable(env, w.ledger, i, t) && ValidWorld(w)
    ensures ControlValid(Begin(env, s, w, i, kind, t, stored))
  {
    StagedWorldValid(env, w, i, kind, t, stored);
    StagedStaysValid(w.ledger, i, Compiled(env, w.ledger.revisions[i], t.now).value, kind, t);
  }

  lemma {:induction false} AppendedStaysValid(w: World, r: Revision)
    requires ValidWorld(w) && r.id != "" && Trim(r.id) == r.id && r.id !in Ids(w.ledger.revisions)
    ensures ValidWorld(w.(ledger := Appended(w.ledger, r)))
  {
    StillWellNamed(w.ledger.revisions, r);
  }

  lemma {:induction false} EndStaysValid(w: World, i: int, reply: Reply, stored: bool)
    requires ValidWorld(w) && w.ledger.publishes != [] && 0 <= i < |w.ledger.revisions|
    ensures ValidWorld(Save(w, SettledLedger(w.ledger, i, reply), stored))
  {
    SettledStaysValid(w.ledger, i, reply);
    var status := if reply.Applied? then Observed else Failed;
    forall error ensures SettledBut(WithLast(w.ledger.publishes, status, error), w.open) {
    }
    LimitedKeepsSettled(w.ledger.(publishes := WithLast(w.ledger.publishes, Observed, ""), active := i), w.open);
    SaveStaysValid(w, SettledLedger(w.ledger, i, reply), stored);
  }

  lemma {:induction false} StepKeepsControlValid(env: Env, s: State, step: Step)
    requires Enabled(env, s, step) && ControlValid(s)
    ensures ControlValid(Apply(env, s, step))
  {
    match step
    case Call(op) => AfterStaysValid(env, s.world, op);
    case BeginPublish(id, kind, t, stored) =>
      BeginStaysValid(env, s, s.world, Find(s.world.ledger.revisions, id), kind, t, stored);
    case BeginUpdate(config, about, newId, t, stored) =>
      NewRevisionCompiles(env, config, about, newId, t);
      var r := NewRevision(env, config, about, newId, t);
      AppendedStaysValid(s.world, r);
      BeginStaysValid(env, s, s.world.(ledger := Appended(s.world.ledger, r)), |s.world.ledger.revisions|, "publish", t, stored);
    case EndPublish(reply, stored) => EndStaysValid(s.world, s.waiting.value.revision, reply, stored);
    case ControlCrash => RestartStaysValid(s.world.durable, s.world.open);
    case _ =>
  }

  lemma {:induction false} ReachKeepsControlValid(env: Env, steps: seq<Step>)
    ensures ControlValid(Reach(env, steps))
    decreases |steps|
  {
    if steps != [] {
      var before, last := Reach(env, steps[..|steps| - 1]), steps[|steps| - 1];
      ReachKeepsControlValid(env, steps[..|steps| - 1]);
      if Enabled(env, before, last) {
        StepKeepsControlValid(env, before, last);
      }
    }
  }

  // A snapshot that a caller brings is that of its configuration; strictly, no configuration
  // asks for no pricing sources either.
  predicate SoundStep(env: Env, strict: bool, step: Step) {
    match step
    case Call(op) => SoundOp(env, strict, op)
    case BeginUpdate(config, _, _, _, _) => strict ==> !EmptySourcesChosen(config)
    case _ => true
  }

  lemma {:induction false} BeginUpdateSound(env: Env, strict: bool, w: World, config: Config, about: string, newId: string, t: Ticket, stored: bool)
    requires SoundWorld(env, strict, w) && CompilePayload(env, config).Ok? && (strict ==> !EmptySourcesChosen(config))
    ensures var r := NewRevision(env, config, about, newId, t);
            && Compiled(env, r, t.now).Ok?
            && SoundWorld(env, strict, StagedWorld(env, w.(ledger := Appended(w.ledger, r)), |w.ledger.revisions|, "publish", t, stored))
  {
    NewRevisionCompiles(env, config, about, newId, t);
    var grown := w.(ledger := Appended(w.ledger, NewRevision(env, config, about, newId, t)));
    NewRevisionSound(env, strict, config, about, newId, t);
    AllSoundWith(env, strict, w.ledger.revisions, -1, NewRevision(env, config, about, newId, t));
    StagedWorldSound(env, strict, grown, |w.ledger.revisions|, "publish", t, stored);
  }

  lemma {:induction false} EndStaysSound(env: Env, strict: bool, w: World, i: int, reply: Reply, stored: bool)
    requires SoundWorld(env, strict, w) && w.ledger.publishes != []
    ensures SoundWorld(env, strict, Save(w, SettledLedger(w.ledger, i, reply), stored))
  {
    SettlingKeepsRevisions(w.ledger, i, reply);
    SaveStaysSound(env, strict, w, SettledLedger(w.ledger, i, reply), stored);
  }

  lemma {:induction false} StepKeepsSound(env: Env, strict: bool, s: State, step: Step)
    requires Enabled(env, s, step) && SoundStep(env, strict, step) && SoundWorld(env, strict, s.world)
    ensures SoundWorld(env, strict, Apply(env, s, step).world)
  {
    match step
    case Call(op) => AfterStaysSound(env, strict, s.world, op);
    case BeginPublish(id, kind, t, stored) =>
      StagedWorldSound(env, strict, s.world, Find(s.world.ledger.revisions, id), kind, t, stored);
    case BeginUpdate(config, about, newId, t, stored) =>
      BeginUpdateSound(env, strict, s.world, config, about, newId, t, stored);
    case EndPublish(reply, stored) => EndStaysSound(env, strict, s.world, s.waiting.value.revision, reply, stored);
    case ControlCrash => RestartedSound(env, strict, s.world.durable);
    case _ => GatewayActsAlone(env, s, step);
  }

  lemma {:induction false} ReachKeepsSound(env: Env, strict: bool, steps: seq<Step>)
    requires forall k :: 0 <= k < |steps| ==> SoundStep(env, strict, steps[k])
    ensures SoundWorld(env, strict, Reach(env, steps).world)
    decreases |steps|
  {
    if steps != [] {
      var before, last := Reach(env, steps[..|steps| - 1]), steps[|steps| - 1];
      ReachKeepsSound(env, strict, steps[..|steps| - 1]);
      if Enabled(env, before, last) {
        StepKeepsSound(env, strict, before, last);
      }
    }
  }

  // ---------- Convergence ----------

  // The active revision's request under a new ticket.
  function ActiveRequest(env: Env, l: Ledger, t: Ticket): Request
    requires HasActive(l) && Publishable(env, l, l.active, t)
  {
    RequestFor(l.revisions[l.active], Compiled(env, l.revisions[l.active], t.now).value, t)
  }

  lemma {:induction false} FindActive(l: Ledger)
    requires Valid(l) && HasActive(l)
    ensures Find(l.revisions, l.revisions[l.active].id) == l.active
  {
    assert Ids(l.revisions)[l.active] == l.revisions[l.active].id;
  }

  predicate Republishable(env: Env, s: State, t: Ticket) {
    && s.waiting.None? && s.gateway.up && HasActive(s.world.ledger)
    && Publishable(env, s.world.ledger, s.world.ledger.active, t)
    && Acceptable(LabelOf(ActiveRequest(env, s.world.ledger, t)), ActiveRequest(env, s.world.ledger, t).bytes)
  }

  // Whether the gateway serves what the request says, under its labels.
  predicate Serves(s: State, r: Request) {
    s.gateway.served.Some? && s.gateway.served.value.labels == LabelOf(r) && s.gateway.served.value.bytes == r.bytes
  }

  // Not the handling of a call, nor a start or a crash of the gateway.
  predicate QuietStep(step: Step) {
    !step.Accept? && !step.GatewayStart? && !step.GatewayCrash?
  }

  // After base, no other call is accepted and the gateway neither starts nor dies.
  predicate Quiet(env: Env, base: seq<Step>, rest: seq<Step>)
    decreases |rest|
  {
    rest != [] ==>
      var front, last := rest[..|rest| - 1], rest[|rest| - 1];
      Quiet(env, base, front) && (Enabled(env, Reach(env, base + front), last) ==> QuietStep(last))
  }

  // The end of a restore that serves something else than the request.
  predicate Undoes(env: Env, s: State, step: Step, r: Request) {
    step.BootApply? && Enabled(env, s, step)
    && var p, m := s.gateway.boot.bytes, s.gateway.boot.meta;
       Acceptable(RestoreLabel(p, m), p.bytes) && !(RestoreLabel(p, m) == LabelOf(r) && p.bytes == r.bytes)
  }

  predicate Undone(env: Env, base: seq<Step>, rest: seq<Step>, r: Request)
    decreases |rest|
  {
    rest != [] &&
      var front, last := rest[..|rest| - 1], rest[|rest| - 1];
      Undone(env, base, front, r) || Undoes(env, Reach(env, base + front), last, r)
  }

  lemma {:induction false} QuietNext(env: Env, s: State, step: Step, r: Request)
    requires Enabled(env, s, step) ==> QuietStep(step)
    ensures s.gateway.boot.Over? ==> Next(env, s, step).gateway.served == s.gateway.served && Next(env, s, step).gateway.boot.Over?
    ensures s.gateway.boot.Over? ==> !Undoes(env, s, step, r)
    ensures Undoes(env, s, step, r) ==> Next(env, s, step).gateway.boot.Over? && !Serves(Next(env, s, step), r)
    ensures !Undoes(env, s, step, r) && Serves(s, r) ==> Serves(Next(env, s, step), r)
  {
  }

  lemma {:induction false} QuietLast(env: Env, base: seq<Step>, rest: seq<Step>)
    requires rest != []
    ensures var n := |rest| - 1; Reach(env, base + rest) == Next(env, Reach(env, base + rest[..n]), rest[n])
  {
    var n := |rest| - 1;
    assert base + rest == base + rest[..n] + [rest[n]];
    ReachTail(env, base + rest[..n], rest[n]);
  }

  // From a state that serves the request, a quiet run ends in one that does unless a restore
  // that was under way has served something else.
  lemma {:induction false} QuietRunServes(env: Env, base: seq<Step>, rest: seq<Step>, r: Request)
    requires Serves(Reach(env, base), r) && Quiet(env, base, rest)
    ensures Serves(Reach(env, base + rest), r) <==> !Undone(env, base, rest, r)
    ensures Undone(env, base, rest, r) || Reach(env, base).gateway.boot.Over? ==> Reach(env, base + rest).gateway.boot.Over?
    ensures Reach(env, base).gateway.boot.Over? ==> !Undone(env, base, rest, r)
    decreases |rest|
  {
    if rest == [] {
      assert base + rest == base;
    } else {
      var n := |rest| - 1;
      QuietRunServes(env, base, rest[..n], r);
      QuietLast(env, base, rest);
      QuietNext(env, Reach(env, base + rest[..n]), rest[n], r);
    }
  }

  // What was sent stays at its place.
  lemma {:induction false} SentStays(env: Env, steps: seq<Step>, more: seq<Step>)
    ensures Reach(env, steps).sent <= Reach(env, steps + more).sent
    decreases |more|
  {
    if more == [] {
      assert steps + more == steps;
    } else {
      var n := |more| - 1;
      var s := Reach(env, steps + more[..n]);
      SentStays(env, steps, more[..n]);
      assert steps + more == steps + more[..n] + [more[n]];
      ReachTail(env, steps + more[..n], more[n]);
      if Enabled(env, s, more[n]) {
        StepSends(env, s, more[n]);
      }
    }
  }

  // The h-th call being handled is that of request r, which was sent k-th and can be served.
  predicate Arrived(env: Env, s: State, h: nat, k: nat, r: Request) {
    Enabled(env, s, Accept(h)) && s.gateway.handlers[h].request == k && Acceptable(LabelOf(r), r.bytes)
  }

  lemma {:induction false} AcceptedIsServed(env: Env, steps: seq<Step>, h: nat, k: nat, r: Request)
    requires Arrived(env, Reach(env, steps), h, k, r) && Reach(env, steps).sent[k].request == r
    ensures Serves(Reach(env, steps + [Accept(h)]), r)
    ensures Reach(env, steps + [Accept(h)]).gateway.boot == Reach(env, steps).gateway.boot
  {
    ReachTail(env, steps, Accept(h));
  }

  // The active revision can be published, and no publish is under way.
  predicate Ready(env: Env, s: State, t: Ticket) {
    s.waiting.None? && HasActive(s.world.ledger) && Publishable(env, s.world.ledger, s.world.ledger.active, t)
  }

  // The run on through the publish of the active revision and what follows it.
  function Called(env: Env, steps: seq<Step>, t: Ticket, stored: bool, mid: seq<Step>): seq<Step>
    requires HasActive(Reach(env, steps).world.ledger)
  {
    var l := Reach(env, steps).world.ledger;
    steps + [BeginPublish(l.revisions[l.active].id, "publish", t, stored)] + mid
  }

  lemma {:induction false} RepublishSends(env: Env, steps: seq<Step>, t: Ticket, stored: bool)
    requires Ready(env, Reach(env, steps), t)
    ensures var s, begun := Reach(env, steps), Reach(env, Called(env, steps, t, stored, []));
            && begun.sent == s.sent + [Sent(ActiveRequest(env, s.world.ledger, t), s.world.ledger.revisions[s.world.ledger.active], t)]
            && begun.gateway == s.gateway
  {
    var s := Reach(env, steps);
    var publish := BeginPublish(s.world.ledger.revisions[s.world.ledger.active].id, "publish", t, stored);
    ReachKeepsControlValid(env, steps);
    assert steps + [publish] + [] == steps + [publish];
    ReachTail(env, steps, publish);
    ActiveIsSent(env, s, t, stored);
  }

  lemma {:induction false} ActiveIsSent(env: Env, s: State, t: Ticket, stored: bool)
    requires Ready(env, s, t) && ControlValid(s)
    ensures var begun := Next(env, s, BeginPublish(s.world.ledger.revisions[s.world.ledger.active].id, "publish", t, stored));
            && begun.sent == s.sent + [Sent(ActiveRequest(env, s.world.ledger, t), s.world.ledger.revisions[s.world.ledger.active], t)]
            && begun.gateway == s.gateway
  {
    FindActive(s.world.ledger);
  }

  lemma {:induction false} RepublishArrives(env: Env, steps: seq<Step>, t: Ticket, stored: bool, mid: seq<Step>, h: nat)
    requires Ready(env, Reach(env, steps), t)
    requires Arrived(env, Reach(env, Called(env, steps, t, stored, mid)), h, |Reach(env, steps).sent|,
                     ActiveRequest(env, Reach(env, steps).world.ledger, t))
    ensures var l := Reach(env, steps).world.ledger;
            var r, called := ActiveRequest(env, l, t), Called(env, steps, t, stored, mid);
            && Serves(Reach(env, called + [Accept(h)]), r)
            && Reach(env, called + [Accept(h)]).gateway.boot == Reach(env, called).gateway.boot
            && LabelIn(r.bytes) == LabelOf(r) && r.revisionId == l.revisions[l.active].id
  {
    var s := Reach(env, steps);
    var begun := Called(env, steps, t, stored, []);
    var k := |s.sent|;
    RepublishSends(env, steps, t, stored);
    SentStays(env, begun, mid);
    assert begun + mid == Called(env, steps, t, stored, mid);
    BuiltLabels(env, Reach(env, begun).sent[k]);
    assert Reach(env, begun + mid).sent[k] == Reach(env, begun).sent[k];
    AcceptedIsServed(env, begun + mid, h, k, ActiveRequest(env, s.world.ledger, t));
  }

  // From any reachable state, whatever happens between the publish of the active revision and
  // the handling of its call, and whatever else happens after that but another call, a start or
  // a crash of the gateway: it serves exactly that revision's snapshot under its own labels,
  // unless a restore that was still under way has served something else.
  lemma {:induction false} RepublishConverges(env: Env, steps: seq<Step>, t: Ticket, stored: bool, mid: seq<Step>, h: nat, rest: seq<Step>)
    requires Ready(env, Reach(env, steps), t)
    requires Arrived(env, Reach(env, Called(env, steps, t, stored, mid)), h, |Reach(env, steps).sent|,
                     ActiveRequest(env, Reach(env, steps).world.ledger, t))
    requires Quiet(env, Called(env, steps, t, stored, mid) + [Accept(h)], rest)
    ensures var l := Reach(env, steps).world.ledger;
            var r, called := ActiveRequest(env, l, t), Called(env, steps, t, stored, mid);
            && (Serves(Reach(env, called + [Accept(h)] + rest), r) <==> !Undone(env, called + [Accept(h)], rest, r))
            && (Reach(env, called).gateway.boot.Over? ==> Serves(Reach(env, called + [Accept(h)] + rest), r))
            && LabelIn(r.bytes) == LabelOf(r) && r.revisionId == l.revisions[l.active].id
  {
    RepublishArrives(env, steps, t, stored, mid, h);
    QuietRunServes(env, Called(env, steps, t, stored, mid) + [Accept(h)], rest, ActiveRequest(env, Reach(env, steps).world.ledger, t));
  }

  // Where a restore has read both files when the call is handled, and would serve something
  // else, its end is all it takes to undo the call.
  lemma {:induction false} RestoreUndoesCall(env: Env, base: seq<Step>, r: Request)
    requires Serves(Reach(env, base), r) && Undoes(env, Reach(env, base), BootApply, r)
    ensures Quiet(env, base, [BootApply]) && !Serves(Reach(env, base + [BootApply]), r)
  {
    assert [BootApply][..0] == [] && base + [] == base;
    QuietRunServes(env, base, [BootApply], r);
  }

  // What it serves then is what the active configuration compiles to.
  lemma {:induction false} ConvergedIsCompiled(env: Env, steps: seq<Step>, t: Ticket)
    requires forall k :: 0 <= k < |steps| ==> SoundStep(env, true, steps[k])
    requires var l := Reach(env, steps).world.ledger;
             HasActive(l) && Publishable(env, l, l.active, t) && l.revisions[l.active].config.Some?
    ensures var l := Reach(env, steps).world.ledger;
            Ok(ActiveRequest(env, l, t).bytes.payload) == CompilePayload(env, l.revisions[l.active].config.value)
  {
    ReachKeepsSound(env, true, steps);
    var l := Reach(env, steps).world.ledger;
    KeptSnapshotIsFresh(env, l.revisions[l.active], t.now);
  }

  // With updates of any configuration: exactly when that snapshot has pricing sources or the
  // configuration means none.
  lemma {:induction false} ConvergedIsCompiledIff(env: Env, steps: seq<Step>, t: Ticket)
    requires forall k :: 0 <= k < |steps| ==> SoundStep(env, false, steps[k])
    requires var l := Reach(env, steps).world.ledger;
             HasActive(l) && Publishable(env, l, l.active, t) && l.revisions[l.active].config.Some?
    ensures var l := Reach(env, steps).world.ledger;
            var sent, c := ActiveRequest(env, l, t).bytes.payload, l.revisions[l.active].config.value;
            Ok(sent) == CompilePayload(env, c) <==> sent.sources != [] || Meaning(c).pricing.sources == []
  {
    ReachKeepsSound(env, false, steps);
    var l := Reach(env, steps).world.ledger;
    FreshIff(env, l.revisions[l.active], t.now);
  }

  function Renumbered(r: Request, snapshotId: string): Request {
    r.(snapshotId := snapshotId, bytes := r.bytes.(meta := r.bytes.meta.(snapshotId := snapshotId)))
  }

  // Publishing the same revision again differs in the snapshot id alone exactly when the
  // snapshot kept has a time of its own (or the clock stood still).
  lemma {:induction false} RepublishChangesOnlyTheIdIff(env: Env, l: Ledger, i: int, kind: string, t: Ticket, again: Ticket)
    requires Publishable(env, l, i, t) && GoodTicket(again)
    requires !NeedsRefresh(Compiled(env, l.revisions[i], t.now).value.payload)
    ensures var snapshot := Compiled(env, l.revisions[i], t.now).value;
            var staged := StagedLedger(l, i, snapshot, kind, t);
            && Publishable(env, staged, i, again)
            && var first := RequestFor(l.revisions[i], snapshot, t);
               var second := RequestFor(staged.revisions[i], Compiled(env, staged.revisions[i], again.now).value, again);
               second == Renumbered(first, again.snapshotId) <==> snapshot.meta.generatedAt != 0 || t.now == again.now
  {
  }

  // ---------- Two runs that go wrong ----------

  lemma {:induction false} ReachTail(env: Env, steps: seq<Step>, last: Step)
    ensures Reach(env, steps + [last]) == Next(env, Reach(env, steps), last)
    ensures Serial(env, steps) && (last.Deliver? ==> Reach(env, steps).gateway.handlers == []) ==> Serial(env, steps + [last])
  {
    assert (steps + [last])[..|steps|] == steps;
  }

  // A request with this snapshot id and revision id, its own labels, and fit to be served.
  predicate Proper(r: Request, t: Ticket, revisionId: string) {
    r.snapshotId == t.snapshotId && r.revisionId == revisionId && LabelIn(r.bytes) == LabelOf(r) && Acceptable(LabelOf(r), r.bytes)
  }

  // A gateway that is handling one accepted call, with its request.
  predicate Handling(s: State, k: nat, r: Request) {
    s.gateway.up && s.gateway.handlers == [Handler(k, Accepted)] && k < |s.sent| && s.sent[k].request == r
  }

  // The first two file operations of a handler.
  lemma {:induction false} RenamePayload(env: Env, steps: seq<Step>, k: nat, r: Request) returns (more: seq<Step>)
    requires Handling(Reach(env, steps), k, r)
    ensures var s, s' := Reach(env, steps), Reach(env, more);
            && s'.disk.payload == Some(r) && s'.disk.meta == s.disk.meta
            && s'.gateway == s.gateway.(handlers := [Handler(k, PayloadRenamed)])
            && s'.world == s.world && s'.sent == s.sent && s'.waiting == s.waiting && s'.replies == s.replies
    ensures Serial(env, steps) ==> Serial(env, more)
  {
    ReachTail(env, steps, Persist(0, true));
    more := steps + [Persist(0, true)];
    ReachTail(env, more, Persist(0, true));
    more := more + [Persist(0, true)];
  }

  // And the other two.
  lemma {:induction false} RenameMeta(env: Env, steps: seq<Step>, k: nat, r: Request) returns (more: seq<Step>)
    requires var s := Reach(env, steps); s.gateway.handlers == [Handler(k, PayloadRenamed)] && k < |s.sent| && s.sent[k].request == r
    ensures var s, s' := Reach(env, steps), Reach(env, more);
            && s'.disk.payload == s.disk.payload && s'.disk.meta == Some(r)
            && s'.gateway == s.gateway.(handlers := []) && s'.replies == s.replies[k := true]
            && s'.world == s.world && s'.sent == s.sent && s'.waiting == s.waiting
    ensures Serial(env, steps) ==> Serial(env, more)
  {
    ReachTail(env, steps, Persist(0, true));
    more := steps + [Persist(0, true)];
    ReachTail(env, more, Persist(0, true));
    more := more + [Persist(0, true)];
  }

  lemma {:induction false} StagedIds(env: Env, l: Ledger, r: Revision, t: Ticket)
    requires Compiled(env, r, t.now).Ok?
    ensures var staged := StagedLedger(Appended(l, r), |l.revisions|, Compiled(env, r, t.now).value, "publish", t);
            Ids(staged.revisions) == Ids(l.revisions) + [r.id]
  {
  }

  lemma {:induction false} NewRequest(env: Env, c: Config, newId: string, t: Ticket)
    requires CompilePayload(env, c).Ok? && GoodTicket(t)
    ensures var rev := NewRevision(env, c, "", newId, t);
            && Compiled(env, rev, t.now).Ok?
            && var r := RequestFor(rev, Compiled(env, rev, t.now).value, t);
               Proper(r, t, newId)
  {
    NewRevisionCompiles(env, c, "", newId, t);
  }

  // A new revision as the ledger keeps it once it is published, with its snapshot.
  function Kept(env: Env, c: Config, id: string, t: Ticket): Revision
    requires CompilePayload(env, c).Ok?
  {
    NewRevisionCompiles(env, c, "", id, t);
    var r := NewRevision(env, c, "", id, t);
    r.(snapshot := Some(Compiled(env, r, t.now).value))
  }

  lemma {:induction false} KeptRequest(env: Env, c: Config, id: string, t: Ticket, again: Ticket)
    requires CompilePayload(env, c).Ok? && GoodTicket(again)
    ensures var r := Kept(env, c, id, t);
            && r.id == id && Compiled(env, r, again.now).Ok?
            && var request := RequestFor(r, Compiled(env, r, again.now).value, again);
               Proper(request, again, id)
  {
    NewRevisionCompiles(env, c, "", id, t);
    var first := Compiled(env, NewRevision(env, c, "", id, t), t.now).value;
    assert first.meta.schema == CURRENT_SCHEMA && first.payload.providers != [] && first.payload.listen != "";
  }

  lemma {:induction false} StagedNew(env: Env, l: Ledger, c: Config, newId: string, t: Ticket)
    requires CompilePayload(env, c).Ok?
    ensures var r := NewRevision(env, c, "", newId, t);
            && Compiled(env, r, t.now).Ok?
            && var staged := StagedLedger(Appended(l, r), |l.revisions|, Compiled(env, r, t.now).value, "publish", t);
               staged.revisions == l.revisions + [Kept(env, c, newId, t)] && staged.active == l.active
  {
    NewRevisionCompiles(env, c, "", newId, t);
    ReplaceLast(l.revisions, NewRevision(env, c, "", newId, t), Kept(env, c, newId, t));
  }

  lemma {:induction false} BeginUpdateSends(env: Env, s: State, c: Config, newId: string, t: Ticket)
    requires s.waiting.None? && CompilePayload(env, c).Ok? && GoodTicket(t)
    requires newId != "" && Trim(newId) == newId && newId !in Ids(s.world.ledger.revisions)
    ensures var s' := Next(env, s, BeginUpdate(c, "", newId, t, true));
            && s'.gateway == s.gateway && s'.disk == s.disk && s'.replies == s.replies
            && |s'.sent| == |s.sent| + 1 && s'.sent[..|s.sent|] == s.sent
            && s'.waiting == Some(Waiting(|s.sent|, |s.world.ledger.revisions|))
            && Ids(s'.world.ledger.revisions) == Ids(s.world.ledger.revisions) + [newId]
            && s'.world.ledger.revisions == s.world.ledger.revisions + [Kept(env, c, newId, t)]
            && s'.world.ledger.active == s.world.ledger.active
            && var r := s'.sent[|s.sent|].request;
               Proper(r, t, newId)
  {
    NewRequest(env, c, newId, t);
    StagedIds(env, s.world.ledger, NewRevision(env, c, "", newId, t), t);
    StagedNew(env, s.world.ledger, c, newId, t);
    assert Appended(s.world.ledger, NewRevision(env, c, "", newId, t)).revisions[|s.world.ledger.revisions|] == NewRevision(env, c, "", newId, t);
  }

  lemma {:induction false} DeliverAndAccept(env: Env, steps: seq<Step>, k: nat) returns (more: seq<Step>)
    requires var s := Reach(env, steps);
             && s.gateway.up && s.gateway.handlers == [] && k < |s.sent|
             && Acceptable(LabelOf(s.sent[k].request), s.sent[k].request.bytes)
    ensures var s, s' := Reach(env, steps), Reach(env, more);
            && Handling(s', k, s.sent[k].request) && s'.gateway.boot == s.gateway.boot && s'.disk == s.disk
            && s'.world == s.world && s'.sent == s.sent && s'.waiting == s.waiting && s'.replies == s.replies
    ensures Serial(env, steps) ==> Serial(env, more)
  {
    ReachTail(env, steps, Deliver(k));
    more := steps + [Deliver(k)];
    ReachTail(env, more, Accept(0));
    more := more + [Accept(0)];
  }

  lemma {:induction false} FirstUpdate(env: Env, c: Config, t: Ticket) returns (steps: seq<Step>, r: Request)
    requires CompilePayload(env, c).Ok? && GoodTicket(t)
    ensures var s := Reach(env, steps);
            && s.waiting == Some(Waiting(0, 0)) && s.gateway == START.gateway
            && |s.sent| == 1 && s.sent[0].request == r && s.world.ledger.revisions == [Kept(env, c, "rev1", t)]
            && Proper(r, t, "rev1")
    ensures Serial(env, steps)
  {
    var none, update := [], BeginUpdate(c, "", "rev1", t, true);
    TrimmedStays("rev1");
    ReachTail(env, none, update);
    BeginUpdateSends(env, START, c, "rev1", t);
    steps := none + [update];
    r := Reach(env, steps).sent[0].request;
    assert NEW.revisions + [Kept(env, c, "rev1", t)] == [Kept(env, c, "rev1", t)];
  }

  lemma {:induction false} StartGateway(env: Env, steps: seq<Step>) returns (more: seq<Step>)
    requires !Reach(env, steps).gateway.up
    ensures Reach(env, more) == Reach(env, steps).(gateway := Gateway(true, None, NotRead, []))
    ensures Serial(env, steps) ==> Serial(env, more)
  {
    ReachTail(env, steps, GatewayStart);
    more := steps + [GatewayStart];
  }

  // One revision sent to a running gateway.
  lemma {:induction false} FirstSent(env: Env, c: Config, t: Ticket) returns (steps: seq<Step>, r: Request)
    requires CompilePayload(env, c).Ok? && GoodTicket(t)
    ensures var s := Reach(env, steps);
            && s.waiting == Some(Waiting(0, 0)) && s.gateway.up && s.gateway.handlers == []
            && |s.sent| == 1 && s.sent[0].request == r && s.world.ledger.revisions == [Kept(env, c, "rev1", t)]
            && Proper(r, t, "rev1")
    ensures Serial(env, steps)
  {
    steps, r := FirstUpdate(env, c, t);
    steps := StartGateway(env, steps);
  }

  // The publisher hears that its call was applied.
  lemma {:induction false} HearApplied(env: Env, steps: seq<Step>) returns (more: seq<Step>)
    requires var s := Reach(env, steps);
             s.waiting.Some? && s.waiting.value.request in s.replies && s.replies[s.waiting.value.request]
    ensures var s, s' := Reach(env, steps), Reach(env, more);
            && s'.waiting.None? && s'.gateway == s.gateway && s'.disk == s.disk && s'.sent == s.sent && s'.replies == s.replies
            && s'.world.ledger.revisions == s.world.ledger.revisions && s'.world.ledger.active == s.waiting.value.revision
    ensures Serial(env, steps) ==> Serial(env, more)
  {
    ReachKeepsControlValid(env, steps);
    var s := Reach(env, steps);
    SettledStaysValid(s.world.ledger, s.waiting.value.revision, Applied);
    ReachTail(env, steps, EndPublish(Applied, true));
    more := steps + [EndPublish(Applied, true)];
  }

  // One revision published and applied, both files written for it.
  lemma {:induction false} FirstPublished(env: Env, c: Config, t: Ticket) returns (steps: seq<Step>, r: Request)
    requires CompilePayload(env, c).Ok? && GoodTicket(t)
    ensures var s := Reach(env, steps);
            && s.waiting.None? && s.gateway.up && s.gateway.handlers == []
            && s.disk.payload == Some(r) && s.disk.meta == Some(r)
            && |s.sent| == 1 && s.sent[0].request == r && Proper(r, t, "rev1")
            && s.world.ledger.revisions == [Kept(env, c, "rev1", t)] && s.world.ledger.active == 0
    ensures Serial(env, steps)
  {
    steps, r := FirstSent(env, c, t);
    steps := DeliverAndAccept(env, steps, 0);
    steps := RenamePayload(env, steps, 0, r);
    steps := RenameMeta(env, steps, 0, r);
    steps := HearApplied(env, steps);
  }

  // The first of two revisions is the active one.
  predicate FirstIsActive(env: Env, s: State, c: Config, t: Ticket)
    requires CompilePayload(env, c).Ok?
  {
    |s.world.ledger.revisions| == 2 && s.world.ledger.revisions[0] == Kept(env, c, "rev1", t) && s.world.ledger.active == 0
  }

  // ... and a second one sent.
  lemma {:induction false} SecondSent(env: Env, c: Config, t: Ticket, t2: Ticket) returns (steps: seq<Step>, r: Request, r2: Request)
    requires CompilePayload(env, c).Ok? && GoodTicket(t) && GoodTicket(t2)
    ensures var s := Reach(env, steps);
            && s.gateway.up && s.gateway.handlers == [] && s.disk.payload == Some(r) && s.disk.meta == Some(r)
            && |s.sent| == 2 && s.sent[0].request == r && s.sent[1].request == r2
            && Proper(r, t, "rev1") && Proper(r2, t2, "rev2")
            && s.waiting == Some(Waiting(1, 1)) && FirstIsActive(env, s, c, t)
    ensures Serial(env, steps)
  {
    steps, r := FirstPublished(env, c, t);
    TrimmedStays("rev2");
    var update := BeginUpdate(c, "", "rev2", t2, true);
    BeginUpdateSends(env, Reach(env, steps), c, "rev2", t2);
    ReachTail(env, steps, update);
    steps := steps + [update];
    r2 := Reach(env, steps).sent[1].request;
  }

  // A gateway restart that reads both files.
  lemma {:induction false} RestartAndRead(env: Env, steps: seq<Step>) returns (more: seq<Step>)
    requires Reach(env, steps).gateway.up && Reach(env, steps).disk.payload.Some?
    ensures var s, s' := Reach(env, steps), Reach(env, more);
            && s'.gateway == Gateway(true, None, BothRead(s.disk.payload.value, s.disk.meta), [])
            && s'.sent == s.sent && s'.disk == s.disk && s'.replies == s.replies
            && s'.world == s.world && s'.waiting == s.waiting
    ensures Serial(env, steps) ==> Serial(env, more)
  {
    ReachTail(env, steps, GatewayCrash);
    more := steps + [GatewayCrash];
    ReachTail(env, more, GatewayStart);
    more := more + [GatewayStart];
    ReachTail(env, more, BootReadPayload);
    more := more + [BootReadPayload];
    ReachTail(env, more, BootReadMeta(true));
    more := more + [BootReadMeta(true)];
  }

  lemma {:induction false} BootServes(env: Env, steps: seq<Step>, p: Request, m: Request) returns (more: seq<Step>)
    requires var s := Reach(env, steps); s.gateway.up && s.gateway.boot == BothRead(p, Some(m))
    requires Trim(m.snapshotId) != "" && Acceptable(LabelOf(m), p.bytes)
    ensures var s, s' := Reach(env, steps), Reach(env, more);
            && s'.gateway.served == Some(Served(LabelOf(m), p.bytes, FromDisk(p, Some(m))))
            && s'.sent == s.sent && s'.replies == s.replies && s'.disk == s.disk
            && s'.world == s.world && s'.waiting == s.waiting && s'.gateway.up
    ensures Serial(env, steps) ==> Serial(env, more)
  {
    ReachTail(env, steps, BootApply);
    more := steps + [BootApply];
  }

  lemma {:induction false} CutRun(env: Env, c: Config, t: Ticket, t2: Ticket) returns (steps: seq<Step>, r: Request, r2: Request)
    requires CompilePayload(env, c).Ok? && GoodTicket(t) && GoodTicket(t2)
    ensures Reach(env, steps).gateway.served == Some(Served(LabelOf(r), r2.bytes, FromDisk(r2, Some(r))))
    ensures r.revisionId == "rev1" && r2.bytes.meta.revisionId == "rev2"
    ensures var s := Reach(env, steps); s.gateway.up && s.waiting == Some(Waiting(1, 1)) && FirstIsActive(env, s, c, t)
  {
    steps, r, r2 := SecondSent(env, c, t, t2);
    steps := DeliverAndAccept(env, steps, 1);
    steps := RenamePayload(env, steps, 1, r2);
    steps := RestartAndRead(env, steps);
    steps := BootServes(env, steps, r2, r);
  }

  // The gateway dies between its two renames and restarts: it serves the second revision's
  // snapshot and reports the first one's ids.
  lemma {:induction false} CutThenRestartMislabels(env: Env, c: Config, t: Ticket, t2: Ticket)
    requires CompilePayload(env, c).Ok? && GoodTicket(t) && GoodTicket(t2)
    ensures exists steps :: var g := Reach(env, steps).gateway;
              g.served.Some? && g.served.value.labels.revisionId == "rev1" && g.served.value.bytes.meta.revisionId == "rev2"
  {
    var steps, r, r2 := CutRun(env, c, t, t2);
    assert Reach(env, steps).gateway.served.Some?;
  }

  // The publisher's call comes to nothing.
  lemma {:induction false} HearFailure(env: Env, steps: seq<Step>) returns (more: seq<Step>)
    requires Reach(env, steps).waiting.Some?
    ensures var s, s' := Reach(env, steps), Reach(env, more);
            && s'.waiting.None? && s'.gateway == s.gateway && s'.sent == s.sent
            && s'.world.ledger.revisions == s.world.ledger.revisions && s'.world.ledger.active == s.world.ledger.active
    ensures Serial(env, steps) ==> Serial(env, more)
  {
    ReachKeepsControlValid(env, steps);
    var s := Reach(env, steps);
    SettledStaysValid(s.world.ledger, s.waiting.value.revision, CallFailed(""));
    ReachTail(env, steps, EndPublish(CallFailed(""), true));
    more := steps + [EndPublish(CallFailed(""), true)];
  }

  lemma {:induction false} MislabelledRun(env: Env, c: Config, t: Ticket, t2: Ticket, t3: Ticket) returns (steps: seq<Step>)
    requires CompilePayload(env, c).Ok? && GoodTicket(t) && GoodTicket(t2) && GoodTicket(t3)
    ensures var s := Reach(env, steps);
            Mislabelled(s) && Republishable(env, s, t3) && s.world.ledger.revisions[s.world.ledger.active].id == "rev1"
  {
    var r, r2;
    steps, r, r2 := CutRun(env, c, t, t2);
    steps := HearFailure(env, steps);
    KeptRequest(env, c, "rev1", t, t3);
  }

  lemma {:induction false} DeliveredArrives(env: Env, s: State, k: nat, r: Request)
    requires s.gateway.up && k < |s.sent| && s.sent[k].request == r && Acceptable(LabelOf(r), r.bytes)
    ensures Arrived(env, Next(env, s, Deliver(k)), |s.gateway.handlers|, k, r)
  {
  }

  lemma {:induction false} DeliverRepublished(env: Env, steps: seq<Step>, t: Ticket)
    requires Republishable(env, Reach(env, steps), t)
    ensures var s := Reach(env, steps);
            Arrived(env, Reach(env, Called(env, steps, t, true, [Deliver(|s.sent|)])), |s.gateway.handlers|, |s.sent|, ActiveRequest(env, s.world.ledger, t))
  {
    var s := Reach(env, steps);
    var k, begun := |s.sent|, Called(env, steps, t, true, []);
    RepublishSends(env, steps, t, true);
    assert begun + [Deliver(k)] == Called(env, steps, t, true, [Deliver(k)]);
    ArrivesAfter(env, begun, k, ActiveRequest(env, s.world.ledger, t));
  }

  lemma {:induction false} ArrivesAfter(env: Env, steps: seq<Step>, k: nat, r: Request)
    requires var s := Reach(env, steps); s.gateway.up && k < |s.sent| && s.sent[k].request == r && Acceptable(LabelOf(r), r.bytes)
    ensures Arrived(env, Reach(env, steps + [Deliver(k)]), |Reach(env, steps).gateway.handlers|, k, r)
  {
    ReachTail(env, steps, Deliver(k));
    DeliveredArrives(env, Reach(env, steps), k, r);
  }

  lemma {:induction false} RepublishMends(env: Env, steps: seq<Step>, t: Ticket) returns (more: seq<Step>)
    requires Republishable(env, Reach(env, steps), t)
    ensures var s, s' := Reach(env, steps), Reach(env, steps + more);
            && !Mislabelled(s') && s'.gateway.served.Some?
            && s'.gateway.served.value.labels.revisionId == s.world.ledger.revisions[s.world.ledger.active].id
  {
    var s := Reach(env, steps);
    var called, h := Called(env, steps, t, true, [Deliver(|s.sent|)]), |s.gateway.handlers|;
    DeliverRepublished(env, steps, t);
    RepublishArrives(env, steps, t, true, [Deliver(|s.sent|)], h);
    var l := s.world.ledger;
    var publish := BeginPublish(l.revisions[l.active].id, "publish", t, true);
    more := [publish] + [Deliver(|s.sent|)] + [Accept(h)];
    Joined(steps, publish, Deliver(|s.sent|), Accept(h));
    ServesIsHonest(Reach(env, steps + more), ActiveRequest(env, l, t));
  }

  lemma {:induction false} Joined(steps: seq<Step>, a: Step, b: Step, c: Step)
    ensures steps + ([a] + [b] + [c]) == steps + [a] + [b] + [c]
  {
  }

  lemma {:induction false} ServesIsHonest(s: State, r: Request)
    requires Serves(s, r) && LabelIn(r.bytes) == LabelOf(r)
    ensures !Mislabelled(s) && s.gateway.served.value.labels.revisionId == r.revisionId
  {
  }

  // A gateway left like that is mended by the next republish: it then serves the active
  // revision's snapshot under its own id.
  lemma {:induction false} RepublishMendsMislabelled(env: Env, c: Config, t: Ticket, t2: Ticket, t3: Ticket)
    requires CompilePayload(env, c).Ok? && GoodTicket(t) && GoodTicket(t2) && GoodTicket(t3)
    ensures exists steps, more :: Mislabelled(Reach(env, steps)) && !Mislabelled(Reach(env, steps + more))
              && Reach(env, steps + more).gateway.served.Some?
              && Reach(env, steps + more).gateway.served.value.labels.revisionId == "rev1"
  {
    var steps := MislabelledRun(env, c, t, t2, t3);
    var more := RepublishMends(env, steps, t3);
    assert Mislabelled(Reach(env, steps)) && !Mislabelled(Reach(env, steps + more));
  }

  // A gateway that restarts and has read its payload.
  lemma {:induction false} RestartAndReadPayload(env: Env, steps: seq<Step>) returns (more: seq<Step>)
    requires Reach(env, steps).gateway.up && Reach(env, steps).disk.payload.Some?
    ensures var s, s' := Reach(env, steps), Reach(env, more);
            && s'.gateway == Gateway(true, None, PayloadRead(s.disk.payload), [])
            && s'.sent == s.sent && s'.disk == s.disk
    ensures Serial(env, steps) ==> Serial(env, more)
  {
    ReachTail(env, steps, GatewayCrash);
    more := steps + [GatewayCrash];
    ReachTail(env, more, GatewayStart);
    more := more + [GatewayStart];
    ReachTail(env, more, BootReadPayload);
    more := more + [BootReadPayload];
  }

  lemma {:induction false} ReadMeta(env: Env, steps: seq<Step>, p: Request) returns (more: seq<Step>)
    requires Reach(env, steps).gateway.up && Reach(env, steps).gateway.boot == PayloadRead(Some(p))
    ensures var s, s' := Reach(env, steps), Reach(env, more);
            && s'.gateway == s.gateway.(boot := BothRead(p, s.disk.meta)) && s'.sent == s.sent && s'.disk == s.disk && s'.cut == s.cut
    ensures Serial(env, steps) ==> Serial(env, more)
  {
    ReachTail(env, steps, BootReadMeta(true));
    more := steps + [BootReadMeta(true)];
  }

  // A call handled from its delivery to its answer while the gateway reads its files.
  lemma {:induction false} HandleDuringBoot(env: Env, steps: seq<Step>, p: Request, k: nat, r: Request) returns (more: seq<Step>)
    requires var s := Reach(env, steps);
             && s.gateway.up && s.gateway.handlers == [] && s.gateway.boot == PayloadRead(Some(p))
             && k < |s.sent| && s.sent[k].request == r && Acceptable(LabelOf(r), r.bytes)
    ensures var s, s' := Reach(env, steps), Reach(env, more);
            && s'.gateway.up && s'.gateway.boot == s.gateway.boot && s'.disk.payload == Some(r) && s'.disk.meta == Some(r)
    ensures Serial(env, steps) ==> Serial(env, more)
  {
    more := DeliverAndAccept(env, steps, k);
    more := RenamePayload(env, more, k, r);
    more := RenameMeta(env, more, k, r);
  }

  // Though calls never overlap and both files are of one request in the end: a call that comes
  // in between the two reads of a start makes it serve one revision under another's id.
  lemma {:induction false} CallDuringBootMislabels(env: Env, c: Config, t: Ticket, t2: Ticket)
    requires CompilePayload(env, c).Ok? && GoodTicket(t) && GoodTicket(t2)
    ensures exists steps :: Serial(env, steps)
              && var s := Reach(env, steps);
                 && Mislabelled(s) && s.disk.payload == s.disk.meta && s.disk.payload.Some?
                 && s.gateway.served.value.labels.revisionId == "rev2" && s.gateway.served.value.bytes.meta.revisionId == "rev1"
  {
    var steps, r, r2 := SecondSent(env, c, t, t2);
    steps := RestartAndReadPayload(env, steps);
    steps := HandleDuringBoot(env, steps, r, 1, r2);
    steps := ReadMeta(env, steps, r);
    steps := BootServes(env, steps, r, r2);
    assert Serial(env, steps) && Mislabelled(Reach(env, steps));
  }

  lemma {:induction false} OverwritingRun(env: Env, c: Config, t: Ticket, t2: Ticket) returns (steps: seq<Step>, r: Request, r2: Request)
    requires CompilePayload(env, c).Ok? && GoodTicket(t) && GoodTicket(t2)
    ensures var s := Reach(env, steps);
            && |s.sent| == 2 && s.sent[1].request == r2 && 1 in s.replies && s.replies[1]
            && s.gateway.served == Some(Served(LabelOf(r), r.bytes, FromDisk(r, Some(r))))
    ensures r2.revisionId == "rev2" && r.bytes.meta.revisionId == "rev1"
  {
    steps, r, r2 := SecondSent(env, c, t, t2);
    steps := RestartAndRead(env, steps);
    steps := DeliverAndAccept(env, steps, 1);
    steps := RenamePayload(env, steps, 1, r2);
    steps := RenameMeta(env, steps, 1, r2);
    steps := BootServes(env, steps, r, r);
  }

  // The gateway takes calls before it has restored: a call applied in between is overwritten
  // by the restore, though the publisher is told that it was applied.
  lemma {:induction false} RestoreOverwritesNewerCall(env: Env, c: Config, t: Ticket, t2: Ticket)
    requires CompilePayload(env, c).Ok? && GoodTicket(t) && GoodTicket(t2)
    ensures exists steps :: var s := Reach(env, steps);
              && 1 in s.replies && s.replies[1] && |s.sent| == 2 && s.sent[1].request.revisionId == "rev2"
              && s.gateway.served.Some? && s.gateway.served.value.bytes.meta.revisionId == "rev1"
  {
    var steps, r, r2 := OverwritingRun(env, c, t, t2);
    assert Reach(env, steps).gateway.served.Some?;
  }
}
