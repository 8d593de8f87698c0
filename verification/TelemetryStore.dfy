/** The write-behind telemetry store: totals and recent lists kept in memory at once, rows
    written to the table later by a batching goroutine, with overflow to direct writes, flush
    acknowledgements and shutdown. Every interleaving of the goroutines is a run of Next. */
module TelemetryStore {
  import opened Sequences

  const RECENT_LIMIT := 200
  const BATCH_SIZE := 64
  const QUEUE_SIZE := 1024

  datatype Usage = Usage(prompt: int, cached: int, completion: int, total: int)

  // A record as the caller hands it over. What the store never looks at is one field.
  datatype Item =
    | Request(rest: string, durationMs: int, success: bool, usage: Usage)
    | Error(rest: string)

  datatype Summary = Summary(requests: int, successes: int, failures: int,
                             prompt: int, cached: int, completion: int, total: int)

  const NOTHING := Summary(0, 0, 0, 0, 0, 0, 0)

  function Add(a: Summary, b: Summary): Summary {
    Summary(a.requests + b.requests, a.successes + b.successes, a.failures + b.failures,
            a.prompt + b.prompt, a.cached + b.cached, a.completion + b.completion, a.total + b.total)
  }

  function Weight(item: Item): Summary {
    match item
    case Request(_, _, ok, u) => Summary(1, if ok then 1 else 0, if ok then 0 else 1, u.prompt, u.cached, u.completion, u.total)
    case Error(_) => NOTHING
  }

  // What the totals query computes over rows.
  function SumOf(items: seq<Item>): Summary {
    if items == [] then NOTHING else Add(SumOf(items[..|items| - 1]), Weight(items[|items| - 1]))
  }

  // The row inserted for a record: a duration of 0 is stored as 1.
  function Row(item: Item): Item {
    if item.Request? && item.durationMs == 0 then item.(durationMs := 1) else item
  }

  lemma {:induction false} RowMeans(rest: string, durationMs: int, success: bool, usage: Usage)
    ensures Row(Request(rest, durationMs, success, usage)) == Request(rest, if durationMs == 0 then 1 else durationMs, success, usage)
    ensures Row(Error(rest)) == Error(rest)
  {
  }

  // ---------- What is kept in memory ----------

  datatype Memory = Memory(summary: Summary, requests: seq<Item>, errors: seq<Item>, version: nat)

  function Take<T>(s: seq<T>, n: nat): seq<T> {
    if |s| <= n then s else s[..n]
  }

  function Recorded(m: Memory, item: Item): Memory {
    Memory(Add(m.summary, Weight(item)),
           if item.Request? then Take([item] + m.requests, RECENT_LIMIT) else m.requests,
           if item.Error? then Take([item] + m.errors, RECENT_LIMIT) else m.errors,
           m.version + 1)
  }

  // The newest of what was recorded, before what was there already.
  function NewestFirst(items: seq<Item>, requests: bool, older: seq<Item>): seq<Item> {
    if items == [] then older
    else
      var last := items[|items| - 1];
      (if last.Request? == requests then [last] else [])
      + NewestFirst(items[..|items| - 1], requests, older)
  }

  // ---------- The whole state ----------

  // One record call; the number tells equal records apart.
  datatype Entry = Entry(id: nat, item: Item)

  // The acknowledgement of one flush, and how many writes had been queued when it was.
  datatype Ticket = Ticket(ack: nat, before: nat)

  datatype Message = Put(entry: Entry) | Flush(ticket: Ticket)

  datatype After = Resume | ThenAcknowledge(ticket: Ticket) | ThenExit

  datatype Writer = Waiting | Persisting(after: After) | Acknowledging(ticket: Ticket) | Done

  datatype Closer = NotClosing | Marked | ChannelClosed | Returned

  // One persistBatch call, by the writer or by a record call itself, and whether it committed.
  datatype Batch = Batch(entries: seq<Entry>, byWriter: bool, committed: bool)

  // What hydrateCaches found.
  datatype Found = Found(rows: seq<Item>, requests: seq<Item>, errors: seq<Item>)

  datatype State = State(
    found: Found,
    memory: Memory,
    table: seq<Item>,
    queue: seq<Message>,
    closed: bool,             // the closed flag; the channel is detached with it
    channelClosed: bool,
    panicked: bool,           // a send on the closed channel, or a second close of something
    batch: seq<Entry>,
    writer: Writer,
    closer: Closer,
    pending: seq<Entry>,      // recorded in memory, read lock not yet taken
    sending: seq<Entry>,      // read lock held, about to try the channel
    direct: seq<Entry>,       // to be persisted by the record call itself
    flushing: seq<nat>,       // read lock held, waiting for room in the channel
    acked: seq<Ticket>,       // acknowledgements closed, in order
    // History
    log: seq<Entry>,
    sent: seq<Entry>,
    batches: seq<Batch>,
    flushes: nat
  )

  function Fresh(found: Found): State {
    State(found, Memory(SumOf(found.rows), found.requests, found.errors, 0), found.rows,
          [], false, false, false, [], Waiting, NotClosing, [], [], [], [], [], [], [], [], 0)
  }

  function Items(entries: seq<Entry>): seq<Item> {
    seq(|entries|, i requires 0 <= i < |entries| => entries[i].item)
  }

  function Rows(entries: seq<Entry>): seq<Item> {
    seq(|entries|, i requires 0 <= i < |entries| => Row(entries[i].item))
  }

  function Puts(queue: seq<Message>): seq<Entry> {
    if queue == [] then []
    else Puts(queue[..|queue| - 1]) + (match queue[|queue| - 1] case Put(e) => [e] case Flush(_) => [])
  }

  function Acks(queue: seq<Message>): seq<nat> {
    if queue == [] then []
    else Acks(queue[..|queue| - 1]) + (match queue[|queue| - 1] case Put(_) => [] case Flush(t) => [t.ack])
  }

  datatype Which = Any | Committed | Lost | ByWriter

  predicate Is(b: Batch, which: Which) {
    match which
    case Any => true
    case Committed => b.committed
    case Lost => !b.committed
    case ByWriter => b.byWriter
  }

  // The entries of the batches of one kind, in order.
  function Through(batches: seq<Batch>, which: Which): seq<Entry> {
    if batches == [] then []
    else
      var front, last := Through(batches[..|batches| - 1], which), batches[|batches| - 1];
      if Is(last, which) then front + last.entries else front
  }

  // ---------- Steps ----------

  datatype Step =
    | Record(item: Item)        // the locked section of RecordRequest or RecordError
    | Lock(i: nat)              // enqueueWrite takes the read lock and looks at the closed flag
    | Send(i: nat)              // and tries the channel
    | PersistDirect(i: nat, ok: bool)
    | BeginFlush
    | SendFlush(i: nat)
    | TimeOut(i: nat)
    | Receive
    | Tick
    | Persist(ok: bool)         // the writer's own persistBatch
    | Acknowledge
    | Stop                      // the locked section of stopWriter
    | CloseChannel
    | Return

  predicate Enabled(s: State, step: Step) {
    match step
    case Record(_) => true
    case Lock(i) => i < |s.pending|
    case Send(i) => i < |s.sending|
    case PersistDirect(i, _) => i < |s.direct|
    case BeginFlush => true
    case SendFlush(i) => i < |s.flushing| && |s.queue| < QUEUE_SIZE
    case TimeOut(i) => i < |s.flushing|
    case Receive => s.writer.Waiting? && (s.queue != [] || s.channelClosed)
    case Tick => s.writer.Waiting?
    case Persist(_) => s.writer.Persisting?
    case Acknowledge => s.writer.Acknowledging?
    case Stop => s.sending == [] && s.flushing == []
    case CloseChannel => s.closer.Marked?
    case Return => s.closer.ChannelClosed? && s.writer.Done?
  }

  function Persisted(s: State, entries: seq<Entry>, byWriter: bool, ok: bool): State {
    if entries == [] then s
    else s.(table := if ok then s.table + Rows(entries) else s.table,
            batches := s.batches + [Batch(entries, byWriter, ok)])
  }

  function Received(s: State): State
    requires s.queue != [] || s.channelClosed
  {
    if s.queue == [] then s.(writer := Persisting(ThenExit))
    else
      var rest := s.queue[1..];
      match s.queue[0]
      case Flush(t) => s.(queue := rest, writer := Persisting(ThenAcknowledge(t)))
      case Put(e) =>
        s.(queue := rest, batch := s.batch + [e],
           writer := if |s.batch| + 1 >= BATCH_SIZE then Persisting(Resume) else Waiting)
  }

  // The writer's flush closure, and where it goes on afterwards.
  function Flushed(s: State, ok: bool): State
    requires s.writer.Persisting?
  {
    Persisted(s, s.batch, true, ok).(
      batch := [],
      writer := match s.writer.after
                case Resume => Waiting
                case ThenAcknowledge(t) => Acknowledging(t)
                case ThenExit => Done)
  }

  // The writer's next message and, where it flushes, the flush.
  function Turn(s: State, ok: bool): State
    requires Enabled(s, Receive)
  {
    if Received(s).writer.Persisting? then Flushed(Received(s), ok) else Received(s)
  }

  function Sent(s: State, i: nat): State
    requires i < |s.sending|
  {
    var e, s' := s.sending[i], s.(sending := Without(s.sending, i));
    if s.channelClosed then s'.(panicked := true, direct := s.direct + [e])
    else if |s.queue| < QUEUE_SIZE then s'.(queue := s.queue + [Put(e)], sent := s.sent + [e])
    else s'.(direct := s.direct + [e])
  }

  function AckIds(tickets: seq<Ticket>): seq<nat> {
    seq(|tickets|, i requires 0 <= i < |tickets| => tickets[i].ack)
  }

  function Acked(s: State, ticket: Ticket): State {
    s.(acked := s.acked + [ticket], panicked := s.panicked || ticket.ack in AckIds(s.acked))
  }

  function Apply(s: State, step: Step): State
    requires Enabled(s, step)
  {
    match step
    case Record(item) =>
      var e := Entry(|s.log|, item);
      s.(memory := Recorded(s.memory, item), log := s.log + [e], pending := s.pending + [e])
    case Lock(i) =>
      var e, s' := s.pending[i], s.(pending := Without(s.pending, i));
      if s.closed then s'.(direct := s.direct + [e]) else s'.(sending := s.sending + [e])
    case Send(i) => Sent(s, i)
    case PersistDirect(i, ok) => Persisted(s.(direct := Without(s.direct, i)), [s.direct[i]], false, ok)
    case BeginFlush =>
      if s.closed then s else s.(flushing := s.flushing + [s.flushes], flushes := s.flushes + 1)
    case SendFlush(i) =>
      var a, s' := s.flushing[i], s.(flushing := Without(s.flushing, i));
      if s.channelClosed then s'.(panicked := true, acked := s.acked + [Ticket(a, 0)])
      else s'.(queue := s.queue + [Flush(Ticket(a, |s.sent|))])
    case TimeOut(i) => Acked(s.(flushing := Without(s.flushing, i)), Ticket(s.flushing[i], 0))
    case Receive => Received(s)
    case Tick => s.(writer := Persisting(Resume))
    case Persist(ok) => Flushed(s, ok)
    case Acknowledge => Acked(s.(writer := Waiting), s.writer.ticket)
    case Stop => if s.closed then s else s.(closed := true, closer := Marked)
    case CloseChannel => s.(channelClosed := true, closer := ChannelClosed, panicked := s.panicked || s.channelClosed)
    case Return => s.(closer := Returned)
  }

  // A step that cannot be taken changes nothing, so every sequence of steps is a run.
  function Next(s: State, step: Step): State {
    if Enabled(s, step) then Apply(s, step) else s
  }

  function Run(s: State, steps: seq<Step>): State
    decreases |steps|
  {
    if steps == [] then s else Next(Run(s, steps[..|steps| - 1]), steps[|steps| - 1])
  }

  // ---------- The object ----------

  // How a transaction goes: whether it begins, which statements succeed, whether it commits.
  datatype Luck = Luck(begins: bool, inserts: nat -> bool, commits: bool)

  predicate Commits(luck: Luck, n: nat) {
    luck.begins && luck.commits && forall i: nat :: i < n ==> luck.inserts(i)
  }

  method PrependRecord(records: seq<Item>, record: Item, limit: int) returns (kept: seq<Item>)
    ensures kept == if limit <= 0 then [] else Take([record] + records, limit)
  {
    if limit <= 0 {
      return [];
    }
    kept := records;
    if |kept| >= limit {
      kept := kept[..limit - 1];
    }
    kept := [record] + kept;
  }

  // The fields of the store that goroutines share, with the batch of the writer. Each method
  // is one locked section, or one turn of the writer, and is the step of the whole state s.
  class Store {
    var summary: Summary
    var recentRequests: seq<Item>
    var recentErrors: seq<Item>
    var dataVersion: nat
    var table: seq<Item>
    var channel: seq<Message>
    var channelClosed: bool
    var closed: bool
    var batch: seq<Entry>

    predicate Matches(s: State)
      reads this
    {
      && Memory(summary, recentRequests, recentErrors, dataVersion) == s.memory
      && table == s.table && channel == s.queue && channelClosed == s.channelClosed
      && closed == s.closed && batch == s.batch
    }

    constructor (found: Found)
      ensures Matches(Fresh(found)) && Counts(summary, found.rows)
    {
      SumCounts(found.rows);
      summary, recentRequests, recentErrors, dataVersion := SumOf(found.rows), found.requests, found.errors, 0;
      table, channel, channelClosed, closed, batch := found.rows, [], false, false, [];
    }

    method RecordRequest(record: Item, ghost s: State)
      requires Matches(s) && record.Request?
      modifies this
      ensures Matches(Apply(s, Record(record)))
      ensures summary.requests == old(summary.requests) + 1
      ensures summary.successes == old(summary.successes) + (if record.success then 1 else 0)
      ensures summary.failures == old(summary.failures) + (if record.success then 0 else 1)
      ensures summary.prompt == old(summary.prompt) + record.usage.prompt
      ensures summary.cached == old(summary.cached) + record.usage.cached
      ensures summary.completion == old(summary.completion) + record.usage.completion
      ensures summary.total == old(summary.total) + record.usage.total
      ensures recentRequests != [] && recentRequests[0] == record && |recentRequests| <= 200
      ensures recentRequests[1..] <= old(recentRequests) && (|recentRequests| < 200 ==> recentRequests[1..] == old(recentRequests))
      ensures recentErrors == old(recentErrors) && dataVersion == old(dataVersion) + 1
    {
      var u := record.usage;
      summary := summary.(requests := summary.requests + 1);
      if record.success {
        summary := summary.(successes := summary.successes + 1);
      } else {
        summary := summary.(failures := summary.failures + 1);
      }
      summary := summary.(prompt := summary.prompt + u.prompt, cached := summary.cached + u.cached,
                          completion := summary.completion + u.completion, total := summary.total + u.total);
      recentRequests := PrependRecord(recentRequests, record, RECENT_LIMIT);
      dataVersion := dataVersion + 1;
    }

    method RecordError(record: Item, ghost s: State)
      requires Matches(s) && record.Error?
      modifies this
      ensures Matches(Apply(s, Record(record)))
      ensures summary == old(summary) && recentRequests == old(recentRequests) && dataVersion == old(dataVersion) + 1
      ensures recentErrors != [] && recentErrors[0] == record && |recentErrors| <= 200
      ensures recentErrors[1..] <= old(recentErrors) && (|recentErrors| < 200 ==> recentErrors[1..] == old(recentErrors))
    {
      recentErrors := PrependRecord(recentErrors, record, RECENT_LIMIT);
      dataVersion := dataVersion + 1;
    }

    // The select of enqueueWrite, under the read lock taken while the store was open.
    method TrySend(write: Entry, ghost s: State, ghost i: nat) returns (queued: bool)
      requires Matches(s) && !s.channelClosed && i < |s.sending| && s.sending[i] == write
      modifies this
      ensures Matches(Apply(s, Send(i)))
      ensures queued <==> Apply(s, Send(i)).direct == s.direct
    {
      queued := |channel| < QUEUE_SIZE;
      if queued {
        channel := channel + [Put(write)];
      }
    }

    method StopWriter(ghost s: State)
      requires Matches(s) && Enabled(s, Stop)
      modifies this
      ensures Matches(Apply(s, Stop))
    {
      closed := true;
    }

    // All rows of a batch in one transaction, or none.
    method PersistBatch(entries: seq<Entry>, luck: Luck, ghost s: State, ghost byWriter: bool) returns (ok: bool)
      requires Matches(s)
      modifies this
      ensures Matches(Persisted(s, entries, byWriter, ok))
      ensures entries != [] ==> (ok <==> Commits(luck, |entries|))
    {
      ok := false;
      if |entries| == 0 || !luck.begins {
        return;
      }
      var rows := table;
      for i := 0 to |entries|
        invariant rows == table + Rows(entries[..i])
        invariant unchanged(this)
        invariant forall k: nat :: k < i ==> luck.inserts(k)
      {
        if !luck.inserts(i) {
          return;
        }
        assert entries[..i + 1] == entries[..i] + [entries[i]];
        ItemsTail(entries[..i], entries[i]);
        rows := rows + [Row(entries[i].item)];
      }
      assert entries[..|entries|] == entries;
      if !luck.commits {
        return;
      }
      table := rows;
      ok := true;
    }

    // The flush closure of runWriter.
    method FlushBatch(luck: Luck, ghost s: State) returns (committed: bool)
      requires Matches(s) && s.writer.Persisting?
      modifies this
      ensures Matches(Flushed(s, committed))
      ensures s.batch != [] ==> (committed <==> Commits(luck, |s.batch|))
    {
      committed := PersistBatch(batch, luck, s, true);
      batch := [];
    }

    // A write taken from the channel: it joins the batch, which is flushed when full.
    method TakeWrite(luck: Luck, ghost s: State) returns (committed: bool)
      requires Matches(s) && s.queue != [] && s.queue[0].Put?
      modifies this
      ensures Matches(if |s.batch| + 1 >= BATCH_SIZE then Flushed(Received(s), committed) else Received(s))
    {
      committed := false;
      batch := batch + [channel[0].entry];
      channel := channel[1..];
      if |batch| >= BATCH_SIZE {
        committed := FlushBatch(luck, Received(s));
      }
    }

    // A flush request, or the end of the closed channel: what there is is flushed.
    method TakeOther(luck: Luck, ghost s: State) returns (committed: bool)
      requires Matches(s) && (if s.queue == [] then s.channelClosed else s.queue[0].Flush?)
      modifies this
      ensures Matches(Flushed(Received(s), committed))
    {
      if |channel| > 0 {
        channel := channel[1..];
      }
      committed := FlushBatch(luck, Received(s));
    }

    // One message taken by runWriter, up to but not including the closing of an
    // acknowledgement.
    method TakeMessage(luck: Luck, ghost s: State) returns (exit: bool, acknowledge: seq<Ticket>, committed: bool)
      requires Matches(s) && Enabled(s, Receive)
      modifies this
      ensures Matches(Turn(s, committed))
      ensures exit <==> s.queue == []
      ensures acknowledge == if s.queue != [] && s.queue[0].Flush? then [s.queue[0].ticket] else []
    {
      assert channel == s.queue;
      if |channel| == 0 {
        committed := TakeOther(luck, s);
        return true, [], committed;
      }
      if channel[0].Flush? {
        acknowledge := [channel[0].ticket];
        committed := TakeOther(luck, s);
        return false, acknowledge, committed;
      }
      committed := TakeWrite(luck, s);
      return false, [], committed;
    }
  }

  // ---------- Nothing is lost or doubled on the way ----------

  // Anything that can be added up over entries: how often one of them occurs, its tokens, ...
  type Measure = Entry -> int

  function Total<T>(f: T -> int, entries: seq<T>): int {
    if entries == [] then 0 else Total(f, entries[..|entries| - 1]) + f(entries[|entries| - 1])
  }

  lemma {:induction false} TotalAppend<T>(f: T -> int, a: seq<T>, b: seq<T>)
    ensures Total(f, a + b) == Total(f, a) + Total(f, b)
    decreases |b|
  {
    if b == [] {
      assert a + b == a;
    } else {
      var n := |b| - 1;
      assert (a + b)[..|a + b| - 1] == a + b[..n];
      TotalAppend(f, a, b[..n]);
    }
  }

  lemma {:induction false} TotalOne<T>(f: T -> int, e: T)
    ensures Total(f, [e]) == f(e)
  {
    assert [e][..0] == [];
  }

  lemma {:induction false} TotalWithout<T>(f: T -> int, s: seq<T>, i: nat)
    requires i < |s|
    ensures Total(f, s) == Total(f, Without(s, i)) + f(s[i])
    decreases |s|
  {
    var n := |s| - 1;
    if i == n {
      assert Without(s, i) == s[..n];
    } else {
      TotalWithout(f, s[..n], i);
      assert Without(s, i)[..n - 1] == Without(s[..n], i);
    }
  }

  // What is still in the hands of record calls, and what they have handed over.
  function Held(f: Measure, s: State): int {
    Total(f, s.pending) + Total(f, s.sending) + Total(f, s.direct)
  }

  function Handed(f: Measure, s: State): int {
    Total(f, Puts(s.queue)) + Total(f, s.batch) + Total(f, Through(s.batches, Any))
  }

  predicate Conserved(f: Measure, s: State) {
    Total(f, s.log) == Held(f, s) + Handed(f, s)
  }

  lemma {:induction false} PutsTail(queue: seq<Message>, m: Message)
    ensures Puts(queue + [m]) == if m.Put? then Puts(queue) + [m.entry] else Puts(queue)
    ensures Acks(queue + [m]) == if m.Flush? then Acks(queue) + [m.ticket.ack] else Acks(queue)
  {
    assert (queue + [m])[..|queue|] == queue;
  }

  lemma {:induction false} PutsHead(queue: seq<Message>)
    requires queue != []
    ensures Puts(queue) == if queue[0].Put? then [queue[0].entry] + Puts(queue[1..]) else Puts(queue[1..])
    ensures Acks(queue) == if queue[0].Flush? then [queue[0].ticket.ack] + Acks(queue[1..]) else Acks(queue[1..])
    decreases |queue|
  {
    var n := |queue| - 1;
    if n > 0 {
      PutsHead(queue[..n]);
      assert queue[..n][1..] == queue[1..][..n - 1];
    }
  }

  lemma {:induction false} ThroughTail(batches: seq<Batch>, b: Batch, which: Which)
    ensures Through(batches + [b], which) == if Is(b, which) then Through(batches, which) + b.entries else Through(batches, which)
  {
    assert (batches + [b])[..|batches|] == batches;
  }

  lemma {:induction false} RecordConserves(f: Measure, s: State, item: Item)
    requires Conserved(f, s)
    ensures Conserved(f, Apply(s, Record(item)))
  {
    var e := Entry(|s.log|, item);
    TotalOne(f, e);
    TotalAppend(f, s.log, [e]);
    TotalAppend(f, s.pending, [e]);
  }

  lemma {:induction false} LockConserves(f: Measure, s: State, i: nat)
    requires i < |s.pending| && Conserved(f, s)
    ensures Conserved(f, Apply(s, Lock(i)))
  {
    var e := s.pending[i];
    TotalOne(f, e);
    TotalWithout(f, s.pending, i);
    TotalAppend(f, s.direct, [e]);
    TotalAppend(f, s.sending, [e]);
  }

  lemma {:induction false} SendConserves(f: Measure, s: State, i: nat)
    requires i < |s.sending| && Conserved(f, s)
    ensures Conserved(f, Sent(s, i))
  {
    var e := s.sending[i];
    TotalOne(f, e);
    TotalWithout(f, s.sending, i);
    if s.channelClosed || |s.queue| >= QUEUE_SIZE {
      TotalAppend(f, s.direct, [e]);
    } else {
      PutsTail(s.queue, Put(e));
      TotalAppend(f, Puts(s.queue), [e]);
    }
  }

  lemma {:induction false} PersistConserves(f: Measure, s: State, entries: seq<Entry>, byWriter: bool, ok: bool)
    ensures Total(f, Through(Persisted(s, entries, byWriter, ok).batches, Any))
         == Total(f, Through(s.batches, Any)) + Total(f, entries)
  {
    ThroughTail(s.batches, Batch(entries, byWriter, ok), Any);
    TotalAppend(f, Through(s.batches, Any), entries);
  }

  lemma {:induction false} ReceiveConserves(f: Measure, s: State)
    requires (s.queue != [] || s.channelClosed) && Conserved(f, s)
    ensures Conserved(f, Received(s))
  {
    if s.queue != [] {
      PutsHead(s.queue);
      if s.queue[0].Put? {
        var e := s.queue[0].entry;
        TotalOne(f, e);
        TotalAppend(f, [e], Puts(s.queue[1..]));
        TotalAppend(f, s.batch, [e]);
      }
    }
  }

  lemma {:induction false} PersistStepsConserve(f: Measure, s: State, step: Step)
    requires Enabled(s, step) && Conserved(f, s) && (step.PersistDirect? || step.Persist?)
    ensures Conserved(f, Apply(s, step))
  {
    if step.PersistDirect? {
      var i := step.i;
      TotalWithout(f, s.direct, i);
      TotalOne(f, s.direct[i]);
      PersistConserves(f, s.(direct := Without(s.direct, i)), [s.direct[i]], false, step.ok);
    } else {
      PersistConserves(f, s, s.batch, true, step.ok);
    }
  }

  lemma {:induction false} ApplyConserves(f: Measure, s: State, step: Step)
    requires Enabled(s, step) && Conserved(f, s)
    ensures Conserved(f, Apply(s, step))
  {
    match step
    case Record(item) => RecordConserves(f, s, item);
    case Lock(i) => LockConserves(f, s, i);
    case Send(i) => SendConserves(f, s, i);
    case PersistDirect(_, _) => PersistStepsConserve(f, s, step);
    case Persist(_) => PersistStepsConserve(f, s, step);
    case SendFlush(i) => PutsTail(s.queue, Flush(Ticket(s.flushing[i], |s.sent|)));
    case Receive => ReceiveConserves(f, s);
    case _ =>
  }

  lemma {:induction false} RunConserves(f: Measure, found: Found, steps: seq<Step>)
    ensures Conserved(f, Run(Fresh(found), steps))
    decreases |steps|
  {
    if steps != [] {
      var before, last := Run(Fresh(found), steps[..|steps| - 1]), steps[|steps| - 1];
      RunConserves(f, found, steps[..|steps| - 1]);
      if Enabled(before, last) {
        ApplyConserves(f, before, last);
      }
    }
  }

  // ---------- Locks, order and acknowledgements ----------

  function ViaWriter(s: State): seq<Entry> {
    Through(s.batches, ByWriter)
  }

  // Nobody is between taking the read lock and letting it go once the store is closed, and
  // the writer leaves only a drained, closed channel.
  predicate Locked(s: State) {
    && !s.panicked
    && s.closed == !s.closer.NotClosing?
    && s.channelClosed == (s.closer.ChannelClosed? || s.closer.Returned?)
    && (s.closed ==> s.sending == [] && s.flushing == [])
    && (s.writer.Done? || s.writer == Persisting(ThenExit) ==> s.channelClosed && s.queue == [])
    && (s.writer.Done? ==> s.batch == [])
    && (s.closer.Returned? ==> s.writer.Done?)
  }

  // The writes queued are persisted by the writer in the order they were queued.
  predicate InOrder(s: State) {
    s.sent == ViaWriter(s) + s.batch + Puts(s.queue)
  }

  // Every flush still to be acknowledged stands behind the writes queued before it.
  predicate Barrier(s: State) {
    && (forall k :: 0 <= k < |s.queue| && s.queue[k].Flush? ==>
          s.queue[k].ticket.before == |ViaWriter(s)| + |s.batch| + |Puts(s.queue[..k])|)
    && (s.writer.Persisting? && s.writer.after.ThenAcknowledge? ==>
          s.writer.after.ticket.before == |ViaWriter(s)| + |s.batch|)
    && (s.writer.Acknowledging? ==> s.writer.ticket.before <= |ViaWriter(s)|)
    && (forall t :: t in s.acked ==> t.before <= |ViaWriter(s)|)
  }

  function InHand(w: Writer): seq<nat> {
    match w
    case Persisting(ThenAcknowledge(t)) => [t.ack]
    case Acknowledging(t) => [t.ack]
    case _ => []
  }

  function Numbers(n: nat): seq<nat> {
    seq(n, i => i)
  }

  // Each acknowledgement made is in exactly one place: the hands of its flush call, the
  // queue, the hands of the writer, or closed.
  predicate AcksConserved(f: nat -> int, s: State) {
    Total(f, Numbers(s.flushes))
      == Total(f, s.flushing) + Total(f, Acks(s.queue)) + Total(f, InHand(s.writer)) + Total(f, AckIds(s.acked))
  }

  lemma {:induction false} AckIdsTail(tickets: seq<Ticket>, t: Ticket)
    ensures AckIds(tickets + [t]) == AckIds(tickets) + [t.ack]
  {
  }

  lemma {:induction false} AckStepsConserve(f: nat -> int, s: State, step: Step)
    requires Enabled(s, step) && AcksConserved(f, s)
    requires step.BeginFlush? || step.SendFlush? || step.TimeOut? || step.Acknowledge?
    ensures AcksConserved(f, Apply(s, step))
  {
    match step
    case BeginFlush => BeginFlushConserves(f, s);
    case SendFlush(i) => SendFlushConserves(f, s, i);
    case TimeOut(i) => TimeOutConserves(f, s, i);
    case Acknowledge => AcknowledgeConserves(f, s);
    case _ =>
  }

  lemma {:induction false} BeginFlushConserves(f: nat -> int, s: State)
    requires Enabled(s, BeginFlush) && AcksConserved(f, s)
    ensures AcksConserved(f, Apply(s, BeginFlush))
  {
    assert Numbers(s.flushes + 1) == Numbers(s.flushes) + [s.flushes];
    TotalAppend(f, Numbers(s.flushes), [s.flushes]);
    TotalAppend(f, s.flushing, [s.flushes]);
  }

  lemma {:induction false} SendFlushConserves(f: nat -> int, s: State, i: nat)
    requires Enabled(s, SendFlush(i)) && AcksConserved(f, s)
    ensures AcksConserved(f, Apply(s, SendFlush(i)))
  {
    var a := s.flushing[i];
    TotalWithout(f, s.flushing, i);
    TotalOne(f, a);
    if s.channelClosed {
      AckIdsTail(s.acked, Ticket(a, 0));
      TotalAppend(f, AckIds(s.acked), [a]);
    } else {
      PutsTail(s.queue, Flush(Ticket(a, |s.sent|)));
      TotalAppend(f, Acks(s.queue), [a]);
    }
  }

  lemma {:induction false} TimeOutConserves(f: nat -> int, s: State, i: nat)
    requires Enabled(s, TimeOut(i)) && AcksConserved(f, s)
    ensures AcksConserved(f, Apply(s, TimeOut(i)))
  {
    var a := s.flushing[i];
    TotalWithout(f, s.flushing, i);
    TotalOne(f, a);
    AckIdsTail(s.acked, Ticket(a, 0));
    TotalAppend(f, AckIds(s.acked), [a]);
  }

  lemma {:induction false} AcknowledgeConserves(f: nat -> int, s: State)
    requires Enabled(s, Acknowledge) && AcksConserved(f, s)
    ensures AcksConserved(f, Apply(s, Acknowledge))
  {
    var t := s.writer.ticket;
    AckIdsTail(s.acked, t);
    TotalAppend(f, AckIds(s.acked), [t.ack]);
  }

  lemma {:induction false} ReceiveKeepsAcks(f: nat -> int, s: State)
    requires Enabled(s, Receive) && AcksConserved(f, s)
    ensures AcksConserved(f, Received(s))
  {
    if s.queue != [] {
      HeadAck(f, s.queue);
    }
  }

  lemma {:induction false} HeadAck(f: nat -> int, queue: seq<Message>)
    requires queue != []
    ensures Total(f, Acks(queue)) == (if queue[0].Flush? then f(queue[0].ticket.ack) else 0) + Total(f, Acks(queue[1..]))
    ensures queue[0].Flush? ==> Total(f, [queue[0].ticket.ack]) == f(queue[0].ticket.ack)
  {
    PutsHead(queue);
    if queue[0].Flush? {
      TotalOne(f, queue[0].ticket.ack);
      TotalAppend(f, [queue[0].ticket.ack], Acks(queue[1..]));
    }
  }

  lemma {:induction false} SendKeepsAcks(f: nat -> int, s: State, i: nat)
    requires i < |s.sending| && AcksConserved(f, s)
    ensures AcksConserved(f, Sent(s, i))
  {
    if !s.channelClosed && |s.queue| < QUEUE_SIZE {
      PutsTail(s.queue, Put(s.sending[i]));
    }
  }

  lemma {:induction false} FlushedKeepsAcks(f: nat -> int, s: State, ok: bool)
    requires s.writer.Persisting? && AcksConserved(f, s)
    ensures AcksConserved(f, Flushed(s, ok))
  {
    assert InHand(Flushed(s, ok).writer) == InHand(s.writer);
  }

  lemma {:induction false} ApplyKeepsAcks(f: nat -> int, s: State, step: Step)
    requires Enabled(s, step) && AcksConserved(f, s)
    ensures AcksConserved(f, Apply(s, step))
  {
    match step
    case Send(i) => SendKeepsAcks(f, s, i);
    case BeginFlush => AckStepsConserve(f, s, step);
    case SendFlush(i) => AckStepsConserve(f, s, step);
    case TimeOut(i) => AckStepsConserve(f, s, step);
    case Acknowledge => AckStepsConserve(f, s, step);
    case Receive => ReceiveKeepsAcks(f, s);
    case Persist(ok) => FlushedKeepsAcks(f, s, ok);
    case _ =>
  }

  // How often x occurs.
  function Times<T(==)>(x: T): T -> int {
    y => if y == x then 1 else 0
  }

  lemma {:induction false} TimesCounts<T>(x: T, s: seq<T>)
    ensures Total(Times(x), s) == multiset(s)[x] >= 0
    ensures x in s ==> Total(Times(x), s) >= 1
    decreases |s|
  {
    if s != [] {
      var n := |s| - 1;
      TimesCounts(x, s[..n]);
      assert s == s[..n] + [s[n]];
    }
  }

  lemma {:induction false} NumbersOnce(n: nat, x: nat)
    ensures Total(Times<nat>(x), Numbers(n)) == if x < n then 1 else 0
    decreases n
  {
    if n > 0 {
      NumbersOnce(n - 1, x);
      assert Numbers(n)[..n - 1] == Numbers(n - 1);
    }
  }

  // The next acknowledgement to be closed has not been closed yet.
  lemma {:induction false} AckIsNew(s: State, a: nat)
    requires AcksConserved(Times<nat>(a), s)
    requires a in s.flushing || InHand(s.writer) == [a]
    ensures a !in AckIds(s.acked)
  {
    NumbersOnce(s.flushes, a);
    TimesCounts<nat>(a, s.flushing);
    TimesCounts<nat>(a, Acks(s.queue));
    TimesCounts<nat>(a, InHand(s.writer));
    TimesCounts<nat>(a, AckIds(s.acked));
  }

  lemma {:induction false} ApplyKeepsLocked(s: State, step: Step)
    requires Enabled(s, step) && Locked(s)
    requires step.TimeOut? ==> AcksConserved(Times<nat>(s.flushing[step.i]), s)
    requires step.Acknowledge? ==> AcksConserved(Times<nat>(s.writer.ticket.ack), s)
    ensures Locked(Apply(s, step))
  {
    match step
    case TimeOut(i) => AckIsNew(s, s.flushing[i]);
    case Acknowledge => AckIsNew(s, s.writer.ticket.ack);
    case _ =>
  }

  lemma {:induction false} SendKeepsOrder(s: State, i: nat)
    requires i < |s.sending| && Locked(s) && InOrder(s)
    ensures InOrder(Sent(s, i))
  {
    var e := s.sending[i];
    if |s.queue| < QUEUE_SIZE {
      PutsTail(s.queue, Put(e));
      assert ViaWriter(s) + s.batch + (Puts(s.queue) + [e]) == ViaWriter(s) + s.batch + Puts(s.queue) + [e];
    }
  }

  lemma {:induction false} ReceiveKeepsOrder(s: State)
    requires (s.queue != [] || s.channelClosed) && InOrder(s)
    ensures InOrder(Received(s))
  {
    if s.queue != [] {
      PutsHead(s.queue);
      if s.queue[0].Put? {
        Regroup(ViaWriter(s), s.batch, s.queue[0].entry, Puts(s.queue[1..]));
      }
    }
  }

  lemma {:induction false} Regroup<T>(a: seq<T>, b: seq<T>, e: T, rest: seq<T>)
    ensures a + b + ([e] + rest) == a + (b + [e]) + rest
  {
  }

  lemma {:induction false} PersistedByWriter(s: State, entries: seq<Entry>, byWriter: bool, ok: bool)
    ensures ViaWriter(Persisted(s, entries, byWriter, ok)) == if byWriter then ViaWriter(s) + entries else ViaWriter(s)
  {
    ThroughTail(s.batches, Batch(entries, byWriter, ok), ByWriter);
  }

  lemma {:induction false} FlushedKeepsOrder(s: State, ok: bool)
    requires s.writer.Persisting? && InOrder(s)
    ensures InOrder(Flushed(s, ok))
  {
    PersistedByWriter(s, s.batch, true, ok);
    assert ViaWriter(s) + s.batch + [] + Puts(s.queue) == ViaWriter(s) + s.batch + Puts(s.queue);
  }

  lemma {:induction false} ApplyKeepsOrder(s: State, step: Step)
    requires Enabled(s, step) && Locked(s) && InOrder(s)
    ensures InOrder(Apply(s, step))
  {
    match step
    case Send(i) => SendKeepsOrder(s, i);
    case SendFlush(i) => PutsTail(s.queue, Flush(Ticket(s.flushing[i], |s.sent|)));
    case PersistDirect(i, ok) => PersistedByWriter(s.(direct := Without(s.direct, i)), [s.direct[i]], false, ok);
    case Receive => ReceiveKeepsOrder(s);
    case Persist(ok) => FlushedKeepsOrder(s, ok);
    case _ =>
  }

  lemma {:induction false} SendKeepsBarrier(s: State, i: nat)
    requires i < |s.sending| && Locked(s) && Barrier(s)
    ensures Barrier(Sent(s, i))
  {
    var s' := Sent(s, i);
    forall k | 0 <= k < |s'.queue| && s'.queue[k].Flush?
      ensures s'.queue[k].ticket.before == |ViaWriter(s')| + |s'.batch| + |Puts(s'.queue[..k])|
    {
      assert k < |s.queue| && s'.queue[k] == s.queue[k] && s'.queue[..k] == s.queue[..k];
    }
  }

  lemma {:induction false} SendFlushKeepsBarrier(s: State, i: nat)
    requires Enabled(s, SendFlush(i)) && Locked(s) && InOrder(s) && Barrier(s)
    ensures Barrier(Apply(s, SendFlush(i)))
  {
    var s' := Apply(s, SendFlush(i));
    forall k | 0 <= k < |s'.queue| && s'.queue[k].Flush?
      ensures s'.queue[k].ticket.before == |ViaWriter(s')| + |s'.batch| + |Puts(s'.queue[..k])|
    {
      assert s'.queue[..k] == s.queue[..k];
      if k == |s.queue| {
        assert s.queue[..k] == s.queue;
      }
    }
  }

  lemma {:induction false} PrefixAfterHead(queue: seq<Message>, k: nat)
    requires k < |queue|
    ensures |Puts(queue[..k + 1])| == (if queue[0].Put? then 1 else 0) + |Puts(queue[1..][..k])|
  {
    var front := queue[..k + 1];
    PutsHead(front);
    assert front[1..] == queue[1..][..k];
  }

  lemma {:induction false} ReceiveKeepsBarrier(s: State)
    requires Enabled(s, Receive) && Barrier(s)
    ensures Barrier(Received(s))
  {
    if s.queue != [] {
      var s' := Received(s);
      assert s.queue[..0] == [];
      forall k | 0 <= k < |s'.queue| && s'.queue[k].Flush?
        ensures s'.queue[k].ticket.before == |ViaWriter(s')| + |s'.batch| + |Puts(s'.queue[..k])|
      {
        assert s.queue[k + 1] == s'.queue[k];
        PrefixAfterHead(s.queue, k);
      }
    }
  }

  lemma {:induction false} FlushedKeepsBarrier(s: State, ok: bool)
    requires s.writer.Persisting? && Barrier(s)
    ensures Barrier(Flushed(s, ok))
  {
    PersistedByWriter(s, s.batch, true, ok);
  }

  lemma {:induction false} ApplyKeepsBarrier(s: State, step: Step)
    requires Enabled(s, step) && Locked(s) && InOrder(s) && Barrier(s)
    ensures Barrier(Apply(s, step))
  {
    match step
    case Send(i) => SendKeepsBarrier(s, i);
    case SendFlush(i) => SendFlushKeepsBarrier(s, i);
    case PersistDirect(i, ok) => PersistedByWriter(s.(direct := Without(s.direct, i)), [s.direct[i]], false, ok);
    case Receive => ReceiveKeepsBarrier(s);
    case Persist(ok) => FlushedKeepsBarrier(s, ok);
    case _ =>
  }

  // ---------- Memory and table ----------

  // hydrateCaches reads at most as many recent records as are kept.
  predicate Hydrated(found: Found) {
    |found.requests| <= RECENT_LIMIT && |found.errors| <= RECENT_LIMIT
  }

  // What memory must hold after these records.
  function Remembered(found: Found, items: seq<Item>): Memory {
    Memory(Add(SumOf(found.rows), SumOf(items)),
           Take(NewestFirst(items, true, found.requests), RECENT_LIMIT),
           Take(NewestFirst(items, false, found.errors), RECENT_LIMIT),
           |items|)
  }

  lemma {:induction false} RecordedIsRemembered(found: Found, items: seq<Item>, item: Item)
    ensures Recorded(Remembered(found, items), item) == Remembered(found, items + [item])
  {
    SumTail(items, item);
    AddAssociates(SumOf(found.rows), SumOf(items), Weight(item));
    NewestTail(items, item, true, found.requests);
    NewestTail(items, item, false, found.errors);
    TakeOfTake(item, NewestFirst(items, true, found.requests), RECENT_LIMIT);
    TakeOfTake(item, NewestFirst(items, false, found.errors), RECENT_LIMIT);
  }

  lemma {:induction false} SumTail(items: seq<Item>, item: Item)
    ensures SumOf(items + [item]) == Add(SumOf(items), Weight(item))
  {
    assert (items + [item])[..|items|] == items;
  }

  lemma {:induction false} AddAssociates(a: Summary, b: Summary, c: Summary)
    ensures Add(Add(a, b), c) == Add(a, Add(b, c))
  {
  }

  lemma {:induction false} NewestTail(items: seq<Item>, item: Item, requests: bool, older: seq<Item>)
    ensures NewestFirst(items + [item], requests, older)
         == if item.Request? == requests then [item] + NewestFirst(items, requests, older) else NewestFirst(items, requests, older)
  {
    assert (items + [item])[..|items|] == items;
  }

  lemma {:induction false} TakeOfTake(item: Item, all: seq<Item>, n: nat)
    requires n > 0
    ensures Take([item] + Take(all, n), n) == Take([item] + all, n)
  {
  }

  lemma {:induction false} ItemsTail(entries: seq<Entry>, e: Entry)
    ensures Items(entries + [e]) == Items(entries) + [e.item]
    ensures Rows(entries + [e]) == Rows(entries) + [Row(e.item)]
  {
  }

  predicate Consistent(s: State) {
    && s.memory == Remembered(s.found, Items(s.log))
    && s.table == s.found.rows + Rows(Through(s.batches, Committed))
    && forall i :: 0 <= i < |s.log| ==> s.log[i].id == i
  }

  lemma {:induction false} PersistedStaysConsistent(s: State, entries: seq<Entry>, byWriter: bool, ok: bool)
    requires Consistent(s)
    ensures Consistent(Persisted(s, entries, byWriter, ok))
  {
    ThroughTail(s.batches, Batch(entries, byWriter, ok), Committed);
    RowsAppend(s.found.rows, Through(s.batches, Committed), entries);
  }

  lemma {:induction false} RowsAppend(found: seq<Item>, before: seq<Entry>, entries: seq<Entry>)
    ensures found + Rows(before + entries) == found + Rows(before) + Rows(entries)
  {
    assert Rows(before + entries) == Rows(before) + Rows(entries);
  }

  lemma {:induction false} RecordStaysConsistent(s: State, item: Item)
    requires Consistent(s)
    ensures Consistent(Apply(s, Record(item)))
  {
    RecordedIsRemembered(s.found, Items(s.log), item);
    ItemsTail(s.log, Entry(|s.log|, item));
  }

  lemma {:induction false} SameRecords(s: State, s': State)
    requires Consistent(s)
    requires s'.found == s.found && s'.memory == s.memory && s'.table == s.table
    requires s'.log == s.log && s'.batches == s.batches
    ensures Consistent(s')
  {
  }

  lemma {:induction false} OtherStepsRecordNothing(s: State, step: Step)
    requires Enabled(s, step) && !step.Record? && !step.PersistDirect? && !step.Persist?
    ensures var s' := Apply(s, step);
            && s'.found == s.found && s'.memory == s.memory && s'.table == s.table
            && s'.log == s.log && s'.batches == s.batches
  {
  }

  lemma {:induction false} ApplyStaysConsistent(s: State, step: Step)
    requires Enabled(s, step) && Consistent(s)
    ensures Consistent(Apply(s, step))
  {
    match step
    case Record(item) => RecordStaysConsistent(s, item);
    case PersistDirect(i, ok) => PersistedStaysConsistent(s.(direct := Without(s.direct, i)), [s.direct[i]], false, ok);
    case Persist(ok) => PersistedStaysConsistent(s, s.batch, true, ok);
    case _ =>
      OtherStepsRecordNothing(s, step);
      SameRecords(s, Apply(s, step));
  }

  // ---------- Over every run ----------

  predicate Invariant(s: State) {
    Locked(s) && InOrder(s) && Barrier(s) && Consistent(s)
  }

  lemma {:induction false} RunKeepsAcks(f: nat -> int, found: Found, steps: seq<Step>)
    ensures AcksConserved(f, Run(Fresh(found), steps))
    decreases |steps|
  {
    if steps != [] {
      var before, last := Run(Fresh(found), steps[..|steps| - 1]), steps[|steps| - 1];
      RunKeepsAcks(f, found, steps[..|steps| - 1]);
      if Enabled(before, last) {
        ApplyKeepsAcks(f, before, last);
      }
    }
  }

  lemma {:induction false} FreshInvariant(found: Found)
    requires Hydrated(found)
    ensures Invariant(Fresh(found))
  {
    assert found.rows + [] == found.rows;
  }

  lemma {:induction false} RunKeepsInvariant(found: Found, steps: seq<Step>)
    requires Hydrated(found)
    ensures var s := Run(Fresh(found), steps); Invariant(s) && s.found == found
    decreases |steps|
  {
    if steps != [] {
      var before, last := Run(Fresh(found), steps[..|steps| - 1]), steps[|steps| - 1];
      RunKeepsInvariant(found, steps[..|steps| - 1]);
      if Enabled(before, last) {
        StepKeepsInvariant(found, steps[..|steps| - 1], before, last);
      }
    } else {
      FreshInvariant(found);
    }
  }

  lemma {:induction false} StepKeepsInvariant(found: Found, steps: seq<Step>, s: State, step: Step)
    requires s == Run(Fresh(found), steps) && Enabled(s, step) && Invariant(s) && s.found == found
    ensures Invariant(Apply(s, step)) && Apply(s, step).found == found
  {
    if step.TimeOut? {
      RunKeepsAcks(Times<nat>(s.flushing[step.i]), found, steps);
    }
    if step.Acknowledge? {
      RunKeepsAcks(Times<nat>(s.writer.ticket.ack), found, steps);
    }
    ApplyKeepsLocked(s, step);
    ApplyKeepsOrder(s, step);
    ApplyKeepsBarrier(s, step);
    ApplyStaysConsistent(s, step);
  }

  // ---------- Main results ----------

  // Everything recorded that no persistBatch call has had yet.
  function InFlight(s: State): seq<Entry> {
    s.pending + s.sending + s.direct + Puts(s.queue) + s.batch
  }

  // Each record is in exactly one place: still in flight, or in one persistBatch call.
  lemma {:induction false} EveryRecordPersistedOnce(found: Found, steps: seq<Step>)
    requires Hydrated(found)
    ensures var s := Run(Fresh(found), steps);
            && multiset(s.log) == multiset(InFlight(s)) + multiset(Through(s.batches, Any))
            && forall e :: e in s.log ==> multiset(s.log)[e] == 1
  {
    var s := Run(Fresh(found), steps);
    forall e: Entry
      ensures multiset(s.log)[e] == multiset(InFlight(s))[e] + multiset(Through(s.batches, Any))[e]
    {
      RunConserves(Times(e), found, steps);
      FlightTotal(Times(e), s);
      TimesCounts(e, s.log);
      TimesCounts(e, InFlight(s));
      TimesCounts(e, Through(s.batches, Any));
    }
    RunKeepsInvariant(found, steps);
    forall e | e in s.log ensures multiset(s.log)[e] == 1 {
      var i :| 0 <= i < |s.log| && s.log[i] == e;
      OnlyAt(s.log, i);
    }
  }

  lemma {:induction false} OnlyAt(log: seq<Entry>, i: nat)
    requires i < |log| && forall k :: 0 <= k < |log| ==> log[k].id == k
    ensures multiset(log)[log[i]] == 1
  {
    assert log == log[..i] + [log[i]] + log[i + 1..];
    assert log[i] !in log[..i] && log[i] !in log[i + 1..];
  }

  lemma {:induction false} FlightTotal(f: Measure, s: State)
    ensures Total(f, InFlight(s)) + Total(f, Through(s.batches, Any)) == Held(f, s) + Handed(f, s)
  {
    TotalAppend(f, s.pending, s.sending);
    TotalAppend(f, s.pending + s.sending, s.direct);
    TotalAppend(f, s.pending + s.sending + s.direct, Puts(s.queue));
    TotalAppend(f, s.pending + s.sending + s.direct + Puts(s.queue), s.batch);
  }

  // The seven totals one by one.
  function Field(sum: Summary, k: nat): int {
    match k
    case 0 => sum.requests
    case 1 => sum.successes
    case 2 => sum.failures
    case 3 => sum.prompt
    case 4 => sum.cached
    case 5 => sum.completion
    case _ => sum.total
  }

  function Part(k: nat): Measure {
    (e: Entry) => Field(Weight(e.item), k)
  }

  lemma {:induction false} SumByParts(entries: seq<Entry>, k: nat)
    ensures Field(SumOf(Items(entries)), k) == Total(Part(k), entries)
    ensures SumOf(Rows(entries)) == SumOf(Items(entries))
    decreases |entries|
  {
    if entries != [] {
      var front, last := entries[..|entries| - 1], entries[|entries| - 1];
      SumByParts(front, k);
      ItemsTail(front, last);
      assert entries == front + [last];
      assert Weight(Row(last.item)) == Weight(last.item);
      assert Items(entries)[..|entries| - 1] == Items(front) && Rows(entries)[..|entries| - 1] == Rows(front);
    }
  }

  lemma {:induction false} SumAppend(a: seq<Item>, b: seq<Item>)
    ensures SumOf(a + b) == Add(SumOf(a), SumOf(b))
    decreases |b|
  {
    if b == [] {
      assert a + b == a;
    } else {
      assert (a + b)[..|a + b| - 1] == a + b[..|b| - 1];
      SumAppend(a, b[..|b| - 1]);
    }
  }

  lemma {:induction false} CommittedOrLost(f: Measure, batches: seq<Batch>)
    ensures Total(f, Through(batches, Any)) == Total(f, Through(batches, Committed)) + Total(f, Through(batches, Lost))
    decreases |batches|
  {
    if batches != [] {
      var front, last := batches[..|batches| - 1], batches[|batches| - 1];
      CommittedOrLost(f, front);
      TotalAppend(f, Through(front, Any), last.entries);
      TotalAppend(f, Through(front, Committed), last.entries);
      TotalAppend(f, Through(front, Lost), last.entries);
    }
  }

  // ---------- What the totals count ----------

  function Where<T>(s: seq<T>, keep: T -> bool): seq<T> {
    if s == [] then []
    else Where(s[..|s| - 1], keep) + if keep(s[|s| - 1]) then [s[|s| - 1]] else []
  }

  // A token count of the requests among these records.
  function Tokens(items: seq<Item>, count: Usage -> int): int {
    Total((i: Item) => if i.Request? then count(i.usage) else 0, items)
  }

  // The totals count the requests, those that succeeded and the others, and add up the tokens
  // of each kind; errors count for nothing.
  predicate Counts(sum: Summary, items: seq<Item>) {
    && sum.requests == |Where(items, (i: Item) => i.Request?)|
    && sum.successes == |Where(items, (i: Item) => i.Request? && i.success)|
    && sum.failures == |Where(items, (i: Item) => i.Request? && !i.success)|
    && sum.prompt == Tokens(items, (u: Usage) => u.prompt)
    && sum.cached == Tokens(items, (u: Usage) => u.cached)
    && sum.completion == Tokens(items, (u: Usage) => u.completion)
    && sum.total == Tokens(items, (u: Usage) => u.total)
  }

  lemma {:induction false} SumCounts(items: seq<Item>)
    ensures Counts(SumOf(items), items)
    decreases |items|
  {
    if items != [] {
      SumCounts(items[..|items| - 1]);
    }
  }

  // The newest first: of these records, and after them of the older ones, two hundred at most.
  predicate Recent(kept: seq<Item>, records: seq<Item>, older: seq<Item>) {
    var n := |records|;
    && |kept| == (if n + |older| < 200 then n + |older| else 200)
    && forall k :: 0 <= k < |kept| ==> kept[k] == if k < n then records[n - 1 - k] else older[k - n]
  }

  lemma {:induction false} NewestIsRecent(items: seq<Item>, requests: bool, older: seq<Item>)
    ensures Recent(Take(NewestFirst(items, requests, older), 200), Where(items, (i: Item) => i.Request? == requests), older)
  {
    NewestAt(items, requests, older);
  }

  lemma {:induction false} NewestAt(items: seq<Item>, requests: bool, older: seq<Item>)
    ensures var newest, records := NewestFirst(items, requests, older), Where(items, (i: Item) => i.Request? == requests);
            && |newest| == |records| + |older|
            && forall k :: 0 <= k < |newest| ==>
                 newest[k] == if k < |records| then records[|records| - 1 - k] else older[k - |records|]
    decreases |items|
  {
    if items != [] {
      NewestAt(items[..|items| - 1], requests, older);
    }
  }

  // What the record calls of a run were given.
  function Records(steps: seq<Step>): seq<Item> {
    if steps == [] then []
    else Records(steps[..|steps| - 1]) + match steps[|steps| - 1] case Record(item) => [item] case _ => []
  }

  lemma {:induction false} LogIsRecords(found: Found, steps: seq<Step>)
    ensures Items(Run(Fresh(found), steps).log) == Records(steps) && Run(Fresh(found), steps).found == found
    decreases |steps|
  {
    if steps != [] {
      var before, last := Run(Fresh(found), steps[..|steps| - 1]), steps[|steps| - 1];
      LogIsRecords(found, steps[..|steps| - 1]);
      if Enabled(before, last) {
        StepLogs(before, last);
      }
    }
  }

  lemma {:induction false} StepLogs(s: State, step: Step)
    requires Enabled(s, step)
    ensures Items(Apply(s, step).log) == Items(s.log) + match step case Record(item) => [item] case _ => []
    ensures Apply(s, step).found == s.found
  {
    if step.Record? {
      ItemsTail(s.log, Entry(|s.log|, step.item));
    }
  }

  // At every moment memory counts every record there was, and holds the newest in order.
  lemma {:induction false} MemoryHoldsEverything(found: Found, steps: seq<Step>)
    requires Hydrated(found)
    ensures var m := Run(Fresh(found), steps).memory;
            && Counts(m.summary, found.rows + Records(steps))
            && Recent(m.requests, Where(Records(steps), (i: Item) => i.Request?), found.requests)
            && Recent(m.errors, Where(Records(steps), (i: Item) => i.Error?), found.errors)
            && m.version == |Records(steps)|
  {
    var items := Records(steps);
    RunKeepsInvariant(found, steps);
    LogIsRecords(found, steps);
    SumAppend(found.rows, items);
    SumCounts(found.rows + items);
    NewestIsRecent(items, true, found.requests);
    NewestIsRecent(items, false, found.errors);
    SameFilter(items, (i: Item) => i.Request? == true, (i: Item) => i.Request?);
    SameFilter(items, (i: Item) => i.Request? == false, (i: Item) => i.Error?);
  }

  lemma {:induction false} SameFilter(items: seq<Item>, f: Item -> bool, g: Item -> bool)
    requires forall i :: f(i) == g(i)
    ensures Where(items, f) == Where(items, g)
    decreases |items|
  {
    if items != [] {
      SameFilter(items[..|items| - 1], f, g);
    }
  }

  // The cached totals are those of the table, of what is in flight and of what failed.
  lemma {:induction false} SummaryAccountsForEverything(found: Found, steps: seq<Step>)
    requires Hydrated(found)
    ensures var s := Run(Fresh(found), steps);
            && s.memory.summary == Add(SumOf(s.table), Add(SumOf(Items(InFlight(s))), SumOf(Items(Through(s.batches, Lost)))))
            && Counts(s.memory.summary, s.table + (Items(InFlight(s)) + Items(Through(s.batches, Lost))))
  {
    var s := Run(Fresh(found), steps);
    RunKeepsInvariant(found, steps);
    LogAccounts(found, steps);
    TableAndLog(s);
    SumAppend(Items(InFlight(s)), Items(Through(s.batches, Lost)));
    SumAppend(s.table, Items(InFlight(s)) + Items(Through(s.batches, Lost)));
    SumCounts(s.table + (Items(InFlight(s)) + Items(Through(s.batches, Lost))));
  }

  // What the log adds up to is what landed, is in flight or was lost.
  predicate LogAccountedFor(s: State) {
    SumOf(Items(s.log))
      == Add(SumOf(Rows(Through(s.batches, Committed))), Add(SumOf(Items(InFlight(s))), SumOf(Items(Through(s.batches, Lost)))))
  }

  lemma {:induction false} LogAccounts(found: Found, steps: seq<Step>)
    ensures LogAccountedFor(Run(Fresh(found), steps))
  {
    var s := Run(Fresh(found), steps);
    var a, b, c := SumOf(Rows(Through(s.batches, Committed))), SumOf(Items(InFlight(s))), SumOf(Items(Through(s.batches, Lost)));
    forall k: nat | k < 7 ensures Field(SumOf(Items(s.log)), k) == Field(a, k) + Field(b, k) + Field(c, k) {
      FieldAccounts(found, steps, k);
    }
    FromFields(SumOf(Items(s.log)), a, b, c);
  }

  lemma {:induction false} TableAndLog(s: State)
    requires Consistent(s) && LogAccountedFor(s)
    ensures s.memory.summary == Add(SumOf(s.table), Add(SumOf(Items(InFlight(s))), SumOf(Items(Through(s.batches, Lost)))))
  {
    var landed := SumOf(Rows(Through(s.batches, Committed)));
    var rest := Add(SumOf(Items(InFlight(s))), SumOf(Items(Through(s.batches, Lost))));
    SumAppend(s.found.rows, Rows(Through(s.batches, Committed)));
    assert s.memory.summary == Add(SumOf(s.found.rows), Add(landed, rest));
    AddAssociates(SumOf(s.found.rows), landed, rest);
  }

  lemma {:induction false} FromFields(sum: Summary, a: Summary, b: Summary, c: Summary)
    requires forall k: nat :: k < 7 ==> Field(sum, k) == Field(a, k) + Field(b, k) + Field(c, k)
    ensures sum == Add(a, Add(b, c))
  {
    assert Field(sum, 0) == Field(a, 0) + Field(b, 0) + Field(c, 0) && Field(sum, 1) == Field(a, 1) + Field(b, 1) + Field(c, 1);
    assert Field(sum, 2) == Field(a, 2) + Field(b, 2) + Field(c, 2) && Field(sum, 3) == Field(a, 3) + Field(b, 3) + Field(c, 3);
    assert Field(sum, 4) == Field(a, 4) + Field(b, 4) + Field(c, 4) && Field(sum, 5) == Field(a, 5) + Field(b, 5) + Field(c, 5);
    assert Field(sum, 6) == Field(a, 6) + Field(b, 6) + Field(c, 6);
  }

  lemma {:induction false} FieldAccounts(found: Found, steps: seq<Step>, k: nat)
    ensures var s := Run(Fresh(found), steps);
            Field(SumOf(Items(s.log)), k)
              == Field(SumOf(Rows(Through(s.batches, Committed))), k)
                 + Field(SumOf(Items(InFlight(s))), k) + Field(SumOf(Items(Through(s.batches, Lost))), k)
  {
    var s, f := Run(Fresh(found), steps), Part(k);
    RunConserves(f, found, steps);
    FlightTotal(f, s);
    CommittedOrLost(f, s.batches);
    SumByParts(s.log, k);
    SumByParts(Through(s.batches, Committed), k);
    SumByParts(InFlight(s), k);
    SumByParts(Through(s.batches, Lost), k);
  }

  // An acknowledged flush: every write queued before it has been through persistBatch, in
  // the order it was queued, and no flush is acknowledged twice.
  lemma {:induction false} FlushIsABarrier(found: Found, steps: seq<Step>)
    requires Hydrated(found)
    ensures var s := Run(Fresh(found), steps);
            && (forall t :: t in s.acked ==> t.before <= |s.sent| && s.sent[..t.before] <= ViaWriter(s))
            && (forall i, j :: 0 <= i < j < |s.acked| ==> s.acked[i].ack != s.acked[j].ack)
  {
    var s := Run(Fresh(found), steps);
    RunKeepsInvariant(found, steps);
    assert ViaWriter(s) + s.batch + Puts(s.queue) == ViaWriter(s) + (s.batch + Puts(s.queue));
    forall i, j | 0 <= i < j < |s.acked| ensures s.acked[i].ack != s.acked[j].ack {
      if s.acked[i].ack == s.acked[j].ack {
        var a, ids := s.acked[i].ack, AckIds(s.acked);
        RunKeepsAcks(Times<nat>(a), found, steps);
        NumbersOnce(s.flushes, a);
        TimesCounts<nat>(a, s.flushing);
        TimesCounts<nat>(a, Acks(s.queue));
        TimesCounts<nat>(a, InHand(s.writer));
        TimesCounts<nat>(a, ids);
        TwiceIsTwo(ids, i, j);
        assert false;
      }
    }
  }

  lemma {:induction false} TwiceIsTwo(s: seq<nat>, i: nat, j: nat)
    requires i < j < |s| && s[i] == s[j]
    ensures multiset(s)[s[i]] >= 2
  {
    assert s == s[..i] + [s[i]] + s[i + 1..j] + [s[j]] + s[j + 1..];
  }

  // ---------- What a flush makes the table hold ----------

  // The ticket is with the message, the writer, or among those acknowledged.
  predicate Carried(s: State, t: Ticket) {
    Flush(t) in s.queue || s.writer == Persisting(ThenAcknowledge(t)) || s.writer == Acknowledging(t) || t in s.acked
  }

  lemma {:induction false} StepCarries(s: State, step: Step, t: Ticket)
    requires Enabled(s, step) && Carried(s, t)
    ensures Carried(Apply(s, step), t)
  {
    if step.Receive? && s.queue != [] && Flush(t) in s.queue {
      var k :| 0 <= k < |s.queue| && s.queue[k] == Flush(t);
      if k > 0 {
        assert s.queue[1..][k - 1] == Flush(t);
      }
    }
  }

  lemma {:induction false} StepOnlyAdds(s: State, step: Step)
    requires Enabled(s, step)
    ensures s.sent <= Apply(s, step).sent && s.batches <= Apply(s, step).batches
  {
  }

  lemma {:induction false} RunCarries(start: State, steps: seq<Step>, more: seq<Step>, t: Ticket)
    requires Carried(Run(start, steps), t)
    ensures var s, s' := Run(start, steps), Run(start, steps + more);
            Carried(s', t) && s.sent <= s'.sent && s.batches <= s'.batches
    decreases |more|
  {
    if more == [] {
      assert steps + more == steps;
    } else {
      var n := |more| - 1;
      var s := Run(start, steps + more[..n]);
      RunCarries(start, steps, more[..n], t);
      assert steps + more == steps + more[..n] + [more[n]];
      RunTail(start, steps + more[..n], more[n]);
      if Enabled(s, more[n]) {
        StepCarries(s, more[n], t);
        StepOnlyAdds(s, more[n]);
      }
    }
  }

  lemma {:induction false} FlushIsAnAck(queue: seq<Message>, t: Ticket)
    requires Flush(t) in queue
    ensures t.ack in Acks(queue)
    decreases |queue|
  {
    var n := |queue| - 1;
    if queue[n] != Flush(t) {
      FlushIsAnAck(queue[..n], t);
    }
  }

  // An acknowledgement is in one place, so a ticket whose acknowledgement is closed is not
  // still under way.
  lemma {:induction false} CarriedIsAcked(found: Found, steps: seq<Step>, t: Ticket)
    requires var s := Run(Fresh(found), steps); Carried(s, t) && t.ack in AckIds(s.acked)
    ensures t in Run(Fresh(found), steps).acked
  {
    var s := Run(Fresh(found), steps);
    if t !in s.acked {
      RunKeepsAcks(Times<nat>(t.ack), found, steps);
      NumbersOnce(s.flushes, t.ack);
      TimesCounts<nat>(t.ack, s.flushing);
      TimesCounts<nat>(t.ack, Acks(s.queue));
      TimesCounts<nat>(t.ack, InHand(s.writer));
      TimesCounts<nat>(t.ack, AckIds(s.acked));
      if Flush(t) in s.queue {
        FlushIsAnAck(s.queue, t);
      }
      assert false;
    }
  }

  lemma {:induction false} StillThrough(batches: seq<Batch>, more: seq<Batch>, which: Which, e: Entry)
    requires batches <= more && e in Through(batches, which)
    ensures e in Through(more, which)
    decreases |more|
  {
    if batches == more {
    } else {
      StillThrough(batches, more[..|more| - 1], which, e);
    }
  }

  // A batch of the writer's is a batch, and every batch committed or was lost.
  lemma {:induction false} ThroughKinds(batches: seq<Batch>, e: Entry)
    ensures e in Through(batches, ByWriter) ==> e in Through(batches, Any)
    ensures e in Through(batches, Any) <==> e in Through(batches, Committed) || e in Through(batches, Lost)
    decreases |batches|
  {
    if batches != [] {
      ThroughKinds(batches[..|batches| - 1], e);
    }
  }

  predicate EnqueueOver(s: State, e: Entry) {
    e in s.log && e !in s.pending && e !in s.sending && e !in s.direct
  }

  // A record whose enqueue is over is queued, in the open batch, or has been through.
  lemma {:induction false} WhereItIs(found: Found, steps: seq<Step>, e: Entry)
    requires Hydrated(found) && EnqueueOver(Run(Fresh(found), steps), e)
    ensures var s := Run(Fresh(found), steps); e in s.sent || e in Through(s.batches, Any)
  {
    var s := Run(Fresh(found), steps);
    EveryRecordPersistedOnce(found, steps);
    RunKeepsInvariant(found, steps);
    assert e in multiset(s.log);
    assert e in multiset(InFlight(s)) || e in multiset(Through(s.batches, Any));
    if e in InFlight(s) {
      assert e in Puts(s.queue) || e in s.batch;
    }
  }

  lemma {:induction false} FlushJoins(found: Found, before: seq<Step>, i: nat)
    requires Hydrated(found) && Enabled(Run(Fresh(found), before), SendFlush(i))
    ensures var a, s := Run(Fresh(found), before), Run(Fresh(found), before + [SendFlush(i)]);
            Carried(s, Ticket(a.flushing[i], |a.sent|)) && s.sent == a.sent && s.batches == a.batches
  {
    var a := Run(Fresh(found), before);
    RunKeepsInvariant(found, before);
    RunTail(Fresh(found), before, SendFlush(i));
    assert (a.queue + [Flush(Ticket(a.flushing[i], |a.sent|))])[|a.queue|] == Flush(Ticket(a.flushing[i], |a.sent|));
  }

  // Once a flush is acknowledged, every record whose enqueue was over when the flush joined the
  // channel has been through persistBatch; so from then on the table holds it, unless the
  // batch it was in failed.
  lemma {:induction false} FlushedIsInTable(found: Found, before: seq<Step>, i: nat, after: seq<Step>, e: Entry)
    requires Hydrated(found) && Enabled(Run(Fresh(found), before), SendFlush(i)) && EnqueueOver(Run(Fresh(found), before), e)
    requires Run(Fresh(found), before).flushing[i] in AckIds(Run(Fresh(found), before + [SendFlush(i)] + after).acked)
    ensures var s := Run(Fresh(found), before + [SendFlush(i)] + after);
            && e in Through(s.batches, Any)
            && (e in Through(s.batches, Lost) || Row(e.item) in s.table)
  {
    var all := before + [SendFlush(i)] + after;
    WhereItIs(found, before, e);
    FlushCovers(found, before, i, after);
    GoneThrough(Run(Fresh(found), before), Run(Fresh(found), all), e);
    ThroughKinds(Run(Fresh(found), all).batches, e);
    if e in Through(Run(Fresh(found), all).batches, Committed) {
      CommittedIsInTable(found, all, e);
    }
  }

  // All that had been queued by then has been through persistBatch.
  predicate Covers(a: State, s: State) {
    a.sent <= ViaWriter(s) && a.batches <= s.batches
  }

  lemma {:induction false} FlushCovers(found: Found, before: seq<Step>, i: nat, after: seq<Step>)
    requires Hydrated(found) && Enabled(Run(Fresh(found), before), SendFlush(i))
    requires Run(Fresh(found), before).flushing[i] in AckIds(Run(Fresh(found), before + [SendFlush(i)] + after).acked)
    ensures Covers(Run(Fresh(found), before), Run(Fresh(found), before + [SendFlush(i)] + after))
  {
    var a, s := Run(Fresh(found), before), Run(Fresh(found), before + [SendFlush(i)] + after);
    var t := Ticket(a.flushing[i], |a.sent|);
    FlushJoins(found, before, i);
    RunCarries(Fresh(found), before + [SendFlush(i)], after, t);
    CarriedIsAcked(found, before + [SendFlush(i)] + after, t);
    FlushIsABarrier(found, before + [SendFlush(i)] + after);
    assert s.sent[..t.before] == a.sent;
  }

  lemma {:induction false} GoneThrough(a: State, s: State, e: Entry)
    requires Covers(a, s) && (e in a.sent || e in Through(a.batches, Any))
    ensures e in Through(s.batches, Any)
  {
    ThroughKinds(s.batches, e);
    if e in a.sent {
      assert e in ViaWriter(s);
    } else {
      StillThrough(a.batches, s.batches, Any, e);
    }
  }

  lemma {:induction false} CommittedIsInTable(found: Found, steps: seq<Step>, e: Entry)
    requires Hydrated(found) && e in Through(Run(Fresh(found), steps).batches, Committed)
    ensures Row(e.item) in Run(Fresh(found), steps).table
  {
    RunKeepsInvariant(found, steps);
    var s := Run(Fresh(found), steps);
    var landed := Through(s.batches, Committed);
    var k :| 0 <= k < |landed| && landed[k] == e;
    assert Rows(landed)[k] == Row(e.item);
  }

  // A record that is in memory and not yet with its enqueue, and a flush on its way.
  lemma {:induction false} RecordedNotQueued(start: State, item: Item) returns (steps: seq<Step>)
    requires start == Fresh(Found([], [], []))
    ensures var s := Run(start, steps);
            s == start.(memory := Recorded(start.memory, item), log := [Entry(0, item)], pending := [Entry(0, item)],
                        flushing := [0], flushes := 1)
  {
    var none: seq<Step> := [];
    RunTail(start, none, Record(item));
    steps := none + [Record(item)];
    RunTail(start, steps, BeginFlush);
    steps := steps + [BeginFlush];
  }

  lemma {:induction false} FlushAlone(s: State) returns (s': State)
    requires s.queue == [] && s.batch == [] && s.writer.Waiting? && !s.channelClosed && s.flushing == [0] && s.acked == []
    ensures s' == Next(Next(Next(Next(s, SendFlush(0)), Receive), Persist(true)), Acknowledge)
    ensures 0 in AckIds(s'.acked) && s'.table == s.table && s'.batches == s.batches && s'.memory == s.memory && s'.pending == s.pending
  {
    s' := Next(Next(Next(Next(s, SendFlush(0)), Receive), Persist(true)), Acknowledge);
    assert AckIds(s'.acked)[0] == 0;
  }

  // A record that the version counts can be missing from a table read after the flush: its
  // enqueue had not finished when the flush joined the channel.
  lemma {:induction false} FlushMissesUnqueued(item: Item)
    ensures exists steps :: var s := Run(Fresh(Found([], [], [])), steps + [SendFlush(0)] + [Receive] + [Persist(true)] + [Acknowledge]);
              0 in AckIds(s.acked) && s.memory.version == 1 && s.pending == [Entry(0, item)] && s.table == [] && s.batches == []
  {
    var start := Fresh(Found([], [], []));
    var steps := RecordedNotQueued(start, item);
    RunTail(start, steps, SendFlush(0));
    RunTail(start, steps + [SendFlush(0)], Receive);
    RunTail(start, steps + [SendFlush(0)] + [Receive], Persist(true));
    RunTail(start, steps + [SendFlush(0)] + [Receive] + [Persist(true)], Acknowledge);
    var s' := FlushAlone(Run(start, steps));
  }

  // No step ever sends on the closed channel or closes anything twice, and when the first
  // Close returns, all that was ever queued has been through persistBatch.
  lemma {:induction false} CloseDrains(found: Found, steps: seq<Step>)
    requires Hydrated(found)
    ensures var s := Run(Fresh(found), steps);
            && !s.panicked
            && (s.closer.Returned? ==> ViaWriter(s) == s.sent && s.queue == [] && s.batch == [])
  {
    RunKeepsInvariant(found, steps);
    var s := Run(Fresh(found), steps);
    assert ViaWriter(s) + [] + [] == ViaWriter(s);
  }

  // A run that leaves one write in the queue.
  lemma {:induction false} OneQueued(start: State) returns (steps: seq<Step>)
    requires start == Fresh(Found([], [], []))
    ensures var s := Run(start, steps);
            !s.closed && s.sending == [] && s.flushing == [] && |s.sent| == 1 && s.batches == []
  {
    var e, none := Error("e"), [];
    RunTail(start, none, Record(e));
    steps := none + [Record(e)];
    RunTail(start, steps, Lock(0));
    steps := steps + [Lock(0)];
    RunTail(start, steps, Send(0));
    steps := steps + [Send(0)];
  }

  // A second Close gives no such guarantee: it returns as soon as it sees the flag.
  lemma {:induction false} SecondCloseReturnsEarly()
    ensures exists steps :: var s := Run(Fresh(Found([], [], [])), steps);
              s.closed && Enabled(s, Stop) && Apply(s, Stop) == s && ViaWriter(s) != s.sent
  {
    var start := Fresh(Found([], [], []));
    var steps := OneQueued(start);
    RunTail(start, steps, Stop);
    var s := Run(start, steps + [Stop]);
    assert |s.sent| == 1 && ViaWriter(s) == [];
  }

  lemma {:induction false} RunTail(s: State, steps: seq<Step>, last: Step)
    ensures Run(s, steps + [last]) == Next(Run(s, steps), last)
  {
    assert (steps + [last])[..|steps|] == steps;
  }
}
