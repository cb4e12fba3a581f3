/**
 The logger as it runs: the queue, the batch, the chain state and the table as fields its methods
 change in place, tied to the state machines whose runs the other audit modules reason about.
 */
module AuditLogger {
  import opened Prelude
  import opened AuditChain
  import opened AuditVerify
  import opened AuditWriter
  import AuditRuns

  /** How the database and the queue's fill level treat one insert attempt. */
  datatype Fortune = Fortune(readOk: bool, shed: bool, appOf: Id -> Option<Id>, outcome: InsertOutcome)

  datatype ChainState = ChainState(table: seq<Row>, nextId: nat, lastHash: string, seeded: bool)

  function Seeded(c: ChainState, readOk: bool): ChainState {
    if c.seeded then c
    else
      var tail := AuditRuns.Tail(c.table);
      c.(seeded := true, lastHash := if readOk && tail.Some? then tail.value else c.lastHash)
  }

  /** One insert attempt: seed if need be, chain the batch, and store its rows or lose them. */
  function Attempted(h: Digest, c: ChainState, batch: seq<Event>, f: Fortune): ChainState {
    var d := Seeded(c, f.readOk);
    var events := if f.shed then batch else BackfilledAll(batch, f.appOf);
    var e := d.(lastHash := LastHash(h, d.lastHash, events));
    if f.outcome.Lost? then e
    else e.(table := d.table + RowsFor(h, d.nextId, d.lastHash, events), nextId := d.nextId + |events|)
  }

  /** A flush: a second attempt whenever the first reported failure, whether or not it stored the rows. */
  function FlushedTo(h: Digest, c: ChainState, batch: seq<Event>, first: Fortune, second: Fortune): ChainState {
    var d := Attempted(h, c, batch, first);
    if first.outcome.Stored? then d else Attempted(h, d, batch, second)
  }

  /** The application an event is stored under: its own, else its user's, which is not looked up for a shed batch. */
  function AppStored(e: Event, f: Fortune): Option<Id> {
    if e.app.Some? || e.user.None? || f.shed then e.app else f.appOf(e.user.value)
  }

  /** The row is the event's, but for the application. */
  predicate StoresEvent(r: Row, e: Event, app: Option<Id>) {
    && r.app == app && r.action == e.action && r.user == e.user && r.tenant == e.tenant && r.agent == e.agent
    && r.createdMicros == e.createdNanos / 1000 && r.metadata == e.metadata && r.resourceId == e.resourceId
    && r.requestId == e.requestId
  }

  /**
   An attempt adds a row for each event of the batch, in order and under the next ids, or nothing at all;
   either way the writer has seeded itself and its running hash has moved on to that of the last row.
   */
  lemma AttemptStores(h: Digest, c: ChainState, batch: seq<Event>, f: Fortune, i: nat)
    requires i < |batch|
    ensures var a := Attempted(h, c, batch, f);
            && a.seeded
            && (f.outcome.Lost? ==> a.table == c.table && a.nextId == c.nextId)
            && (!f.outcome.Lost? ==>
                  && |a.table| == |c.table| + |batch| && a.table[..|c.table|] == c.table && a.nextId == c.nextId + |batch|
                  && var r := a.table[|c.table| + i];
                     && r.id == c.nextId + i && StoresEvent(r, batch[i], AppStored(batch[i], f))
                     && (i == |batch| - 1 ==> r.rowHash == Some(a.lastHash)))
  {
    var d := Seeded(c, f.readOk);
    var events := if f.shed then batch else BackfilledAll(batch, f.appOf);
    assert |events| == |batch|;
    RowsChain(h, d.nextId, d.lastHash, events, i);
    RowOfEvent(h, d.nextId, d.lastHash, events, i);
    StoredAsBackfilled(RowsFor(h, d.nextId, d.lastHash, events)[i], batch, f, i);
    AppendedAt(c.table, RowsFor(h, d.nextId, d.lastHash, events), i);
    SeedingReadsOnly(c, f.readOk);
    hide RowsFor, LastHash, Seeded, StoresEvent, BackfilledAll, AppStored, Links;
  }

  lemma SeedingReadsOnly(c: ChainState, readOk: bool)
    ensures var d := Seeded(c, readOk); d.seeded && d.table == c.table && d.nextId == c.nextId
  {
  }

  lemma AppendedAt<T>(a: seq<T>, b: seq<T>, i: nat)
    requires i < |b|
    ensures (a + b)[|a| + i] == b[i] && (a + b)[..|a|] == a
  {
  }

  lemma StoredAsBackfilled(r: Row, batch: seq<Event>, f: Fortune, i: nat)
    requires i < |batch|
    ensures var e := if f.shed then batch[i] else BackfilledAll(batch, f.appOf)[i];
            StoresEvent(r, e, e.app) ==> StoresEvent(r, batch[i], AppStored(batch[i], f))
  {
  }

  lemma {:induction false} RowOfEvent(h: Digest, id: nat, prev: string, events: seq<Event>, i: nat)
    requires i < |events|
    ensures StoresEvent(RowsFor(h, id, prev, events)[i], events[i], events[i].app)
  {
    hide ChainHash, SkeletonFor, StatusOf, Int16;
    if i < |events| - 1 {
      RowOfEvent(h, id, prev, events[..|events| - 1], i);
    }
  }

  /** The oldest `n` rows are gone, and the last hash is to be read again. */
  function Purged(c: ChainState, n: nat): ChainState
    requires n <= |c.table|
  {
    c.(table := c.table[n..], seeded := false)
  }

  function ViewOf(s: AuditRuns.State): ChainState { ChainState(s.table, s.nextId, s.lastHash, s.seeded) }

  function AttemptActions(s: AuditRuns.State, f: Fortune): seq<AuditRuns.Action> {
    (if s.seeded then [AuditRuns.MarkSeeded] else [AuditRuns.MarkSeeded, AuditRuns.ReadTail(f.readOk)])
    + [AuditRuns.Chain(f.shed, f.appOf), AuditRuns.Insert(f.outcome)]
  }

  /** An undisturbed attempt is a run of the writer's steps. */
  lemma AttemptIsRun(h: Digest, s: AuditRuns.State, f: Fortune)
    requires s.phase.Attempting?
    ensures var acts := AttemptActions(s, f);
            && AuditRuns.Possible(h, s, acts)
            && ViewOf(AuditRuns.After(h, s, acts)) == Attempted(h, ViewOf(s), s.phase.batch, f)
            && AuditRuns.After(h, s, acts).phase ==
               if f.outcome.Stored? || s.phase.retry then AuditRuns.Resting else AuditRuns.Attempting(s.phase.batch, true)
  {
    hide RowsFor, LastHash, BackfilledAll, AuditRuns.Tail, AuditRuns.Origins;
    var chain, insert := AuditRuns.Chain(f.shed, f.appOf), AuditRuns.Insert(f.outcome);
    var t := AuditRuns.Next(h, s, AuditRuns.MarkSeeded);
    if s.seeded {
      Ending(h, t, chain, insert);
      Prepend(h, s, AuditRuns.MarkSeeded, [chain, insert]);
      assert AttemptActions(s, f) == [AuditRuns.MarkSeeded] + [chain, insert];
    } else {
      var u := AuditRuns.Next(h, t, AuditRuns.ReadTail(f.readOk));
      Ending(h, u, chain, insert);
      Prepend(h, t, AuditRuns.ReadTail(f.readOk), [chain, insert]);
      Prepend(h, s, AuditRuns.MarkSeeded, [AuditRuns.ReadTail(f.readOk)] + [chain, insert]);
      assert AttemptActions(s, f) == [AuditRuns.MarkSeeded] + ([AuditRuns.ReadTail(f.readOk)] + [chain, insert]);
    }
  }

  lemma Prepend(h: Digest, s: AuditRuns.State, a: AuditRuns.Action, rest: seq<AuditRuns.Action>)
    requires AuditRuns.Enabled(s, a) && AuditRuns.Possible(h, AuditRuns.Next(h, s, a), rest)
    ensures AuditRuns.Possible(h, s, [a] + rest)
    ensures AuditRuns.After(h, s, [a] + rest) == AuditRuns.After(h, AuditRuns.Next(h, s, a), rest)
  {
  }

  lemma Ending(h: Digest, s: AuditRuns.State, a: AuditRuns.Action, b: AuditRuns.Action)
    requires AuditRuns.Enabled(s, a) && AuditRuns.Enabled(AuditRuns.Next(h, s, a), b)
    ensures AuditRuns.Possible(h, s, [a, b])
    ensures AuditRuns.After(h, s, [a, b]) == AuditRuns.Next(h, AuditRuns.Next(h, s, a), b)
  {
    hide AuditRuns.Next, AuditRuns.Enabled;
    var t := AuditRuns.Next(h, s, a);
    assert [a, b] == [a] + [b] && [b] == [b] + [];
    Prepend(h, t, b, []);
    Prepend(h, s, a, [b]);
  }

  /** A batch that left the worker, and whether an insert of it was acknowledged. */
  datatype Sent = Sent(batch: seq<Event>, acked: bool)

  function AllEvents(sent: seq<Sent>): seq<Event> {
    if sent == [] then [] else AllEvents(sent[..|sent| - 1]) + sent[|sent| - 1].batch
  }

  function AckedBatches(sent: seq<Sent>): seq<seq<Event>> {
    if sent == [] then []
    else AckedBatches(sent[..|sent| - 1]) + if sent[|sent| - 1].acked then [sent[|sent| - 1].batch] else []
  }

  /** The chain after these batches were flushed in turn, flush `n` meeting the fortunes `luck(n)`. */
  function Replayed(h: Digest, c: ChainState, sent: seq<Sent>, luck: nat -> (Fortune, Fortune)): ChainState {
    if sent == [] then c
    else
      var n := |sent| - 1;
      FlushedTo(h, Replayed(h, c, sent[..n], luck), sent[n].batch, luck(n).0, luck(n).1)
  }

  predicate BatchesWithin(sent: seq<Sent>, size: nat) {
    forall k :: 0 <= k < |sent| ==> 0 < |sent[k].batch| <= size
  }

  /** Every sink has been given exactly the acknowledged batches, on top of what it had. */
  predicate Streamed(before: seq<seq<seq<Event>>>, sinks: seq<seq<seq<Event>>>, sent: seq<Sent>) {
    |sinks| == |before| && forall i :: 0 <= i < |sinks| ==> sinks[i] == before[i] + AckedBatches(sent)
  }

  /** The logger at one instant: its chain, its sinks, the events it has counted and those it still holds. */
  datatype Snapshot = Snapshot(chain: ChainState, sinks: seq<seq<seq<Event>>>, counted: nat, held: seq<Event>)

  /** Between two instants exactly the batches `sent` left the worker, in order, each accounted for. */
  ghost predicate Ledger(
    h: Digest, size: nat, start: Snapshot, now: Snapshot, sent: seq<Sent>, luck: nat -> (Fortune, Fortune))
  {
    && AllEvents(sent) + now.held == start.held
    && BatchesWithin(sent, size)
    && Streamed(start.sinks, now.sinks, sent)
    && now.counted == start.counted + |AllEvents(sent)|
    && now.chain == Replayed(h, start.chain, sent, luck)
  }

  lemma LedgerGrows(
    h: Digest, size: nat, start: Snapshot, before: Snapshot, now: Snapshot, sent: seq<Sent>, b: Sent,
    luck: nat -> (Fortune, Fortune))
    requires Ledger(h, size, start, before, sent, luck)
    requires 0 < |b.batch| <= size && before.held == b.batch + now.held
    requires now.counted == before.counted + |b.batch|
    requires now.chain == FlushedTo(h, before.chain, b.batch, luck(|sent|).0, luck(|sent|).1)
    requires |now.sinks| == |before.sinks|
    requires forall i :: 0 <= i < |now.sinks| ==> now.sinks[i] == before.sinks[i] + (if b.acked then [b.batch] else [])
    ensures Ledger(h, size, start, now, sent + [b], luck)
  {
    hide FlushedTo;
    assert (sent + [b])[..|sent|] == sent;
    assert AllEvents(sent + [b]) + now.held == AllEvents(sent) + before.held;
  }

  lemma LedgerClosed(
    h: Digest, size: nat, start: Snapshot, now: Snapshot, sent: seq<Sent>, luck: nat -> (Fortune, Fortune))
    requires Ledger(h, size, start, now, sent, luck) && now.held == []
    ensures AllEvents(sent) == start.held && BatchesWithin(sent, size) && Streamed(start.sinks, now.sinks, sent)
    ensures now.counted == start.counted + |start.held| && now.chain == Replayed(h, start.chain, sent, luck)
  {
    assert AllEvents(sent) + [] == AllEvents(sent);
  }

  class Logger {
    const h: Digest
    const capacity: nat
    const batchSize: nat
    var queue: seq<Event>
    var batch: seq<Event>
    var closed: bool
    var done: bool
    var chain: ChainState
    var sinks: seq<seq<seq<Event>>>
    var written: nat
    var dropped: nat
    var refused: nat

    constructor (digest: Digest, queueSize: nat, batching: nat, table: seq<Row>, nextId: nat, sinkCount: nat)
      requires batching > 0
      ensures h == digest && capacity == queueSize && batchSize == batching
      ensures queue == [] && batch == [] && !closed && !done && written == dropped == refused == 0
      ensures chain == ChainState(table, nextId, "", false)
      ensures sinks == seq(sinkCount, i => [])
    {
      h, capacity, batchSize := digest, queueSize, batching;
      queue, batch, closed, done := [], [], false, false;
      chain := ChainState(table, nextId, "", false);
      sinks := seq(sinkCount, i => []);
      written, dropped, refused := 0, 0, 0;
    }

    /** Accept, stamped with the current instant, or refuse and count; never block. */
    method Log(e: Event, now: int)
      modifies this`queue, this`refused
      ensures var fits := !closed && |old(queue)| < capacity;
              && queue == (if fits then old(queue) + [e.(createdNanos := now)] else old(queue))
              && refused == old(refused) + (if fits then 0 else 1)
    {
      if closed {
        refused := refused + 1;
        return;
      }
      if |queue| < capacity {
        queue := queue + [e.(createdNanos := now)];
      } else {
        refused := refused + 1;
      }
    }

    method SeedChain(readOk: bool)
      modifies this`chain
      ensures chain == Seeded(old(chain), readOk)
    {
      var seeded := chain.seeded;
      chain := chain.(seeded := true);
      if seeded {
        return;
      }
      var last := AuditRuns.Tail(chain.table);
      if readOk && last.Some? {
        chain := chain.(lastHash := last.value);
      }
    }

    method CopyBatch(events: seq<Event>, f: Fortune) returns (ok: bool)
      modifies this`chain
      ensures ok == f.outcome.Stored? && chain == Attempted(h, old(chain), events, f)
    {
      SeedChain(f.readOk);
      var rows, newHash := ChainBatch(h, chain.nextId, chain.lastHash, events, f.shed, f.appOf);
      chain := chain.(lastHash := newHash);
      if !f.outcome.Lost? {
        chain := chain.(table := chain.table + rows, nextId := chain.nextId + |rows|);
      }
      ok := f.outcome.Stored?;
    }

    /** Only an acknowledged batch is streamed, to every sink. */
    method Flush(events: seq<Event>, first: Fortune, second: Fortune) returns (ok: bool)
      modifies this`chain, this`sinks, this`written, this`dropped
      ensures ok == (first.outcome.Stored? || second.outcome.Stored?)
      ensures chain == FlushedTo(h, old(chain), events, first, second)
      ensures |sinks| == |old(sinks)|
      ensures forall i :: 0 <= i < |sinks| ==> sinks[i] == old(sinks)[i] + (if ok then [events] else [])
      ensures written == old(written) + (if ok then |events| else 0)
      ensures dropped == old(dropped) + (if ok then 0 else |events|)
    {
      hide Attempted;
      ok := CopyBatch(events, first);
      if !ok {
        ok := CopyBatch(events, second);
      }
      if !ok {
        dropped := dropped + |events|;
        return;
      }
      written := written + |events|;
      var i := 0;
      while i < |sinks|
        invariant 0 <= i <= |sinks| == |old(sinks)|
        invariant forall k :: 0 <= k < i ==> sinks[k] == old(sinks)[k] + [events]
        invariant forall k :: i <= k < |sinks| ==> sinks[k] == old(sinks)[k]
        invariant chain == FlushedTo(h, old(chain), events, first, second)
        invariant written == old(written) + |events| && dropped == old(dropped)
      {
        sinks := sinks[i := sinks[i] + [events]];
        i := i + 1;
      }
    }

    /**
     The worker after quit: the queue is emptied in order, flushed a batch at a time, and the
     remainder last.  Flush `n` meets the fortunes `luck(n)`.
     */
    method Drain(luck: nat -> (Fortune, Fortune)) returns (sent: seq<Sent>)
      requires batchSize > 0 && |batch| < batchSize
      modifies this`queue, this`batch, this`done, this`chain, this`sinks, this`written, this`dropped
      ensures queue == [] && batch == [] && done
      ensures AllEvents(sent) == old(batch) + old(queue)
      ensures BatchesWithin(sent, batchSize) && Streamed(old(sinks), sinks, sent)
      ensures written + dropped == old(written) + old(dropped) + |old(batch)| + |old(queue)|
      ensures chain == Replayed(h, old(chain), sent, luck)
    {
      sent := [];
      ghost var start := Now();
      assert Ledger(h, batchSize, start, start, sent, luck);
      hide Ledger;
      while queue != []
        invariant |batch| < batchSize
        invariant Ledger(h, batchSize, start, Now(), sent, luck)
        decreases |queue|
      {
        assert (batch + [queue[0]]) + queue[1..] == batch + queue;
        batch, queue := batch + [queue[0]], queue[1..];
        if |batch| >= batchSize {
          sent := FlushAndNote(start, sent, luck);
        }
      }
      if batch != [] {
        sent := FlushAndNote(start, sent, luck);
      }
      assert batch + queue == [];
      LedgerClosed(h, batchSize, start, Now(), sent, luck);
      done := true;
    }

    ghost function Now(): Snapshot
      reads this
    {
      Snapshot(chain, sinks, written + dropped, batch + queue)
    }

    /** Flush the batch, empty it, and note what became of it. */
    method FlushAndNote(
      ghost start: Snapshot, sent: seq<Sent>, luck: nat -> (Fortune, Fortune)
    ) returns (sent': seq<Sent>)
      requires Ledger(h, batchSize, start, Now(), sent, luck) && 0 < |batch| <= batchSize
      modifies this`batch, this`chain, this`sinks, this`written, this`dropped
      ensures batch == [] && Ledger(h, batchSize, start, Now(), sent', luck)
    {
      ghost var before := Now();
      ghost var held := batch;
      var ok := Flush(batch, luck(|sent|).0, luck(|sent|).1);
      sent' := sent + [Sent(batch, ok)];
      batch := [];
      assert before.held == held + queue && batch + queue == queue;
      LedgerGrows(h, batchSize, start, before, Now(), sent, Sent(held, ok), luck);
    }

    /** Stop accepting; the worker sees it and drains. */
    method Close(luck: nat -> (Fortune, Fortune)) returns (sent: seq<Sent>)
      requires batchSize > 0 && |batch| < batchSize && !done
      modifies this
      ensures closed && done && queue == [] && batch == []
      ensures AllEvents(sent) == old(batch) + old(queue)
      ensures BatchesWithin(sent, batchSize) && Streamed(old(sinks), sinks, sent)
      ensures chain == Replayed(h, old(chain), sent, luck)
    {
      closed := true;
      sent := Drain(luck);
    }

    method PurgeOlderThan(n: nat)
      requires n <= |chain.table|
      modifies this`chain
      ensures chain == Purged(old(chain), n)
    {
      chain := chain.(table := chain.table[n..]);
      chain := chain.(seeded := false);
    }
  }
}
