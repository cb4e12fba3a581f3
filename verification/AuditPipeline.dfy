/**
 From Log to the table: a bounded queue, one worker that batches and flushes, and shutdown, with
 any number of Log calls in progress at once.

 A Log call is known by its ticket.  An event the queue has accepted is known by its place in the
 order of acceptance, so that `accepted[n]` is the ticket of event `n`.
 */
module AuditPipeline {
  import opened Prelude
  import opened AuditWriter

  type Ticket = nat

  /** What the worker does when a flush is over. */
  datatype Mode = Running | Draining | Ending

  datatype Phase = Working(mode: Mode) | Flushing(mode: Mode, retry: bool) | Done

  /** A batch whose rows an insert stored, and whether the worker was told so. */
  datatype Insert = Insert(batch: seq<nat>, acked: bool)

  /** `persisted` is what the table was given, `written` and `dropped` what the worker counted. */
  datatype State = State(
    capacity: nat, batchSize: nat,
    nextTicket: Ticket, inFlight: set<Ticket>, refused: set<Ticket>, accepted: seq<Ticket>,
    queue: seq<nat>, batch: seq<nat>, persisted: seq<nat>, written: seq<nat>, dropped: seq<nat>,
    stored: seq<Insert>, sinks: seq<seq<seq<nat>>>,
    closed: bool, quit: bool, phase: Phase, stragglers: set<Ticket>)

  datatype Action =
    | Enter
    | Send(t: Ticket)
    | MarkClosed
    | CloseQuit
    | Receive
    | Tick
    | SeeQuit
    | SeeEmpty
    | Attempt(outcome: InsertOutcome)

  predicate Enabled(s: State, a: Action) {
    match a
    case Enter => true
    case Send(t) => t in s.inFlight
    case MarkClosed => true
    case CloseQuit => s.closed
    case Receive => (s.phase == Working(Running) || s.phase == Working(Draining)) && s.queue != []
    case Tick => s.phase == Working(Running) && s.batch != []
    case SeeQuit => s.phase == Working(Running) && s.quit
    case SeeEmpty => s.phase == Working(Draining) && s.queue == []
    case Attempt(_) => s.phase.Flushing?
  }

  /** Where the worker goes once its batch is out of its hands. */
  function Resume(mode: Mode): Phase { if mode == Ending then Done else Working(mode) }

  function EmitAll(sinks: seq<seq<seq<nat>>>, batch: seq<nat>): seq<seq<seq<nat>>> {
    seq(|sinks|, i requires 0 <= i < |sinks| => sinks[i] + [batch])
  }

  /** What an attempt does to the table. */
  function Inserted(s: State, outcome: InsertOutcome): State {
    if outcome.Lost? then s
    else s.(persisted := s.persisted + s.batch, stored := s.stored + [Insert(s.batch, outcome.Stored?)])
  }

  function Next(s: State, a: Action): State
    requires Enabled(s, a)
  {
    match a
    case Enter =>
      var t := s.(nextTicket := s.nextTicket + 1);
      if s.closed then t.(refused := s.refused + {s.nextTicket}) else t.(inFlight := s.inFlight + {s.nextTicket})
    case Send(t) =>
      if |s.queue| < s.capacity
      then s.(inFlight := s.inFlight - {t}, queue := s.queue + [|s.accepted|], accepted := s.accepted + [t])
      else s.(inFlight := s.inFlight - {t}, refused := s.refused + {t})
    case MarkClosed => s.(closed := true)
    case CloseQuit => s.(quit := true)
    case Receive =>
      var t := s.(batch := s.batch + [s.queue[0]], queue := s.queue[1..]);
      if |t.batch| >= s.batchSize then t.(phase := Flushing(s.phase.mode, false)) else t
    case Tick => s.(phase := Flushing(Running, false))
    case SeeQuit => s.(phase := Working(Draining))
    case SeeEmpty =>
      s.(phase := if s.batch != [] then Flushing(Ending, false) else Done, stragglers := s.inFlight)
    case Attempt(outcome) =>
      var t := Inserted(s, outcome);
      if outcome.Stored? then t.(written := s.written + s.batch, batch := [], sinks := EmitAll(s.sinks, s.batch),
                                 phase := Resume(s.phase.mode))
      else if !s.phase.retry then t.(phase := s.phase.(retry := true))
      else t.(dropped := s.dropped + s.batch, batch := [], phase := Resume(s.phase.mode))
  }

  // ---------------------------------------------------------------------------------------
  // The invariant
  // ---------------------------------------------------------------------------------------

  predicate Consecutive(q: seq<nat>, start: nat) {
    forall i :: 0 <= i < |q| ==> q[i] == start + i
  }

  predicate Increasing(q: seq<nat>) {
    forall i, j :: 0 <= i < j < |q| ==> q[i] < q[j]
  }

  function Flat(batches: seq<seq<nat>>): seq<nat> {
    if batches == [] then [] else Flat(batches[..|batches| - 1]) + batches[|batches| - 1]
  }

  /** How many accepted events have left the worker's hands. */
  function Flushed(s: State): int { |s.accepted| - |s.queue| - |s.batch| }

  function BatchesOf(stored: seq<Insert>): (b: seq<seq<nat>>)
    ensures |b| == |stored| && forall k :: 0 <= k < |b| ==> b[k] == stored[k].batch
  {
    seq(|stored|, k requires 0 <= k < |stored| => stored[k].batch)
  }

  /** The batches whose insert the worker was told of. */
  function AckedOf(stored: seq<Insert>): seq<seq<nat>> {
    if stored == [] then []
    else
      var n := |stored| - 1;
      AckedOf(stored[..n]) + if stored[n].acked then [stored[n].batch] else []
  }

  /** The second attempt at the batch is due. */
  predicate Retrying(s: State) { s.phase.Flushing? && s.phase.retry }

  ghost predicate EventsInv(s: State) {
    && Flushed(s) >= 0
    && Consecutive(s.batch + s.queue, Flushed(s))
    && Increasing(s.written) && Increasing(s.dropped)
    && (forall n :: n in s.written ==> n < Flushed(s) && n !in s.dropped && n in s.persisted)
    && (forall n :: n in s.dropped ==> n < Flushed(s))
    && (forall n :: 0 <= n < Flushed(s) ==> n in s.written || n in s.dropped)
    && (forall n :: n in s.persisted ==> n < Flushed(s) || (Retrying(s) && n in s.batch))
  }

  predicate AllBelow(q: seq<nat>, bound: int) { forall n :: n in q ==> n < bound }

  predicate AllFrom(q: seq<nat>, bound: int) { forall n :: n in q ==> bound <= n }

  /** Every event of `a` was accepted before every one of `b`. */
  ghost predicate Before(a: seq<nat>, b: seq<nat>) { exists k :: AllBelow(a, k) && AllFrom(b, k) }

  /** The table got batch after batch in the order of acceptance, some of them twice in a row. */
  ghost predicate InOrder(stored: seq<Insert>) {
    forall i, j :: 0 <= i < j < |stored| ==>
      Before(stored[i].batch, stored[j].batch) || (j == i + 1 && stored[j].batch == stored[i].batch)
  }

  /** Insert `k` is of the batch in hand, at whose first attempt it was made. */
  predicate Pending(s: State, k: nat)
    requires k < |s.stored|
  {
    Retrying(s) && k == |s.stored| - 1 && s.stored[k].batch == s.batch
  }

  /** What became of a batch whose insert was stored and reported failed. */
  predicate Unacked(s: State, k: nat)
    requires k < |s.stored|
  {
    || Pending(s, k)
    || (forall n :: n in s.stored[k].batch ==> n in s.dropped)
    || (k + 1 < |s.stored| && s.stored[k + 1].batch == s.stored[k].batch)
  }

  ghost predicate InsertsInv(s: State) {
    && (forall k :: 0 <= k < |s.stored| ==> s.stored[k].batch != [] && Increasing(s.stored[k].batch))
    && (forall k :: 0 <= k < |s.stored| ==> AllBelow(s.stored[k].batch, Flushed(s)) || Pending(s, k))
    && (forall k :: 0 <= k < |s.stored| && !s.stored[k].acked ==> Unacked(s, k))
    && InOrder(s.stored)
  }

  ghost predicate TicketsInv(s: State) {
    && (forall t :: t in s.inFlight || t in s.refused || t in s.accepted ==> t < s.nextTicket)
    && (forall t :: 0 <= t < s.nextTicket ==> t in s.inFlight || t in s.refused || t in s.accepted)
    && s.inFlight !! s.refused
    && (forall t :: t in s.accepted ==> t !in s.inFlight && t !in s.refused)
    && (forall i, j :: 0 <= i < j < |s.accepted| ==> s.accepted[i] != s.accepted[j])
  }

  ghost predicate WorkerInv(s: State) {
    && s.batchSize > 0 && |s.queue| <= s.capacity
    && (s.phase.Working? ==> |s.batch| < s.batchSize) && |s.batch| <= s.batchSize
    && (s.phase.Flushing? ==> s.batch != [])
    && (s.phase.Done? ==> s.batch == [])
    && Flat(BatchesOf(s.stored)) == s.persisted
    && Flat(AckedOf(s.stored)) == s.written
    && (forall i :: 0 <= i < |s.sinks| ==> s.sinks[i] == AckedOf(s.stored))
  }

  /** The worker has taken its last look at the queue, and found it empty. */
  predicate Ended(s: State) { s.phase.Done? || (s.phase.Flushing? && s.phase.mode == Ending) }

  ghost predicate ShutdownInv(s: State) {
    && (s.quit ==> s.closed)
    && ((s.phase == Working(Draining) || (s.phase.Flushing? && s.phase.mode == Draining)) ==> s.quit)
    && !(s.phase.Working? && s.phase.mode == Ending)
    && (Ended(s) ==>
          && s.closed && s.inFlight <= s.stragglers
          && forall n :: n in s.queue ==> n < |s.accepted| && s.accepted[n] in s.stragglers)
  }

  ghost predicate Inv(s: State) {
    EventsInv(s) && InsertsInv(s) && TicketsInv(s) && WorkerInv(s) && ShutdownInv(s)
  }

  lemma IncreasingConcat(a: seq<nat>, b: seq<nat>, bound: nat)
    requires Increasing(a) && Consecutive(b, bound) && forall n :: n in a ==> n < bound
    ensures Increasing(a + b)
  {
    forall i, j | 0 <= i < j < |a + b|
      ensures (a + b)[i] < (a + b)[j]
    {
      assert i < |a| ==> (a + b)[i] in a;
    }
  }

  /** The worker holds exactly the numbers from `Flushed` on, its batch before the queue. */
  lemma Held(s: State)
    requires EventsInv(s)
    ensures Consecutive(s.batch, Flushed(s)) && Consecutive(s.queue, Flushed(s) + |s.batch|)
    ensures forall n :: n in s.batch <==> Flushed(s) <= n < Flushed(s) + |s.batch|
    ensures forall n :: n in s.queue <==> Flushed(s) + |s.batch| <= n < |s.accepted|
  {
    var held := s.batch + s.queue;
    var k := Flushed(s);
    assert forall i :: 0 <= i < |s.batch| ==> s.batch[i] == held[i];
    assert forall i :: 0 <= i < |s.queue| ==> s.queue[i] == held[|s.batch| + i];
    forall n | k <= n < k + |s.batch|
      ensures n in s.batch
    {
      assert s.batch[n - k] == n;
    }
    forall n | k + |s.batch| <= n < |s.accepted|
      ensures n in s.queue
    {
      assert s.queue[n - k - |s.batch|] == n;
    }
  }

  /** The batch in hand is done with: written if it was acknowledged, dropped otherwise. */
  lemma SettleKeepsEvents(s: State, t: State, acked: bool)
    requires EventsInv(s) && !Retrying(t)
    requires t.accepted == s.accepted && t.queue == s.queue && t.batch == []
    requires t.persisted == s.persisted || t.persisted == s.persisted + s.batch
    requires acked ==> t.written == s.written + s.batch && t.dropped == s.dropped && t.persisted == s.persisted + s.batch
    requires !acked ==> t.written == s.written && t.dropped == s.dropped + s.batch
    ensures EventsInv(t)
  {
    Held(s);
    IncreasingConcat(if acked then s.written else s.dropped, s.batch, Flushed(s));
    hide Increasing, Consecutive;
    assert t.batch + t.queue == s.queue && Flushed(t) == Flushed(s) + |s.batch|;
  }

  /** The first attempt failed, whatever it stored. */
  lemma FirstFailureKeepsEvents(s: State, t: State)
    requires EventsInv(s) && Retrying(t)
    requires t.accepted == s.accepted && t.queue == s.queue && t.batch == s.batch
    requires t.written == s.written && t.dropped == s.dropped
    requires t.persisted == s.persisted || t.persisted == s.persisted + s.batch
    ensures EventsInv(t)
  {
    hide Increasing, Consecutive;
  }

  lemma AttemptKeepsEvents(s: State, outcome: InsertOutcome)
    requires EventsInv(s) && Enabled(s, Attempt(outcome))
    ensures EventsInv(Next(s, Attempt(outcome)))
  {
    hide EventsInv, EmitAll;
    var t := Next(s, Attempt(outcome));
    if !outcome.Stored? && !s.phase.retry {
      FirstFailureKeepsEvents(s, t);
    } else {
      SettleKeepsEvents(s, t, outcome.Stored?);
    }
  }

  lemma OnlyAttemptsInsert(s: State, a: Action)
    requires Enabled(s, a) && !a.Attempt?
    ensures var t := Next(s, a);
            && t.stored == s.stored && t.persisted == s.persisted && t.written == s.written && t.dropped == s.dropped
            && Flushed(t) == Flushed(s) && (Retrying(s) ==> Retrying(t) && t.batch == s.batch)
  {
  }

  /** What is on its way to the table is only ever moved from queue to batch, or added to. */
  lemma HeldGrows(s: State, a: Action)
    requires EventsInv(s) && Enabled(s, a) && !a.Attempt?
    ensures Consecutive(Next(s, a).batch + Next(s, a).queue, Flushed(s))
  {
    var t := Next(s, a);
    var k := |s.accepted|;
    assert t.batch + t.queue == s.batch + s.queue || t.batch + t.queue == (s.batch + s.queue) + [k];
    assert |s.batch + s.queue| == k - Flushed(s);
  }

  lemma StepKeepsEvents(s: State, a: Action)
    requires EventsInv(s) && Enabled(s, a)
    ensures EventsInv(Next(s, a))
  {
    if a.Attempt? {
      AttemptKeepsEvents(s, a.outcome);
    } else {
      OnlyAttemptsInsert(s, a);
      HeldGrows(s, a);
      hide Next, Enabled, Consecutive, Increasing, Flushed;
    }
  }

  lemma SendKeepsTickets(s: State, t: Ticket)
    requires TicketsInv(s) && t in s.inFlight
    ensures TicketsInv(Next(s, Send(t)))
  {
  }

  lemma StepKeepsTickets(s: State, a: Action)
    requires TicketsInv(s) && Enabled(s, a)
    ensures TicketsInv(Next(s, a))
  {
    hide EmitAll;
    if a.Send? {
      SendKeepsTickets(s, a.t);
    }
  }

  lemma FlatSnoc(batches: seq<seq<nat>>, b: seq<nat>)
    ensures Flat(batches + [b]) == Flat(batches) + b
  {
  }

  lemma HistorySnoc(stored: seq<Insert>, i: Insert)
    ensures BatchesOf(stored + [i]) == BatchesOf(stored) + [i.batch]
    ensures AckedOf(stored + [i]) == AckedOf(stored) + if i.acked then [i.batch] else []
  {
    assert (stored + [i])[..|stored|] == stored;
  }

  lemma StepKeepsWorker(s: State, a: Action)
    requires WorkerInv(s) && Enabled(s, a)
    ensures WorkerInv(Next(s, a))
  {
    if a.Attempt? {
      AttemptKeepsWorker(s, a.outcome);
    } else {
      hide EmitAll, Flat, BatchesOf, AckedOf;
    }
  }

  lemma EmitAllAt(sinks: seq<seq<seq<nat>>>, batch: seq<nat>)
    ensures |EmitAll(sinks, batch)| == |sinks|
    ensures forall i :: 0 <= i < |sinks| ==> EmitAll(sinks, batch)[i] == sinks[i] + [batch]
  {
  }

  lemma AttemptKeepsWorker(s: State, outcome: InsertOutcome)
    requires WorkerInv(s) && Enabled(s, Attempt(outcome))
    ensures WorkerInv(Next(s, Attempt(outcome)))
  {
    hide Flat, BatchesOf, AckedOf, EmitAll;
    HistorySnoc(s.stored, Insert(s.batch, outcome.Stored?));
    FlatSnoc(BatchesOf(s.stored), s.batch);
    FlatSnoc(AckedOf(s.stored), s.batch);
    EmitAllAt(s.sinks, s.batch);
    assert AckedOf(s.stored) + [] == AckedOf(s.stored);
  }

  // ---------------------------------------------------------------------------------------
  // What the table was given
  // ---------------------------------------------------------------------------------------

  lemma ConsecutiveIsIncreasing(q: seq<nat>, start: nat)
    requires Consecutive(q, start)
    ensures Increasing(q)
  {
  }

  /** The batch in hand comes after whatever was stored, but for its own first insert. */
  lemma NewInsertInOrder(s: State, acked: bool)
    requires EventsInv(s) && InsertsInv(s)
    ensures InOrder(s.stored + [Insert(s.batch, acked)])
  {
    Held(s);
    var stored := s.stored + [Insert(s.batch, acked)];
    assert AllFrom(s.batch, Flushed(s));
    forall i, j | 0 <= i < j < |stored|
      ensures Before(stored[i].batch, stored[j].batch) || (j == i + 1 && stored[j].batch == stored[i].batch)
    {
      if j < |s.stored| {
        assert stored[i] == s.stored[i] && stored[j] == s.stored[j];
      } else if AllBelow(s.stored[i].batch, Flushed(s)) {
        assert AllBelow(stored[i].batch, Flushed(s)) && AllFrom(stored[j].batch, Flushed(s));
      } else {
        assert Pending(s, i);
      }
    }
  }

  /** An earlier insert stays accounted for, or becomes so. */
  lemma OldInsertStands(s: State, outcome: InsertOutcome, k: nat)
    requires EventsInv(s) && Enabled(s, Attempt(outcome)) && k < |s.stored|
    requires AllBelow(s.stored[k].batch, Flushed(s)) || Pending(s, k)
    requires !s.stored[k].acked ==> Unacked(s, k)
    ensures var t := Next(s, Attempt(outcome));
            && k < |t.stored| && t.stored[k] == s.stored[k]
            && (AllBelow(t.stored[k].batch, Flushed(t)) || Pending(t, k))
            && (!t.stored[k].acked ==> Unacked(t, k))
  {
    Held(s);
    hide EventsInv, EmitAll;
  }

  lemma NewInsertStands(s: State, outcome: InsertOutcome)
    requires EventsInv(s) && Enabled(s, Attempt(outcome)) && !outcome.Lost?
    ensures var t := Next(s, Attempt(outcome));
            var k := |s.stored|;
            && |t.stored| == k + 1 && t.stored[k] == Insert(s.batch, outcome.Stored?)
            && (AllBelow(t.stored[k].batch, Flushed(t)) || Pending(t, k))
            && (!t.stored[k].acked ==> Unacked(t, k))
  {
    Held(s);
    hide EventsInv, EmitAll;
  }

  lemma AttemptKeepsInserts(s: State, outcome: InsertOutcome)
    requires EventsInv(s) && InsertsInv(s) && WorkerInv(s) && Enabled(s, Attempt(outcome))
    ensures InsertsInv(Next(s, Attempt(outcome)))
  {
    var t := Next(s, Attempt(outcome));
    assert t.stored == if outcome.Lost? then s.stored else s.stored + [Insert(s.batch, outcome.Stored?)];
    Held(s);
    ConsecutiveIsIncreasing(s.batch, Flushed(s));
    NewInsertInOrder(s, outcome.Stored?);
    hide InOrder, Increasing, Next, Consecutive, EventsInv, AllBelow, Pending, Unacked;
    if !outcome.Lost? {
      NewInsertStands(s, outcome);
    }
    forall k | 0 <= k < |t.stored|
      ensures t.stored[k].batch != [] && Increasing(t.stored[k].batch)
      ensures AllBelow(t.stored[k].batch, Flushed(t)) || Pending(t, k)
      ensures !t.stored[k].acked ==> Unacked(t, k)
    {
      if k < |s.stored| {
        OldInsertStands(s, outcome, k);
      }
    }
  }

  lemma InsertsStay(s: State, t: State)
    requires InsertsInv(s) && t.stored == s.stored && t.dropped == s.dropped && Flushed(t) == Flushed(s)
    requires Retrying(s) ==> Retrying(t) && t.batch == s.batch
    ensures InsertsInv(t)
  {
    hide InOrder, Increasing, Flushed;
    forall k | 0 <= k < |t.stored|
      ensures AllBelow(t.stored[k].batch, Flushed(t)) || Pending(t, k)
      ensures !t.stored[k].acked ==> Unacked(t, k)
    {
      assert Pending(s, k) ==> Pending(t, k);
    }
  }

  lemma StepKeepsInserts(s: State, a: Action)
    requires EventsInv(s) && InsertsInv(s) && WorkerInv(s) && Enabled(s, a)
    ensures InsertsInv(Next(s, a))
  {
    if a.Attempt? {
      AttemptKeepsInserts(s, a.outcome);
    } else {
      OnlyAttemptsInsert(s, a);
      hide InsertsInv, EventsInv, WorkerInv, Next, Enabled;
      InsertsStay(s, Next(s, a));
    }
  }

  lemma SendKeepsShutdown(s: State, t: Ticket)
    requires ShutdownInv(s) && t in s.inFlight
    ensures ShutdownInv(Next(s, Send(t)))
  {
    var u := Next(s, Send(t));
    if Ended(u) {
      assert forall n :: n in u.queue ==> n in s.queue || n == |s.accepted|;
    }
  }

  lemma StepKeepsShutdown(s: State, a: Action)
    requires ShutdownInv(s) && Enabled(s, a)
    ensures ShutdownInv(Next(s, a))
  {
    if a.Send? {
      SendKeepsShutdown(s, a.t);
    } else {
      hide EmitAll;
    }
  }

  lemma StepKeepsInv(s: State, a: Action)
    requires Inv(s) && Enabled(s, a)
    ensures Inv(Next(s, a))
  {
    StepKeepsEvents(s, a);
    StepKeepsInserts(s, a);
    StepKeepsTickets(s, a);
    StepKeepsWorker(s, a);
    StepKeepsShutdown(s, a);
  }

  /** An event is refused exactly when Log finds the pipeline closed, or the queue full when it sends. */
  lemma RefusedIff(s: State, a: Action, t: Ticket)
    requires TicketsInv(s) && Enabled(s, a) && t !in s.refused
    ensures t in Next(s, a).refused <==>
            (a.Enter? && s.closed && t == s.nextTicket) || (a == Send(t) && |s.queue| >= s.capacity)
  {
    hide EmitAll;
  }

  /** Events are dropped exactly when the second attempt fails too, and written exactly when one reports success. */
  lemma DroppedIff(s: State, a: Action)
    requires Enabled(s, a)
    ensures Next(s, a).dropped == s.dropped + if a.Attempt? && !a.outcome.Stored? && s.phase.retry then s.batch else []
    ensures Next(s, a).written == s.written + if a.Attempt? && a.outcome.Stored? then s.batch else []
  {
    hide EmitAll;
  }

  // ---------------------------------------------------------------------------------------
  // Whole runs
  // ---------------------------------------------------------------------------------------

  predicate Possible(s: State, acts: seq<Action>)
    decreases |acts|
  {
    acts == [] || (Enabled(s, acts[0]) && Possible(Next(s, acts[0]), acts[1..]))
  }

  function After(s: State, acts: seq<Action>): State
    requires Possible(s, acts)
    decreases |acts|
  {
    if acts == [] then s else After(Next(s, acts[0]), acts[1..])
  }

  function Opened(capacity: nat, batchSize: nat, sinks: nat): State {
    State(capacity, batchSize, 0, {}, {}, [], [], [], [], [], [], [], seq(sinks, i => []), false, false, Working(Running), {})
  }

  lemma {:induction false} RunKeepsInv(s: State, acts: seq<Action>)
    requires Inv(s) && Possible(s, acts)
    ensures Inv(After(s, acts))
    decreases |acts|
  {
    hide Inv, Next, Enabled;
    if acts != [] {
      StepKeepsInv(s, acts[0]);
      RunKeepsInv(Next(s, acts[0]), acts[1..]);
    }
  }

  /** The places an event given to Log can be; by what the worker counted, or by what the table was given. */
  datatype Place = Refused | OnItsWay | Queued | InBatch | Written | Persisted | Dropped

  const BY_COUNT := {Refused, OnItsWay, Queued, InBatch, Written, Dropped}
  const BY_TABLE := {Refused, OnItsWay, Queued, InBatch, Persisted, Dropped}

  ghost predicate Among(s: State, t: Ticket, events: seq<nat>) {
    exists n :: n in events && n < |s.accepted| && s.accepted[n] == t
  }

  ghost predicate IsAt(s: State, t: Ticket, p: Place) {
    match p
    case Refused => t in s.refused
    case OnItsWay => t in s.inFlight
    case Queued => Among(s, t, s.queue)
    case InBatch => Among(s, t, s.batch)
    case Written => Among(s, t, s.written)
    case Persisted => Among(s, t, s.persisted)
    case Dropped => Among(s, t, s.dropped)
  }

  ghost predicate OnlyAt(s: State, t: Ticket, places: set<Place>, p: Place) {
    p in places && forall q :: q in places ==> (IsAt(s, t, q) <==> q == p)
  }

  ghost predicate InOnePlace(s: State, t: Ticket, places: set<Place>) { exists p :: OnlyAt(s, t, places, p) }

  /** Each accepted number is in exactly one of the four places an accepted event can be counted. */
  lemma NumberIsSomewhere(s: State, n: nat) returns (p: Place)
    requires EventsInv(s) && n < |s.accepted|
    ensures IsAt(s, s.accepted[n], p) && p in BY_COUNT && !p.Refused? && !p.OnItsWay?
    ensures n in s.queue <==> p.Queued?
    ensures n in s.batch <==> p.InBatch?
    ensures n in s.written <==> p.Written?
    ensures n in s.dropped <==> p.Dropped?
  {
    Held(s);
    var k := Flushed(s);
    p := if n < k then (if n in s.written then Written else Dropped)
         else if n < k + |s.batch| then InBatch else Queued;
  }

  /** Every event given to Log is counted in exactly one place. */
  lemma ExactlyOnePlace(s: State, t: Ticket) returns (p: Place)
    requires Inv(s) && t < s.nextTicket
    ensures OnlyAt(s, t, BY_COUNT, p)
  {
    if t in s.refused {
      p := Refused;
    } else if t in s.inFlight {
      p := OnItsWay;
    } else {
      var n :| 0 <= n < |s.accepted| && s.accepted[n] == t;
      p := NumberIsSomewhere(s, n);
      forall q | q in BY_COUNT && IsAt(s, t, q)
        ensures q == p
      {
        assert forall m :: 0 <= m < |s.accepted| && s.accepted[m] == t ==> m == n;
      }
    }
  }

  lemma {:induction false} AckedIsSubsequence(stored: seq<Insert>)
    ensures Subsequence(AckedOf(stored), BatchesOf(stored))
  {
    if stored != [] {
      var n := |stored| - 1;
      AckedIsSubsequence(stored[..n]);
      SubsequenceGrows(AckedOf(stored[..n]), BatchesOf(stored[..n]), stored[n].batch);
      assert BatchesOf(stored) == BatchesOf(stored[..n]) + [stored[n].batch];
      assert AckedOf(stored[..n]) + [] == AckedOf(stored[..n]);
    }
  }

  /** The rows the table was given of an event. */
  function Copies(persisted: seq<nat>, n: nat): nat { multiset(persisted)[n] }

  lemma {:induction false} IncreasingOnce(q: seq<nat>, n: nat)
    requires Increasing(q)
    ensures multiset(q)[n] == if n in q then 1 else 0
  {
    if q != [] {
      var k := |q| - 1;
      assert q == q[..k] + [q[k]];
      assert Increasing(q[..k]);
      IncreasingOnce(q[..k], n);
    }
  }

  /** An event is stored once for every insert its batch is in, and those are at most two. */
  lemma {:induction false} AtMostTwice(stored: seq<Insert>, n: nat)
    requires InOrder(stored) && forall k :: 0 <= k < |stored| ==> Increasing(stored[k].batch)
    ensures Copies(Flat(BatchesOf(stored)), n) <= 2
    decreases |stored|
  {
    if stored != [] {
      var m := |stored| - 1;
      var rest, last := stored[..m], stored[m];
      assert stored == rest + [last];
      HistorySnoc(rest, last);
      FlatSnoc(BatchesOf(rest), last.batch);
      assert InOrder(rest);
      AtMostTwice(rest, n);
      IncreasingOnce(last.batch, n);
      if n in last.batch {
        OnlyTheLastTwo(stored, n);
      }
    }
  }

  /** Of the inserts before the last, only the one just before it can be of the same batch. */
  lemma OnlyTheLastTwo(stored: seq<Insert>, n: nat)
    requires stored != [] && InOrder(stored) && n in stored[|stored| - 1].batch
    requires forall k :: 0 <= k < |stored| ==> Increasing(stored[k].batch)
    ensures var m := |stored| - 1;
            Copies(Flat(BatchesOf(stored[..m])), n) == if m > 0 && stored[m - 1].batch == stored[m].batch then 1 else 0
  {
    var m := |stored| - 1;
    if m > 0 {
      var rest, prior := stored[..m - 1], stored[m - 1];
      assert stored[..m] == rest + [prior];
      HistorySnoc(rest, prior);
      FlatSnoc(BatchesOf(rest), prior.batch);
      IncreasingOnce(prior.batch, n);
      forall k | 0 <= k < m - 1
        ensures n !in stored[k].batch
      {
        assert Before(stored[k].batch, stored[m].batch);
      }
      NowhereInFlat(BatchesOf(rest), n);
      if prior.batch != stored[m].batch {
        assert Before(prior.batch, stored[m].batch);
      }
    }
  }

  lemma {:induction false} NowhereInFlat(batches: seq<seq<nat>>, n: nat)
    requires forall k :: 0 <= k < |batches| ==> n !in batches[k]
    ensures n !in Flat(batches)
  {
    if batches != [] {
      NowhereInFlat(batches[..|batches| - 1], n);
    }
  }

  /**
   In every run each event given to Log is in exactly one of: refused at the door, on its way in,
   queued, in the worker's batch, counted as written, or counted as dropped after the retry; what is
   counted keeps the order of acceptance.  What is written was stored, and nothing was stored but
   what is written, dropped or being retried, nor more than twice.  The table got batches in the order
   of acceptance, some twice in a row, and each sink those of them that were acknowledged.
   */
  lemma EveryRun(capacity: nat, batchSize: nat, sinks: nat, acts: seq<Action>)
    requires batchSize > 0 && Possible(Opened(capacity, batchSize, sinks), acts)
    ensures var s := After(Opened(capacity, batchSize, sinks), acts);
            && (forall t :: 0 <= t < s.nextTicket ==> InOnePlace(s, t, BY_COUNT))
            && Increasing(s.written) && Increasing(s.dropped)
            && (forall n :: n in s.written ==> n in s.persisted)
            && (forall n :: n in s.persisted ==> n in s.written || n in s.dropped || (Retrying(s) && n in s.batch))
            && (forall n :: Copies(s.persisted, n) <= 2)
            && s.persisted == Flat(BatchesOf(s.stored)) && InOrder(s.stored)
            && |s.sinks| == sinks
            && (forall i :: 0 <= i < |s.sinks| ==>
                  s.sinks[i] == AckedOf(s.stored) && Subsequence(s.sinks[i], BatchesOf(s.stored)))
            && |s.queue| <= capacity
  {
    RunKeepsInv(Opened(capacity, batchSize, sinks), acts);
    FixedSizes(Opened(capacity, batchSize, sinks), acts);
    var s := After(Opened(capacity, batchSize, sinks), acts);
    hide Possible, After;
    forall t | 0 <= t < s.nextTicket
      ensures InOnePlace(s, t, BY_COUNT)
    {
      var p := ExactlyOnePlace(s, t);
    }
    AckedIsSubsequence(s.stored);
    forall n: nat
      ensures Copies(s.persisted, n) <= 2
    {
      AtMostTwice(s.stored, n);
    }
  }

  // ---------------------------------------------------------------------------------------
  // An insert that stores its rows and reports failure
  // ---------------------------------------------------------------------------------------

  /** Counting and table tell the same of every event, of their order and of what sinks were given. */
  ghost predicate TableIsExact(s: State) {
    && (forall t :: 0 <= t < s.nextTicket ==> InOnePlace(s, t, BY_TABLE))
    && Increasing(s.persisted)
    && (forall i :: 0 <= i < |s.sinks| ==> s.sinks[i] == BatchesOf(s.stored))
  }

  predicate AllAcked(stored: seq<Insert>) { forall k :: 0 <= k < |stored| ==> stored[k].acked }

  lemma {:induction false} AckedAreAll(stored: seq<Insert>)
    requires AllAcked(stored)
    ensures AckedOf(stored) == BatchesOf(stored)
  {
    if stored != [] {
      var n := |stored| - 1;
      AckedAreAll(stored[..n]);
      assert BatchesOf(stored) == BatchesOf(stored[..n]) + [stored[n].batch];
    }
  }

  lemma SamePlaces(s: State, t: Ticket, p: Place)
    requires s.persisted == s.written && OnlyAt(s, t, BY_COUNT, p)
    ensures InOnePlace(s, t, BY_TABLE)
  {
    hide Among;
    assert OnlyAt(s, t, BY_TABLE, if p.Written? then Persisted else p);
  }

  lemma AckedIsExact(s: State)
    requires Inv(s) && AllAcked(s.stored)
    ensures TableIsExact(s)
  {
    AckedAreAll(s.stored);
    assert s.persisted == s.written;
    hide AllAcked, OnlyAt, InOnePlace;
    forall t | 0 <= t < s.nextTicket
      ensures InOnePlace(s, t, BY_TABLE)
    {
      var p := ExactlyOnePlace(s, t);
      SamePlaces(s, t, p);
    }
  }

  lemma {:induction false} FlatAt(batches: seq<seq<nat>>, k: nat)
    requires k < |batches|
    ensures var p := |Flat(batches[..k])|;
            p + |batches[k]| <= |Flat(batches)| && Flat(batches)[p..p + |batches[k]|] == batches[k]
    decreases |batches|
  {
    var m := |batches| - 1;
    assert batches == batches[..m] + [batches[m]];
    if k < m {
      FlatAt(batches[..m], k);
      assert batches[..m][..k] == batches[..k];
      var p := |Flat(batches[..k])|;
      assert Flat(batches)[p..p + |batches[k]|] == Flat(batches[..m])[p..p + |batches[k]|];
    }
  }

  /** A batch stored twice in a row puts the table out of order. */
  lemma StoredTwiceIsOutOfOrder(batches: seq<seq<nat>>, k: nat)
    requires k + 1 < |batches| && batches[k] == batches[k + 1] && batches[k] != []
    ensures !Increasing(Flat(batches))
  {
    FlatAt(batches, k);
    FlatAt(batches, k + 1);
    var p, q := |Flat(batches[..k])|, |Flat(batches[..k + 1])|;
    assert batches[..k + 1][..k] == batches[..k] && batches[..k + 1] == batches[..k] + [batches[k]];
    FlatSnoc(batches[..k], batches[k]);
    assert q == p + |batches[k]|;
    var flat := Flat(batches);
    assert flat[p] == flat[p..p + |batches[k]|][0] == batches[k][0];
    assert flat[q] == flat[q..q + |batches[k + 1]|][0] == batches[k + 1][0];
  }

  lemma StoredIsPersisted(s: State, k: nat, n: nat)
    requires WorkerInv(s) && k < |s.stored| && n in s.stored[k].batch
    ensures n in s.persisted
  {
    var batches := BatchesOf(s.stored);
    FlatAt(batches, k);
    var p := |Flat(batches[..k])|;
    var i :| 0 <= i < |batches[k]| && batches[k][i] == n;
    assert s.persisted[p..p + |batches[k]|][i] == s.persisted[p + i];
  }

  lemma UnackedIsNotExact(s: State, k: nat)
    requires Inv(s) && k < |s.stored| && !s.stored[k].acked
    ensures !TableIsExact(s)
  {
    var n := s.stored[k].batch[0];
    assert n in s.stored[k].batch && Unacked(s, k);
    StoredIsPersisted(s, k, n);
    Held(s);
    if k + 1 < |s.stored| && s.stored[k + 1].batch == s.stored[k].batch {
      StoredTwiceIsOutOfOrder(BatchesOf(s.stored), k);
    } else {
      assert n < |s.accepted| && (n in s.dropped || n in s.batch);
      var t := s.accepted[n];
      assert IsAt(s, t, Persisted) && (IsAt(s, t, Dropped) || IsAt(s, t, InBatch));
      hide IsAt, EventsInv, InsertsInv, WorkerInv, ShutdownInv;
      assert t in s.accepted && !InOnePlace(s, t, BY_TABLE);
    }
  }

  /** Some insert of the run stored its rows and reported failure. */
  predicate Misreports(acts: seq<Action>) { Attempt(StoredButReportedFailed) in acts }

  lemma {:induction false} UnackedIffMisreports(s: State, acts: seq<Action>)
    requires Possible(s, acts)
    ensures AllAcked(After(s, acts).stored) <==> AllAcked(s.stored) && !Misreports(acts)
    decreases |acts|
  {
    if acts != [] {
      var a := acts[0];
      var t := Next(s, a);
      UnackedIffMisreports(t, acts[1..]);
      assert Misreports(acts) <==> a == Attempt(StoredButReportedFailed) || Misreports(acts[1..]) by {
        assert acts == [a] + acts[1..];
      }
      assert AllAcked(t.stored) <==> AllAcked(s.stored) && a != Attempt(StoredButReportedFailed) by {
        assert t.stored == s.stored || t.stored == s.stored + [Insert(s.batch, a.outcome.Stored?)];
        if t.stored != s.stored {
          assert forall k :: 0 <= k < |s.stored| ==> t.stored[k] == s.stored[k];
          assert t.stored[|s.stored|].acked == a.outcome.Stored?;
        }
      }
    }
  }

  /**
   Each event is in exactly one of refused, on its way, queued, in the batch, stored and dropped, the
   table keeps the order of acceptance and each sink has exactly the stored batches, if and only if
   no insert stored its rows and reported failure.
   */
  lemma ExactIffReported(capacity: nat, batchSize: nat, sinks: nat, acts: seq<Action>)
    requires batchSize > 0 && Possible(Opened(capacity, batchSize, sinks), acts)
    ensures TableIsExact(After(Opened(capacity, batchSize, sinks), acts)) <==> !Misreports(acts)
  {
    var s := After(Opened(capacity, batchSize, sinks), acts);
    RunKeepsInv(Opened(capacity, batchSize, sinks), acts);
    UnackedIffMisreports(Opened(capacity, batchSize, sinks), acts);
    hide Inv, TableIsExact, Possible, After;
    if AllAcked(s.stored) {
      AckedIsExact(s);
    } else {
      var k :| 0 <= k < |s.stored| && !s.stored[k].acked;
      UnackedIsNotExact(s, k);
    }
  }

  /** Both attempts store the event and report failure: it is in the table twice, dropped, and no sink has it. */
  lemma DoubleStore()
    ensures var s := Opened(1, 1, 1);
            var fail := Attempt(StoredButReportedFailed);
            var acts := [Enter, Send(0), Receive, fail] + [fail];
            && Possible(s, acts)
            && var t := After(s, acts);
               && t.phase == Working(Running) && t.persisted == [0, 0]
               && t.dropped == [0] && t.written == [] && t.sinks == [[]]
  {
    var s0 := Opened(1, 1, 1);
    var fail := Attempt(StoredButReportedFailed);
    var s2 := Next(Next(s0, Enter), Send(0));
    var s4 := Next(Next(s2, Receive), fail);
    var s5 := Next(s4, fail);
    assert s2.queue == [0] && s4.batch == [0] && s4.persisted == [0];
    assert Possible(s5, []) && After(s5, []) == s5;
    assert [fail][1..] == [] && Possible(s4, [fail]) && After(s4, [fail]) == s5;
    Twice(s2, Receive, fail, [fail]);
    assert [Receive, fail] + [fail] == [Receive, fail, fail];
    Twice(s0, Enter, Send(0), [Receive, fail, fail]);
    assert [Enter, Send(0)] + [Receive, fail, fail] == [Enter, Send(0), Receive, fail] + [fail];
  }

  lemma {:induction false} FixedSizes(s: State, acts: seq<Action>)
    requires Possible(s, acts)
    ensures After(s, acts).capacity == s.capacity && |After(s, acts).sinks| == |s.sinks|
    decreases |acts|
  {
    if acts != [] {
      FixedSizes(Next(s, acts[0]), acts[1..]);
    }
  }

  /** When the worker has ended, only Log calls that were under way at its last look can have left an event behind. */
  lemma OnlyStragglersRemain(s: State)
    requires Inv(s) && s.phase.Done?
    ensures s.batch == [] && s.closed && forall n :: n in s.queue ==> n < |s.accepted| && s.accepted[n] in s.stragglers
  {
  }

  lemma NoneUnderWay(s: State, a: Action)
    requires Enabled(s, a) && s.closed && s.inFlight == {} && (Ended(s) ==> s.stragglers == {})
    ensures var t := Next(s, a); t.closed && t.inFlight == {} && (Ended(t) ==> t.stragglers == {})
  {
  }

  lemma {:induction false} NoneEverUnderWay(s: State, acts: seq<Action>)
    requires Possible(s, acts) && s.closed && s.inFlight == {} && (Ended(s) ==> s.stragglers == {})
    ensures var t := After(s, acts); Ended(t) ==> t.stragglers == {}
    decreases |acts|
  {
    hide Next, Enabled;
    if acts != [] {
      NoneUnderWay(s, acts[0]);
      NoneEverUnderWay(Next(s, acts[0]), acts[1..]);
    }
  }

  /** Closed with no Log under way: once the worker is done, nothing is queued and nothing is in its batch. */
  lemma CloseDrains(s: State, acts: seq<Action>)
    requires Inv(s) && Possible(s, acts) && s.closed && s.inFlight == {} && !Ended(s)
    requires After(s, acts).phase.Done?
    ensures After(s, acts).queue == [] && After(s, acts).batch == []
  {
    var t := After(s, acts);
    assert t.queue == [] || t.queue[0] in t.queue;
    RunKeepsInv(s, acts);
    NoneEverUnderWay(s, acts);
    OnlyStragglersRemain(t);
  }

  /** The same fails when a Log call straddles the close: its event is queued after the last look, and stays there. */
  lemma StragglerIsLeftBehind()
    ensures var s := Opened(1, 1, 0);
            var acts := [Enter, MarkClosed, CloseQuit, SeeQuit, SeeEmpty, Send(0)];
            && Possible(s, acts)
            && After(s, acts).phase.Done? && After(s, acts).queue == [0]
  {
    var s0 := Opened(1, 1, 0);
    var s2 := Next(Next(s0, Enter), MarkClosed);
    var s4 := Next(Next(s2, CloseQuit), SeeQuit);
    var s6 := Next(Next(s4, SeeEmpty), Send(0));
    Twice(s4, SeeEmpty, Send(0), []);
    Twice(s2, CloseQuit, SeeQuit, [SeeEmpty, Send(0)]);
    Twice(s0, Enter, MarkClosed, [CloseQuit, SeeQuit, SeeEmpty, Send(0)]);
  }

  lemma Twice(s: State, a: Action, b: Action, rest: seq<Action>)
    requires Enabled(s, a) && Enabled(Next(s, a), b) && Possible(Next(Next(s, a), b), rest)
    ensures Possible(s, [a, b] + rest) && After(s, [a, b] + rest) == After(Next(Next(s, a), b), rest)
  {
  }

  // ---------------------------------------------------------------------------------------
  // Shutdown ends
  // ---------------------------------------------------------------------------------------

  predicate IsWorkers(a: Action) { a.Receive? || a.Tick? || a.SeeQuit? || a.SeeEmpty? || a.Attempt? }

  /** An upper bound on the worker's remaining steps once nothing more can be queued. */
  function Rank(s: State): nat {
    4 * |s.queue|
    + (match s.phase
       case Done => 0
       case Flushing(mode, retry) => (if retry then 1 else 2) + ModeRank(mode)
       case Working(mode) => (if s.batch != [] then 3 else 0) + ModeRank(mode))
  }

  function ModeRank(mode: Mode): nat {
    match mode
    case Running => 2
    case Draining => 1
    case Ending => 0
  }

  lemma RankStep(s: State, a: Action)
    requires WorkerInv(s) && ShutdownInv(s) && s.closed && s.inFlight == {} && Enabled(s, a)
    ensures Rank(Next(s, a)) + (if IsWorkers(a) then 1 else 0) <= Rank(s)
  {
  }

  function WorkerSteps(acts: seq<Action>): nat {
    if acts == [] then 0 else (if IsWorkers(acts[0]) then 1 else 0) + WorkerSteps(acts[1..])
  }

  /** Closed with no Log under way, the worker takes at most `Rank` more steps whatever the database does, */
  lemma {:induction false} DrainIsBounded(s: State, acts: seq<Action>)
    requires Inv(s) && s.closed && s.inFlight == {} && Possible(s, acts) && (Ended(s) ==> s.stragglers == {})
    ensures WorkerSteps(acts) + Rank(After(s, acts)) <= Rank(s)
    decreases |acts|
  {
    hide Next, Enabled, EventsInv, TicketsInv, Rank, IsWorkers;
    if acts != [] {
      RankStep(s, acts[0]);
      NoneUnderWay(s, acts[0]);
      StepKeepsInv(s, acts[0]);
      DrainIsBounded(Next(s, acts[0]), acts[1..]);
    }
  }

  /** and is never stuck before it is done. */
  lemma DrainNeverSticks(s: State)
    requires Inv(s) && s.quit && !s.phase.Done?
    ensures exists a :: IsWorkers(a) && Enabled(s, a)
  {
    match s.phase
    case Flushing(_, _) => assert Enabled(s, Attempt(Lost));
    case Working(mode) =>
      if mode == Running {
        assert Enabled(s, SeeQuit);
      } else if s.queue == [] {
        assert Enabled(s, SeeEmpty);
      } else {
        assert Enabled(s, Receive);
      }
  }
}
