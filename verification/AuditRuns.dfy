/**
 The audit table over whole runs: flushes with their retry, process restarts, retention purges and
 erasures, each statement one step, with the purge free to come between any two of the writer's.
 */
module AuditRuns {
  import opened Prelude
  import opened AuditChain
  import opened AuditVerify
  import opened AuditWriter

  /** Where the writer is inside a flush; the second insert attempt is the retry. */
  datatype Phase =
    | Resting
    | Attempting(batch: seq<Event>, retry: bool)
    | ReadingTail(batch: seq<Event>, retry: bool)
    | Chaining(batch: seq<Event>, retry: bool)
    | Writing(batch: seq<Event>, retry: bool, prev: string, events: seq<Event>)

  /** What last happened to the writer's running hash. */
  datatype Footing = Started | Sound | AfterLostInsert | AfterFailedSeed

  /** How a stored row came to be; a history the program does not keep. */
  datatype Origin = Origin(first: bool, footing: Footing, code: int)

  datatype State = State(
    table: seq<Row>, nextId: nat, lastHash: string, seeded: bool, phase: Phase,
    footing: Footing, origin: map<nat, Origin>)

  datatype Action =
    | Flush(batch: seq<Event>)
    | MarkSeeded
    | ReadTail(ok: bool)
    | Chain(shed: bool, appOf: Id -> Option<Id>)
    | Insert(outcome: InsertOutcome)
    | Purge(n: nat)
    | ResetSeed
    | Erase(user: Id, scrub: string -> string)
    | Restart

  predicate Enabled(s: State, a: Action) {
    match a
    case Flush(batch) => s.phase.Resting? && batch != []
    case MarkSeeded => s.phase.Attempting?
    case ReadTail(_) => s.phase.ReadingTail?
    case Chain(_, _) => s.phase.Chaining?
    case Insert(_) => s.phase.Writing?
    case Purge(n) => n <= |s.table|
    case _ => true
  }

  function Tail(table: seq<Row>): Option<string> {
    var rows := Chained(table);
    if rows == [] then None else rows[|rows| - 1].rowHash
  }

  function Origins(id: nat, footing: Footing, events: seq<Event>): (m: map<nat, Origin>)
    ensures forall i :: i in m <==> id <= i < id + |events|
    ensures forall k :: 0 <= k < |events| ==> m[id + k] == Origin(k == 0, footing, events[k].httpStatus)
  {
    if events == [] then map[]
    else
      var n := |events| - 1;
      Origins(id, footing, events[..n])[id + n := Origin(n == 0, footing, events[n].httpStatus)]
  }

  function Persist(h: Digest, s: State, prev: string, events: seq<Event>): State {
    s.(table := s.table + RowsFor(h, s.nextId, prev, events), nextId := s.nextId + |events|,
       footing := Sound, origin := s.origin + Origins(s.nextId, s.footing, events))
  }

  /** After an insert the writer believes failed: one more attempt, then the batch is given up. */
  function GiveUpOrRetry(p: Phase): Phase
    requires p.Writing?
  {
    if p.retry then Resting else Attempting(p.batch, true)
  }

  function Next(h: Digest, s: State, a: Action): State
    requires Enabled(s, a)
  {
    match a
    case Flush(batch) => s.(phase := Attempting(batch, false))
    case MarkSeeded =>
      if s.seeded then s.(phase := Chaining(s.phase.batch, s.phase.retry))
      else s.(seeded := true, phase := ReadingTail(s.phase.batch, s.phase.retry))
    case ReadTail(ok) =>
      var t := s.(phase := Chaining(s.phase.batch, s.phase.retry));
      if !ok then t.(footing := if s.footing == Started then AfterFailedSeed else s.footing)
      else t.(footing := Sound, lastHash := if Tail(s.table).Some? then Tail(s.table).value else s.lastHash)
    case Chain(shed, appOf) =>
      var events := if shed then s.phase.batch else BackfilledAll(s.phase.batch, appOf);
      s.(lastHash := LastHash(h, s.lastHash, events), phase := Writing(s.phase.batch, s.phase.retry, s.lastHash, events))
    case Insert(outcome) =>
      (match outcome
       case Lost => s.(footing := AfterLostInsert, phase := GiveUpOrRetry(s.phase))
       case Stored => Persist(h, s, s.phase.prev, s.phase.events).(phase := Resting)
       case StoredButReportedFailed => Persist(h, s, s.phase.prev, s.phase.events).(phase := GiveUpOrRetry(s.phase)))
    case Purge(n) => s.(table := s.table[n..])
    case ResetSeed => s.(seeded := false)
    case Erase(user, scrub) => s.(table := Pseudonymize(s.table, user, scrub))
    case Restart => s.(lastHash := "", seeded := false, phase := Resting, footing := Started)
  }

  // ---------------------------------------------------------------------------------------
  // The invariant
  // ---------------------------------------------------------------------------------------

  /** The hash the writer's next or pending rows are built on. */
  function Base(s: State): string { if s.phase.Writing? then s.phase.prev else s.lastHash }

  /** A row that need not link: the first of a batch whose writer had lost its footing. */
  predicate Excused(s: State, r: Row) {
    r.id in s.origin && s.origin[r.id].first
    && (s.origin[r.id].footing == AfterLostInsert || s.origin[r.id].footing == AfterFailedSeed)
  }

  ghost predicate RowOk(h: Digest, s: State, r: Row) {
    && r.id < s.nextId && r.id in s.origin
    && (FitsInt16(s.origin[r.id].code) ==> SelfVerifies(h, r))
    && (Injective(h) && SelfVerifies(h, r) ==> FitsInt16(s.origin[r.id].code))
  }

  ghost predicate RowsOk(h: Digest, s: State, rows: seq<Row>) {
    && (forall i :: 0 <= i < |rows| ==> RowOk(h, s, rows[i]))
    && (forall i :: 0 < i < |rows| && !LinksAt(rows, i) ==> Excused(s, rows[i]))
  }

  ghost predicate WriterOk(h: Digest, s: State) {
    && (s.footing == Sound ==> Tail(s.table).None? || Tail(s.table) == Some(Base(s)))
    && (s.footing == Started ==> !s.phase.Chaining? && !s.phase.Writing? && (s.seeded ==> s.phase.ReadingTail?))
    && (s.phase.Writing? ==> s.phase.events != [] && s.lastHash == LastHash(h, s.phase.prev, s.phase.events))
    && (!s.phase.Resting? ==> s.phase.batch != [])
  }

  ghost predicate Inv(h: Digest, s: State) {
    WriterOk(h, s) && RowsOk(h, s, Chained(s.table))
  }

  // ---------------------------------------------------------------------------------------
  // Chained rows of a table that grows or loses a prefix
  // ---------------------------------------------------------------------------------------

  lemma {:induction false} ChainedConcat(a: seq<Row>, b: seq<Row>)
    ensures Chained(a + b) == Chained(a) + Chained(b)
  {
    if b == [] {
      assert a + b == a;
    } else {
      var n := |b| - 1;
      ChainedConcat(a, b[..n]);
      assert (a + b)[..|a + b| - 1] == a + b[..n];
    }
  }

  lemma {:induction false} ChainedAll(rows: seq<Row>)
    requires forall i :: 0 <= i < |rows| ==> rows[i].rowHash.Some?
    ensures Chained(rows) == rows
  {
    if rows != [] {
      ChainedAll(rows[..|rows| - 1]);
      assert rows == rows[..|rows| - 1] + [rows[|rows| - 1]];
    }
  }

  /** A purge takes the oldest chained rows, if any; what is left keeps its order and its last hash. */
  lemma ChainedAfterPurge(table: seq<Row>, n: nat) returns (k: nat)
    requires n <= |table|
    ensures k <= |Chained(table)| && Chained(table[n..]) == Chained(table)[k..]
    ensures Tail(table[n..]).None? || Tail(table[n..]) == Tail(table)
  {
    assert table == table[..n] + table[n..];
    ChainedConcat(table[..n], table[n..]);
    k := |Chained(table[..n])|;
  }

  // ---------------------------------------------------------------------------------------
  // Every step keeps it
  // ---------------------------------------------------------------------------------------

  lemma SuffixRowsOk(h: Digest, s: State, rows: seq<Row>, k: nat)
    requires RowsOk(h, s, rows) && k <= |rows|
    ensures RowsOk(h, s, rows[k..])
  {
  }

  lemma PurgeKeepsInv(h: Digest, s: State, n: nat)
    requires Inv(h, s) && Enabled(s, Purge(n))
    ensures Inv(h, Next(h, s, Purge(n)))
  {
    var k := ChainedAfterPurge(s.table, n);
    SuffixRowsOk(h, s, Chained(s.table), k);
    SameRowsOk(h, s, Next(h, s, Purge(n)), Chained(s.table)[k..]);
    hide RowsOk, Tail, Chained;
  }

  lemma EraseKeepsInv(h: Digest, s: State, user: Id, scrub: string -> string)
    requires Inv(h, s)
    ensures Inv(h, Next(h, s, Erase(user, scrub)))
  {
    hide Chained, Injective;
    var t := Next(h, s, Erase(user, scrub));
    assert SameEvidence(s.table, t.table);
    ChainedKeepsEvidence(s.table, t.table);
    var a, b := Chained(s.table), Chained(t.table);
    forall i | 0 <= i < |b|
      ensures a[i].id == b[i].id && SkeletonOf(a[i]) == SkeletonOf(b[i]) && a[i].rowHash == b[i].rowHash
    {
    }
    hide SkeletonOf, SameEvidence, Pseudonymize;
    forall i | 0 < i < |b| && !LinksAt(b, i)
      ensures Excused(t, b[i])
    {
      LinksBySkeleton(a[i - 1], a[i], b[i - 1], b[i]);
      assert !LinksAt(a, i) && Excused(s, a[i]);
    }
    forall i | 0 <= i < |b|
      ensures RowOk(h, t, b[i])
    {
      assert RowOk(h, s, a[i]);
    }
  }

  lemma LinksBySkeleton(a: Row, b: Row, c: Row, d: Row)
    requires a.rowHash == c.rowHash && SkeletonOf(b) == SkeletonOf(d)
    ensures Links(a, b) <==> Links(c, d)
  {
  }

  lemma PersistedRow(h: Digest, s: State, prev: string, events: seq<Event>, i: nat)
    requires WriterOk(h, s) && s.phase.Writing? && s.phase.prev == prev && s.phase.events == events && i < |events|
    ensures var t := Persist(h, s, prev, events);
            RowOk(h, t, RowsFor(h, s.nextId, prev, events)[i])
  {
    hide LastHash, SelfVerifies, Injective, RowsFor, RowFor, Origins;
    RowAt(h, s.nextId, prev, events, i);
    RowVerifiesIff(h, s.nextId + i, LastHash(h, prev, events[..i]), events[i]);
  }

  /** Rows stored before keep their origin, and with it their excuse. */
  lemma PersistKeepsOldRow(h: Digest, s: State, prev: string, events: seq<Event>, r: Row)
    requires RowOk(h, s, r)
    ensures var t := Persist(h, s, prev, events);
            RowOk(h, t, r) && (Excused(s, r) ==> Excused(t, r))
  {
  }

  /** Where the new batch meets the old table. */
  lemma SeamIsLinkedOrExcused(h: Digest, s: State, earlier: Row)
    requires Inv(h, s) && s.phase.Writing? && Tail(s.table) == earlier.rowHash && earlier.rowHash.Some?
    ensures var t := Persist(h, s, s.phase.prev, s.phase.events);
            var r := RowsFor(h, s.nextId, s.phase.prev, s.phase.events)[0];
            Links(earlier, r) || Excused(t, r)
  {
    RowsChain(h, s.nextId, s.phase.prev, s.phase.events, 0);
    assert WriterOk(h, s);
    hide RowsFor, RowsOk, Inv, Tail, LastHash, Persist;
    FirstOrigin(h, s);
  }

  lemma FirstOrigin(h: Digest, s: State)
    requires s.phase.Writing? && s.phase.events != []
    ensures var t := Persist(h, s, s.phase.prev, s.phase.events);
            s.nextId in t.origin && t.origin[s.nextId] == Origin(true, s.footing, s.phase.events[0].httpStatus)
  {
    hide RowsFor, Origins;
    var added := Origins(s.nextId, s.footing, s.phase.events);
    assert added[s.nextId + 0] == Origin(true, s.footing, s.phase.events[0].httpStatus);
  }

  /** Two lists of rows in order, joined where the second links to the first or is excused. */
  lemma JoinedRowsOk(h: Digest, t: State, before: seq<Row>, added: seq<Row>)
    requires RowsOk(h, t, before) && RowsOk(h, t, added)
    requires before != [] && added != [] ==> Links(before[|before| - 1], added[0]) || Excused(t, added[0])
    ensures RowsOk(h, t, before + added)
  {
  }

  lemma PersistKeepsOldRows(h: Digest, s: State, rows: seq<Row>, prev: string, events: seq<Event>)
    requires RowsOk(h, s, rows)
    ensures RowsOk(h, Persist(h, s, prev, events), rows)
  {
    hide RowOk, Excused, LinksAt, Persist;
    forall i | 0 <= i < |rows|
      ensures RowOk(h, Persist(h, s, prev, events), rows[i])
      ensures Excused(s, rows[i]) ==> Excused(Persist(h, s, prev, events), rows[i])
    {
      PersistKeepsOldRow(h, s, prev, events, rows[i]);
    }
  }

  lemma PersistedRowsOk(h: Digest, s: State)
    requires WriterOk(h, s) && s.phase.Writing?
    ensures var t := Persist(h, s, s.phase.prev, s.phase.events);
            RowsOk(h, t, RowsFor(h, s.nextId, s.phase.prev, s.phase.events))
  {
    var t := Persist(h, s, s.phase.prev, s.phase.events);
    var added := RowsFor(h, s.nextId, s.phase.prev, s.phase.events);
    hide RowsFor, LastHash, Persist, RowOk, Excused, Links, Tail;
    forall i | 0 <= i < |added|
      ensures RowOk(h, t, added[i])
    {
      PersistedRow(h, s, s.phase.prev, s.phase.events, i);
    }
    forall i | 0 < i < |added|
      ensures LinksAt(added, i)
    {
      RowsChain(h, s.nextId, s.phase.prev, s.phase.events, i);
    }
  }

  lemma PersistKeepsRows(h: Digest, s: State)
    requires Inv(h, s) && s.phase.Writing?
    ensures var t := Persist(h, s, s.phase.prev, s.phase.events);
            RowsOk(h, t, Chained(s.table) + RowsFor(h, s.nextId, s.phase.prev, s.phase.events))
  {
    var t := Persist(h, s, s.phase.prev, s.phase.events);
    var before, added := Chained(s.table), RowsFor(h, s.nextId, s.phase.prev, s.phase.events);
    assert before != [] ==> Tail(s.table) == before[|before| - 1].rowHash;
    PersistKeepsOldRows(h, s, before, s.phase.prev, s.phase.events);
    PersistedRowsOk(h, s);
    if before != [] {
      SeamIsLinkedOrExcused(h, s, before[|before| - 1]);
    }
    hide RowsFor, Chained, Persist, RowsOk, Excused, Links, Inv;
    JoinedRowsOk(h, t, before, added);
  }

  lemma ChainedAfterInsert(h: Digest, s: State)
    requires WriterOk(h, s) && s.phase.Writing?
    ensures var t := Persist(h, s, s.phase.prev, s.phase.events);
            && Chained(t.table) == Chained(s.table) + RowsFor(h, s.nextId, s.phase.prev, s.phase.events)
            && Tail(t.table) == Some(t.lastHash)
  {
    var events := s.phase.events;
    var added := RowsFor(h, s.nextId, s.phase.prev, events);
    ChainedConcat(s.table, added);
    ChainedAll(added);
    RowsChain(h, s.nextId, s.phase.prev, events, |events| - 1);
    hide RowsFor, LastHash, Chained, Links;
  }

  lemma PersistKeepsInv(h: Digest, s: State, p: Phase)
    requires Inv(h, s) && s.phase.Writing? && (p.Resting? || p == GiveUpOrRetry(s.phase))
    ensures Inv(h, Persist(h, s, s.phase.prev, s.phase.events).(phase := p))
  {
    var t := Persist(h, s, s.phase.prev, s.phase.events);
    ChainedAfterInsert(h, s);
    PersistKeepsRows(h, s);
    SameRowsOk(h, t, t.(phase := p), Chained(t.table));
    hide RowsFor, LastHash, Tail, RowsOk, Chained;
  }

  lemma SameRowsOk(h: Digest, s: State, t: State, rows: seq<Row>)
    requires t.nextId == s.nextId && t.origin == s.origin
    ensures RowsOk(h, t, rows) == RowsOk(h, s, rows)
  {
  }

  lemma OtherStepsKeepInv(h: Digest, s: State, a: Action)
    requires Inv(h, s) && Enabled(s, a) && !a.Purge? && !a.Erase?
    requires a.Insert? ==> a.outcome.Lost?
    ensures Inv(h, Next(h, s, a))
  {
    hide Chained, RowsOk;
    SameRowsOk(h, s, Next(h, s, a), Chained(s.table));
  }

  lemma StepKeepsInv(h: Digest, s: State, a: Action)
    requires Inv(h, s) && Enabled(s, a)
    ensures Inv(h, Next(h, s, a))
  {
    hide Inv, Persist;
    match a
    case Purge(n) => PurgeKeepsInv(h, s, n);
    case Erase(user, scrub) => EraseKeepsInv(h, s, user, scrub);
    case Insert(Stored) => PersistKeepsInv(h, s, Resting);
    case Insert(StoredButReportedFailed) => PersistKeepsInv(h, s, GiveUpOrRetry(s.phase));
    case _ => OtherStepsKeepInv(h, s, a);
  }

  // ---------------------------------------------------------------------------------------
  // Whole runs
  // ---------------------------------------------------------------------------------------

  predicate Possible(h: Digest, s: State, acts: seq<Action>)
    decreases |acts|
  {
    acts == [] || (Enabled(s, acts[0]) && Possible(h, Next(h, s, acts[0]), acts[1..]))
  }

  function After(h: Digest, s: State, acts: seq<Action>): State
    requires Possible(h, s, acts)
    decreases |acts|
  {
    if acts == [] then s else After(h, Next(h, s, acts[0]), acts[1..])
  }

  /** The first start of a writer on a table none of whose rows is chained yet. */
  predicate FirstStart(s: State) {
    && s.phase.Resting? && s.footing == Started && !s.seeded && s.lastHash == "" && s.origin == map[]
    && Chained(s.table) == []
  }

  lemma {:induction false} RunKeepsInv(h: Digest, s: State, acts: seq<Action>)
    requires Inv(h, s) && Possible(h, s, acts)
    ensures Inv(h, After(h, s, acts))
    decreases |acts|
  {
    hide Inv, Next, Enabled;
    if acts != [] {
      StepKeepsInv(h, s, acts[0]);
      RunKeepsInv(h, Next(h, s, acts[0]), acts[1..]);
    }
  }

  /**
   In every run each stored row verifies its own content if, and with an injective hash only if, its
   status code fits the column it is stored in; and a row fails to link to its predecessor only if
   it is the first of a batch written after a lost insert or after a start whose read of the chain's end
   failed.
   */
  lemma EveryRun(h: Digest, s: State, acts: seq<Action>)
    requires FirstStart(s) && Possible(h, s, acts)
    ensures var t := After(h, s, acts);
            var rows := Chained(t.table);
            && (forall i :: 0 <= i < |rows| ==> rows[i].id in t.origin)
            && (forall i :: 0 <= i < |rows| && FitsInt16(t.origin[rows[i].id].code) ==> SelfVerifies(h, rows[i]))
            && (Injective(h) ==>
                  forall i :: 0 <= i < |rows| && SelfVerifies(h, rows[i]) ==> FitsInt16(t.origin[rows[i].id].code))
            && (forall i :: 0 < i < |rows| && !LinksAt(rows, i) ==> Excused(t, rows[i]))
  {
    RunKeepsInv(h, s, acts);
    hide Chained, Injective, SelfVerifies;
    var t := After(h, s, acts);
    assert forall i :: 0 <= i < |Chained(t.table)| ==> RowOk(h, t, Chained(t.table)[i]);
  }

  /** A step that neither loses an insert nor, on a fresh start, fails to read the end of the chain. */
  predicate Untroubled(s: State, a: Action) {
    && (a.Insert? ==> !a.outcome.Lost?)
    && (a.ReadTail? && s.footing == Started ==> a.ok)
    && (a.Flush? ==> forall i :: 0 <= i < |a.batch| ==> FitsInt16(a.batch[i].httpStatus))
  }

  predicate UntroubledRun(h: Digest, s: State, acts: seq<Action>)
    requires Possible(h, s, acts)
    decreases |acts|
  {
    acts == [] || (Untroubled(s, acts[0]) && UntroubledRun(h, Next(h, s, acts[0]), acts[1..]))
  }

  predicate AllFit(events: seq<Event>) {
    forall i :: 0 <= i < |events| ==> FitsInt16(events[i].httpStatus)
  }

  /** The writer is sound or has not begun, and has never written otherwise. */
  ghost predicate Calm(s: State) {
    && (s.footing == Sound || s.footing == Started)
    && (s.footing == Started ==> !s.phase.Writing?)
    && (forall id :: id in s.origin ==> s.origin[id].footing == Sound && FitsInt16(s.origin[id].code))
    && (!s.phase.Resting? ==> AllFit(s.phase.batch))
    && (s.phase.Writing? ==> AllFit(s.phase.events))
  }

  lemma OriginsFit(id: nat, footing: Footing, events: seq<Event>)
    requires AllFit(events)
    ensures var m := Origins(id, footing, events);
            forall i :: i in m ==> m[i].footing == footing && FitsInt16(m[i].code)
  {
  }

  lemma StepKeepsCalm(h: Digest, s: State, a: Action)
    requires Inv(h, s) && Calm(s) && Enabled(s, a) && Untroubled(s, a)
    ensures Calm(Next(h, s, a))
  {
    hide RowsOk, RowsFor, LastHash, Pseudonymize, Tail, FitsInt16, Origins;
    if a.Insert? {
      OriginsFit(s.nextId, s.footing, s.phase.events);
      var t := Next(h, s, a);
      forall id | id in t.origin
        ensures t.origin[id].footing == Sound && FitsInt16(t.origin[id].code)
      {
        if id in Origins(s.nextId, s.footing, s.phase.events) {
          assert t.origin[id] == Origins(s.nextId, s.footing, s.phase.events)[id];
        }
      }
    }
  }

  lemma {:induction false} RunKeepsCalm(h: Digest, s: State, acts: seq<Action>)
    requires Inv(h, s) && Calm(s) && Possible(h, s, acts) && UntroubledRun(h, s, acts)
    ensures Calm(After(h, s, acts))
    decreases |acts|
  {
    hide Inv, Next, Enabled, Calm, Untroubled;
    if acts != [] {
      StepKeepsInv(h, s, acts[0]);
      StepKeepsCalm(h, s, acts[0]);
      RunKeepsCalm(h, Next(h, s, acts[0]), acts[1..]);
    }
  }

  /** A run without lost inserts and failed first reads verifies intact, whatever limit is asked for. */
  lemma UntroubledRunsVerify(h: Digest, s: State, acts: seq<Action>, limit: int)
    requires FirstStart(s) && Possible(h, s, acts) && UntroubledRun(h, s, acts)
    ensures Intact(h, Window(After(h, s, acts).table, limit))
  {
    RunKeepsCalm(h, s, acts);
    EveryRun(h, s, acts);
    SuffixVerifies(h, After(h, s, acts).table, limit) by {
      hide Chained, SelfVerifies, Links;
      var t := After(h, s, acts);
      assert forall i :: 0 <= i < |Chained(t.table)| ==> !Excused(t, Chained(t.table)[i]);
    }
  }

  lemma SuffixVerifies(h: Digest, table: seq<Row>, limit: int)
    requires Intact(h, Chained(table))
    ensures Intact(h, Window(table, limit))
  {
    hide Chained, SelfVerifies, Links;
    var rows, w := Chained(table), Window(table, limit);
    var k := |rows| - |w|;
    assert w == rows[k..];
    forall i | 0 <= i < |w|
      ensures SelfVerifies(h, w[i]) && (i > 0 ==> LinksAt(w, i))
    {
      assert w[i] == rows[k + i] && SelfVerifies(h, rows[k + i]);
      if i > 0 {
        assert LinksAt(rows, k + i);
      }
    }
  }
}
