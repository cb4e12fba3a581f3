/**
 What the logger's methods compute is what runs of the writer's steps reach, so what holds of every
 run holds of the table a flush, a drain or a purge leaves behind.
 */
module AuditReplay {
  import opened Prelude
  import opened AuditChain
  import opened AuditVerify
  import opened AuditWriter
  import opened AuditRuns
  import opened AuditLogger

  // ---------------------------------------------------------------------------------------
  // Flushes and drains are runs
  // ---------------------------------------------------------------------------------------

  lemma {:induction false} RunsCompose(h: Digest, s: State, a: seq<Action>, b: seq<Action>)
    requires Possible(h, s, a) && Possible(h, After(h, s, a), b)
    ensures Possible(h, s, a + b) && After(h, s, a + b) == After(h, After(h, s, a), b)
    decreases |a|
  {
    hide Next, Enabled;
    if a == [] {
      assert a + b == b;
    } else {
      RunsCompose(h, Next(h, s, a[0]), a[1..], b);
      assert (a + b)[1..] == a[1..] + b && (a + b)[0] == a[0];
    }
  }

  /** Nothing goes wrong in it, whatever state it meets. */
  predicate Smooth(a: Action) {
    && (a.Insert? ==> !a.outcome.Lost?)
    && (a.ReadTail? ==> a.ok)
    && (a.Flush? ==> AllFit(a.batch))
  }

  predicate AllSmooth(acts: seq<Action>) { forall k :: 0 <= k < |acts| ==> Smooth(acts[k]) }

  lemma {:induction false} SmoothIsUntroubled(h: Digest, s: State, acts: seq<Action>)
    requires Possible(h, s, acts) && AllSmooth(acts)
    ensures UntroubledRun(h, s, acts)
    decreases |acts|
  {
    hide Next, Enabled;
    if acts != [] {
      assert Smooth(acts[0]);
      SmoothIsUntroubled(h, Next(h, s, acts[0]), acts[1..]);
    }
  }

  /** No attempt that is made loses its rows, though it may report that it did. */
  predicate NothingLost(first: Fortune, second: Fortune) {
    !first.outcome.Lost? && (first.outcome.Stored? || !second.outcome.Lost?)
  }

  /** The steps of an undisturbed flush of `batch`. */
  function FlushActions(h: Digest, s: State, batch: seq<Event>, first: Fortune, second: Fortune): seq<Action>
    requires s.phase.Resting? && batch != []
  {
    [Flush(batch)] + AttemptActions(Next(h, s, Flush(batch)), first)
    + if first.outcome.Stored? then [] else AttemptActions(s.(seeded := true), second)
  }

  lemma AttemptSeeds(h: Digest, c: ChainState, batch: seq<Event>, f: Fortune)
    ensures Attempted(h, c, batch, f).seeded
  {
  }

  lemma FlushIsRun(h: Digest, s: State, batch: seq<Event>, first: Fortune, second: Fortune)
    requires s.phase.Resting? && batch != []
    ensures var acts := FlushActions(h, s, batch, first, second);
            && Possible(h, s, acts)
            && ViewOf(After(h, s, acts)) == FlushedTo(h, ViewOf(s), batch, first, second)
            && After(h, s, acts).phase == Resting
            && (NothingLost(first, second) && first.readOk && AllFit(batch) ==> AllSmooth(acts))
  {
    hide Attempted, BackfilledAll, AllFit;
    var t := Next(h, s, Flush(batch));
    var one := AttemptActions(t, first);
    AttemptIsRun(h, t, first);
    AttemptSeeds(h, ViewOf(t), batch, first);
    Prepend(h, s, Flush(batch), one);
    var u := After(h, t, one);
    assert u.seeded;
    if first.outcome.Stored? {
      assert [Flush(batch)] + one + [] == [Flush(batch)] + one;
    } else {
      AttemptIsRun(h, u, second);
      RunsCompose(h, s, [Flush(batch)] + one, AttemptActions(u, second));
    }
  }

  /** Flushing batch after batch, as a drain does, is a run, and a smooth one if nothing goes wrong. */
  lemma {:induction false} ReplayIsRun(h: Digest, s: State, sent: seq<Sent>, luck: nat -> (Fortune, Fortune))
    returns (acts: seq<Action>)
    requires s.phase.Resting? && forall k :: 0 <= k < |sent| ==> sent[k].batch != []
    ensures Possible(h, s, acts) && After(h, s, acts).phase.Resting?
    ensures ViewOf(After(h, s, acts)) == Replayed(h, ViewOf(s), sent, luck)
    ensures (forall k :: 0 <= k < |sent| ==> Lucky(sent[k], luck(k))) ==> AllSmooth(acts)
  {
    hide FlushedTo, FlushActions, Smooth;
    if sent == [] {
      acts := [];
    } else {
      var n := |sent| - 1;
      var before := ReplayIsRun(h, s, sent[..n], luck);
      var t := After(h, s, before);
      var last := FlushActions(h, t, sent[n].batch, luck(n).0, luck(n).1);
      FlushIsRun(h, t, sent[n].batch, luck(n).0, luck(n).1);
      RunsCompose(h, s, before, last);
      acts := before + last;
    }
  }

  /** The first attempt at the batch reads, no attempt loses its rows, and its status codes fit. */
  predicate Lucky(b: Sent, f: (Fortune, Fortune)) { NothingLost(f.0, f.1) && f.0.readOk && AllFit(b.batch) }

  /**
   What a drain leaves, from wherever the writer's steps had brought the chain: in that table a row fails to
   link only for the reasons of `EveryRun`, and every row whose status fits verifies itself.
   */
  lemma DrainedTableIsExplained(
    h: Digest, s: State, acts: seq<Action>, sent: seq<Sent>, luck: nat -> (Fortune, Fortune)
  ) returns (t: State)
    requires FirstStart(s) && Possible(h, s, acts) && After(h, s, acts).phase.Resting?
    requires forall k :: 0 <= k < |sent| ==> sent[k].batch != []
    ensures ViewOf(t) == Replayed(h, ViewOf(After(h, s, acts)), sent, luck)
    ensures var rows := Chained(t.table);
            && (forall i :: 0 <= i < |rows| ==> rows[i].id in t.origin)
            && (forall i :: 0 <= i < |rows| && FitsInt16(t.origin[rows[i].id].code) ==> SelfVerifies(h, rows[i]))
            && (forall i :: 0 < i < |rows| && !LinksAt(rows, i) ==> Excused(t, rows[i]))
  {
    hide Next, Enabled, FirstStart, Replayed, Chained, SelfVerifies, Injective;
    var u := After(h, s, acts);
    var more := ReplayIsRun(h, u, sent, luck);
    RunsCompose(h, s, acts, more);
    t := After(h, s, acts + more);
    EveryRun(h, s, acts + more);
  }

  /** And when neither run nor drain loses rows or fails to read, the chain it leaves verifies whatever the limit. */
  lemma DrainedChainVerifies(
    h: Digest, s: State, acts: seq<Action>, sent: seq<Sent>, luck: nat -> (Fortune, Fortune), limit: int)
    requires FirstStart(s) && Possible(h, s, acts) && After(h, s, acts).phase.Resting? && AllSmooth(acts)
    requires forall k :: 0 <= k < |sent| ==> sent[k].batch != [] && Lucky(sent[k], luck(k))
    ensures Intact(h, Window(Replayed(h, ViewOf(After(h, s, acts)), sent, luck).table, limit))
  {
    hide Next, Enabled, FirstStart, Replayed, Window, SelfVerifies, Lucky, Smooth;
    var u := After(h, s, acts);
    var more := ReplayIsRun(h, u, sent, luck);
    RunsCompose(h, s, acts, more);
    SmoothIsUntroubled(h, s, acts + more);
    UntroubledRunsVerify(h, s, acts + more, limit);
  }

  // ---------------------------------------------------------------------------------------
  // What a purge is for
  // ---------------------------------------------------------------------------------------

  lemma BatchIsIntact(h: Digest, id: nat, prev: string, events: seq<Event>)
    requires AllFit(events)
    ensures Intact(h, RowsFor(h, id, prev, events))
  {
    var rows := RowsFor(h, id, prev, events);
    hide RowsFor, SelfVerifies, Links, RowFor;
    forall i | 0 <= i < |rows|
      ensures SelfVerifies(h, rows[i]) && (i > 0 ==> LinksAt(rows, i))
    {
      RowAt(h, id, prev, events, i);
      RowVerifiesIff(h, id + i, LastHash(h, prev, events[..i]), events[i]);
      RowsChain(h, id, prev, events, i);
    }
  }

  lemma IntactJoin(h: Digest, a: seq<Row>, b: seq<Row>)
    requires Intact(h, a) && Intact(h, b) && (a != [] && b != [] ==> Links(a[|a| - 1], b[0]))
    ensures Intact(h, a + b)
  {
    hide SelfVerifies, Links;
    forall i | 0 < i < |a + b|
      ensures LinksAt(a + b, i)
    {
      if i < |a| {
        assert LinksAt(a, i);
      } else if i > |a| {
        assert LinksAt(b, i - |a|);
      }
    }
  }

  /** A batch built on the last hash there is, if there is one, continues an intact chain. */
  lemma BatchContinues(h: Digest, table: seq<Row>, id: nat, prev: string, events: seq<Event>)
    requires Intact(h, Chained(table)) && AllFit(events)
    requires Tail(table).None? || Tail(table) == Some(prev)
    ensures Intact(h, Chained(table + RowsFor(h, id, prev, events)))
  {
    var earlier, added := Chained(table), RowsFor(h, id, prev, events);
    ChainedConcat(table, added);
    ChainedAll(added);
    BatchIsIntact(h, id, prev, events);
    if events != [] {
      RowsChain(h, id, prev, events, 0);
    }
    hide Chained, RowsFor, Intact;
    IntactJoin(h, earlier, added);
  }

  /**
   What a purge leaves verifies if what was there did, and so does the next batch stored, even where
   the writer's own hash had run ahead of the table: it is read from the table again.
   */
  lemma PurgeHealsTheWriter(h: Digest, c: ChainState, n: nat, batch: seq<Event>, f: Fortune, limit: int)
    requires n <= |c.table| && Intact(h, Chained(c.table))
    ensures Intact(h, Window(Purged(c, n).table, limit))
    ensures f.readOk && !f.outcome.Lost? && AllFit(batch) ==>
              Intact(h, Window(Attempted(h, Purged(c, n), batch, f).table, limit))
  {
    var p := Purged(c, n);
    var k := ChainedAfterPurge(c.table, n);
    assert Intact(h, Chained(p.table)) by {
      hide Chained, SelfVerifies;
      var rows := Chained(c.table);
      forall i | 0 <= i < |rows| - k
        ensures SelfVerifies(h, rows[k..][i]) && (i > 0 ==> LinksAt(rows[k..], i))
      {
        assert SelfVerifies(h, rows[k + i]) && (k + i > 0 && i > 0 ==> LinksAt(rows, k + i));
      }
    }
    SuffixVerifies(h, p.table, limit);
    var d := Seeded(p, f.readOk);
    var events := if f.shed then batch else BackfilledAll(batch, f.appOf);
    if f.readOk && !f.outcome.Lost? && AllFit(batch) {
      BatchContinues(h, p.table, d.nextId, d.lastHash, events);
      hide Chained, RowsFor, Window, SelfVerifies;
      SuffixVerifies(h, Attempted(h, p, batch, f).table, limit);
    }
  }
}
