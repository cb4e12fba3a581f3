/**
 What one insert attempt writes: a batch of events turned into rows, each folding the hash of the
 one before it into its own.
 */
module AuditWriter {
  import opened Prelude
  import opened AuditChain
  import opened AuditVerify

  const STATUS_SUCCESS := "success"

  /** An insert may store its rows and still report an error to the writer. */
  datatype InsertOutcome = Stored | StoredButReportedFailed | Lost

  function Int16(n: int): int { (n + 0x8000) % 0x1_0000 - 0x8000 }

  predicate FitsInt16(n: int) { -0x8000 <= n < 0x8000 }

  function StatusOf(e: Event): string { if e.status == "" then STATUS_SUCCESS else e.status }

  /** What the hash covers when the row is written: the status code before it is narrowed. */
  function SkeletonFor(prev: string, e: Event): Skeleton {
    Skeleton(prev, e.action, e.authMethod, StatusOf(e), e.httpStatus, e.tenant, e.agent, e.app,
             e.resourceType, e.resourceId, e.requestId, e.createdNanos / 1000)
  }

  function RowFor(h: Digest, id: nat, prev: string, e: Event): Row {
    Row(id, e.tenant, e.user, e.agent, e.app, e.organization, e.email, e.action, e.resourceType, e.resourceId,
        e.ip, e.userAgent, StatusOf(e), if e.httpStatus != 0 then Some(Int16(e.httpStatus)) else None,
        e.authMethod, e.requestId, e.metadata, e.createdNanos / 1000,
        Some(ChainHash(h, SkeletonFor(prev, e))), Some(prev))
  }

  /** The writer's last hash once it has chained `events` from `prev`. */
  function LastHash(h: Digest, prev: string, events: seq<Event>): string {
    if events == [] then prev
    else ChainHash(h, SkeletonFor(LastHash(h, prev, events[..|events| - 1]), events[|events| - 1]))
  }

  function RowsFor(h: Digest, id: nat, prev: string, events: seq<Event>): (rows: seq<Row>)
    ensures |rows| == |events|
    ensures forall i :: 0 <= i < |rows| ==> rows[i].id == id + i && rows[i].rowHash.Some?
  {
    if events == [] then []
    else
      var n := |events| - 1;
      RowsFor(h, id, prev, events[..n]) + [RowFor(h, id + n, LastHash(h, prev, events[..n]), events[n])]
  }

  /** The event's application, inherited from its user when the event names none. */
  function Backfilled(e: Event, appOf: Id -> Option<Id>): Event {
    if e.user.None? || e.app.Some? then e else e.(app := appOf(e.user.value))
  }

  function BackfilledAll(batch: seq<Event>, appOf: Id -> Option<Id>): seq<Event> {
    seq(|batch|, i requires 0 <= i < |batch| => Backfilled(batch[i], appOf))
  }

  /** The loop over a batch: each row takes the running hash as its prev_hash and replaces it. */
  method ChainBatch(h: Digest, id: nat, lastHash: string, batch: seq<Event>, shed: bool, appOf: Id -> Option<Id>)
    returns (rows: seq<Row>, newHash: string)
    ensures var events := if shed then batch else BackfilledAll(batch, appOf);
            rows == RowsFor(h, id, lastHash, events) && newHash == LastHash(h, lastHash, events)
  {
    hide RowFor, ChainHash, SkeletonFor, Backfilled;
    ghost var events := if shed then batch else BackfilledAll(batch, appOf);
    rows, newHash := [], lastHash;
    var i := 0;
    while i < |batch|
      invariant 0 <= i <= |batch|
      invariant rows == RowsFor(h, id, lastHash, events[..i]) && newHash == LastHash(h, lastHash, events[..i])
    {
      var e := if shed then batch[i] else Backfilled(batch[i], appOf);
      assert events[..i + 1][..i] == events[..i];
      rows := rows + [RowFor(h, id + i, newHash, e)];
      newHash := ChainHash(h, SkeletonFor(newHash, e));
      i := i + 1;
    }
    assert events[..i] == events;
  }

  // ---------------------------------------------------------------------------------------
  // Each row verifies its own content, and links to the one before it
  // ---------------------------------------------------------------------------------------

  lemma NarrowingKeepsFitting(n: int)
    ensures FitsInt16(n) <==> Int16(n) == n
  {
  }

  /** What is read back is what was hashed, but for the narrowed status code; the rest of the row is the event's own. */
  lemma ReadBackSkeleton(h: Digest, id: nat, prev: string, e: Event)
    ensures var r := RowFor(h, id, prev, e);
            var status := if e.status == "" then "success" else e.status;
            var hashed := Skeleton(prev, e.action, e.authMethod, status, e.httpStatus, e.tenant, e.agent, e.app,
                                   e.resourceType, e.resourceId, e.requestId, e.createdNanos / 1000);
            && r.rowHash == Some(h(Encode(hashed)))
            && SkeletonOf(r) == hashed.(httpStatus := if e.httpStatus != 0 then Int16(e.httpStatus) else 0)
            && r.id == id && r.user == e.user && r.organization == e.organization && r.email == e.email && r.ip == e.ip
            && r.userAgent == e.userAgent && r.metadata == e.metadata && (r.httpStatus.None? <==> e.httpStatus == 0)
  {
  }

  /** The column keeps the low sixteen bits, as a signed number. */
  lemma NarrowedToSixteenBits(n: int)
    ensures -0x8000 <= Int16(n) < 0x8000 && (n - Int16(n)) % 0x1_0000 == 0
  {
  }

  /** An event that names no application takes its user's, if there is a user; nothing else of it changes. */
  lemma BackfilledTakesUsersApp(e: Event, appOf: Id -> Option<Id>)
    ensures Backfilled(e, appOf).(app := e.app) == e
    ensures e.app.Some? || e.user.None? ==> Backfilled(e, appOf).app == e.app
    ensures e.app.None? && e.user.Some? ==> Backfilled(e, appOf).app == appOf(e.user.value)
  {
  }

  lemma FieldsSplit(k: Skeleton)
    ensures Encode(k) == k.prev + Barred(Fields(k)[..3]) + ("|" + Decimal(k.httpStatus)) + Barred(Fields(k)[4..])
  {
    var f := Fields(k);
    assert f == f[..3] + ([f[3]] + f[4..]);
    BarredConcat(f[..3], [f[3]] + f[4..]);
    BarredConcat([f[3]], f[4..]);
    assert [f[3]][1..] == [] && Barred([f[3]]) == "|" + f[3];
  }

  /** The status code alone is always told apart, bars or not. */
  lemma EncodeTellsStatus(k: Skeleton, code: int)
    requires Encode(k) == Encode(k.(httpStatus := code))
    ensures k.httpStatus == code
  {
    hide Decimal, Barred;
    var m := k.(httpStatus := code);
    FieldsSplit(k);
    FieldsSplit(m);
    assert Fields(k)[..3] == Fields(m)[..3] && Fields(k)[4..] == Fields(m)[4..];
    var head, tail := k.prev + Barred(Fields(k)[..3]), Barred(Fields(k)[4..]);
    SameMiddle(head, "|" + Decimal(k.httpStatus), "|" + Decimal(code), tail);
    assert Decimal(k.httpStatus) == ("|" + Decimal(k.httpStatus))[1..] == ("|" + Decimal(code))[1..] == Decimal(code);
    DecimalInjective(k.httpStatus, code);
  }

  lemma SameMiddle(head: string, x: string, y: string, tail: string)
    requires head + x + tail == head + y + tail
    ensures x == y
  {
    assert |x| == |y|;
    assert x == (head + x + tail)[|head|..|head| + |x|];
    assert y == (head + y + tail)[|head|..|head| + |y|];
  }

  /** A written row verifies its own content if, and with an injective hash only if, its status code fits the column. */
  lemma RowVerifiesIff(h: Digest, id: nat, prev: string, e: Event)
    ensures FitsInt16(e.httpStatus) ==> SelfVerifies(h, RowFor(h, id, prev, e))
    ensures Injective(h) && SelfVerifies(h, RowFor(h, id, prev, e)) ==> FitsInt16(e.httpStatus)
  {
    hide Encode;
    NarrowingKeepsFitting(e.httpStatus);
    ReadBackSkeleton(h, id, prev, e);
    var code := if e.httpStatus != 0 then Int16(e.httpStatus) else 0;
    if Injective(h) && SelfVerifies(h, RowFor(h, id, prev, e)) {
      EncodeTellsStatus(SkeletonFor(prev, e), code);
    }
  }

  /** Row `i` of a batch is built on the running hash after the `i` events before it. */
  lemma {:induction false} RowAt(h: Digest, id: nat, prev: string, events: seq<Event>, i: nat)
    requires i < |events|
    ensures RowsFor(h, id, prev, events)[i] == RowFor(h, id + i, LastHash(h, prev, events[..i]), events[i])
  {
    hide RowFor, LastHash;
    var n := |events| - 1;
    if i < n {
      RowAt(h, id, prev, events[..n], i);
      assert events[..n][..i] == events[..i];
    }
  }

  /** A batch starts from `prev`, each later row links to the one before it, and the last holds the last hash. */
  lemma RowsChain(h: Digest, id: nat, prev: string, events: seq<Event>, i: nat)
    requires i < |events|
    ensures var rows := RowsFor(h, id, prev, events);
            && (i == 0 ==> rows[i].prevHash == Some(prev))
            && (i > 0 ==> Links(rows[i - 1], rows[i]))
            && (i == |events| - 1 ==> rows[i].rowHash == Some(LastHash(h, prev, events)))
  {
  }

  // ---------------------------------------------------------------------------------------
  // A lost batch is always noticed
  // ---------------------------------------------------------------------------------------

  predicate EventsBarFree(events: seq<Event>) {
    forall i :: 0 <= i < |events| ==> BarFree(SkeletonFor("", events[i]))
  }

  /** A writer that started from genesis never meets one of its own hashes again. */
  lemma {:induction false} HashesNeverRepeat(h: Digest, events: seq<Event>, m: nat)
    requires Injective(h) && (forall x :: h(x) != "") && EventsBarFree(events) && m < |events|
    ensures LastHash(h, "", events[..m]) != LastHash(h, "", events)
    decreases m
  {
    var n := |events|;
    if m > 0 && LastHash(h, "", events[..m]) == LastHash(h, "", events) {
      var x := SkeletonFor(LastHash(h, "", events[..m][..m - 1]), events[m - 1]);
      var y := SkeletonFor(LastHash(h, "", events[..n - 1]), events[n - 1]);
      assert BarFree(SkeletonFor("", events[m - 1])) && BarFree(SkeletonFor("", events[n - 1]));
      EncodeInjective(x, y);
      assert events[..m][..m - 1] == events[..n - 1][..m - 1];
      HashesNeverRepeat(h, events[..n - 1], m - 1);
    }
  }

  /** So when a batch is lost, the first row of the next one does not link to the last row stored. */
  lemma LostBatchBreaksLink(h: Digest, stored: seq<Event>, lost: seq<Event>, id: nat, later: nat, next: Event)
    requires Injective(h) && (forall x :: h(x) != "") && EventsBarFree(stored + lost) && stored != [] && lost != []
    ensures var rows := RowsFor(h, id, "", stored);
            !Links(rows[|rows| - 1], RowFor(h, later, LastHash(h, "", stored + lost), next))
  {
    RowsChain(h, id, "", stored, |stored| - 1);
    assert (stored + lost)[..|stored|] == stored;
    HashesNeverRepeat(h, stored + lost, |stored|);
  }
}
