/**
 Verification of the chain: the loop that walks the most recent rows, what its verdict means, and
 what two verified windows with a common last hash have in common.
 */
module AuditVerify {
  import opened Prelude
  import opened AuditChain

  // ---------------------------------------------------------------------------------------
  // What one row says of itself and of the row before it
  // ---------------------------------------------------------------------------------------

  function TextOf(hash: Option<string>): string { if hash.Some? then hash.value else "" }

  /** The hashed fields as they are read back; a NULL status code reads as 0. */
  function SkeletonOf(r: Row): Skeleton {
    Skeleton(TextOf(r.prevHash), r.action, r.authMethod, r.status,
             if r.httpStatus.Some? then r.httpStatus.value else 0,
             r.tenant, r.agent, r.app, r.resourceType, r.resourceId, r.requestId, r.createdMicros)
  }

  predicate SelfVerifies(h: Digest, r: Row) { r.rowHash == Some(ChainHash(h, SkeletonOf(r))) }

  predicate Links(earlier: Row, later: Row) { Some(TextOf(later.prevHash)) == earlier.rowHash }

  predicate LinksAt(rows: seq<Row>, i: int)
    requires 0 < i < |rows|
  {
    Links(rows[i - 1], rows[i])
  }

  /** The first `n` rows each verify, and each but the first links to the one before it. */
  predicate IntactTo(h: Digest, window: seq<Row>, n: nat)
    requires n <= |window|
  {
    && (forall i :: 0 <= i < n ==> SelfVerifies(h, window[i]))
    && (forall i :: 0 < i < n ==> LinksAt(window, i))
  }

  predicate Intact(h: Digest, window: seq<Row>) { IntactTo(h, window, |window|) }

  // ---------------------------------------------------------------------------------------
  // The window and the walk
  // ---------------------------------------------------------------------------------------

  function Chained(table: seq<Row>): (rows: seq<Row>)
    ensures forall i :: 0 <= i < |rows| ==> rows[i].rowHash.Some?
  {
    if table == [] then []
    else Chained(table[..|table| - 1]) + if table[|table| - 1].rowHash.Some? then [table[|table| - 1]] else []
  }

  function EffectiveLimit(limit: int): (n: nat)
    ensures 0 < n <= MAX_LIMIT
  {
    if limit <= 0 || limit > MAX_LIMIT then DEFAULT_LIMIT else limit
  }

  /** The most recent chained rows, oldest first. */
  function Window(table: seq<Row>, limit: int): (w: seq<Row>)
    ensures forall i :: 0 <= i < |w| ==> w[i].rowHash.Some?
  {
    var rows := Chained(table);
    if |rows| <= EffectiveLimit(limit) then rows else rows[|rows| - EffectiveLimit(limit)..]
  }

  /** The chained rows are in the order of the table. */
  lemma {:induction false} ChainedKeepsOrder(table: seq<Row>)
    ensures Subsequence(Chained(table), table)
  {
    if table != [] {
      var n := |table| - 1;
      ChainedKeepsOrder(table[..n]);
      SubsequenceGrows(Chained(table[..n]), table[..n], table[n]);
      assert table == table[..n] + [table[n]] && Chained(table[..n]) + [] == Chained(table[..n]);
      hide Subsequence;
    }
  }

  /** They are the rows with a hash, each as often as it is there. */
  lemma {:induction false} ChainedIsExact(table: seq<Row>, r: Row)
    ensures multiset(Chained(table))[r] == if r.rowHash.Some? then multiset(table)[r] else 0
  {
    if table != [] {
      var n := |table| - 1;
      ChainedIsExact(table[..n], r);
      assert table == table[..n] + [table[n]];
    }
  }

  /** The limit that holds is the one asked for from 1 to 100000, and 10000 for any other. */
  predicate LimitIs(limit: int, n: nat) {
    n == if 1 <= limit <= 100000 then limit else 10000
  }

  /** The window is the end of the chained rows, of as many as the limit, or all when there are no more. */
  lemma WindowIsLatest(table: seq<Row>, limit: int, n: nat)
    requires LimitIs(limit, n)
    ensures var rows, w := Chained(table), Window(table, limit);
            |w| == (if |rows| <= n then |rows| else n) && w == rows[|rows| - |w|..]
  {
  }

  datatype Finding = Ok | NothingToVerify | BadLink | BadContent

  datatype VerifyResult = VerifyResult(intact: bool, checked: nat, brokenAt: Option<nat>, detail: Finding)

  /** Each row from the `k`-th on verifies, and each after it links to the one before. */
  predicate IntactFrom(h: Digest, rows: seq<Row>, k: nat) {
    && (forall i :: k <= i < |rows| ==> SelfVerifies(h, rows[i]))
    && (forall i :: k < i < |rows| ==> LinksAt(rows, i))
  }

  /** Each of the last `n` rows verifies, and each but the first of them links to the one before it. */
  predicate LatestIntact(h: Digest, rows: seq<Row>, n: nat) { IntactFrom(h, rows, if |rows| <= n then 0 else |rows| - n) }

  lemma IntactIsLatest(h: Digest, table: seq<Row>, limit: int, n: nat)
    requires LimitIs(limit, n)
    ensures Intact(h, Window(table, limit)) <==> LatestIntact(h, Chained(table), n)
  {
    WindowIsLatest(table, limit, n);
    var rows, w := Chained(table), Window(table, limit);
    hide Chained, Window, Intact, IntactFrom;
    IntactSuffix(h, rows, if |rows| <= n then 0 else |rows| - n, w);
  }

  lemma IntactSuffix(h: Digest, rows: seq<Row>, k: nat, w: seq<Row>)
    requires k <= |rows| && w == rows[k..]
    ensures Intact(h, w) <==> IntactFrom(h, rows, k)
  {
    hide SelfVerifies, Links;
    if Intact(h, w) {
      forall i | k <= i < |rows|
        ensures SelfVerifies(h, rows[i]) && (i > k ==> LinksAt(rows, i))
      {
        assert w[i - k] == rows[i] && (i > k ==> LinksAt(w, i - k) && w[i - k - 1] == rows[i - 1]);
      }
    } else if i :| 0 <= i < |w| && !SelfVerifies(h, w[i]) {
      assert w[i] == rows[k + i];
    } else {
      var i :| 0 < i < |w| && !LinksAt(w, i);
      assert w[i] == rows[k + i] && w[i - 1] == rows[k + i - 1] && !LinksAt(rows, k + i);
    }
  }

  /**
   Oldest to newest: linkage, which the first row of the window is spared, then content; the first
   row that fails either ends the walk.  So a chained row among the last `n` that is altered, or does not
   link to one of them before it, is a break.
   */
  method VerifyChain(h: Digest, table: seq<Row>, limit: int) returns (res: VerifyResult)
    ensures forall n :: LimitIs(limit, n) ==> (res.intact <==> LatestIntact(h, Chained(table), n))
    ensures var w := Window(table, limit);
            && (res.intact <==> Intact(h, w))
            && res.checked <= |w| && IntactTo(h, w, res.checked)
            && (res.intact ==> res.checked == |w| && res.brokenAt.None?
                               && res.detail == if w == [] then NothingToVerify else Ok)
            && (!res.intact ==>
                  && res.checked < |w|
                  && res.brokenAt == Some(w[res.checked].id)
                  && (res.detail == BadLink <==> res.checked > 0 && !LinksAt(w, res.checked))
                  && (res.detail == BadContent <==> (res.checked > 0 ==> LinksAt(w, res.checked))
                                                    && !SelfVerifies(h, w[res.checked])))
  {
    hide ChainHash, SkeletonOf, Window;
    var w := Window(table, limit);
    forall n | LimitIs(limit, n)
      ensures Intact(h, w) <==> LatestIntact(h, Chained(table), n)
    {
      IntactIsLatest(h, table, limit, n);
    }
    hide LatestIntact, Chained;
    res := VerifyResult(true, 0, None, Ok);
    var expected: Option<string> := None;
    var i := 0;
    while i < |w|
      invariant 0 <= i <= |w| && res == VerifyResult(true, i, None, Ok)
      invariant IntactTo(h, w, i)
      invariant expected == if i == 0 then None else w[i - 1].rowHash
    {
      var r := w[i];
      if expected.Some? && TextOf(r.prevHash) != expected.value {
        assert !LinksAt(w, i);
        return res.(intact := false, brokenAt := Some(r.id), detail := BadLink);
      }
      if r.rowHash != Some(ChainHash(h, SkeletonOf(r))) {
        return res.(intact := false, brokenAt := Some(r.id), detail := BadContent);
      }
      expected := r.rowHash;
      res := res.(checked := res.checked + 1);
      i := i + 1;
    }
    if res.checked == 0 {
      res := res.(detail := NothingToVerify);
    }
  }

  // ---------------------------------------------------------------------------------------
  // Tamper evidence
  // ---------------------------------------------------------------------------------------

  ghost predicate Injective(h: Digest) {
    forall x, y :: h(x) == h(y) ==> x == y
  }

  predicate WindowBarFree(window: seq<Row>) {
    forall i :: 0 <= i < |window| ==> BarFree(SkeletonOf(window[i]))
  }

  /**
   Two windows that both verify and end in the same row_hash agree on every hashed field, row by
   row backwards over the shorter of the two.
   */
  lemma {:induction false} SameEndSameHistory(h: Digest, a: seq<Row>, b: seq<Row>, back: nat)
    requires Injective(h) && Intact(h, a) && Intact(h, b) && WindowBarFree(a) && WindowBarFree(b)
    requires back < |a| && back < |b| && a[|a| - 1].rowHash == b[|b| - 1].rowHash
    ensures var x, y := a[|a| - 1 - back], b[|b| - 1 - back];
            x.rowHash == y.rowHash && SkeletonOf(x) == SkeletonOf(y)
  {
    var x, y := a[|a| - 1 - back], b[|b| - 1 - back];
    if back > 0 {
      SameEndSameHistory(h, a, b, back - 1);
      assert LinksAt(a, |a| - back) && LinksAt(b, |b| - back);
    }
    assert SelfVerifies(h, x) && SelfVerifies(h, y);
    EncodeInjective(SkeletonOf(x), SkeletonOf(y));
  }

  // ---------------------------------------------------------------------------------------
  // Erasure
  // ---------------------------------------------------------------------------------------

  /** Equal but for columns the hash does not cover. */
  predicate SameEvidence(a: seq<Row>, b: seq<Row>) {
    && |a| == |b|
    && forall i :: 0 <= i < |a| ==>
         b[i] == a[i].(user := b[i].user, email := b[i].email, ip := b[i].ip, userAgent := b[i].userAgent,
                       metadata := b[i].metadata, organization := b[i].organization)
  }

  /** A user's personal data scrubbed from every row that is theirs. */
  function Pseudonymize(table: seq<Row>, user: Id, scrub: string -> string): seq<Row> {
    seq(|table|, i requires 0 <= i < |table| =>
      if table[i].user == Some(user)
      then table[i].(email := "[erased]", ip := None, userAgent := "[erased]", user := None, metadata := scrub(table[i].metadata))
      else table[i])
  }

  lemma {:induction false} ChainedKeepsEvidence(a: seq<Row>, b: seq<Row>)
    requires SameEvidence(a, b)
    ensures SameEvidence(Chained(a), Chained(b))
  {
    if a != [] {
      var n := |a| - 1;
      assert a[..n] == a[..|a| - 1];
      ChainedKeepsEvidence(a[..n], b[..n]);
      assert b[n].rowHash == a[n].rowHash;
    }
  }

  /** Changing what the hash does not cover changes neither the window's rows nor any check on them. */
  lemma EvidenceKeepsVerdict(h: Digest, a: seq<Row>, b: seq<Row>, limit: int)
    requires SameEvidence(a, b)
    ensures var v, w := Window(a, limit), Window(b, limit);
            && |v| == |w|
            && (forall i :: 0 <= i < |v| ==> v[i].id == w[i].id && (SelfVerifies(h, v[i]) <==> SelfVerifies(h, w[i])))
            && (forall i :: 0 < i < |v| ==> (LinksAt(v, i) <==> LinksAt(w, i)))
            && (Intact(h, v) <==> Intact(h, w))
  {
    ChainedKeepsEvidence(a, b);
    var v, w := Window(a, limit), Window(b, limit);
    assert SameEvidence(v, w);
    assert forall i :: 0 <= i < |v| ==> SkeletonOf(v[i]) == SkeletonOf(w[i]) && v[i].rowHash == w[i].rowHash;
  }

  /** An erased user is in no row any more, nor is what was theirs; every other row is as it was. */
  lemma ErasureErases(table: seq<Row>, user: Id, scrub: string -> string, i: nat)
    requires i < |table|
    ensures var rows := Pseudonymize(table, user, scrub);
            && |rows| == |table| && rows[i].user != Some(user)
            && (table[i].user != Some(user) ==> rows[i] == table[i])
            && (table[i].user == Some(user) ==>
                  rows[i].email == rows[i].userAgent == "[erased]" && rows[i].ip.None?
                  && rows[i].metadata == scrub(table[i].metadata))
  {
  }

  /** Erasing a user never turns a verified chain into a broken one, nor hides a break. */
  lemma ErasureKeepsVerdict(h: Digest, table: seq<Row>, user: Id, scrub: string -> string, limit: int)
    ensures Intact(h, Window(table, limit)) <==> Intact(h, Window(Pseudonymize(table, user, scrub), limit))
  {
    EvidenceKeepsVerdict(h, table, Pseudonymize(table, user, scrub), limit);
  }
}
