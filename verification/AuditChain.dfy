/**
 The tamper-evidence chain of the audit log: the text each row hashes, the verifier, and what a
 verified window proves.

 SHA-256 with its hexadecimal rendering is the parameter `Digest`; it is assumed injective only
 where a lemma says so.
 */
module AuditChain {
  import opened Prelude

  type Digest = string -> string

  /** A UUID in its canonical text form. */
  type Uuid = s: string | |s| == 36 && '|' !in s witness seq(36, i => '0')

  datatype Event = Event(
    tenant: Option<Id>, user: Option<Id>, agent: Option<Uuid>, app: Option<Id>, organization: Option<Id>,
    email: string, action: string, resourceType: string, resourceId: string, ip: Option<string>,
    userAgent: string, status: string, httpStatus: int, authMethod: string, requestId: string,
    metadata: string, createdNanos: int)

  datatype Row = Row(
    id: nat, tenant: Option<Id>, user: Option<Id>, agent: Option<Uuid>, app: Option<Id>, organization: Option<Id>,
    email: string, action: string, resourceType: string, resourceId: string, ip: Option<string>,
    userAgent: string, status: string, httpStatus: Option<int>, authMethod: string, requestId: string,
    metadata: string, createdMicros: int, rowHash: Option<string>, prevHash: Option<string>)

  const DEFAULT_LIMIT := 10000
  const MAX_LIMIT := 100000

  // ---------------------------------------------------------------------------------------
  // The hashed text
  // ---------------------------------------------------------------------------------------

  function Digit(d: nat): char
    requires d < 10
  {
    ('0' as int + d) as char
  }

  function Digits(n: nat): string {
    if n < 10 then [Digit(n)] else Digits(n / 10) + [Digit(n % 10)]
  }

  /** %d of a signed integer. */
  function Decimal(n: int): string { if n < 0 then "-" + Digits(-n) else Digits(n) }

  function OptionalDecimal(n: Option<int>): string { if n.Some? then Decimal(n.value) else "" }

  /** Everything a row's hash covers. */
  datatype Skeleton = Skeleton(
    prev: string, action: string, authMethod: string, status: string, httpStatus: int, tenant: Option<Id>,
    agent: Option<Uuid>, app: Option<Id>, resourceType: string, resourceId: string, requestId: string, micros: int)

  function Fields(k: Skeleton): seq<string> {
    [k.action, k.authMethod, k.status, Decimal(k.httpStatus), OptionalDecimal(k.tenant),
     if k.agent.Some? then k.agent.value else "", OptionalDecimal(k.app),
     k.resourceType, k.resourceId, k.requestId, Decimal(k.micros)]
  }

  function Barred(fields: seq<string>): string {
    if fields == [] then "" else "|" + fields[0] + Barred(fields[1..])
  }

  function Encode(k: Skeleton): string { k.prev + Barred(Fields(k)) }

  function ChainHash(h: Digest, k: Skeleton): string { h(Encode(k)) }

  // ---------------------------------------------------------------------------------------
  // The encoding is injective on text without bars
  // ---------------------------------------------------------------------------------------

  lemma {:induction false} DigitsHaveNoBar(n: nat)
    ensures '|' !in Digits(n) && '-' !in Digits(n) && |Digits(n)| > 0
  {
    if n >= 10 {
      DigitsHaveNoBar(n / 10);
    }
  }

  lemma {:induction false} DigitsInjective(a: nat, b: nat)
    requires Digits(a) == Digits(b)
    ensures a == b
  {
    DigitsHaveNoBar(a / 10);
    DigitsHaveNoBar(b / 10);
    var x, y := Digits(a), Digits(b);
    assert x[|x| - 1] == y[|y| - 1];
    if a >= 10 && b >= 10 {
      assert x[..|x| - 1] == Digits(a / 10) && y[..|y| - 1] == Digits(b / 10);
      DigitsInjective(a / 10, b / 10);
    }
  }

  lemma DecimalInjective(a: int, b: int)
    requires Decimal(a) == Decimal(b)
    ensures a == b
  {
    DigitsHaveNoBar(if a < 0 then -a else a);
    DigitsHaveNoBar(if b < 0 then -b else b);
    assert Decimal(a)[0] == Decimal(b)[0];
    if a < 0 && b < 0 {
      assert Decimal(a)[1..] == Digits(-a) && Decimal(b)[1..] == Digits(-b);
      DigitsInjective(-a, -b);
    } else if a >= 0 && b >= 0 {
      DigitsInjective(a, b);
    }
  }

  lemma DecimalHasNoBar(n: int)
    ensures '|' !in Decimal(n) && Decimal(n) != ""
  {
    DigitsHaveNoBar(if n < 0 then -n else n);
  }

  lemma OptionalDecimalInjective(a: Option<int>, b: Option<int>)
    requires OptionalDecimal(a) == OptionalDecimal(b)
    ensures a == b
  {
    if a.Some? {
      DecimalHasNoBar(a.value);
    }
    if b.Some? {
      DecimalHasNoBar(b.value);
    }
    if a.Some? && b.Some? {
      DecimalInjective(a.value, b.value);
    }
  }

  predicate NoBars(fields: seq<string>) {
    forall i :: 0 <= i < |fields| ==> '|' !in fields[i]
  }

  function BarCount(s: string): nat {
    if s == "" then 0 else (if s[0] == '|' then 1 else 0) + BarCount(s[1..])
  }

  lemma {:induction false} BarCountConcat(a: string, b: string)
    ensures BarCount(a + b) == BarCount(a) + BarCount(b)
  {
    if a == "" {
      assert a + b == b;
    } else {
      BarCountConcat(a[1..], b);
      assert (a + b)[1..] == a[1..] + b;
    }
  }

  lemma {:induction false} NoBarCount(s: string)
    requires '|' !in s
    ensures BarCount(s) == 0
  {
    if s != "" {
      NoBarCount(s[1..]);
    }
  }

  lemma {:induction false} BarredCount(fields: seq<string>)
    requires NoBars(fields)
    ensures BarCount(Barred(fields)) == |fields|
  {
    if fields != [] {
      BarredCount(fields[1..]);
      NoBarCount(fields[0]);
      BarCountConcat("|" + fields[0], Barred(fields[1..]));
      BarCountConcat("|", fields[0]);
      assert BarCount("|") == 1;
    }
  }

  lemma {:induction false} BarredInjective(a: seq<string>, b: seq<string>)
    requires NoBars(a) && NoBars(b) && |a| == |b| && Barred(a) == Barred(b)
    ensures a == b
  {
    if a != [] {
      var x := Barred(a[1..]);
      var y := Barred(b[1..]);
      var s := Barred(a);
      assert s == "|" + a[0] + x && s == "|" + b[0] + y;
      FirstFieldsMatch(a[0], x, b[0], y);
      assert x == s[1 + |a[0]|..] && y == s[1 + |b[0]|..];
      BarredInjective(a[1..], b[1..]);
      assert a == [a[0]] + a[1..] && b == [b[0]] + b[1..];
    }
  }

  /** Two texts that agree up to where a bar or the end follows a bar-free field agree on the field. */
  lemma FirstFieldsMatch(f: string, x: string, g: string, y: string)
    requires '|' !in f && '|' !in g && "|" + f + x == "|" + g + y
    requires (x == "" || x[0] == '|') && (y == "" || y[0] == '|') && (x == "" <==> y == "")
    ensures f == g
  {
    var s := "|" + f + x;
    assert |s| == 1 + |f| + |x| == 1 + |g| + |y|;
    assert forall i :: 0 <= i < |f| ==> s[1 + i] == f[i];
    assert forall i :: 0 <= i < |g| ==> s[1 + i] == g[i];
    if x != "" {
      assert s[1 + |f|] == '|' && s[1 + |g|] == '|';
    }
  }

  /** The last separators are the ones the format put there, whatever precedes them. */
  lemma TailsMatch(p: string, a: seq<string>, q: string, b: seq<string>)
    requires NoBars(a) && NoBars(b) && |a| == |b| > 0 && p + Barred(a) == q + Barred(b)
    ensures p == q && Barred(a) == Barred(b)
  {
    var x, y := Barred(a), Barred(b);
    BarredCount(a);
    BarredCount(b);
    if |x| < |y| {
      LongerTailHasMoreBars(p, x, q, y);
    } else if |y| < |x| {
      LongerTailHasMoreBars(q, y, p, x);
    }
    assert p == (p + x)[..|p|] && q == (q + y)[..|q|];
    assert x == (p + x)[|p|..] && y == (q + y)[|q|..];
  }

  lemma LongerTailHasMoreBars(p: string, x: string, q: string, y: string)
    requires p + x == q + y && |x| < |y| && y[0] == '|'
    ensures BarCount(x) < BarCount(y)
  {
    var d := |y| - |x|;
    assert y == (q + y)[|q|..] && x == (p + x)[|p|..];
    assert y == y[..d] + y[d..] && y[d..] == x;
    BarCountConcat(y[..d], y[d..]);
    assert y[..d][0] == '|';
  }

  /** No hashed text field of the event itself contains the separator. */
  predicate BarFree(k: Skeleton) {
    && '|' !in k.action && '|' !in k.authMethod && '|' !in k.status
    && '|' !in k.resourceType && '|' !in k.resourceId && '|' !in k.requestId
  }

  lemma FieldsHaveNoBars(k: Skeleton)
    requires BarFree(k)
    ensures NoBars(Fields(k))
  {
    DecimalHasNoBar(k.httpStatus);
    DecimalHasNoBar(k.micros);
    if k.tenant.Some? {
      DecimalHasNoBar(k.tenant.value);
    }
    if k.app.Some? {
      DecimalHasNoBar(k.app.value);
    }
  }

  /** Bar-free skeletons are told apart by their encoding, whatever their prev_hash. */
  lemma EncodeInjective(a: Skeleton, b: Skeleton)
    requires BarFree(a) && BarFree(b) && Encode(a) == Encode(b)
    ensures a == b
  {
    FieldsHaveNoBars(a);
    FieldsHaveNoBars(b);
    TailsMatch(a.prev, Fields(a), b.prev, Fields(b));
    BarredInjective(Fields(a), Fields(b));
    FieldsInjective(a, b);
  }

  lemma FieldsInjective(a: Skeleton, b: Skeleton)
    requires a.prev == b.prev && Fields(a) == Fields(b)
    ensures a == b
  {
    var x, y := Fields(a), Fields(b);
    assert forall i :: 0 <= i < 11 ==> x[i] == y[i];
    DecimalInjective(a.httpStatus, b.httpStatus) by { assert x[3] == y[3]; }
    OptionalDecimalInjective(a.tenant, b.tenant) by { assert x[4] == y[4]; }
    OptionalDecimalInjective(a.app, b.app) by { assert x[6] == y[6]; }
    DecimalInjective(a.micros, b.micros) by { assert x[10] == y[10]; }
    assert x[0] == y[0] && x[1] == y[1] && x[2] == y[2] && x[5] == y[5] && x[7] == y[7] && x[8] == y[8] && x[9] == y[9];
  }

  lemma {:induction false} BarredConcat(a: seq<string>, b: seq<string>)
    ensures Barred(a + b) == Barred(a) + Barred(b)
  {
    if a == [] {
      assert a + b == b;
    } else {
      BarredConcat(a[1..], b);
      assert (a + b)[1..] == a[1..] + b;
    }
  }

  /** A bar inside a text field moves freely into its neighbour: different events, one hashed text. */
  lemma BarsCollide(k: Skeleton, p: string, q: string, r: string)
    ensures var a := k.(resourceType := p + "|" + q, resourceId := r);
            var b := k.(resourceType := p, resourceId := q + "|" + r);
            a != b && Encode(a) == Encode(b)
  {
    var a := k.(resourceType := p + "|" + q, resourceId := r);
    var b := k.(resourceType := p, resourceId := q + "|" + r);
    var head, tail := Fields(k)[..7], Fields(k)[9..];
    assert Fields(a) == head + [p + "|" + q, r] + tail;
    assert Fields(b) == head + [p, q + "|" + r] + tail;
    BarredConcat(head + [p + "|" + q, r], tail);
    BarredConcat(head + [p, q + "|" + r], tail);
    BarredConcat(head, [p + "|" + q, r]);
    BarredConcat(head, [p, q + "|" + r]);
    BarredPair(p + "|" + q, r);
    BarredPair(p, q + "|" + r);
    assert "|" + (p + "|" + q) + "|" + r == "|" + p + "|" + (q + "|" + r);
    assert |a.resourceType| > |b.resourceType|;
  }

  lemma BarredPair(x: string, y: string)
    ensures Barred([x, y]) == "|" + x + "|" + y
  {
    assert [x, y][1..] == [y] && [y][1..] == [];
    assert Barred([y]) == "|" + y;
  }
}
