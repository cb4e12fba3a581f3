/**
 The server-address allow-list: entries normalised to masked prefixes (section 3.1 of RFC 4632),
 IPv4-mapped IPv6 addresses taken as the IPv4 addresses they are (section 2.5.5.2 of RFC 4291).
 Reading an address from text is left to the platform; the model starts from what it yields.
 */
module ServerIp {
  import opened Prelude

  const MIN_V4_PREFIX := 24
  const MIN_V6_PREFIX := 48
  const MAX_SERVER_IPS := 50
  const MAX_DESCRIPTION := 200

  function Pow2(n: nat): (p: nat)
    ensures p > 0
  {
    if n == 0 then 1 else 2 * Pow2(n - 1)
  }

  // ---------------------------------------------------------------------------------------
  // Addresses and prefixes
  // ---------------------------------------------------------------------------------------

  datatype Addr = V4(v: nat) | V6(v: nat, zoned: bool)

  function BitLen(a: Addr): nat { if a.V4? then 32 else 128 }

  predicate ValidAddr(a: Addr) { a.v < Pow2(BitLen(a)) }

  /** ::ffff:0:0/96. */
  predicate Is4In6(a: Addr) { a.V6? && a.v / Pow2(32) == 0xFFFF }

  function Unmap(a: Addr): Addr { if Is4In6(a) then V4(a.v % Pow2(32)) else a }

  predicate IsUnspecified(a: Addr) { a.v == 0 && (a.V6? ==> !a.zoned) }

  predicate IsMulticast(a: Addr) { if a.V4? then a.v / Pow2(28) == 0xE else a.v / Pow2(120) == 0xFF }

  datatype Prefix = Prefix(addr: Addr, bits: nat)

  predicate ValidPrefix(p: Prefix) { ValidAddr(p.addr) && p.bits <= BitLen(p.addr) && (p.addr.V6? ==> !p.addr.zoned) }

  /** The size of the block a prefix covers. */
  function Block(p: Prefix): nat
    requires p.bits <= BitLen(p.addr)
  {
    Pow2(BitLen(p.addr) - p.bits)
  }

  /** `v` with its remainder by `d` taken off: the bits below a power of two cleared. */
  function Cleared(v: nat, d: nat): (c: nat)
    requires d > 0
    ensures c / d == v / d && c % d == 0 && c + v % d == v
  {
    Multiples(v / d, d);
    (v / d) * d
  }

  lemma Multiples(q: nat, d: nat)
    requires d > 0
    ensures q * d >= 0 && (q * d) / d == q && (q * d) % d == 0
  {
    Quotient(q * d, d, q, 0);
  }

  lemma AtLeastOne(k: int, d: nat)
    requires k >= 1
    ensures k * d >= d
  {
  }

  /** Quotient and remainder are determined by their equation. */
  lemma Quotient(v: int, d: nat, q: int, r: int)
    requires d > 0 && v == q * d + r && 0 <= r < d
    ensures v / d == q && v % d == r
  {
    var q', r' := v / d, v % d;
    assert v == q' * d + r';
    assert (q - q') * d == q * d - q' * d == r' - r;
    assert (q' - q) * d == q' * d - q * d == r - r';
    if q' < q {
      AtLeastOne(q - q', d);
    } else if q < q' {
      AtLeastOne(q' - q, d);
    }
  }

  function Masked(p: Prefix): Prefix
    requires p.bits <= BitLen(p.addr)
  {
    p.(addr := p.addr.(v := Cleared(p.addr.v, Block(p))))
  }

  /** Same family, no zone, and the same leading bits. */
  predicate Contains(p: Prefix, a: Addr)
    requires p.bits <= BitLen(p.addr)
  {
    p.addr.V4? == a.V4? && (a.V6? ==> !a.zoned) && a.v / Block(p) == p.addr.v / Block(p)
  }

  // ---------------------------------------------------------------------------------------
  // Normalisation
  // ---------------------------------------------------------------------------------------

  /** An entry as read: a bare address, or an address with a prefix length, which never has a zone. */
  datatype Parsed = Unreadable | Host(addr: Addr) | Range(prefix: Prefix)

  predicate ValidParsed(e: Parsed) {
    match e
    case Unreadable => true
    case Host(a) => ValidAddr(a)
    case Range(p) => ValidPrefix(p)
  }

  datatype IpFault = NotAnAddress | ZoneRefused | TooWide | UnspecifiedOrMulticast | DescriptionTooLong | TooMany

  datatype Normalized = Ok(prefix: Prefix) | Bad(why: IpFault)

  /** The checks that follow once an IPv4-mapped range has become the IPv4 range it means. */
  function CheckAndMask(p: Prefix): Normalized
    requires p.bits <= BitLen(p.addr)
  {
    if IsUnspecified(p.addr) || IsMulticast(p.addr) then Bad(UnspecifiedOrMulticast)
    else if p.addr.V4? && p.bits < MIN_V4_PREFIX then Bad(TooWide)
    else if p.addr.V6? && p.bits < MIN_V6_PREFIX then Bad(TooWide)
    else Ok(Masked(p))
  }

  function NormalizeServerIP(e: Parsed): Normalized
    requires ValidParsed(e)
  {
    match e
    case Unreadable => Bad(NotAnAddress)
    case Host(a) =>
      if a.V6? && a.zoned then Bad(ZoneRefused) else CheckAndMask(Prefix(Unmap(a), BitLen(Unmap(a))))
    case Range(p) =>
      if !Is4In6(p.addr) then CheckAndMask(p)
      else if p.bits < 96 then Bad(TooWide)
      else CheckAndMask(Prefix(Unmap(p.addr), p.bits - 96))
  }

  /** The addresses, as they arrive once unmapped, that an entry is about. */
  ghost predicate Denotes(e: Parsed, a: Addr)
    requires ValidParsed(e)
  {
    match e
    case Unreadable => false
    case Host(h) => a == Unmap(h)
    case Range(p) =>
      if Is4In6(p.addr)
      then a.V4? && (0xFFFF * Pow2(32) + a.v) / Block(p) == p.addr.v / Block(p)  // its mapped form has the range's leading bits
      else p.addr.V4? == a.V4? && (a.V6? ==> !a.zoned) && a.v / Block(p) == p.addr.v / Block(p)
  }

  // ---------------------------------------------------------------------------------------
  // Arithmetic of leading bits
  // ---------------------------------------------------------------------------------------

  lemma {:induction false} Pow2Sum(a: nat, b: nat)
    ensures Pow2(a + b) == Pow2(a) * Pow2(b)
  {
    if a > 0 {
      Pow2Sum(a - 1, b);
      assert Pow2(a + b) == 2 * (Pow2(a - 1) * Pow2(b)) == (2 * Pow2(a - 1)) * Pow2(b);
    }
  }

  lemma Regroup(k: nat, a: nat, b: nat)
    ensures k * (a * b) == (k * a) * b
  {
  }

  lemma Expanded(x: nat, b: nat, y: nat, a: nat)
    ensures (x * b + y) * a == x * (a * b) + y * a
  {
    Regroup(x, b, a);
    assert a * b == b * a;
    assert (x * b + y) * a == (x * b) * a + y * a;
  }

  lemma OneMore(y: nat, a: nat)
    ensures a * (y + 1) == y * a + a
  {
  }

  lemma {:induction false} AtMostProduct(y: nat, a: nat, b: nat)
    requires y < b
    ensures y * a + a <= a * b
    decreases b
  {
    if b == y + 1 {
      OneMore(y, a);
    } else {
      AtMostProduct(y, a, b - 1);
      OneMore(b - 1, a);
      assert a * ((b - 1) + 1) == a * b;
      assert (b - 1) * a == a * (b - 1);
    }
  }

  lemma SplitTwice(v: nat, a: nat, b: nat, q: nat, r: nat, q2: nat, r2: nat)
    requires v == q * a + r && q == q2 * b + r2 && r < a && r2 < b
    ensures v == q2 * (a * b) + (r2 * a + r) && r2 * a + r < a * b
  {
    Expanded(q2, b, r2, a);
    assert q * a == (q2 * b + r2) * a;
    AtMostProduct(r2, a, b);
  }

  /** Dividing by a product is dividing twice. */
  lemma QuotientOfProduct(v: nat, a: nat, b: nat)
    requires a > 0 && b > 0 && a * b > 0
    ensures v / (a * b) == (v / a) / b
  {
    var q, r := v / a, v % a;
    var q2, r2 := q / b, q % b;
    assert v == q * a + r && q == q2 * b + r2;
    SplitTwice(v, a, b, q, r, q2, r2);
    Quotient(v, a * b, q2, r2 * a + r);
  }

  /** Clearing `m` low bits leaves every bit from the `m`-th up. */
  lemma MaskKeepsHighBits(v: nat, m: nat, t: nat)
    requires m <= t
    ensures Cleared(v, Pow2(m)) / Pow2(t) == v / Pow2(t)
  {
    var masked := Cleared(v, Pow2(m));
    Pow2Sum(m, t - m);
    QuotientOfProduct(v, Pow2(m), Pow2(t - m));
    QuotientOfProduct(masked, Pow2(m), Pow2(t - m));
  }

  /** A multiple of the block size does not disturb the comparison of leading bits. */
  lemma AddedMultiple(k: nat, d: nat, v: nat)
    requires d > 0
    ensures (k * d + v) / d == k + v / d
  {
    assert k * d + v == (k + v / d) * d + v % d;
    Quotient(k * d + v, d, k + v / d, v % d);
  }

  // ---------------------------------------------------------------------------------------
  // What normalisation promises
  // ---------------------------------------------------------------------------------------

  lemma MaskedContains(p: Prefix, a: Addr)
    requires p.bits <= BitLen(p.addr)
    ensures Contains(Masked(p), a) <==> Contains(p, a)
  {
  }

  /**
   An IPv4-mapped address has the leading bits of a mapped range exactly when its IPv4 part has those of the
   IPv4 range.
   */
  lemma MappedBits(x: nat, y: nat, m: nat)
    requires m <= 32
    ensures (0xFFFF * Pow2(32) + x) / Pow2(m) == (0xFFFF * Pow2(32) + y) / Pow2(m) <==> x / Pow2(m) == y / Pow2(m)
  {
    Pow2Sum(32 - m, m);
    hide Pow2;
    var d, e := Pow2(m), Pow2(32 - m);
    Regroup(0xFFFF, e, d);
    AddedMultiple(0xFFFF * e, d, x);
    AddedMultiple(0xFFFF * e, d, y);
  }

  lemma MappedValue(a: Addr)
    requires Is4In6(a)
    ensures a.v == 0xFFFF * Pow2(32) + Unmap(a).v && Unmap(a).v < Pow2(32)
  {
  }

  lemma HostBlock(a: Addr, b: Addr)
    ensures Contains(Prefix(a, BitLen(a)), b) <==> a.V4? == b.V4? && (b.V6? ==> !b.zoned) && b.v == a.v
  {
  }

  lemma MaskedKeepsSize(e: Parsed)
    requires ValidParsed(e) && NormalizeServerIP(e).Ok?
    ensures NormalizeServerIP(e).prefix.bits <= BitLen(NormalizeServerIP(e).prefix.addr)
  {
  }

  /** A stored prefix contains exactly the addresses its entry denotes, all of its own family. */
  lemma ContainsWhatIsDenoted(e: Parsed, a: Addr)
    requires ValidParsed(e) && NormalizeServerIP(e).Ok?
    ensures NormalizeServerIP(e).prefix.bits <= BitLen(NormalizeServerIP(e).prefix.addr)
    ensures Contains(NormalizeServerIP(e).prefix, a) <==> Denotes(e, a)
  {
    hide Pow2, Masked, IsMulticast, IsUnspecified;
    MaskedKeepsSize(e);
    match e
    case Host(h) =>
      MaskedContains(Prefix(Unmap(h), BitLen(Unmap(h))), a);
      HostBlock(Unmap(h), a);
    case Range(p) =>
      if Is4In6(p.addr) {
        MaskedContains(Prefix(Unmap(p.addr), p.bits - 96), a);
        MappedValue(p.addr);
        MappedBits(a.v, Unmap(p.addr).v, 128 - p.bits);
      } else {
        MaskedContains(p, a);
      }
  }

  /** No stored range is wider than /24 or /48, none has a zone, and its host bits are clear. */
  lemma StoredIsNarrow(e: Parsed)
    requires ValidParsed(e) && NormalizeServerIP(e).Ok?
    ensures var p := NormalizeServerIP(e).prefix;
            && (if p.addr.V4? then MIN_V4_PREFIX <= p.bits <= 32 else MIN_V6_PREFIX <= p.bits <= 128)
            && (p.addr.V6? ==> !p.addr.zoned && !Is4In6(p.addr))
            && p.addr.v % Block(p) == 0 && ValidPrefix(p)
  {
    match e
    case Host(h) =>
      if Is4In6(h) {
        MappedValue(h);
      }
      MaskedIsStored(Prefix(Unmap(h), BitLen(Unmap(h))));
    case Range(p) =>
      if Is4In6(p.addr) {
        MappedValue(p.addr);
        MaskedIsStored(Prefix(Unmap(p.addr), p.bits - 96));
      } else {
        MaskedIsStored(p);
      }
  }

  lemma MaskedIsStored(p: Prefix)
    requires ValidPrefix(p) && !Is4In6(p.addr)
    ensures var m := Masked(p); ValidPrefix(m) && m.addr.v % Block(m) == 0 && !Is4In6(m.addr)
  {
    hide Cleared;
    assert Masked(p).addr.v <= p.addr.v;
    if p.addr.V6? {
      MaskNeverMaps(p);
    }
  }

  /**
   Clearing low bits never turns an address into an IPv4-mapped one: either its mapped part is untouched, or
   its lowest bit is cleared.
   */
  lemma MaskNeverMaps(p: Prefix)
    requires p.addr.V6? && p.bits <= 128 && !Is4In6(p.addr)
    ensures !Is4In6(Masked(p).addr)
  {
    hide Pow2;
    var m := 128 - p.bits;
    if m <= 32 {
      MaskKeepsHighBits(p.addr.v, m, 32);
    } else {
      var q := p.addr.v / Pow2(m);
      Pow2Sum(m - 32, 32);
      Regroup(q, Pow2(m - 32), Pow2(32));
      Multiples(q * Pow2(m - 32), Pow2(32));
      EvenMultiple(q, m - 32);
    }
  }

  lemma EvenMultiple(q: nat, n: nat)
    requires n > 0
    ensures (q * Pow2(n)) % 2 == 0
  {
    assert q * Pow2(n) == 2 * (q * Pow2(n - 1)) by {
      Regroup(q, 2, Pow2(n - 1));
      Regroup(2, q, Pow2(n - 1));
    }
  }

  /** Masking never makes an accepted address multicast. */
  lemma MaskKeepsMulticast(p: Prefix)
    requires p.bits <= BitLen(p.addr) && (p.addr.V4? ==> p.bits >= MIN_V4_PREFIX) && (p.addr.V6? ==> p.bits >= MIN_V6_PREFIX)
    ensures IsMulticast(Masked(p).addr) <==> IsMulticast(p.addr)
  {
    MaskKeepsHighBits(p.addr.v, BitLen(p.addr) - p.bits, if p.addr.V4? then 28 else 120);
  }

  lemma MaskTwice(p: Prefix)
    requires p.bits <= BitLen(p.addr)
    ensures Masked(Masked(p)) == Masked(p)
  {
  }

  lemma CheckTwice(p: Prefix)
    requires ValidPrefix(p) && !Is4In6(p.addr) && CheckAndMask(p).Ok?
    ensures var m := CheckAndMask(p).prefix;
            ValidPrefix(m) && !Is4In6(m.addr) && (CheckAndMask(m) == Ok(m) <==> m.addr.v != 0)
  {
    MaskedIsStored(p);
    MaskKeepsMulticast(p);
    MaskTwice(p);
  }

  /** A stored prefix, read back, is stored again as itself exactly when masking did not reach the all-zero address. */
  lemma RenormalizesIff(e: Parsed)
    requires ValidParsed(e) && NormalizeServerIP(e).Ok?
    ensures var p := NormalizeServerIP(e).prefix;
            ValidPrefix(p) && (NormalizeServerIP(Range(p)) == Ok(p) <==> p.addr.v != 0)
  {
    match e
    case Host(h) =>
      if Is4In6(h) {
        MappedValue(h);
      }
      CheckTwice(Prefix(Unmap(h), BitLen(Unmap(h))));
    case Range(p) =>
      if Is4In6(p.addr) {
        MappedValue(p.addr);
        CheckTwice(Prefix(Unmap(p.addr), p.bits - 96));
      } else {
        CheckTwice(p);
      }
  }

  // ---------------------------------------------------------------------------------------
  // Which entries are accepted, by the addresses they name
  // ---------------------------------------------------------------------------------------

  /** ::ffff:0.0.0.0, the first IPv4-mapped address. */
  const FIRST_MAPPED := 0xFFFF_0000_0000

  predicate Mapped(v: nat) { FIRST_MAPPED <= v < FIRST_MAPPED + 0x1_0000_0000 }

  /** Not 0.0.0.0, and not in 224.0.0.0/4. */
  predicate Usable4(v: nat) { v != 0 && !(0xE000_0000 <= v <= 0xEFFF_FFFF) }

  /** Not ::, and below ff00::. */
  predicate Usable6(v: nat) { 0 < v < 0xFF00_0000_0000_0000_0000_0000_0000_0000 }

  predicate UsableAddr(a: Addr) {
    if a.V4? then Usable4(a.v) else if Mapped(a.v) then Usable4(a.v - FIRST_MAPPED) else Usable6(a.v)
  }

  predicate Zoned(e: Parsed) { e.Host? && e.addr.V6? && e.addr.zoned }

  predicate NarrowEnough(e: Parsed) {
    e.Range? ==> e.prefix.bits >= if e.prefix.addr.V4? then 24 else if Mapped(e.prefix.addr.v) then 120 else 48
  }

  /** The address the entry is written with. */
  function WrittenAddr(e: Parsed): Addr
    requires !e.Unreadable?
  {
    if e.Host? then e.addr else e.prefix.addr
  }

  lemma Powers(a: nat, x: nat, b: nat, y: nat)
    requires Pow2(a) == x && Pow2(b) == y
    ensures Pow2(a + b) == x * y
  {
    Pow2Sum(a, b);
  }

  lemma SmallPowers()
    ensures Pow2(24) == 0x100_0000 && Pow2(28) == 0x1000_0000 && Pow2(32) == 0x1_0000_0000
  {
    assert Pow2(4) == 0x10;
    hide Pow2;
    Powers(4, 0x10, 4, 0x10);
    Powers(8, 0x100, 8, 0x100);
    Powers(16, 0x1_0000, 8, 0x100);
    Powers(24, 0x100_0000, 4, 0x10);
    Powers(28, 0x1000_0000, 4, 0x10);
  }

  lemma LargePowers()
    ensures Pow2(28) == 0x1000_0000 && Pow2(32) == 0x1_0000_0000
    ensures Pow2(120) == 0x1_00_0000_0000_0000_0000_0000_0000_0000
    ensures Pow2(128) == 0x1_0000_0000_0000_0000_0000_0000_0000_0000
  {
    SmallPowers();
    hide Pow2;
    Powers(32, 0x1_0000_0000, 32, 0x1_0000_0000);
    Powers(64, 0x1_0000_0000_0000_0000, 32, 0x1_0000_0000);
    Powers(96, 0x1_0000_0000_0000_0000_0000_0000, 24, 0x100_0000);
    Powers(96, 0x1_0000_0000_0000_0000_0000_0000, 32, 0x1_0000_0000);
  }

  lemma MappedIs4In6(a: Addr)
    requires ValidAddr(a)
    ensures Is4In6(a) <==> a.V6? && Mapped(a.v)
    ensures Is4In6(a) ==> Unmap(a) == V4(a.v - FIRST_MAPPED)
  {
    LargePowers();
    hide Pow2;
  }

  lemma UsableIff(a: Addr)
    requires ValidAddr(a) && !Is4In6(a) && (a.V6? ==> !a.zoned)
    ensures UsableAddr(a) <==> !IsUnspecified(a) && !IsMulticast(a)
  {
    MappedIs4In6(a);
    LargePowers();
    hide Is4In6, Pow2;
  }

  /**
   An entry is accepted exactly when it can be read, has no zone, names neither the unspecified address nor a
   multicast one in the family it means, and is no wider than /24 there for IPv4 or /48 for IPv6.
   */
  lemma AcceptedIff(e: Parsed)
    requires ValidParsed(e)
    ensures NormalizeServerIP(e).Ok? <==> !e.Unreadable? && !Zoned(e) && UsableAddr(WrittenAddr(e)) && NarrowEnough(e)
    ensures NormalizeServerIP(e) == Bad(NotAnAddress) <==> e.Unreadable?
    ensures NormalizeServerIP(e) == Bad(ZoneRefused) <==> Zoned(e)
    ensures NormalizeServerIP(e) == Bad(TooWide) ==> !NarrowEnough(e)
    ensures NormalizeServerIP(e) == Bad(UnspecifiedOrMulticast) ==> !UsableAddr(WrittenAddr(e))
    ensures NormalizeServerIP(e).Bad? ==>
              NormalizeServerIP(e).why in {NotAnAddress, ZoneRefused, TooWide, UnspecifiedOrMulticast}
  {
    hide Pow2, IsUnspecified, IsMulticast, UsableAddr, Masked, Is4In6, Unmap;
    if !e.Unreadable? && !Zoned(e) {
      var a := WrittenAddr(e);
      MappedIs4In6(a);
      UnmappedUsable(a);
      UsableIff(Unmap(a));
    }
  }

  /** Unmapping an address changes the form it is written in, not whether it is usable. */
  lemma UnmappedUsable(a: Addr)
    requires ValidAddr(a)
    ensures ValidAddr(Unmap(a)) && !Is4In6(Unmap(a)) && (UsableAddr(Unmap(a)) <==> UsableAddr(a))
    ensures !Is4In6(a) ==> Unmap(a) == a
  {
    MappedIs4In6(a);
    LargePowers();
    hide Pow2;
  }

  /** 0.0.0.1/24 is accepted and stored as 0.0.0.0/24, which would be refused. */
  lemma ZeroNetworkIsNotReaccepted()
    ensures ValidParsed(Range(Prefix(V4(1), 24)))
    ensures NormalizeServerIP(Range(Prefix(V4(1), 24))) == Ok(Prefix(V4(0), 24))
    ensures ValidParsed(Range(Prefix(V4(0), 24))) && NormalizeServerIP(Range(Prefix(V4(0), 24))) == Bad(UnspecifiedOrMulticast)
  {
  }

  // ---------------------------------------------------------------------------------------
  // The list
  // ---------------------------------------------------------------------------------------

  datatype Entry = Entry(parsed: Parsed, description: string)

  datatype Stored = Stored(prefix: Prefix, description: string)

  datatype ListResult = Accepted(stored: seq<Stored>) | Rejected(why: IpFault)

  predicate EntryOk(e: Entry)
    requires ValidParsed(e.parsed)
  {
    NormalizeServerIP(e.parsed).Ok? && |e.description| <= MAX_DESCRIPTION
  }

  ghost predicate Among(entries: seq<Entry>, n: nat, p: Prefix)
    requires n <= |entries| && forall k :: 0 <= k < |entries| ==> ValidParsed(entries[k].parsed)
  {
    exists k :: 0 <= k < n && NormalizeServerIP(entries[k].parsed) == Ok(p)
  }

  ghost predicate Lists(stored: seq<Stored>, p: Prefix) {
    exists k :: 0 <= k < |stored| && stored[k].prefix == p
  }

  ghost predicate FromEntries(entries: seq<Entry>, s: Stored)
    requires forall k :: 0 <= k < |entries| ==> ValidParsed(entries[k].parsed)
  {
    exists i :: FirstWith(entries, i, s)
  }

  /** What the loop has after `n` entries: each prefix they normalise to, once, under its first description. */
  ghost predicate Collected(entries: seq<Entry>, n: nat, out: seq<Stored>)
    requires n <= |entries| && forall k :: 0 <= k < |entries| ==> ValidParsed(entries[k].parsed)
  {
    && (forall k :: 0 <= k < n ==> EntryOk(entries[k]))
    && (forall p :: Lists(out, p) <==> Among(entries, n, p))
    && (forall k, l :: 0 <= k < l < |out| ==> out[k].prefix != out[l].prefix)
    && (forall k :: 0 <= k < |out| ==> FromEntries(entries, out[k]))
    && (forall i, j, k, l :: 0 <= k < l < |out| && FirstWith(entries, i, out[k]) && FirstWith(entries, j, out[l]) ==> i < j)
    && (forall i, k :: 0 <= k < |out| && FirstWith(entries, i, out[k]) ==> i < n)
  }

  lemma CollectedGrows(entries: seq<Entry>, n: nat, out: seq<Stored>)
    requires n < |entries| && forall k :: 0 <= k < |entries| ==> ValidParsed(entries[k].parsed)
    requires Collected(entries, n, out) && EntryOk(entries[n])
    ensures var p := NormalizeServerIP(entries[n].parsed).prefix;
            Collected(entries, n + 1, if Lists(out, p) then out else out + [Stored(p, entries[n].description)])
  {
    hide NormalizeServerIP, ValidParsed;
    var p := NormalizeServerIP(entries[n].parsed).prefix;
    var kept := Stored(p, entries[n].description);
    var next := if Lists(out, p) then out else out + [kept];
    forall q
      ensures Among(entries, n + 1, q) <==> Among(entries, n, q) || q == p
      ensures Lists(next, q) <==> Lists(out, q) || q == p
    {
      if Lists(out, q) {
        var k :| 0 <= k < |out| && out[k].prefix == q;
        assert next[k].prefix == q;
      }
      assert !Lists(out, p) ==> next[|out|].prefix == p;
    }
    if !Lists(out, p) {
      assert forall k :: 0 <= k < n ==> NormalizeServerIP(entries[k].parsed) != Ok(p) by {
        assert !Among(entries, n, p);
      }
      assert FirstWith(entries, n, kept);
    }
  }

  /** Entry `i` is the first that is not in order, and `why` is what it is refused for. */
  ghost predicate FirstFault(entries: seq<Entry>, i: int, why: IpFault)
    requires forall k :: 0 <= k < |entries| ==> ValidParsed(entries[k].parsed)
  {
    && 0 <= i < |entries| && !EntryOk(entries[i]) && (forall k :: 0 <= k < i ==> EntryOk(entries[k]))
    && Bad(why) ==
       if NormalizeServerIP(entries[i].parsed).Ok? then Bad(DescriptionTooLong) else NormalizeServerIP(entries[i].parsed)
  }

  /** One pass: the first entry out of order refuses the list, repeats are dropped, the first description wins. */
  method NormalizeServerIPs(entries: seq<Entry>) returns (res: ListResult)
    requires forall i :: 0 <= i < |entries| ==> ValidParsed(entries[i].parsed)
    ensures res.Accepted? ==> Collected(entries, |entries|, res.stored) && |res.stored| <= MAX_SERVER_IPS
    ensures res.Rejected? && res.why != TooMany ==> exists i :: FirstFault(entries, i, res.why)
    ensures res == Rejected(TooMany) ==>
              exists out :: Collected(entries, |entries|, out) && |out| > MAX_SERVER_IPS
  {
    hide NormalizeServerIP, ValidParsed;
    var out: seq<Stored> := [];
    var seen: set<Prefix> := {};
    var i := 0;
    while i < |entries|
      invariant 0 <= i <= |entries| && Collected(entries, i, out)
      invariant forall p :: p in seen <==> Lists(out, p)
    {
      var r := NormalizeServerIP(entries[i].parsed);
      if r.Bad? {
        NeverTooMany(entries[i].parsed);
        assert FirstFault(entries, i, r.why);
        return Rejected(r.why);
      }
      if |entries[i].description| > MAX_DESCRIPTION {
        assert FirstFault(entries, i, DescriptionTooLong);
        return Rejected(DescriptionTooLong);
      }
      CollectedGrows(entries, i, out);
      if r.prefix !in seen {
        seen := seen + {r.prefix};
        ListsMore(out, Stored(r.prefix, entries[i].description));
        out := out + [Stored(r.prefix, entries[i].description)];
      }
      hide Collected;
      i := i + 1;
    }
    if |out| > MAX_SERVER_IPS {
      return Rejected(TooMany);
    }
    res := Accepted(out);
  }

  lemma ListsMore(out: seq<Stored>, s: Stored)
    ensures forall p :: Lists(out + [s], p) <==> Lists(out, p) || p == s.prefix
  {
    forall p
      ensures Lists(out + [s], p) <==> Lists(out, p) || p == s.prefix
    {
      assert (out + [s])[|out|] == s;
      if Lists(out, p) {
        var k :| 0 <= k < |out| && out[k].prefix == p;
        assert (out + [s])[k].prefix == p;
      }
    }
  }

  lemma NeverTooMany(e: Parsed)
    requires ValidParsed(e)
    ensures NormalizeServerIP(e) != Bad(TooMany)
  {
  }

  /** `s` is entry `i`'s, and no earlier entry has its prefix. */
  ghost predicate FirstWith(entries: seq<Entry>, i: int, s: Stored)
    requires forall k :: 0 <= k < |entries| ==> ValidParsed(entries[k].parsed)
  {
    && 0 <= i < |entries|
    && NormalizeServerIP(entries[i].parsed) == Ok(s.prefix) && s.description == entries[i].description
    && forall k :: 0 <= k < i ==> NormalizeServerIP(entries[k].parsed) != Ok(s.prefix)
  }

  /** The first prefix that contains the address, taken as the IPv4 address it may stand for, decides. */
  method AllowsIP(prefixes: seq<Prefix>, ip: Option<Addr>) returns (allowed: bool)
    requires forall i :: 0 <= i < |prefixes| ==> prefixes[i].bits <= BitLen(prefixes[i].addr)
    ensures allowed <==> ip.Some? && exists i :: 0 <= i < |prefixes| && Contains(prefixes[i], Unmap(ip.value))
  {
    if ip.None? {
      return false;
    }
    var addr := Unmap(ip.value);
    var i := 0;
    while i < |prefixes|
      invariant 0 <= i <= |prefixes|
      invariant forall k :: 0 <= k < i ==> !Contains(prefixes[k], addr)
    {
      if Contains(prefixes[i], addr) {
        return true;
      }
      i := i + 1;
    }
    return false;
  }

  /** An accepted list admits an address exactly when one of its entries is about that address. */
  lemma ListAdmitsWhatIsDenoted(entries: seq<Entry>, stored: seq<Stored>, a: Addr)
    requires forall k :: 0 <= k < |entries| ==> ValidParsed(entries[k].parsed)
    requires Collected(entries, |entries|, stored)
    ensures forall k :: 0 <= k < |stored| ==> stored[k].prefix.bits <= BitLen(stored[k].prefix.addr)
    ensures (exists k :: 0 <= k < |stored| && Contains(stored[k].prefix, a)) <==>
            (exists i :: 0 <= i < |entries| && Denotes(entries[i].parsed, a))
  {
    hide NormalizeServerIP, ValidParsed, Contains, Denotes;
    forall k | 0 <= k < |stored|
      ensures stored[k].prefix.bits <= BitLen(stored[k].prefix.addr)
      ensures Contains(stored[k].prefix, a) ==> exists i :: 0 <= i < |entries| && Denotes(entries[i].parsed, a)
    {
      assert FromEntries(entries, stored[k]);
      var i :| FirstWith(entries, i, stored[k]);
      ContainsWhatIsDenoted(entries[i].parsed, a);
    }
    forall i | 0 <= i < |entries| && Denotes(entries[i].parsed, a)
      ensures exists k :: 0 <= k < |stored| && Contains(stored[k].prefix, a)
    {
      assert EntryOk(entries[i]);
      var p := NormalizeServerIP(entries[i].parsed).prefix;
      assert Among(entries, |entries|, p);
      assert Lists(stored, p);
      var k :| 0 <= k < |stored| && stored[k].prefix == p;
      ContainsWhatIsDenoted(entries[i].parsed, a);
    }
  }
}
