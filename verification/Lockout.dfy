/**
 Account lockout: a timed counter of failed sign-ins, three tiers it can reach, and every way a
 block is put on an account or taken off it.  Instants are microseconds, policies speak seconds.
 */
module Lockout {
  import opened Prelude

  const SECOND := 1_000_000
  const UNBLOCK_TOKEN_TTL := 3600 * SECOND

  // ---------------------------------------------------------------------------------------
  // Policies
  // ---------------------------------------------------------------------------------------

  const MIN_THRESHOLD := 1
  const MAX_THRESHOLD := 1000
  const MIN_SOFT_SECONDS := 30
  const MAX_SOFT_SECONDS := 86400
  const MIN_HARD_SECONDS := 60
  const MAX_HARD_SECONDS := 2592000
  const MIN_WINDOW_SECONDS := 60
  const MAX_WINDOW_SECONDS := 86400
  const MAX_SPIKE := 100000

  /** `hardSeconds` absent is a lock that never expires by itself. */
  datatype Policy = Policy(
    notify: int, soft: int, hard: int, softSeconds: int, hardSeconds: Option<int>, windowSeconds: int, spike: int)

  datatype PolicyFault =
    | NotifyRange | SoftRange | HardRange | SoftDurationRange | HardDurationRange | WindowRange | SpikeRange
    | SoftNotBelowHard | NotifyAboveSoft

  function ValidatePolicy(p: Policy): Option<PolicyFault> {
    if !(0 <= p.notify <= MAX_THRESHOLD) then Some(NotifyRange)
    else if !(MIN_THRESHOLD <= p.soft <= MAX_THRESHOLD) then Some(SoftRange)
    else if !(MIN_THRESHOLD <= p.hard <= MAX_THRESHOLD) then Some(HardRange)
    else if !(MIN_SOFT_SECONDS <= p.softSeconds <= MAX_SOFT_SECONDS) then Some(SoftDurationRange)
    else if p.hardSeconds.Some? && !(MIN_HARD_SECONDS <= p.hardSeconds.value <= MAX_HARD_SECONDS) then Some(HardDurationRange)
    else if !(MIN_WINDOW_SECONDS <= p.windowSeconds <= MAX_WINDOW_SECONDS) then Some(WindowRange)
    else if !(0 <= p.spike <= MAX_SPIKE) then Some(SpikeRange)
    else if p.soft >= p.hard then Some(SoftNotBelowHard)
    else if p.notify > 0 && p.notify > p.soft then Some(NotifyAboveSoft)
    else None
  }

  predicate ValidPolicy(p: Policy) { ValidatePolicy(p).None? }

  function Window(p: Policy): int { p.windowSeconds * SECOND }

  /** The most severe tier a count has reached. */
  datatype Tier = Quiet | Warn | SoftLock | HardLock

  function TierOf(p: Policy, count: nat): Tier {
    if count >= p.hard then HardLock
    else if count >= p.soft then SoftLock
    else if p.notify > 0 && count >= p.notify then Warn
    else Quiet
  }

  /** Under a valid policy the counts below the hard threshold pass through a soft lock, never the other way round. */
  lemma TiersEscalate(p: Policy, low: nat, high: nat)
    requires ValidPolicy(p) && low <= high
    ensures TierOf(p, low).HardLock? ==> TierOf(p, high).HardLock?
    ensures TierOf(p, low).SoftLock? ==> TierOf(p, high).SoftLock? || TierOf(p, high).HardLock?
    ensures TierOf(p, low).Warn? ==> !TierOf(p, high).Quiet?
    ensures TierOf(p, (p.hard - 1) as nat).SoftLock? && TierOf(p, p.hard as nat).HardLock?
  {
  }

  // ---------------------------------------------------------------------------------------
  // One account
  // ---------------------------------------------------------------------------------------

  datatype BlockReason = FailedAttempts | ByAdmin

  datatype Token = Token(expires: int, used: bool)

  /** The users row, the two keys with an expiry held beside it, and the emailed unblock tokens. */
  datatype Account = Account(
    active: bool, attempts: nat, lastFailed: Option<int>, blockedAt: Option<int>, reason: Option<BlockReason>,
    softUntil: Option<int>, warnedUntil: Option<int>, tokens: map<Id, Token>, nextToken: Id)

  predicate LiveKey(until: Option<int>, now: int) { until.Some? && until.value > now }

  /** SETNX with an expiry: a live key is left alone. */
  function SetIfAbsent(until: Option<int>, now: int, duration: int): Option<int> {
    if LiveKey(until, now) then until else Some(now + duration)
  }

  function ClearSoftLock(a: Account): Account { a.(softUntil := None, warnedUntil := None) }

  function ClearCounter(a: Account): Account { a.(attempts := 0, lastFailed := None) }

  function Restored(a: Account): Account { ClearCounter(a).(active := true, blockedAt := None, reason := None) }

  function RetireTokens(a: Account): Account {
    a.(tokens := map t | t in a.tokens :: a.tokens[t].(used := true))
  }

  /** The counter restarts when the previous failure has aged out of the window. */
  function CountFailure(a: Account, p: Policy, now: int): Account {
    var restart := a.lastFailed.None? || a.lastFailed.value < now - Window(p);
    a.(attempts := if restart then 1 else a.attempts + 1, lastFailed := Some(now))
  }

  /** Only an account still active is blocked; an earlier block keeps its reason and its instant. */
  function BlockForFailedAttempts(a: Account, now: int): Account {
    if !a.active then a
    else
      ClearSoftLock(a.(active := false, blockedAt := Some(now), reason := Some(FailedAttempts),
                       tokens := a.tokens[a.nextToken := Token(now + UNBLOCK_TOKEN_TTL, false)], nextToken := a.nextToken + 1))
  }

  function RecordFailedLogin(a: Account, p: Policy, now: int): Account {
    var b := CountFailure(a, p, now);
    match TierOf(p, b.attempts)
    case HardLock => BlockForFailedAttempts(b, now)
    case SoftLock => b.(softUntil := SetIfAbsent(b.softUntil, now, p.softSeconds * SECOND))
    case Warn => b.(warnedUntil := SetIfAbsent(b.warnedUntil, now, Window(p)))
    case Quiet => b
  }

  function ResetFailedLogins(a: Account): Account {
    ClearSoftLock(if a.attempts != 0 then ClearCounter(a) else a)
  }

  /** Lifts an automatic lock older than `after`, and no other block. */
  function ExpireHardLock(a: Account, after: int, now: int): Account {
    if after > 0 && !a.active && a.reason == Some(FailedAttempts) && a.blockedAt.Some? && a.blockedAt.value < now - after
    then ClearSoftLock(RetireTokens(Restored(a)))
    else a
  }

  /** An operator's switch; blocking also stamps whose decision it was. */
  function SetUserActive(a: Account, active: bool, now: int): Account {
    if active then Restored(a) else a.(active := false, blockedAt := Some(now), reason := Some(ByAdmin))
  }

  function UnlockUser(a: Account): Account { ClearSoftLock(RetireTokens(Restored(a))) }

  predicate UsableToken(a: Account, t: Id, now: int) {
    t in a.tokens && !a.tokens[t].used && a.tokens[t].expires > now && a.reason == Some(FailedAttempts)
  }

  /** The emailed link; it lifts automatic blocks alone. */
  function Unblock(a: Account, t: Id, now: int): Account {
    if UsableToken(a, t, now) then Restored(a).(tokens := a.tokens[t := a.tokens[t].(used := true)]) else a
  }

  // ---------------------------------------------------------------------------------------
  // What each of them does
  // ---------------------------------------------------------------------------------------

  lemma ValidPolicyIff(p: Policy)
    ensures ValidPolicy(p) <==>
            && (p.notify == 0 || 1 <= p.notify <= p.soft) && 1 <= p.soft < p.hard <= 1000
            && 30 <= p.softSeconds <= 86400 && (p.hardSeconds.Some? ==> 60 <= p.hardSeconds.value <= 30 * 86400)
            && 60 <= p.windowSeconds <= 86400 && 0 <= p.spike <= 100_000
  {
  }

  predicate Violates(p: Policy, fault: PolicyFault) {
    match fault
    case NotifyRange => p.notify < 0 || p.notify > 1000
    case SoftRange => p.soft < 1 || p.soft > 1000
    case HardRange => p.hard < 1 || p.hard > 1000
    case SoftDurationRange => p.softSeconds < 30 || p.softSeconds > 86400
    case HardDurationRange => p.hardSeconds.Some? && (p.hardSeconds.value < 60 || p.hardSeconds.value > 30 * 86400)
    case WindowRange => p.windowSeconds < 60 || p.windowSeconds > 86400
    case SpikeRange => p.spike < 0 || p.spike > 100_000
    case SoftNotBelowHard => p.hard <= p.soft
    case NotifyAboveSoft => p.notify > p.soft
  }

  /** A policy is refused only for something that is wrong with it. */
  lemma FaultIsTrue(p: Policy)
    ensures ValidatePolicy(p).Some? ==> Violates(p, ValidatePolicy(p).value)
  {
  }

  /** The failures counted are consecutive ones, each within the window of the one before it. */
  predicate WithinWindow(a: Account, p: Policy, now: int) {
    a.lastFailed.Some? && now - a.lastFailed.value <= p.windowSeconds * 1_000_000
  }

  /** The key as a failure at `now` leaves it when its tier applies: live, and started only where none was. */
  predicate Armed(before: Option<int>, after: Option<int>, now: int, seconds: int) {
    && LiveKey(after, now)
    && (LiveKey(before, now) ==> after == before)
    && (!LiveKey(before, now) ==> after == Some(now + seconds * 1_000_000))
  }

  /** Below the hard threshold: from the soft one on the account is soft-locked, before it at most warned. */
  lemma FailureIsJudged(a: Account, p: Policy, now: int)
    requires ValidPolicy(p)
    ensures var b := RecordFailedLogin(a, p, now);
            && b.attempts == (if WithinWindow(a, p, now) then a.attempts + 1 else 1) && b.lastFailed == Some(now)
            && (b.attempts < p.hard ==>
                  b == a.(attempts := b.attempts, lastFailed := b.lastFailed, softUntil := b.softUntil,
                          warnedUntil := b.warnedUntil))
            && (p.soft <= b.attempts < p.hard ==>
                  Armed(a.softUntil, b.softUntil, now, p.softSeconds) && b.warnedUntil == a.warnedUntil)
            && (b.attempts < p.soft ==> b.softUntil == a.softUntil)
            && (0 < p.notify <= b.attempts < p.soft ==> Armed(a.warnedUntil, b.warnedUntil, now, p.windowSeconds))
            && (b.attempts < p.soft && (p.notify == 0 || b.attempts < p.notify) ==> b.warnedUntil == a.warnedUntil)
  {
  }

  /** From the hard threshold on: an active account is blocked, one blocked already keeps its block. */
  lemma FailureBlocks(a: Account, p: Policy, now: int)
    requires RecordFailedLogin(a, p, now).attempts >= p.hard
    ensures var b := RecordFailedLogin(a, p, now);
            && (!a.active ==> b == a.(attempts := b.attempts, lastFailed := b.lastFailed))
            && (a.active ==>
                  && !b.active && b.blockedAt == Some(now) && b.reason == Some(FailedAttempts)
                  && b.softUntil.None? && b.warnedUntil.None?
                  && (forall t :: t in b.tokens <==> t in a.tokens || t == a.nextToken)
                  && (forall t :: t in a.tokens && t != a.nextToken ==> b.tokens[t] == a.tokens[t])
                  && forall at :: UsableToken(b, a.nextToken, at) <==> at < now + 3600 * 1_000_000)
  {
  }

  /** A success forgets the failures and the temporary tiers, and lifts no block. */
  lemma SuccessForgets(a: Account)
    ensures var b := ResetFailedLogins(a);
            && b.attempts == 0 && b.softUntil.None? && b.warnedUntil.None?
            && b == a.(attempts := 0, lastFailed := b.lastFailed, softUntil := None, warnedUntil := None)
            && (a.attempts != 0 ==> b.lastFailed.None?)
  {
  }

  /** Nothing left of any tier, and no link of before that could lift a block to come. */
  predicate Clean(b: Account) {
    && b.active && b.attempts == 0 && b.lastFailed.None? && b.reason.None? && b.blockedAt.None?
    && b.softUntil.None? && b.warnedUntil.None?
    && forall t :: t in b.tokens ==> b.tokens[t].used
  }

  /** An automatic lock whose duration has passed is lifted, and nothing else is touched. */
  lemma ExpiryLiftsIff(a: Account, after: int, now: int)
    ensures var b := ExpireHardLock(a, after, now);
            var due := after > 0 && !a.active && a.reason == Some(FailedAttempts)
                       && a.blockedAt.Some? && now - a.blockedAt.value > after;
            (due ==> Clean(b) && b.tokens.Keys == a.tokens.Keys) && (!due ==> b == a)
  {
  }

  /** An operator's block leaves no link that lifts it; an operator's activation restores the account. */
  lemma OperatorSwitches(a: Account, now: int)
    ensures var b := SetUserActive(a, false, now);
            && !b.active && b.reason == Some(ByAdmin) && b.blockedAt == Some(now) && (forall t, at :: !UsableToken(b, t, at))
            && b == a.(active := false, reason := b.reason, blockedAt := b.blockedAt)
    ensures var b := SetUserActive(a, true, now);
            && b.active && b.reason.None? && b.blockedAt.None? && b.attempts == 0 && b.lastFailed.None?
            && b.tokens == a.tokens && b.nextToken == a.nextToken
            && b.softUntil == a.softUntil && b.warnedUntil == a.warnedUntil
  {
  }

  /** A usable link restores the account and is spent; any other does nothing. */
  lemma LinkRestores(a: Account, t: Id, now: int)
    ensures var b := Unblock(a, t, now);
            && (!UsableToken(a, t, now) ==> b == a)
            && (UsableToken(a, t, now) ==>
                  && b.active && b.reason.None? && b.blockedAt.None? && b.attempts == 0 && b.lastFailed.None?
                  && b.tokens.Keys == a.tokens.Keys && b.tokens[t].used && b.tokens[t].expires == a.tokens[t].expires
                  && (forall u :: u in a.tokens && u != t ==> b.tokens[u] == a.tokens[u])
                  && b.softUntil == a.softUntil && b.warnedUntil == a.warnedUntil && b.nextToken == a.nextToken)
  {
  }

  /** A soft lock is temporary: further failures never move its end. */
  lemma SoftLockIsNotExtended(a: Account, p: Policy, now: int)
    requires LiveKey(a.softUntil, now)
    ensures var b := RecordFailedLogin(a, p, now); b.softUntil == a.softUntil || (b.softUntil.None? && !b.active)
  {
  }

  /** An unlock leaves no tier in force and nothing that could lift a later block. */
  lemma UnlockClearsEveryTier(a: Account, t: Id, now: int)
    ensures var b := UnlockUser(a);
            && Clean(b) && b.tokens.Keys == a.tokens.Keys && b.nextToken == a.nextToken
            && !UsableToken(b, t, now)
            && !UsableToken(SetUserActive(b, false, now), t, now)
            && UnlockUser(b) == b
  {
  }

  // ---------------------------------------------------------------------------------------
  // The service
  // ---------------------------------------------------------------------------------------

  class AccountBlockService {
    var a: Account

    constructor (initial: Account)
      ensures a == initial
    {
      a := initial;
    }

    /** The count first, then the most severe tier it reaches; reports whether the account ended up blocked by it. */
    method FailedLogin(p: Policy, now: int) returns (locked: bool)
      modifies this
      ensures a == RecordFailedLogin(old(a), p, now)
      ensures locked <==> old(a).active && !a.active
    {
      a := if a.lastFailed.None? || a.lastFailed.value < now - Window(p)
           then a.(attempts := 1, lastFailed := Some(now))
           else a.(attempts := a.attempts + 1, lastFailed := Some(now));
      if a.attempts >= p.hard {
        if !a.active {
          return false;
        }
        a := a.(active := false, blockedAt := Some(now), reason := Some(FailedAttempts));
        a := a.(tokens := a.tokens[a.nextToken := Token(now + UNBLOCK_TOKEN_TTL, false)], nextToken := a.nextToken + 1);
        a := a.(softUntil := None, warnedUntil := None);
        return true;
      }
      if a.attempts >= p.soft {
        if !LiveKey(a.softUntil, now) {
          a := a.(softUntil := Some(now + p.softSeconds * SECOND));
        }
        return false;
      }
      if p.notify > 0 && a.attempts >= p.notify {
        if !LiveKey(a.warnedUntil, now) {
          a := a.(warnedUntil := Some(now + Window(p)));
        }
      }
      return false;
    }

    method SuccessfulLogin()
      modifies this
      ensures a == ResetFailedLogins(old(a))
    {
      if a.attempts != 0 {
        a := a.(attempts := 0, lastFailed := None);
      }
      a := a.(softUntil := None, warnedUntil := None);
    }

    method Expire(after: int, now: int) returns (lifted: bool)
      modifies this
      ensures a == ExpireHardLock(old(a), after, now)
      ensures lifted <==> !old(a).active && a.active
    {
      if after <= 0 || a.active || a.reason != Some(FailedAttempts) || a.blockedAt.None? || a.blockedAt.value >= now - after {
        return false;
      }
      a := a.(active := true, blockedAt := None, reason := None, attempts := 0, lastFailed := None);
      a := a.(tokens := map t | t in a.tokens :: a.tokens[t].(used := true));
      a := a.(softUntil := None, warnedUntil := None);
      lifted := true;
    }

    method UseToken(t: Id, now: int) returns (ok: bool)
      modifies this
      ensures a == Unblock(old(a), t, now)
      ensures ok <==> UsableToken(old(a), t, now)
    {
      if t !in a.tokens || a.tokens[t].used || a.tokens[t].expires <= now || a.reason != Some(FailedAttempts) {
        return false;
      }
      a := a.(tokens := a.tokens[t := a.tokens[t].(used := true)]);
      a := a.(active := true, blockedAt := None, reason := None, attempts := 0, lastFailed := None);
      ok := true;
    }
  }
}
