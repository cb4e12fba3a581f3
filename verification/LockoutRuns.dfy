/** Whole runs of one account under a fixed valid policy, each public method one step. */
module LockoutRuns {
  import opened Prelude
  import opened Lockout

  datatype Action =
    | Tick(micros: nat)
    | Fail
    | Succeed
    | Expire(after: int)
    | AdminBlock
    | AdminActivate
    | Unlock
    | UseToken(t: Id)

  /** One failure as it was counted and judged, and the soft lock's end as it left it. */
  datatype Entry = Entry(at: int, count: nat, tier: Tier, softUntil: Option<int>)

  /** `since` and `log` are histories: the instants of the failures since the last reset, and what each came to. */
  datatype State = State(now: int, a: Account, since: seq<int>, log: seq<Entry>)

  function Stepped(p: Policy, s: State, act: Action): Account {
    match act
    case Tick(_) => s.a
    case Fail => RecordFailedLogin(s.a, p, s.now)
    case Succeed => ResetFailedLogins(s.a)
    case Expire(after) => ExpireHardLock(s.a, after, s.now)
    case AdminBlock => SetUserActive(s.a, false, s.now)
    case AdminActivate => SetUserActive(s.a, true, s.now)
    case Unlock => UnlockUser(s.a)
    case UseToken(t) => Unblock(s.a, t, s.now)
  }

  /** A step that starts the count afresh. */
  predicate Resets(s: State, act: Action) {
    match act
    case Succeed => true
    case AdminActivate => true
    case Unlock => true
    case Expire(after) => ExpireHardLock(s.a, after, s.now) != s.a
    case UseToken(t) => UsableToken(s.a, t, s.now)
    case _ => false
  }

  function Next(p: Policy, s: State, act: Action): State {
    var b := Stepped(p, s, act);
    State(if act.Tick? then s.now + act.micros else s.now, b,
          if Resets(s, act) then [] else if act.Fail? then s.since + [s.now] else s.since,
          if Resets(s, act) then []
          else if act.Fail? then s.log + [Entry(s.now, b.attempts, TierOf(p, b.attempts), b.softUntil)]
          else s.log)
  }

  // ---------------------------------------------------------------------------------------
  // The invariant
  // ---------------------------------------------------------------------------------------

  function Gap(since: seq<int>, i: int): int
    requires 0 < i < |since|
  {
    since[i] - since[i - 1]
  }

  /** The entry that counted `c` in a run of `k` counted last. */
  function Counted(log: seq<Entry>, k: nat, c: nat): Entry
    requires 1 <= c <= k <= |log|
  {
    log[|log| - k + c - 1]
  }

  /** `k` is the length of the longest run of latest failures with every gap within the window. */
  ghost predicate LatestRun(since: seq<int>, window: int, k: nat) {
    && k <= |since| && (since != [] ==> k > 0)
    && (forall i :: |since| - k < i < |since| ==> Gap(since, i) <= window)
    && (0 < k < |since| ==> Gap(since, |since| - k) > window)
  }

  ghost predicate CounterOk(p: Policy, s: State) {
    && LatestRun(s.since, Window(p), s.a.attempts)
    && s.a.lastFailed == (if s.since == [] then None else Some(s.since[|s.since| - 1]))
    && (forall i :: 0 <= i < |s.since| ==> s.since[i] <= s.now)
  }

  /** Active accounts are below the hard threshold; blocked ones say why and since when. */
  ghost predicate StatusOk(p: Policy, s: State) {
    && (s.a.active ==> s.a.attempts < p.hard && s.a.reason.None? && s.a.blockedAt.None?)
    && (!s.a.active ==> s.a.reason.Some? && s.a.blockedAt.Some?)
  }

  /** Judged by its count, and a soft lock in force wherever that is in the soft tier. */
  predicate Judged(p: Policy, e: Entry) {
    && (e.tier.HardLock? <==> e.count >= p.hard)
    && (e.tier.SoftLock? <==> p.soft <= e.count < p.hard)
    && (e.tier.SoftLock? ==> LiveKey(e.softUntil, e.at) && e.softUntil.value <= e.at + p.softSeconds * SECOND)
  }

  /** The current run was counted one by one from 1. */
  ghost predicate LogOk(p: Policy, s: State) {
    && |s.log| == |s.since| && s.a.attempts <= |s.log|
    && (forall i :: 0 <= i < |s.log| ==> s.log[i].at == s.since[i] && Judged(p, s.log[i]))
    && forall c :: 1 <= c <= s.a.attempts ==> Counted(s.log, s.a.attempts, c).count == c
  }

  /** A soft lock never ends later than one started now would. */
  predicate SoftOk(p: Policy, s: State) {
    s.a.softUntil.Some? ==> s.a.softUntil.value <= s.now + p.softSeconds * SECOND
  }

  ghost predicate Inv(p: Policy, s: State) { CounterOk(p, s) && StatusOk(p, s) && LogOk(p, s) && SoftOk(p, s) }

  /** One more failure lengthens the run when it is within the window of the last one, and starts a new run otherwise. */
  lemma LatestRunGrows(since: seq<int>, window: int, k: nat, now: int)
    requires LatestRun(since, window, k)
    ensures var near := since != [] && now - since[|since| - 1] <= window;
            LatestRun(since + [now], window, if near then k + 1 else 1)
  {
    var next := since + [now];
    assert forall i :: 0 < i < |since| ==> Gap(next, i) == Gap(since, i);
    if since != [] {
      assert Gap(next, |since|) == now - since[|since| - 1];
    }
  }

  lemma FailCounts(p: Policy, a: Account, now: int)
    ensures var b := RecordFailedLogin(a, p, now);
            && b.lastFailed == Some(now)
            && b.attempts == if a.lastFailed.None? || a.lastFailed.value < now - Window(p) then 1 else a.attempts + 1
  {
  }

  lemma FailKeepsCounter(p: Policy, s: State)
    requires CounterOk(p, s)
    ensures CounterOk(p, Next(p, s, Fail))
  {
    FailCounts(p, s.a, s.now);
    hide RecordFailedLogin, LatestRun;
    LatestRunGrows(s.since, Window(p), s.a.attempts, s.now);
  }

  lemma FailKeepsLog(p: Policy, s: State)
    requires ValidPolicy(p) && CounterOk(p, s) && LogOk(p, s) && SoftOk(p, s)
    ensures LogOk(p, Next(p, s, Fail))
  {
    var b := RecordFailedLogin(s.a, p, s.now);
    var e := Entry(s.now, b.attempts, TierOf(p, b.attempts), b.softUntil);
    FailureIsJudged(s.a, p, s.now);
    assert Judged(p, e);
    hide RecordFailedLogin, ValidatePolicy, Judged, CounterOk;
    assert Next(p, s, Fail).log == s.log + [e];
    forall c | 1 <= c < b.attempts
      ensures Counted(s.log + [e], b.attempts, c) == Counted(s.log, s.a.attempts, c)
    {
    }
  }

  lemma SoftStep(p: Policy, s: State, act: Action)
    requires ValidPolicy(p) && SoftOk(p, s)
    ensures SoftOk(p, Next(p, s, act))
  {
  }

  lemma StatusStep(p: Policy, s: State, act: Action)
    requires ValidPolicy(p) && StatusOk(p, s)
    ensures StatusOk(p, Next(p, s, act))
  {
  }

  lemma StepKeepsInv(p: Policy, s: State, act: Action)
    requires ValidPolicy(p) && Inv(p, s)
    ensures Inv(p, Next(p, s, act))
  {
    StatusStep(p, s, act);
    SoftStep(p, s, act);
    hide StatusOk, SoftOk, RecordFailedLogin, Judged;
    if act.Fail? {
      FailKeepsCounter(p, s);
      FailKeepsLog(p, s);
      hide CounterOk, LogOk;
    }
  }

  // ---------------------------------------------------------------------------------------
  // Whole runs
  // ---------------------------------------------------------------------------------------

  function After(p: Policy, s: State, acts: seq<Action>): State
    decreases |acts|
  {
    if acts == [] then s else After(p, Next(p, s, acts[0]), acts[1..])
  }

  function Opened(now: int): State {
    State(now, Account(true, 0, None, None, None, None, None, map[], 0), [], [])
  }

  lemma {:induction false} RunKeepsInv(p: Policy, s: State, acts: seq<Action>)
    requires ValidPolicy(p) && Inv(p, s)
    ensures Inv(p, After(p, s, acts))
    decreases |acts|
  {
    hide Inv, Next, ValidPolicy;
    if acts != [] {
      StepKeepsInv(p, s, acts[0]);
      RunKeepsInv(p, Next(p, s, acts[0]), acts[1..]);
    }
  }

  /**
   Over every run the counter is the length of the longest run of latest failures since the last
   reset whose gaps are all within the window, an active account is below the hard threshold, and
   every failure counted into the soft tier left a soft lock in force, of no more than its duration.
   */
  lemma EveryRun(p: Policy, now: int, acts: seq<Action>)
    requires ValidPolicy(p)
    ensures var s := After(p, Opened(now), acts);
            && LatestRun(s.since, Window(p), s.a.attempts) && (s.a.active ==> s.a.attempts < p.hard)
            && |s.log| == |s.since|
            && forall i :: 0 <= i < |s.log| ==> s.log[i].at == s.since[i] && Judged(p, s.log[i])
  {
    RunKeepsInv(p, Opened(now), acts);
  }

  /**
   A failure that blocks the account is the one that reaches the hard threshold exactly, and the
   failures just before it, with no reset between, were counted 1, 2, and so on, each judged by its
   own count: from the soft threshold on every one of them left the account soft-locked.
   */
  lemma HardLockComesLast(p: Policy, now: int, acts: seq<Action>)
    requires ValidPolicy(p)
    requires var s := After(p, Opened(now), acts); s.a.active && !Next(p, s, Fail).a.active
    ensures var t := Next(p, After(p, Opened(now), acts), Fail);
            && t.a.attempts == p.hard && t.a.reason == Some(FailedAttempts) && p.hard <= |t.log|
            && (forall c :: 1 <= c <= p.hard ==> Counted(t.log, p.hard, c).count == c && Judged(p, Counted(t.log, p.hard, c)))
            && (forall c :: p.soft <= c < p.hard ==>
                  var e := Counted(t.log, p.hard, c); e.tier == SoftLock && LiveKey(e.softUntil, e.at))
  {
    var s := After(p, Opened(now), acts);
    RunKeepsInv(p, Opened(now), acts);
    StepKeepsInv(p, s, Fail);
    FailCounts(p, s.a, s.now);
    BlockedAtHard(p, s.a, s.now);
    hide RecordFailedLogin, After, LatestRun;
  }

  lemma BlockedAtHard(p: Policy, a: Account, now: int)
    requires ValidPolicy(p) && a.active && a.attempts < p.hard && !RecordFailedLogin(a, p, now).active
    ensures RecordFailedLogin(a, p, now).attempts == p.hard && RecordFailedLogin(a, p, now).reason == Some(FailedAttempts)
  {
  }

  predicate AdminBlocked(a: Account) { !a.active && a.reason == Some(ByAdmin) }

  /** An operator's block is lifted by an operator: no clock, no link and no further failure touches it. */
  lemma {:induction false} AdminBlockStands(p: Policy, s: State, acts: seq<Action>)
    requires AdminBlocked(s.a)
    requires forall k :: 0 <= k < |acts| ==> !acts[k].AdminActivate? && !acts[k].Unlock?
    ensures AdminBlocked(After(p, s, acts).a)
    decreases |acts|
  {
    if acts != [] {
      assert AdminBlocked(Next(p, s, acts[0]).a);
      AdminBlockStands(p, Next(p, s, acts[0]), acts[1..]);
    }
  }

  /** A soft lock starts, or starts again, only at a failure in its tier that finds none in force. */
  lemma SoftLockStartsOnly(p: Policy, s: State, act: Action)
    requires ValidPolicy(p)
    ensures var t := Next(p, s, act);
            t.a.softUntil.Some? && t.a.softUntil != s.a.softUntil ==>
              && act.Fail? && p.soft <= t.a.attempts < p.hard && !LiveKey(s.a.softUntil, s.now)
              && t.a.softUntil == Some(s.now + p.softSeconds * SECOND)
  {
  }

  // ---------------------------------------------------------------------------------------
  // Links
  // ---------------------------------------------------------------------------------------

  /** The link a block mails out lifts it for the next hour. */
  lemma MailedLinkLifts(p: Policy, s: State, wait: nat)
    requires s.a.active && !Next(p, s, Fail).a.active && wait < 3600 * SECOND
    ensures var t := After(p, s, [Fail, Tick(wait), UseToken(s.a.nextToken)]);
            t.a.active && t.a.attempts == 0 && t.a.reason.None?
  {
    var acts := [Fail, Tick(wait), UseToken(s.a.nextToken)];
    assert acts[1..][1..] == [acts[2]] && [acts[2]][1..] == [];
    FailureBlocks(s.a, p, s.now);
    var locked := Next(p, s, Fail);
    var later := Next(p, locked, Tick(wait));
    LinkRestores(later.a, s.a.nextToken, later.now);
    hide RecordFailedLogin, Unblock;
    hide Next;
    assert After(p, later, [acts[2]]) == After(p, Next(p, later, acts[2]), []);
    assert After(p, locked, acts[1..]) == After(p, later, [acts[2]]);
    assert After(p, s, acts) == After(p, locked, acts[1..]);
  }

  predicate Spent(a: Account, t: Id) { t < a.nextToken && t in a.tokens && a.tokens[t].used }

  lemma SpentStep(p: Policy, s: State, act: Action, t: Id)
    requires Spent(s.a, t)
    ensures Spent(Next(p, s, act).a, t)
  {
  }

  /** A spent link stays spent whatever happens: no later block makes it work again. */
  lemma {:induction false} SpentForGood(p: Policy, s: State, acts: seq<Action>, t: Id)
    requires Spent(s.a, t)
    ensures Spent(After(p, s, acts).a, t) && forall at :: !UsableToken(After(p, s, acts).a, t, at)
    decreases |acts|
  {
    hide Next;
    if acts != [] {
      SpentStep(p, s, acts[0], t);
      SpentForGood(p, Next(p, s, acts[0]), acts[1..], t);
    }
  }

  lemma {:induction false} TokensAreNumbered(p: Policy, s: State, acts: seq<Action>)
    requires forall t :: t in s.a.tokens ==> t < s.a.nextToken
    ensures forall t :: t in After(p, s, acts).a.tokens ==> t < After(p, s, acts).a.nextToken
    decreases |acts|
  {
    if acts != [] {
      var b := Next(p, s, acts[0]).a;
      assert forall t :: t in b.tokens ==> t < b.nextToken;
      hide Next;
      TokensAreNumbered(p, Next(p, s, acts[0]), acts[1..]);
    }
  }

  /** So every link works at most once. */
  lemma LinkWorksOnce(p: Policy, now: int, acts: seq<Action>, t: Id, rest: seq<Action>, at: int)
    requires var s := After(p, Opened(now), acts); UsableToken(s.a, t, s.now)
    ensures var s := After(p, Opened(now), acts);
            !UsableToken(After(p, Next(p, s, UseToken(t)), rest).a, t, at)
  {
    var s := After(p, Opened(now), acts);
    TokensAreNumbered(p, Opened(now), acts);
    LinkRestores(s.a, t, s.now);
    SpentForGood(p, Next(p, s, UseToken(t)), rest, t);
  }

  /** An automatic lock is lifted only once its duration has passed, by an unused unexpired link, or by an operator. */
  lemma LockLiftsOnlyByRight(p: Policy, s: State, act: Action)
    requires !s.a.active && s.a.reason == Some(FailedAttempts) && s.a.blockedAt.Some? && Next(p, s, act).a.active
    ensures act.AdminActivate? || act.Unlock?
            || (act.Expire? && act.after > 0 && s.a.blockedAt.value + act.after < s.now)
            || (act.UseToken? && UsableToken(s.a, act.t, s.now))
  {
  }
}
