/** The coin context: the reader's coin balance, a local mirror of the shared coin pool, and
    the recent coin toasts. Every operation is a React state updater (`prev => next`), written
    here as a pure function on `CoinState`; the `CoinLedger` class holds the current state and
    applies those updaters in place. The remote store is an oracle: `earn_coins` is a function
    parameter from the request to its reply, and the pool and profile reads are parameters. */
module Coins {
  import opened Prelude
  import opened Text
  import opened Events

  /** The pool size the ledger starts from before the first refresh. */
  const TotalCoins: int := 1_000_000

  datatype CoinState = CoinState(
    userCoins: int, globalRemaining: int, totalCoins: int, recentCoinEvents: seq<Event>)

  function InitialState(): CoinState {
    CoinState(0, TotalCoins, TotalCoins, [])
  }

  /** A guest's credit for a grant of `baseReward`: `Math.max(1, Math.min(5, baseReward))`. */
  function GuestCredit(baseReward: int): (earned: int)
    ensures 1 <= earned <= 5
    ensures 1 <= baseReward <= 5 ==> earned == baseReward
    ensures baseReward > 5 ==> earned == 5
    ensures baseReward < 1 ==> earned == 1
  {
    Max(1, Min(5, baseReward))
  }

  /** The guest updater: the balance grows by the credit, the pool mirror is not touched. */
  function GuestCreditUpdate(s: CoinState, e: Event): CoinState {
    s.(userCoins := s.userCoins + e.amount, recentCoinEvents := PushRecent(e, s.recentCoinEvents))
  }

  /** The signed-in updater: what the balance gains the pool mirror loses. */
  function PoolCreditUpdate(s: CoinState, e: Event): CoinState {
    s.(userCoins := s.userCoins + e.amount, globalRemaining := s.globalRemaining - e.amount,
       recentCoinEvents := PushRecent(e, s.recentCoinEvents))
  }

  /** `spendCoins` succeeds exactly when the balance covers the amount. */
  predicate CanSpend(s: CoinState, amount: int) {
    s.userCoins >= amount
  }

  function SpendUpdate(s: CoinState, amount: int): CoinState {
    if !CanSpend(s, amount) then s else s.(userCoins := s.userCoins - amount)
  }

  function DismissUpdate(s: CoinState, id: string): CoinState {
    s.(recentCoinEvents := Dismiss(s.recentCoinEvents, id))
  }

  /** The `refreshCoins` merge: each remote value replaces the local one when it is present. */
  function RefreshUpdate(s: CoinState, remaining: Option<int>, totalSupply: Option<int>, coins: Option<int>)
    : CoinState
  {
    s.(globalRemaining := remaining.GetOr(s.globalRemaining),
       totalCoins := totalSupply.GetOr(s.totalCoins),
       userCoins := coins.GetOr(s.userCoins))
  }

  // ---------------------------------------------------------------------------------------
  // The remote grant

  /** `postId || 'none'`, the post part of the idempotency key. */
  function PostKey(postId: Option<string>): string {
    if postId.Some? && postId.value != "" then postId.value else "none"
  }

  /** `postId || null`, the `p_post_id` argument. */
  function PostParam(postId: Option<string>): Option<string> {
    if postId.Some? && postId.value != "" then postId else None
  }

  /** `a` and `rest` joined by an underscore. */
  function Underscored(a: string, rest: string): (r: string)
    ensures |r| == |a| + 1 + |rest| && r[..|a|] == a && r[|a|] == '_' && r[|a| + 1..] == rest
  {
    a + "_" + rest
  }

  /** `${user.id}_${sourceType}_${postId || 'none'}_${Date.now()}` */
  function IdempotencyKey(userId: string, sourceType: string, postId: Option<string>, now: nat): string {
    Underscored(userId, Underscored(sourceType, Underscored(PostKey(postId), Decimal(now))))
  }

  /** The arguments of `supabase.rpc('earn_coins', …)`. */
  datatype EarnRequest = EarnRequest(
    userId: string, sourceType: string, baseReward: int, postId: Option<string>, idempotencyKey: string)

  /** The reply: an error, or the `data` field, which may be `null`. */
  datatype RpcReply = RpcError | RpcData(earned: Option<int>)

  /** The credited amount, or `None` when `error || !earned` sends the caller back with 0. */
  function Credited(reply: RpcReply): (c: Option<int>)
    ensures c.Some? <==> reply.RpcData? && reply.earned.Some? && reply.earned.value != 0
    ensures c.Some? ==> c.value == reply.earned.value
  {
    if reply.RpcError? || reply.earned.None? || reply.earned.value == 0 then None else reply.earned
  }

  /** Position of the first `c` in `s`. */
  function IndexOf(s: string, c: char): nat
    requires c in s
  {
    if s[0] == c then 0 else 1 + IndexOf(s[1..], c)
  }

  lemma {:induction false} IndexOfAfterField(a: string, r: string)
    requires '_' !in a
    ensures '_' in Underscored(a, r) && IndexOf(Underscored(a, r), '_') == |a|
  {
    var s := Underscored(a, r);
    if a != [] {
      assert s[1..] == Underscored(a[1..], r);
      IndexOfAfterField(a[1..], r);
    }
  }

  /** Splitting at the first `_` separates an underscore-free field from the rest. */
  lemma SplitAtUnderscore(a1: string, r1: string, a2: string, r2: string)
    requires '_' !in a1 && '_' !in a2
    requires Underscored(a1, r1) == Underscored(a2, r2)
    ensures a1 == a2 && r1 == r2
  {
    IndexOfAfterField(a1, r1);
    IndexOfAfterField(a2, r2);
  }

  /** Two grant requests with the same key agree on the user, the source type, the post and
      the time, as long as the ids and source types contain no `_` (user ids are UUIDs). */
  lemma IdempotencyKeyInjective(
    u1: string, t1: string, p1: Option<string>, n1: nat,
    u2: string, t2: string, p2: Option<string>, n2: nat)
    requires '_' !in u1 && '_' !in u2 && '_' !in t1 && '_' !in t2
    requires '_' !in PostKey(p1) && '_' !in PostKey(p2)
    requires IdempotencyKey(u1, t1, p1, n1) == IdempotencyKey(u2, t2, p2, n2)
    ensures u1 == u2 && t1 == t2 && PostKey(p1) == PostKey(p2) && n1 == n2
  {
    var k1, k2 := PostKey(p1), PostKey(p2);
    var d1, d2 := Decimal(n1), Decimal(n2);
    SplitAtUnderscore(u1, Underscored(t1, Underscored(k1, d1)), u2, Underscored(t2, Underscored(k2, d2)));
    SplitAtUnderscore(t1, Underscored(k1, d1), t2, Underscored(k2, d2));
    SplitAtUnderscore(k1, d1, k2, d2);
    DecimalInjective(n1, n2);
  }

  /** The same action repeated at another millisecond carries another key. */
  lemma IdempotencyKeyChangesWithTime(userId: string, sourceType: string, postId: Option<string>, n1: nat, n2: nat)
    requires n1 != n2
    ensures IdempotencyKey(userId, sourceType, postId, n1) != IdempotencyKey(userId, sourceType, postId, n2)
  {
    var k := PostKey(postId);
    var r1 := Underscored(sourceType, Underscored(k, Decimal(n1)));
    var r2 := Underscored(sourceType, Underscored(k, Decimal(n2)));
    if Underscored(userId, r1) == Underscored(userId, r2) {
      assert r1 == r2;
      assert Underscored(k, Decimal(n1)) == Underscored(k, Decimal(n2));
      assert Decimal(n1) == Decimal(n2);
      DecimalInjective(n1, n2);
    }
  }

  // ---------------------------------------------------------------------------------------
  // Properties of runs of updates

  /** Applies the signed-in updater for each credited event in turn. */
  function PoolCredits(s: CoinState, credits: seq<Event>): CoinState
    decreases credits
  {
    if credits == [] then s else PoolCredits(PoolCreditUpdate(s, credits[0]), credits[1..])
  }

  /** Signed-in grants move coins from the pool mirror to the balance and create none:
      `userCoins + globalRemaining` is unchanged, and the balance gains the sum credited. */
  lemma {:induction false} PoolCreditsConserve(s: CoinState, credits: seq<Event>)
    ensures var t := PoolCredits(s, credits);
      && t.userCoins + t.globalRemaining == s.userCoins + s.globalRemaining
      && t.userCoins == s.userCoins + TotalAmount(credits)
      && t.totalCoins == s.totalCoins
      && (credits != [] ==> |t.recentCoinEvents| <= MaxRecent)
    decreases credits
  {
    if credits != [] {
      PoolCreditsConserve(PoolCreditUpdate(s, credits[0]), credits[1..]);
    }
  }

  /** Applies the guest updater for each grant's base reward in turn. */
  function GuestCredits(s: CoinState, grants: seq<int>): CoinState
    decreases grants
  {
    if grants == [] then s
    else GuestCredits(GuestCreditUpdate(s, Event("", GuestCredit(grants[0]), "", 0)), grants[1..])
  }

  /** A guest's run of `n` grants adds between `n` and `5n` coins, whatever the base rewards
      asked for, and never touches the pool mirror. */
  lemma {:induction false} GuestCreditsBounded(s: CoinState, grants: seq<int>)
    ensures var t := GuestCredits(s, grants);
      && s.userCoins + |grants| <= t.userCoins <= s.userCoins + 5 * |grants|
      && t.globalRemaining == s.globalRemaining && t.totalCoins == s.totalCoins
    decreases grants
  {
    if grants != [] {
      GuestCreditsBounded(GuestCreditUpdate(s, Event("", GuestCredit(grants[0]), "", 0)), grants[1..]);
    }
  }

  /** A spend never overdraws: a non-negative balance stays non-negative, whether the spend is
      refused or not, and a granted spend removes exactly the amount. */
  lemma SpendNeverOverdraws(s: CoinState, amount: int)
    requires s.userCoins >= 0
    ensures SpendUpdate(s, amount).userCoins >= 0
    ensures CanSpend(s, amount) ==> SpendUpdate(s, amount).userCoins == s.userCoins - amount
    ensures !CanSpend(s, amount) ==> SpendUpdate(s, amount) == s
  {
  }

  /** The merge keeps every local value the remote side does not supply: with nothing
      supplied it is the identity, and supplying a value twice is supplying it once. */
  lemma RefreshMerge(s: CoinState, remaining: Option<int>, totalSupply: Option<int>, coins: Option<int>)
    ensures RefreshUpdate(s, None, None, None) == s
    ensures var t := RefreshUpdate(s, remaining, totalSupply, coins);
      RefreshUpdate(t, remaining, totalSupply, coins) == t
    ensures var t := RefreshUpdate(s, remaining, totalSupply, coins);
      t.recentCoinEvents == s.recentCoinEvents
      && (remaining.Some? ==> t.globalRemaining == remaining.value)
      && (remaining.None? ==> t.globalRemaining == s.globalRemaining)
      && (totalSupply.Some? ==> t.totalCoins == totalSupply.value)
      && (totalSupply.None? ==> t.totalCoins == s.totalCoins)
      && (coins.Some? ==> t.userCoins == coins.value)
      && (coins.None? ==> t.userCoins == s.userCoins)
  {
  }

  // ---------------------------------------------------------------------------------------
  // The provider

  class CoinLedger {
    var userCoins: int
    var globalRemaining: int
    var totalCoins: int
    var recentCoinEvents: seq<Event>

    function State(): CoinState
      reads this
    {
      CoinState(userCoins, globalRemaining, totalCoins, recentCoinEvents)
    }

    constructor ()
      ensures State() == InitialState()
    {
      userCoins, globalRemaining, totalCoins, recentCoinEvents := 0, TotalCoins, TotalCoins, [];
    }

    /** `setState(next)` */
    method SetState(next: CoinState)
      modifies this
      ensures State() == next
    {
      userCoins, globalRemaining := next.userCoins, next.globalRemaining;
      totalCoins, recentCoinEvents := next.totalCoins, next.recentCoinEvents;
    }

    /** `earnCoins(baseReward, sourceType, reason, postId)`. `user` is the signed-in user id
        (`None` for a guest), `rpc` answers the `earn_coins` call, `keyTime` and `eventTime`
        are the two `Date.now()` readings and `eventId` the toast's `randomUUID()`. */
    method EarnCoins(
      user: Option<string>, baseReward: int, sourceType: string, reason: string,
      postId: Option<string>, rpc: EarnRequest -> RpcReply,
      keyTime: nat, eventId: string, eventTime: int)
      returns (earned: int)
      modifies this
      ensures user.None? ==>
        && earned == GuestCredit(baseReward)
        && State() == GuestCreditUpdate(old(State()), Event(eventId, earned, reason, eventTime))
      ensures user.Some? ==>
        var request := EarnRequest(user.value, sourceType, baseReward, PostParam(postId),
                                   IdempotencyKey(user.value, sourceType, postId, keyTime));
        var credited := Credited(rpc(request));
        && (credited.None? ==> earned == 0 && State() == old(State()))
        && (credited.Some? ==>
              && earned == credited.value
              && State() == PoolCreditUpdate(old(State()), Event(eventId, earned, reason, eventTime)))
    {
      if user.None? {
        earned := GuestCredit(baseReward);
        SetState(GuestCreditUpdate(State(), Event(eventId, earned, reason, eventTime)));
        return;
      }
      var key := IdempotencyKey(user.value, sourceType, postId, keyTime);
      var reply := rpc(EarnRequest(user.value, sourceType, baseReward, PostParam(postId), key));
      var credited := Credited(reply);
      if credited.None? {
        return 0;
      }
      earned := credited.value;
      SetState(PoolCreditUpdate(State(), Event(eventId, earned, reason, eventTime)));
    }

    /** `spendCoins(amount, reason)`, with the updater applied before `success` is read. */
    method SpendCoins(amount: int) returns (success: bool)
      modifies this
      ensures success == CanSpend(old(State()), amount)
      ensures State() == SpendUpdate(old(State()), amount)
    {
      success := CanSpend(State(), amount);
      SetState(SpendUpdate(State(), amount));
    }

    method DismissCoinEvent(id: string)
      modifies this
      ensures State() == DismissUpdate(old(State()), id)
    {
      SetState(DismissUpdate(State(), id));
    }

    /** `refreshCoins()`: `remaining` and `totalSupply` are the `coin_pool` row's fields and
        `profileCoins` the `profiles.coins` read, each `None` when the read gave nothing; the
        profile is only read for a signed-in user. */
    method RefreshCoins(
      user: Option<string>, remaining: Option<int>, totalSupply: Option<int>, profileCoins: Option<int>)
      modifies this
      ensures State() == RefreshUpdate(old(State()), remaining, totalSupply,
                                       if user.Some? then profileCoins else None)
    {
      var coins := if user.Some? then profileCoins else None;
      SetState(RefreshUpdate(State(), remaining, totalSupply, coins));
    }

    /** The profile effect: a loaded profile's coin count replaces the balance. */
    method SyncProfileCoins(profileCoins: Option<int>)
      modifies this
      ensures State() == RefreshUpdate(old(State()), None, None, profileCoins)
    {
      if profileCoins.Some? {
        SetState(State().(userCoins := profileCoins.value));
      }
    }
  }
}
