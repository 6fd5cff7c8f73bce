/**
 * The daily admission controller (`RateLimitManager`). A non-premium user
 * may act while the number of actions counted on the current calendar day
 * is below the configured limit; premium users bypass the counter. The
 * decision and the counter fields it writes are functions of the user
 * record; the manager applies them to the store.
 */
module RateLimit {
  import opened Documents
  import opened Subscription
  import opened Store
  import opened Messages

  const ACTIONS_TODAY: string := "actions_today"
  const LAST_ACTION_DATE: string := "last_action_date"

  /** The stored counter; absent (or not a number) reads as 0. */
  function ActionsToday(user: Document): int
  {
    if ACTIONS_TODAY in user && user[ACTIONS_TODAY].Int? then user[ACTIONS_TODAY].n else 0
  }

  /** The instant of the last counted action, if one is recorded. */
  function LastAction(user: Document): Option<Instant>
  {
    if LAST_ACTION_DATE in user && user[LAST_ACTION_DATE].Time? then Some(user[LAST_ACTION_DATE].t) else None
  }

  /** Days are compared by calendar date only, never as rolling 24-hour windows. */
  predicate SameDay(a: Instant, b: Instant)
  {
    a.day == b.day
  }

  /** The last action was on an earlier (or any other) calendar day than `now`. */
  predicate IsStale(user: Document, now: Instant)
  {
    LastAction(user).Some? && !SameDay(LastAction(user).value, now)
  }

  /** The count the limit is compared with: the stored one on the same day, otherwise 0. */
  function EffectiveCount(user: Document, now: Instant): (count: int)
    ensures IsStale(user, now) || LastAction(user).None? ==> count == 0
    ensures count != 0 ==> LastAction(user).Some? && SameDay(LastAction(user).value, now) && count == ActionsToday(user)
  {
    if LastAction(user).Some? && SameDay(LastAction(user).value, now) then ActionsToday(user) else 0
  }

  /** The counter fields written by a reset or an increment. */
  function CounterFields(count: int, at: Instant): (fields: Document)
    ensures fields.Keys == {ACTIONS_TODAY, LAST_ACTION_DATE}
    ensures ActionsToday(fields) == count && LastAction(fields) == Some(at)
  {
    map[ACTIONS_TODAY := Int(count), LAST_ACTION_DATE := Time(at)]
  }

  /** What `check_limit` decides, the reset it writes, and the user data it hands on. */
  datatype LimitCheck = LimitCheck(permitted: bool, reset: Option<Document>, user: Document)

  /**
   * `check_limit`: permits iff the effective count is below the limit; on a
   * stale record it writes `actions_today = 0`, `last_action_date = now`
   * (whatever the decision) and hands on the reset record.
   */
  function Limit(user: Document, now: Instant, limit: int): (r: LimitCheck)
    ensures r.permitted <==> EffectiveCount(user, now) < limit
    ensures r.reset.Some? <==> IsStale(user, now)
    ensures r.reset.Some? ==> r.reset.value == CounterFields(0, now) && r.user == SetFields(user, r.reset.value)
    ensures r.reset.None? ==> r.user == user
    ensures !IsStale(r.user, now)
    ensures EffectiveCount(r.user, now) == EffectiveCount(user, now)
  {
    var permitted := EffectiveCount(user, now) < limit;
    if IsStale(user, now) then
      var reset := CounterFields(0, now);
      LimitCheck(permitted, Some(reset), SetFields(user, reset))
    else
      LimitCheck(permitted, None, user)
  }

  /** `increment_action_count`: the fields it writes for the given user data. */
  function IncrementFields(user: Document, now: Instant): (fields: Document)
    ensures ActionsToday(fields) == ActionsToday(user) + 1
    ensures LastAction(fields) == Some(now)
  {
    CounterFields(ActionsToday(user) + 1, now)
  }

  /** The count `check_and_increment` builds on: 0 after a stale reset, the stored one otherwise. */
  function StartCount(user: Document, now: Instant): int
  {
    if IsStale(user, now) then 0 else ActionsToday(user)
  }

  /** The record after applying a sequence of `$set` writes in order. */
  function ApplyAll(user: Document, writes: seq<Document>): Document
    decreases |writes|
  {
    if writes == [] then user else ApplyAll(SetFields(user, writes[0]), writes[1..])
  }

  /** What `check_and_increment` does for a non-premium user: the decision, the writes, the final record. */
  datatype Admission = Admission(permitted: bool, writes: seq<Document>, user: Document)

  /**
   * `check_and_increment` for a non-premium user: `check_limit`, then on a
   * permit one increment write built on the record `check_limit` handed on.
   * On a denial the only write is a stale reset.
   */
  function Admit(user: Document, now: Instant, limit: int): (r: Admission)
    ensures r.permitted <==> EffectiveCount(user, now) < limit
    ensures r.user == ApplyAll(user, r.writes)
    ensures r.permitted ==> ActionsToday(r.user) == StartCount(user, now) + 1 && LastAction(r.user) == Some(now)
    ensures r.permitted ==> r.writes[|r.writes| - 1] == CounterFields(StartCount(user, now) + 1, now)
    ensures !r.permitted ==> r.writes == (if IsStale(user, now) then [CounterFields(0, now)] else [])
  {
    var c := Limit(user, now, limit);
    var resets := if c.reset.Some? then [c.reset.value] else [];
    if c.permitted then
      var inc := IncrementFields(c.user, now);
      assert ApplyAll(c.user, [inc]) == SetFields(c.user, inc);
      Admission(true, resets + [inc], SetFields(c.user, inc))
    else
      Admission(false, resets, c.user)
  }

  /** First action ever (no date recorded, count 0): permitted under any positive limit, no write. */
  lemma FirstActionWritesNothing(user: Document, now: Instant, limit: int)
    requires LastAction(user).None? && ActionsToday(user) == 0 && limit > 0
    ensures Limit(user, now, limit).permitted && Limit(user, now, limit).reset.None?
  {
  }

  /**
   * Same day, below the limit: `check_limit` permits and writes nothing;
   * `check_and_increment` permits and writes exactly `old + 1` and `now`.
   */
  lemma SameDayBelowLimit(user: Document, now: Instant, limit: int)
    requires LastAction(user).Some? && SameDay(LastAction(user).value, now)
    requires ActionsToday(user) < limit
    ensures Limit(user, now, limit).permitted && Limit(user, now, limit).reset.None?
    ensures Admit(user, now, limit).permitted
    ensures Admit(user, now, limit).writes == [CounterFields(ActionsToday(user) + 1, now)]
  {
  }

  /** Same day, at or over the limit: both checks deny, and nothing is written. */
  lemma SameDayAtLimit(user: Document, now: Instant, limit: int)
    requires LastAction(user).Some? && SameDay(LastAction(user).value, now)
    requires ActionsToday(user) >= limit
    ensures !Limit(user, now, limit).permitted && Limit(user, now, limit).reset.None?
    ensures !Admit(user, now, limit).permitted && Admit(user, now, limit).writes == []
  {
  }

  /**
   * Last action on another calendar day: permitted whatever the stored count,
   * and `check_limit` writes `actions_today = 0`, `last_action_date = now`.
   */
  lemma NewDayResets(user: Document, now: Instant, limit: int)
    requires IsStale(user, now) && limit > 0
    ensures Limit(user, now, limit).permitted
    ensures Limit(user, now, limit).reset == Some(CounterFields(0, now))
    ensures Admit(user, now, limit).writes == [CounterFields(0, now), CounterFields(1, now)]
  {
  }

  /**
   * The record holds `k` actions counted on calendar day `day`: either a
   * same-day count of `k`, or `k` is 0 and the record is from another day or
   * has never been counted.
   */
  predicate CountOn(user: Document, day: int, k: int)
  {
    match LastAction(user)
    case Some(t) => if t.day == day then ActionsToday(user) == k else k == 0
    case None => ActionsToday(user) == 0 && k == 0
  }

  /** The decisions of successive `check_and_increment` calls at `times` for a non-premium user. */
  function Decisions(user: Document, times: seq<Instant>, limit: int): (r: seq<bool>)
    ensures |r| == |times|
    ensures times != [] ==> r[0] == Admit(user, times[0], limit).permitted
    decreases |times|
  {
    if times == [] then []
    else
      var a := Admit(user, times[0], limit);
      [a.permitted] + Decisions(a.user, times[1..], limit)
  }

  /** One admission on day `day` moves the count from `k` to `k + 1` when it permits, and keeps it otherwise. */
  lemma AdmitStep(user: Document, now: Instant, limit: int, k: int)
    requires CountOn(user, now.day, k)
    ensures Admit(user, now, limit).permitted <==> k < limit
    ensures CountOn(Admit(user, now, limit).user, now.day, if k < limit then k + 1 else k)
  {
    var c := Limit(user, now, limit);
    assert EffectiveCount(user, now) == k;
    assert ActionsToday(c.user) == StartCount(user, now);
  }

  /**
   * Within one calendar day, a user who has `k` actions counted is admitted
   * exactly on the calls that find fewer than `limit` actions counted.
   */
  lemma {:induction false} DailyQuotaFrom(user: Document, times: seq<Instant>, limit: int, day: int, k: int)
    requires forall i :: 0 <= i < |times| ==> times[i].day == day
    requires CountOn(user, day, k)
    ensures forall i :: 0 <= i < |times| ==> Decisions(user, times, limit)[i] == (k + i < limit)
    decreases |times|
  {
    if times != [] {
      var a := Admit(user, times[0], limit);
      AdmitStep(user, times[0], limit, k);
      var k' := if k < limit then k + 1 else k;
      DailyQuotaFrom(a.user, times[1..], limit, day, k');
      forall i | 0 <= i < |times|
        ensures Decisions(user, times, limit)[i] == (k + i < limit)
      {
        if i > 0 {
          assert Decisions(user, times, limit)[i] == Decisions(a.user, times[1..], limit)[i - 1];
        }
      }
    }
  }

  /**
   * With `rate_limit = N`, a non-premium user with nothing counted today is
   * admitted on exactly the first `N` calls of the day and denied on every
   * later one.
   */
  lemma DailyQuota(user: Document, times: seq<Instant>, limit: int, day: int)
    requires forall i :: 0 <= i < |times| ==> times[i].day == day
    requires CountOn(user, day, 0)
    ensures forall i :: 0 <= i < |times| ==> Decisions(user, times, limit)[i] == (i < limit)
  {
    DailyQuotaFrom(user, times, limit, day, 0);
  }

  /**
   * A record with a stored count but no last action date counts 0 for today,
   * so its first call of the day is admitted; that admission writes the
   * stored count plus one, and later calls that day are admitted only while
   * the stored count plus the calls made so far is below the limit.
   */
  lemma {:induction false} UndatedCountResumes(user: Document, times: seq<Instant>, limit: int, day: int)
    requires forall i :: 0 <= i < |times| ==> times[i].day == day
    requires LastAction(user).None? && limit > 0
    ensures forall i :: 0 <= i < |times| ==>
              Decisions(user, times, limit)[i] == (i == 0 || ActionsToday(user) + i < limit)
  {
    if times != [] {
      var a := Admit(user, times[0], limit);
      var k := ActionsToday(user) + 1;
      assert Limit(user, times[0], limit).user == user;
      assert CountOn(a.user, day, k);
      DailyQuotaFrom(a.user, times[1..], limit, day, k);
      forall i | 0 <= i < |times|
        ensures Decisions(user, times, limit)[i] == (i == 0 || ActionsToday(user) + i < limit)
      {
        if i > 0 {
          assert Decisions(user, times, limit)[i] == Decisions(a.user, times[1..], limit)[i - 1];
        }
      }
    }
  }

  /** One `UpdateUser` call per write, on an existing record. */
  function WriteCalls(uid: int, writes: seq<Document>): (calls: seq<StoreOp>)
    ensures |calls| == |writes|
    ensures forall i :: 0 <= i < |writes| ==> calls[i] == UpdateUser(uid, writes[i], true)
  {
    if writes == [] then [] else [UpdateUser(uid, writes[0], true)] + WriteCalls(uid, writes[1..])
  }

  /** The calls for two batches of writes are the calls for each batch in turn. */
  lemma WriteCallsAppend(uid: int, first: seq<Document>, second: seq<Document>)
    ensures WriteCalls(uid, first + second) == WriteCalls(uid, first) + WriteCalls(uid, second)
  {
    var lhs, rhs := WriteCalls(uid, first + second), WriteCalls(uid, first) + WriteCalls(uid, second);
    assert |lhs| == |rhs|;
    forall i | 0 <= i < |lhs| ensures lhs[i] == rhs[i] {
      if i < |first| {
        assert (first + second)[i] == first[i];
      } else {
        assert (first + second)[i] == second[i - |first|];
      }
    }
  }

  /** Regrouping a log built from three pieces. */
  lemma LogsAppend(a: seq<StoreOp>, b: seq<StoreOp>, c: seq<StoreOp>)
    ensures a + b + c == a + (b + c)
  {
  }

  /** What a `check_and_increment` call does to the store: its answer, the new users collection, the calls made. */
  datatype Outcome = Outcome(permitted: bool, users: map<int, Document>, calls: seq<StoreOp>)

  /**
   * `check_and_increment` against the whole store: a premium user is admitted
   * after the subscription lookup alone; anyone else goes through
   * `get_user_data` and `Admit`.
   */
  function CheckAndIncrementOutcome(users: map<int, Document>, schema: Document, subs: Ledger,
                                    uid: int, now: Instant, limit: int): (r: Outcome)
    ensures IsActive(SubscriptionOf(subs, uid), now) ==>
              r == Outcome(true, users, [FindSubscription(uid)])
    ensures !IsActive(SubscriptionOf(subs, uid), now) ==>
              r.permitted == (EffectiveCount(UserView(users, schema, uid), now) < limit)
  {
    if IsActive(SubscriptionOf(subs, uid), now) then Outcome(true, users, [FindSubscription(uid)])
    else
      var a := Admit(UserView(users, schema, uid), now, limit);
      Outcome(a.permitted, users[uid := a.user],
              [FindSubscription(uid)] + ReadCalls(users, schema, uid) + WriteCalls(uid, a.writes))
  }

  /**
   * For a non-premium user, `check_and_increment` is `check_limit` followed,
   * on a permit, by one increment write on the record it handed on.
   */
  lemma OutcomeByStages(users: map<int, Document>, schema: Document, subs: Ledger, uid: int, now: Instant, limit: int)
    requires !IsActive(SubscriptionOf(subs, uid), now)
    ensures var c := Limit(UserView(users, schema, uid), now, limit);
            var resets := if c.reset.Some? then [c.reset.value] else [];
            var inc := IncrementFields(c.user, now);
            var r := CheckAndIncrementOutcome(users, schema, subs, uid, now, limit);
            && r.permitted == c.permitted
            && r.users == users[uid := if c.permitted then SetFields(c.user, inc) else c.user]
            && r.calls == [FindSubscription(uid)] + (ReadCalls(users, schema, uid) + WriteCalls(uid, resets)
                                                     + (if c.permitted then [UpdateUser(uid, inc, true)] else []))
  {
    var c := Limit(UserView(users, schema, uid), now, limit);
    var resets := if c.reset.Some? then [c.reset.value] else [];
    var inc := IncrementFields(c.user, now);
    var head := [FindSubscription(uid)] + ReadCalls(users, schema, uid);
    WriteCallsAppend(uid, resets, [inc]);
    LogsAppend(head, WriteCalls(uid, resets), [UpdateUser(uid, inc, true)]);
    LogsAppend([FindSubscription(uid)], ReadCalls(users, schema, uid), WriteCalls(uid, resets));
    LogsAppend([FindSubscription(uid)], ReadCalls(users, schema, uid) + WriteCalls(uid, resets), [UpdateUser(uid, inc, true)]);
    assert WriteCalls(uid, resets) + [] == WriteCalls(uid, resets);
    assert ReadCalls(users, schema, uid) + WriteCalls(uid, resets) + [] == ReadCalls(users, schema, uid) + WriteCalls(uid, resets);
  }

  /** A premium user is admitted with no read and no write of the users collection. */
  lemma PremiumBypass(users: map<int, Document>, schema: Document, subs: Ledger, uid: int, now: Instant, limit: int)
    requires IsActive(SubscriptionOf(subs, uid), now)
    ensures var r := CheckAndIncrementOutcome(users, schema, subs, uid, now, limit);
            r.permitted && r.users == users && forall op :: op in r.calls ==> !TouchesUsers(op)
  {
  }

  /** The replies `check_limit_with_response` sends after a denial. */
  function DenialReplies(lang: string, botsAmount: int): (replies: seq<Reply>)
    ensures |replies| == 3
    ensures replies[0] == Say(RATE_LIMIT_EXCEEDED, lang, map[])
    ensures replies[2] == SayWithKeyboard(CHOOSE_PLAN, lang, SubscriptionKeyboard())
  {
    var (pitch, keyboard) := SubscriptionOffer(lang, botsAmount);
    [Say(RATE_LIMIT_EXCEEDED, lang, map[]), pitch, SayWithKeyboard(CHOOSE_PLAN, lang, keyboard)]
  }

  /** The admission controller over one store, with a configured daily limit. */
  class RateLimitManager {
    const store: MongoManager
    const rateLimit: int

    constructor (store: MongoManager, rateLimit: int)
      ensures this.store == store && this.rateLimit == rateLimit
    {
      this.store := store;
      this.rateLimit := rateLimit;
    }

    /** `check_limit`: reads the user, writes the stale reset if due, answers the decision. */
    method CheckLimit(uid: int, now: Instant) returns (permitted: bool, user: Document)
      modifies store`users, store`log
      ensures var c := Limit(UserView(old(store.users), store.schema, uid), now, rateLimit);
              && permitted == c.permitted && user == c.user
              && store.log == old(store.log) + ReadCalls(old(store.users), store.schema, uid)
                              + WriteCalls(uid, if c.reset.Some? then [c.reset.value] else [])
      ensures store.users == old(store.users)[uid := user]
    {
      var stored := store.GetUserData(uid);
      var c := Limit(stored, now, rateLimit);
      if c.reset.Some? {
        store.UpdateUserData(uid, c.reset.value);
      }
      permitted, user := c.permitted, c.user;
    }

    /**
     * `increment_action_count`: writes `actions_today + 1` and `now`, reading
     * the user first only when no user data is given.
     */
    method IncrementActionCount(uid: int, userData: Option<Document>, now: Instant)
      modifies store`users, store`log
      ensures userData.Some? ==>
                store.users == old(store.users)[uid := SetFields(UserView(old(store.users), store.schema, uid), IncrementFields(userData.value, now))]
      ensures userData.None? ==>
                var view := UserView(old(store.users), store.schema, uid);
                store.users == old(store.users)[uid := SetFields(view, IncrementFields(view, now))]
      ensures userData.Some? ==>
                store.log == old(store.log) + UpdateCalls(old(store.users), store.schema, uid, IncrementFields(userData.value, now))
      ensures userData.None? ==>
                var view := UserView(old(store.users), store.schema, uid);
                store.log == old(store.log) + ReadCalls(old(store.users), store.schema, uid)
                             + [UpdateUser(uid, IncrementFields(view, now), true)]
    {
      var user: Document;
      if userData.Some? {
        user := userData.value;
      } else {
        user := store.GetUserData(uid);
      }
      store.UpdateUserData(uid, IncrementFields(user, now));
    }

    /**
     * The part of `check_and_increment` after the subscription lookup:
     * `check_limit`, then, on a permit, the increment built on the record it
     * handed on.
     */
    method AdmitCounted(uid: int, now: Instant) returns (permitted: bool)
      modifies store`users, store`log
      ensures var c := Limit(UserView(old(store.users), store.schema, uid), now, rateLimit);
              var resets := if c.reset.Some? then [c.reset.value] else [];
              var inc := IncrementFields(c.user, now);
              && permitted == c.permitted
              && store.users == old(store.users)[uid := if c.permitted then SetFields(c.user, inc) else c.user]
              && store.log == old(store.log) + (ReadCalls(old(store.users), store.schema, uid) + WriteCalls(uid, resets)
                                                + (if c.permitted then [UpdateUser(uid, inc, true)] else []))
    {
      ghost var users0, log0 := store.users, store.log;
      ghost var c := Limit(UserView(users0, store.schema, uid), now, rateLimit);
      ghost var resets := if c.reset.Some? then [c.reset.value] else [];
      ghost var inc := IncrementFields(c.user, now);
      ghost var checked := ReadCalls(users0, store.schema, uid) + WriteCalls(uid, resets);
      var user;
      permitted, user := CheckLimit(uid, now);
      LogsAppend(log0, ReadCalls(users0, store.schema, uid), WriteCalls(uid, resets));
      if permitted {
        IncrementActionCount(uid, Some(user), now);
        LogsAppend(log0, checked, [UpdateUser(uid, inc, true)]);
      } else {
        assert checked + [] == checked;
      }
    }

    /** `check_and_increment`: the one operation callers use to ask for admission. */
    method CheckAndIncrement(uid: int, now: Instant) returns (permitted: bool)
      modifies store`users, store`log
      ensures var r := CheckAndIncrementOutcome(old(store.users), store.schema, store.subscriptions, uid, now, rateLimit);
              permitted == r.permitted && store.users == r.users && store.log == old(store.log) + r.calls
    {
      ghost var users0, log0 := store.users, store.log;
      var premium := store.CheckSubscriptionStatus(uid, now);
      if premium {
        return true;
      }
      OutcomeByStages(users0, store.schema, store.subscriptions, uid, now, rateLimit);
      ghost var c := Limit(UserView(users0, store.schema, uid), now, rateLimit);
      ghost var resets := if c.reset.Some? then [c.reset.value] else [];
      ghost var inc := IncrementFields(c.user, now);
      ghost var rest := ReadCalls(users0, store.schema, uid) + WriteCalls(uid, resets)
                        + (if c.permitted then [UpdateUser(uid, inc, true)] else []);
      permitted := AdmitCounted(uid, now);
      LogsAppend(log0, [FindSubscription(uid)], rest);
    }

    /**
     * `check_limit_with_response`: answers exactly what `check_and_increment`
     * answers; only on a denial it replies "limit exceeded", the
     * subscription pitch and the plan choice.
     */
    method CheckLimitWithResponse(uid: int, lang: string, botsAmount: int, now: Instant)
      returns (permitted: bool, replies: seq<Reply>)
      modifies store`users, store`log
      ensures var r := CheckAndIncrementOutcome(old(store.users), store.schema, store.subscriptions, uid, now, rateLimit);
              permitted == r.permitted && store.users == r.users && store.log == old(store.log) + r.calls
      ensures replies == if permitted then [] else DenialReplies(lang, botsAmount)
    {
      permitted := CheckAndIncrement(uid, now);
      replies := if permitted then [] else DenialReplies(lang, botsAmount);
    }
  }
}
