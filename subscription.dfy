/**
 * The subscription ledger as values: the record `get_subscription` answers,
 * the entitlement check, and the upserts that `update_subscription` and
 * `add_subscription_payment` apply to the subscriptions collection.
 */
module Subscription {
  import opened Documents

  const USER_ID: string := "user_id"
  const IS_PREMIUM: string := "is_premium"
  const PREMIUM_EXPIRATION: string := "premium_expiration"
  const LAST_PAYMENT: string := "last_payment"
  const PAYMENTS: string := "payments"

  /** Fields every payment event carries. */
  const PAYMENT_DATE: string := "date"
  const EXPIRATION_DATE: string := "expiration_date"

  /** The subscriptions collection: one record per user id. */
  type Ledger = map<int, Document>

  /** The record `get_subscription` answers: the stored one, or a non-premium default that is not stored. */
  function SubscriptionOf(subs: Ledger, uid: int): (r: Document)
    ensures uid in subs ==> r == subs[uid]
    ensures uid !in subs ==> r.Keys == {USER_ID, IS_PREMIUM}
    ensures uid !in subs ==> r[USER_ID] == Int(uid) && r[IS_PREMIUM] == Bool(false)
  {
    if uid in subs then subs[uid] else map[USER_ID := Int(uid), IS_PREMIUM := Bool(false)]
  }

  /**
   * Entitlement at `now`: the record is flagged premium and its expiration is
   * an instant strictly after `now`. A missing or unreadable expiration is
   * not an entitlement.
   */
  predicate IsActive(sub: Document, now: Instant)
    ensures IsActive(sub, now) ==>
              && IS_PREMIUM in sub && Truthy(sub[IS_PREMIUM])
              && PREMIUM_EXPIRATION in sub && sub[PREMIUM_EXPIRATION].Time?
              && Before(now, sub[PREMIUM_EXPIRATION].t)
  {
    && IS_PREMIUM in sub && Truthy(sub[IS_PREMIUM])
    && PREMIUM_EXPIRATION in sub && sub[PREMIUM_EXPIRATION].Time?
    && Before(now, sub[PREMIUM_EXPIRATION].t)
  }

  /** A user with no subscription record is never entitled. */
  lemma NoRecordIsNotActive(subs: Ledger, uid: int, now: Instant)
    requires uid !in subs
    ensures !IsActive(SubscriptionOf(subs, uid), now)
  {
  }

  /** A record not flagged premium is never entitled, whatever its expiration says. */
  lemma NotPremiumIsNotActive(sub: Document, now: Instant)
    requires IS_PREMIUM !in sub || !Truthy(sub[IS_PREMIUM])
    ensures !IsActive(sub, now)
  {
  }

  /** A premium record whose expiration is not after `now` is no longer entitled. */
  lemma ExpiredIsNotActive(sub: Document, now: Instant)
    requires PREMIUM_EXPIRATION in sub && sub[PREMIUM_EXPIRATION].Time?
    requires !Before(now, sub[PREMIUM_EXPIRATION].t)
    ensures !IsActive(sub, now)
  {
  }

  /** A record flagged premium is entitled exactly while `now` is before its expiration. */
  lemma PremiumActiveUntilExpiration(sub: Document, now: Instant)
    requires IS_PREMIUM in sub && sub[IS_PREMIUM] == Bool(true)
    requires PREMIUM_EXPIRATION in sub && sub[PREMIUM_EXPIRATION].Time?
    ensures IsActive(sub, now) <==> Before(now, sub[PREMIUM_EXPIRATION].t)
  {
  }

  /** The record an upsert starts from: the stored one, or a new one holding only the filter's user id. */
  function UpsertBase(subs: Ledger, uid: int): (r: Document)
    ensures uid !in subs ==> r == map[USER_ID := Int(uid)]
    ensures uid in subs ==> r == subs[uid]
  {
    if uid in subs then subs[uid] else map[USER_ID := Int(uid)]
  }

  /**
   * `update_subscription`: a `$set` of `fields` with upsert. Other users'
   * records are untouched; the user's record gains exactly the given fields.
   */
  function Upsert(subs: Ledger, uid: int, fields: Document): (r: Ledger)
    ensures r.Keys == subs.Keys + {uid}
    ensures forall u :: u in subs && u != uid ==> r[u] == subs[u]
    ensures forall k :: k in fields ==> k in r[uid] && r[uid][k] == fields[k]
    ensures uid in subs ==> r[uid].Keys == subs[uid].Keys + fields.Keys
    ensures uid in subs ==> forall k :: k in subs[uid] && k !in fields ==> r[uid][k] == subs[uid][k]
    ensures uid !in subs ==> r[uid].Keys == fields.Keys + {USER_ID}
    ensures uid !in subs && USER_ID !in fields ==> r[uid][USER_ID] == Int(uid)
  {
    subs[uid := SetFields(UpsertBase(subs, uid), fields)]
  }

  /**
   * The payment history of a record: empty when the record has none, absent
   * (None) when the field holds something that is not a list, which the
   * store refuses to append to.
   */
  function Payments(sub: Document): Option<seq<Value>>
  {
    if PAYMENTS !in sub then Some([])
    else if sub[PAYMENTS].List? then Some(sub[PAYMENTS].items)
    else None
  }

  /** A payment event carries its date and the expiration it grants. */
  predicate IsPayment(payment: Document)
  {
    PAYMENT_DATE in payment && EXPIRATION_DATE in payment
  }

  /**
   * The single update of `add_subscription_payment`: `$push` the payment onto
   * `payments` and, in the same operation, `$set` the premium flag, the
   * expiration and the last payment date. None when the store would refuse
   * the push, and then nothing is written.
   */
  function PushPayment(sub: Document, payment: Document): (r: Option<Document>)
    requires IsPayment(payment)
    ensures r.Some? <==> Payments(sub).Some?
    ensures r.Some? ==> Payments(r.value) == Some(Payments(sub).value + [Object(payment)])
    ensures r.Some? ==> r.value.Keys == sub.Keys + {PAYMENTS, IS_PREMIUM, PREMIUM_EXPIRATION, LAST_PAYMENT}
    ensures r.Some? ==> r.value[IS_PREMIUM] == Bool(true)
    ensures r.Some? ==> r.value[PREMIUM_EXPIRATION] == payment[EXPIRATION_DATE]
    ensures r.Some? ==> r.value[LAST_PAYMENT] == payment[PAYMENT_DATE]
    ensures r.Some? ==> forall k :: k in sub && k != PAYMENTS && k != IS_PREMIUM && k != PREMIUM_EXPIRATION && k != LAST_PAYMENT ==> r.value[k] == sub[k]
  {
    match Payments(sub)
    case None => None
    case Some(history) =>
      Some(SetFields(sub, map[
        PAYMENTS := List(history + [Object(payment)]),
        IS_PREMIUM := Bool(true),
        PREMIUM_EXPIRATION := payment[EXPIRATION_DATE],
        LAST_PAYMENT := payment[PAYMENT_DATE]]))
  }

  /**
   * Payments are append-only: after two successive payments the history is
   * the old one followed by both, and the expiration is the later payment's.
   */
  lemma TwoPaymentsAppend(sub: Document, first: Document, second: Document)
    requires IsPayment(first) && IsPayment(second)
    requires Payments(sub).Some?
    ensures PushPayment(sub, first).Some?
    ensures PushPayment(PushPayment(sub, first).value, second).Some?
    ensures var after := PushPayment(PushPayment(sub, first).value, second).value;
            Payments(after) == Some(Payments(sub).value + [Object(first), Object(second)])
            && after[PREMIUM_EXPIRATION] == second[EXPIRATION_DATE]
            && after[LAST_PAYMENT] == second[PAYMENT_DATE]
  {
    var history := Payments(sub).value;
    assert history + [Object(first)] + [Object(second)] == history + [Object(first), Object(second)];
  }

  /**
   * A recorded payment makes the user entitled at `now` exactly when the
   * expiration it carries is an instant after `now`.
   */
  lemma PaymentGrantsEntitlement(sub: Document, payment: Document, now: Instant)
    requires IsPayment(payment)
    requires PushPayment(sub, payment).Some?
    ensures IsActive(PushPayment(sub, payment).value, now) <==>
            payment[EXPIRATION_DATE].Time? && Before(now, payment[EXPIRATION_DATE].t)
  {
  }
}
