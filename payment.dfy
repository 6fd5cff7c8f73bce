/**
 * Payment intake: the pre-checkout acknowledgement, and the settlement of a
 * completed charge into one order and one subscription payment.
 */
module Payment {
  import opened Documents
  import opened Subscription
  import opened Store
  import opened Messages

  const PRECHECKOUT_ERROR: string := "An error occurred while processing your payment"
  const PAYMENT_ISSUE: string := "subscription.payment_issue"
  const PAYMENT_SUCCESS: string := "subscription.success"
  const ONE_MONTH_PLAN: string := "1month_sub"

  /** Field names of orders, payment events and the settlement log entry. */
  const AMOUNT: string := "amount"
  const CURRENCY: string := "currency"
  const STATUS: string := "status"
  const PLAN: string := "plan"
  const DURATION_DAYS: string := "duration_days"
  const PAYLOAD: string := "payload"
  const COMPLETED: string := "completed"

  /** An answer to a pre-checkout query. */
  datatype Answer = Answer(ok: bool, errorMessage: Option<string>)

  /**
   * `precheckout_handler`: approves the query; when sending that approval
   * fails, answers again with a refusal carrying the fixed error message.
   */
  function PrecheckoutAnswers(approvalFails: bool): (answers: seq<Answer>)
    ensures |answers| >= 1 && answers[0] == Answer(true, None)
    ensures |answers| == 1 <==> !approvalFails
    ensures answers[|answers| - 1].ok <==> !approvalFails
    ensures approvalFails ==> answers[|answers| - 1].errorMessage == Some(PRECHECKOUT_ERROR)
  {
    if approvalFails then [Answer(true, None), Answer(false, Some(PRECHECKOUT_ERROR))]
    else [Answer(true, None)]
  }

  /** A completed charge as the payment provider reports it. */
  datatype Charge = Charge(chargeId: string, totalAmount: int, currency: string, payload: string)

  /** The plan table: the subscription length in days of each plan code. */
  type Plans = map<string, nat>

  /**
   * The plan codes the bots sell: the one-month plan lasts thirty days, and
   * the payload the tests use for an unsupported plan is not in the table.
   */
  predicate KnownPlans(plans: Plans)
  {
    ONE_MONTH_PLAN in plans && plans[ONE_MONTH_PLAN] == 30 && "invalid_plan" !in plans
  }

  /** The order a settled charge records. */
  function OrderDocument(charge: Charge, now: Instant): (order: Document)
    ensures order.Keys == {ORDER_ID, AMOUNT, CURRENCY, STATUS, PAYMENT_DATE}
    ensures order[ORDER_ID] == Str(charge.chargeId) && order[AMOUNT] == Int(charge.totalAmount)
    ensures order[CURRENCY] == Str(charge.currency) && order[STATUS] == Str(COMPLETED)
    ensures order[PAYMENT_DATE] == Time(now)
  {
    map[
      ORDER_ID := Str(charge.chargeId),
      AMOUNT := Int(charge.totalAmount),
      CURRENCY := Str(charge.currency),
      STATUS := Str(COMPLETED),
      PAYMENT_DATE := Time(now)]
  }

  /**
   * The subscription payment event of a charge for a plan of `days` days:
   * the order's fields, plus the expiration `days` calendar days after
   * `now`, the plan code and its length.
   */
  function PaymentEvent(charge: Charge, now: Instant, days: nat): (payment: Document)
    ensures IsPayment(payment)
    ensures payment.Keys == OrderDocument(charge, now).Keys + {EXPIRATION_DATE, PLAN, DURATION_DAYS}
    ensures forall k :: k in OrderDocument(charge, now) ==> payment[k] == OrderDocument(charge, now)[k]
    ensures payment[EXPIRATION_DATE] == Time(AddDays(now, days))
    ensures payment[PLAN] == Str(charge.payload) && payment[DURATION_DAYS] == Int(days)
  {
    SetFields(OrderDocument(charge, now), map[
      EXPIRATION_DATE := Time(AddDays(now, days)),
      PLAN := Str(charge.payload),
      DURATION_DAYS := Int(days)])
  }

  /** The details the settlement log entry carries, whatever the plan. */
  function LogDetails(charge: Charge): (details: Document)
    ensures details.Keys == {PAYLOAD, AMOUNT, CURRENCY}
    ensures details[PAYLOAD] == Str(charge.payload)
    ensures details[AMOUNT] == Int(charge.totalAmount) && details[CURRENCY] == Str(charge.currency)
  {
    map[PAYLOAD := Str(charge.payload), AMOUNT := Int(charge.totalAmount), CURRENCY := Str(charge.currency)]
  }

  /** What a settlement records: nothing for an unknown plan, else an order and a payment event. */
  datatype Settlement =
    | UnknownPlan
    | Settled(order: Document, payment: Document, expiration: Instant)

  /** The settlement of `charge` at `now` under the plan table `plans`. */
  function Settle(plans: Plans, charge: Charge, now: Instant): (s: Settlement)
    ensures s.UnknownPlan? <==> charge.payload !in plans
    ensures s.Settled? ==> s.order == OrderDocument(charge, now)
    ensures s.Settled? ==> s.payment == PaymentEvent(charge, now, plans[charge.payload])
    ensures s.Settled? ==> s.expiration.day == now.day + plans[charge.payload] && s.expiration.second == now.second
  {
    if charge.payload !in plans then UnknownPlan
    else
      var days := plans[charge.payload];
      Settled(OrderDocument(charge, now), PaymentEvent(charge, now, days), AddDays(now, days))
  }

  /**
   * A settled payment for a plan of at least one day makes the user
   * entitled right away, and the entitlement lasts exactly until the
   * expiration the payment carries.
   */
  lemma SettlementGrantsPremium(plans: Plans, charge: Charge, now: Instant, sub: Document, later: Instant)
    requires Settle(plans, charge, now).Settled? && plans[charge.payload] > 0
    requires Payments(sub).Some?
    ensures PushPayment(sub, Settle(plans, charge, now).payment).Some?
    ensures IsActive(PushPayment(sub, Settle(plans, charge, now).payment).value, now)
    ensures IsActive(PushPayment(sub, Settle(plans, charge, now).payment).value, later)
            <==> Before(later, Settle(plans, charge, now).expiration)
  {
    var s := Settle(plans, charge, now);
    PaymentGrantsEntitlement(sub, s.payment, now);
    PaymentGrantsEntitlement(sub, s.payment, later);
  }

  /**
   * The one-month plan: a charge settled at `now` expires thirty days later
   * at the same time of day, and the payment event names the plan and its
   * length.
   */
  lemma OneMonthPlan(plans: Plans, charge: Charge, now: Instant)
    requires KnownPlans(plans)
    requires charge.payload == ONE_MONTH_PLAN
    ensures Settle(plans, charge, now).Settled?
    ensures Settle(plans, charge, now).expiration == Instant(now.day + 30, now.second)
    ensures Settle(plans, charge, now).payment[EXPIRATION_DATE] == Time(Instant(now.day + 30, now.second))
    ensures Settle(plans, charge, now).payment[PLAN] == Str("1month_sub")
    ensures Settle(plans, charge, now).payment[DURATION_DAYS] == Int(30)
  {
  }

  /**
   * `successful_payment`: logs the charge; for an unknown plan replies with
   * the payment-issue message and records nothing; otherwise records the
   * order, then the subscription payment, and replies with the expiration
   * date. When the store refuses the payment append, no success reply is
   * sent.
   */
  method SuccessfulPayment(store: MongoManager, plans: Plans, uid: int, lang: string, botName: string,
                           charge: Charge, now: Instant)
    returns (replies: seq<Reply>, entries: seq<ActionLog>)
    requires KnownPlans(plans)
    modifies store`orders, store`subscriptions, store`log
    ensures entries == [ActionLog(uid, "successful_payment", botName, LogDetails(charge))]
    ensures charge.payload !in plans ==>
      && replies == [Say(PAYMENT_ISSUE, lang, map[])]
      && store.orders == old(store.orders)
      && store.subscriptions == old(store.subscriptions)
      && store.log == old(store.log)
    ensures charge.payload in plans ==>
      var s := Settle(plans, charge, now);
      var pushed := PushPayment(UpsertBase(old(store.subscriptions), uid), s.payment);
      && store.orders == old(store.orders) + [s.order[USER_ID := Int(uid)]]
      && store.log == old(store.log) + [InsertOrder(s.order[USER_ID := Int(uid)]), PushSubscriptionPayment(uid, s.payment)]
      && store.subscriptions == (if pushed.Some? then old(store.subscriptions)[uid := pushed.value] else old(store.subscriptions))
      && replies == (if pushed.Some? then [SayWithDate(PAYMENT_SUCCESS, lang, s.expiration.day)] else [])
  {
    entries := [ActionLog(uid, "successful_payment", botName, LogDetails(charge))];
    var s := Settle(plans, charge, now);
    if s.UnknownPlan? {
      replies := [Say(PAYMENT_ISSUE, lang, map[])];
      return;
    }
    replies := RecordSettlement(store, uid, lang, s.order, s.payment, s.expiration.day);
  }

  /**
   * The known-plan path of `successful_payment`: records the order, then the
   * subscription payment, and replies with the expiration date unless the
   * store refused the payment.
   */
  method RecordSettlement(store: MongoManager, uid: int, lang: string, order: Document, payment: Document,
                          expirationDay: int)
    returns (replies: seq<Reply>)
    requires IsPayment(payment)
    modifies store`orders, store`subscriptions, store`log
    ensures var pushed := PushPayment(UpsertBase(old(store.subscriptions), uid), payment);
      && store.orders == old(store.orders) + [order[USER_ID := Int(uid)]]
      && store.log == old(store.log) + [InsertOrder(order[USER_ID := Int(uid)]), PushSubscriptionPayment(uid, payment)]
      && store.subscriptions == (if pushed.Some? then old(store.subscriptions)[uid := pushed.value] else old(store.subscriptions))
      && replies == (if pushed.Some? then [SayWithDate(PAYMENT_SUCCESS, lang, expirationDay)] else [])
  {
    store.AddOrder(uid, order);
    var ok := store.AddSubscriptionPayment(uid, payment);
    replies := if ok then [SayWithDate(PAYMENT_SUCCESS, lang, expirationDay)] else [];
  }
}
