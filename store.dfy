/**
 * The record store adapter (`MongoManager`): lazily created user profiles,
 * the orders collection and the subscriptions collection, with a ghost log
 * of every collection call so that "nothing was read" and "nothing was
 * written" can be stated.
 */
module Store {
  import opened Documents
  import opened Subscription

  const ORDER_ID: string := "order_id"

  /** One call the adapter makes on one of its collections. */
  datatype StoreOp =
    | FindUser(userId: int)
    | InsertUser(user: Document)
    | UpdateUser(userId: int, fields: Document, matched: bool)
    | InsertOrder(order: Document)
    | FindOrders(userId: int)
    | ModifyOrder(userId: int, orderId: Value, fields: Document, matched: bool)
    | FindSubscription(userId: int)
    | UpsertSubscription(userId: int, fields: Document)
    | PushSubscriptionPayment(userId: int, payment: Document)

  /** Whether a call reads or writes the users collection. */
  predicate TouchesUsers(op: StoreOp)
  {
    op.FindUser? || op.InsertUser? || op.UpdateUser?
  }

  /** The effective user template: the caller's template with a `user_id` key, left unset. */
  function EffectiveSchema(template: Document): (schema: Document)
    ensures schema.Keys == template.Keys + {USER_ID}
    ensures schema[USER_ID] == Null
    ensures forall k :: k in template && k != USER_ID ==> schema[k] == template[k]
  {
    template[USER_ID := Null]
  }

  /** The record `create_user` inserts: the template with `user_id` set. */
  function NewUser(schema: Document, uid: int): (user: Document)
    ensures user.Keys == schema.Keys + {USER_ID}
    ensures user[USER_ID] == Int(uid)
    ensures forall k :: k in schema && k != USER_ID ==> user[k] == schema[k]
  {
    schema[USER_ID := Int(uid)]
  }

  /** A created user is the caller's template plus its `user_id`, whatever the template held there. */
  lemma NewUserFromTemplate(template: Document, uid: int)
    ensures NewUser(EffectiveSchema(template), uid) == template[USER_ID := Int(uid)]
  {
  }

  /** What `get_user_data` answers: the stored record, or the one it creates. */
  function UserView(users: map<int, Document>, schema: Document, uid: int): (user: Document)
    ensures uid in users ==> user == users[uid]
    ensures uid !in users ==> user == NewUser(schema, uid)
  {
    if uid in users then users[uid] else NewUser(schema, uid)
  }

  /** The calls `get_user_data` makes: a find, and an insert when the user is new. */
  function ReadCalls(users: map<int, Document>, schema: Document, uid: int): seq<StoreOp>
  {
    [FindUser(uid)] + if uid in users then [] else [InsertUser(NewUser(schema, uid))]
  }

  /** The calls `update_user_data` makes: one update, or update, create and update again when none matched. */
  function UpdateCalls(users: map<int, Document>, schema: Document, uid: int, fields: Document): seq<StoreOp>
  {
    if uid in users then [UpdateUser(uid, fields, true)]
    else [UpdateUser(uid, fields, false), InsertUser(NewUser(schema, uid)), UpdateUser(uid, fields, true)]
  }

  /**
   * `get_user_data` looks the user up once, and creates the user (one
   * insert of the template) exactly when no record exists.
   */
  lemma ReadCallsShape(users: map<int, Document>, schema: Document, uid: int)
    ensures uid in users ==> ReadCalls(users, schema, uid) == [FindUser(uid)]
    ensures uid !in users ==> ReadCalls(users, schema, uid) == [FindUser(uid), InsertUser(NewUser(schema, uid))]
  {
  }

  /**
   * `update_user_data` makes one `$set` of exactly the given fields and no
   * create on an existing user; on a missing one it makes two such updates
   * and one create, in between.
   */
  lemma UpdateCallsShape(users: map<int, Document>, schema: Document, uid: int, fields: Document)
    ensures var calls := UpdateCalls(users, schema, uid, fields);
            && (forall op :: op in calls && op.UpdateUser? ==> op.userId == uid && op.fields == fields)
            && (uid in users ==> |calls| == 1 && calls[0].UpdateUser?)
            && (uid !in users ==> |calls| == 3 && calls[0].UpdateUser? && calls[1].InsertUser? && calls[2].UpdateUser?)
  {
  }

  /** An order belongs to `uid` when its `user_id` field says so. */
  predicate OwnedBy(order: Document, uid: int)
  {
    USER_ID in order && order[USER_ID] == Int(uid)
  }

  /** The filter `{user_id, order_id}` of `update_order`. */
  predicate MatchesOrder(order: Document, uid: int, orderId: Value)
  {
    OwnedBy(order, uid) && ORDER_ID in order && order[ORDER_ID] == orderId
  }

  /** `get_orders`: the orders of `uid`, in stored order. */
  function OrdersOf(orders: seq<Document>, uid: int): (r: seq<Document>)
    ensures |r| <= |orders|
    ensures forall o :: o in r ==> OwnedBy(o, uid)
  {
    if orders == [] then []
    else (if OwnedBy(orders[0], uid) then [orders[0]] else []) + OrdersOf(orders[1..], uid)
  }

  /** `get_orders` misses none of the user's orders: each is answered as often as it is stored. */
  lemma {:induction false} OrdersOfExactly(orders: seq<Document>, uid: int)
    ensures forall o :: multiset(OrdersOf(orders, uid))[o] == if OwnedBy(o, uid) then multiset(orders)[o] else 0
  {
    if orders != [] {
      OrdersOfExactly(orders[1..], uid);
      assert orders == [orders[0]] + orders[1..];
    }
  }

  /** An order added for `uid` is the last order `get_orders` answers for `uid`, after the earlier ones. */
  lemma {:induction false} OrdersOfAppend(orders: seq<Document>, order: Document, uid: int)
    ensures OrdersOf(orders + [order[USER_ID := Int(uid)]], uid) == OrdersOf(orders, uid) + [order[USER_ID := Int(uid)]]
  {
    var stored := order[USER_ID := Int(uid)];
    if orders == [] {
      assert [] + [stored] == [stored];
      assert [stored][1..] == [];
    } else {
      assert (orders + [stored])[0] == orders[0];
      assert (orders + [stored])[1..] == orders[1..] + [stored];
      OrdersOfAppend(orders[1..], order, uid);
      var head := if OwnedBy(orders[0], uid) then [orders[0]] else [];
      assert OrdersOf(orders + [stored], uid) == head + (OrdersOf(orders[1..], uid) + [stored]);
      assert OrdersOf(orders, uid) == head + OrdersOf(orders[1..], uid);
      assert head + (OrdersOf(orders[1..], uid) + [stored]) == head + OrdersOf(orders[1..], uid) + [stored];
    }
  }

  /** An order added for one user never shows up among another user's orders. */
  lemma {:induction false} OrdersOfOtherUser(orders: seq<Document>, order: Document, uid: int, other: int)
    requires other != uid
    ensures OrdersOf(orders + [order[USER_ID := Int(uid)]], other) == OrdersOf(orders, other)
  {
    var stored := order[USER_ID := Int(uid)];
    if orders == [] {
      assert [] + [stored] == [stored];
      assert [stored][1..] == [];
    } else {
      assert (orders + [stored])[0] == orders[0];
      assert (orders + [stored])[1..] == orders[1..] + [stored];
      OrdersOfOtherUser(orders[1..], order, uid, other);
    }
  }

  /** The position `update_one` would change: the first order that matches the filter. */
  function FirstMatch(orders: seq<Document>, uid: int, orderId: Value): (r: Option<nat>)
    ensures r.Some? ==> r.value < |orders| && MatchesOrder(orders[r.value], uid, orderId)
    ensures r.Some? ==> forall j :: 0 <= j < r.value ==> !MatchesOrder(orders[j], uid, orderId)
    ensures r.None? ==> forall j :: 0 <= j < |orders| ==> !MatchesOrder(orders[j], uid, orderId)
  {
    if orders == [] then None
    else if MatchesOrder(orders[0], uid, orderId) then Some(0)
    else match FirstMatch(orders[1..], uid, orderId)
      case None => None
      case Some(i) => Some(i + 1)
  }

  /**
   * The adapter. `users` and `subscriptions` hold one record per user id;
   * `orders` is the orders collection in insertion order; `log` records each
   * collection call.
   */
  class MongoManager {
    const schema: Document
    var users: map<int, Document>
    var orders: seq<Document>
    var subscriptions: Ledger
    ghost var log: seq<StoreOp>

    constructor (template: Document)
      ensures schema == EffectiveSchema(template)
      ensures users == map[] && orders == [] && subscriptions == map[] && log == []
    {
      schema := EffectiveSchema(template);
      users, orders, subscriptions := map[], [], map[];
      log := [];
    }

    /**
     * `create_user`: inserts and returns the template with `user_id` set. A
     * second insert for an existing user would be a duplicate document that
     * lookups by user id never reach, so the visible record stays as it was.
     */
    method CreateUser(uid: int) returns (user: Document)
      modifies this`users, this`log
      ensures user == NewUser(schema, uid)
      ensures users == if uid in old(users) then old(users) else old(users)[uid := user]
      ensures log == old(log) + [InsertUser(user)]
    {
      user := NewUser(schema, uid);
      log := log + [InsertUser(user)];
      if uid !in users {
        users := users[uid := user];
      }
    }

    /** `get_user_data`: the stored record, created from the template on first access. */
    method GetUserData(uid: int) returns (user: Document)
      modifies this`users, this`log
      ensures user == UserView(old(users), schema, uid)
      ensures users == old(users)[uid := user]
      ensures log == old(log) + ReadCalls(old(users), schema, uid)
    {
      log := log + [FindUser(uid)];
      if uid in users {
        user := users[uid];
      } else {
        user := CreateUser(uid);
      }
    }

    /**
     * `update_user_data`: one `$set` of exactly `fields`; when no record
     * matched, the user is created from the template and the update applied
     * again.
     */
    method UpdateUserData(uid: int, fields: Document)
      modifies this`users, this`log
      ensures users == old(users)[uid := SetFields(UserView(old(users), schema, uid), fields)]
      ensures log == old(log) + UpdateCalls(old(users), schema, uid, fields)
    {
      var matched := uid in users;
      log := log + [UpdateUser(uid, fields, matched)];
      if matched {
        users := users[uid := SetFields(users[uid], fields)];
      } else {
        var _ := CreateUser(uid);
        log := log + [UpdateUser(uid, fields, true)];
        users := users[uid := SetFields(users[uid], fields)];
      }
    }

    /** `add_order`: inserts the order's fields plus the owner's `user_id`. */
    method AddOrder(uid: int, order: Document)
      modifies this`orders, this`log
      ensures orders == old(orders) + [order[USER_ID := Int(uid)]]
      ensures log == old(log) + [InsertOrder(order[USER_ID := Int(uid)])]
    {
      var stored := order[USER_ID := Int(uid)];
      orders := orders + [stored];
      log := log + [InsertOrder(stored)];
    }

    /** `get_orders`: every order of `uid`. */
    method GetOrders(uid: int) returns (found: seq<Document>)
      modifies this`log
      ensures found == OrdersOf(orders, uid)
      ensures log == old(log) + [FindOrders(uid)]
    {
      found := OrdersOf(orders, uid);
      log := log + [FindOrders(uid)];
    }

    /**
     * `update_order`: merges `fields` into the first order matching
     * `(user_id, order_id)`; when none matches nothing changes.
     */
    method UpdateOrder(uid: int, orderId: Value, fields: Document) returns (matched: bool)
      modifies this`orders, this`log
      ensures matched <==> FirstMatch(old(orders), uid, orderId).Some?
      ensures match FirstMatch(old(orders), uid, orderId)
              case None => orders == old(orders)
              case Some(i) => orders == old(orders)[i := SetFields(old(orders)[i], fields)]
      ensures log == old(log) + [ModifyOrder(uid, orderId, fields, matched)]
    {
      var at := FirstMatch(orders, uid, orderId);
      matched := at.Some?;
      if at.Some? {
        orders := orders[at.value := SetFields(orders[at.value], fields)];
      }
      log := log + [ModifyOrder(uid, orderId, fields, matched)];
    }

    /** `get_subscription`: the stored record or the non-premium default; nothing is created. */
    method GetSubscription(uid: int) returns (sub: Document)
      modifies this`log
      ensures sub == SubscriptionOf(subscriptions, uid)
      ensures log == old(log) + [FindSubscription(uid)]
    {
      sub := SubscriptionOf(subscriptions, uid);
      log := log + [FindSubscription(uid)];
    }

    /** `update_subscription`: a `$set` with upsert. */
    method UpdateSubscription(uid: int, fields: Document)
      modifies this`subscriptions, this`log
      ensures subscriptions == Upsert(old(subscriptions), uid, fields)
      ensures log == old(log) + [UpsertSubscription(uid, fields)]
    {
      subscriptions := Upsert(subscriptions, uid, fields);
      log := log + [UpsertSubscription(uid, fields)];
    }

    /**
     * `add_subscription_payment`: one upsert that appends the payment and
     * sets the premium fields; `ok` is false when the store refuses the
     * append, and then nothing is written.
     */
    method AddSubscriptionPayment(uid: int, payment: Document) returns (ok: bool)
      requires IsPayment(payment)
      modifies this`subscriptions, this`log
      ensures ok <==> PushPayment(UpsertBase(old(subscriptions), uid), payment).Some?
      ensures ok ==> subscriptions == old(subscriptions)[uid := PushPayment(UpsertBase(old(subscriptions), uid), payment).value]
      ensures !ok ==> subscriptions == old(subscriptions)
      ensures log == old(log) + [PushSubscriptionPayment(uid, payment)]
    {
      var pushed := PushPayment(UpsertBase(subscriptions, uid), payment);
      ok := pushed.Some?;
      if pushed.Some? {
        subscriptions := subscriptions[uid := pushed.value];
      }
      log := log + [PushSubscriptionPayment(uid, payment)];
    }

    /** `check_subscription_status`: whether the user is entitled at `now`. */
    method CheckSubscriptionStatus(uid: int, now: Instant) returns (active: bool)
      modifies this`log
      ensures active == IsActive(SubscriptionOf(subscriptions, uid), now)
      ensures log == old(log) + [FindSubscription(uid)]
    {
      var sub := GetSubscription(uid);
      active := IsActive(sub, now);
    }
  }
}
