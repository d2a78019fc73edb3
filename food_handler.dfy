/** The browser side: a `FoodHandler` publishes food orders and groups the
    deliveries it receives by table number.

    JSON is kept abstract: a message body is either the serialisation of
    an order or text that does not parse as one, so parsing a serialised
    order gives that order back. */
module Frontend {
  import opened Wrappers
  import opened Mqtt

  const ORDER_TOPIC: string := "restaurant/order"
  const DELIVER_TOPIC: string := "restaurant/deliver"

  datatype Order = Order(table: int, food: string)

  /** A message body, as far as `JSON.parse` is concerned. */
  datatype JsonText = Serialized(order: Order) | Malformed(text: string)

  function Parse(text: JsonText): Option<Order> {
    match text
    case Serialized(order) => Some(order)
    case Malformed(_) => None
  }

  /** `JSON.stringify` of an order; the text parses back to the order. */
  function Stringify(order: Order): (text: JsonText)
    ensures Parse(text) == Some(order)
  {
    Serialized(order)
  }

  /** The received orders, keyed by table number. */
  type ReceivedOrders = map<int, seq<Order>>

  function Lookup(m: ReceivedOrders, table: int): seq<Order> {
    if table in m then m[table] else []
  }

  /** The map after storing `order`: appended to its table's list, or a
      new one-element list when the table has no entry. */
  function WithOrder(m: ReceivedOrders, order: Order): (r: ReceivedOrders)
    ensures r.Keys == m.Keys + {order.table}
    ensures r[order.table] == Lookup(m, order.table) + [order]
    ensures forall t :: t in m && t != order.table ==> r[t] == m[t]
  {
    if order.table in m then m[order.table := m[order.table] + [order]]
    else m[order.table := [order]]
  }

  /** An order for a table without an entry adds one table. */
  lemma WithNewTable(m: ReceivedOrders, order: Order)
    requires order.table !in m
    ensures WithOrder(m, order) == m[order.table := [order]]
    ensures |WithOrder(m, order)| == |m| + 1
  {
  }

  lemma HasTable(tables: set<int>)
    requires tables != {}
    ensures exists t :: t in tables
  {
    if !(exists t :: t in tables) {
      assert false;
    }
  }

  /** Dropping a table's entry leaves one table fewer. */
  lemma WithoutTable(m: ReceivedOrders, t: int)
    requires t in m
    ensures (m - {t}).Keys == m.Keys - {t} && |m - {t}| == |m| - 1
  {
    assert (m - {t}).Keys == m.Keys - {t};
  }

  /** The number of stored orders over all tables. */
  ghost function TotalOrders(m: ReceivedOrders): nat
    decreases |m|
  {
    if m.Keys == {} then 0
    else
      HasTable(m.Keys);
      var t :| t in m.Keys;
      WithoutTable(m, t);
      |m[t]| + TotalOrders(m - {t})
  }

  /** The total does not depend on which table is counted first. */
  lemma {:induction false} TotalOrdersAt(m: ReceivedOrders, t: int)
    requires t in m
    ensures TotalOrders(m) == |m[t]| + TotalOrders(m - {t})
    decreases |m|, 1
  {
    var u :| u in m && TotalOrders(m) == |m[u]| + TotalOrders(m - {u});
    if u != t {
      TotalOrdersSwap(m, t, u);
    }
  }

  /** Counting table `u` first or table `t` first gives the same total. */
  lemma {:induction false} TotalOrdersSwap(m: ReceivedOrders, t: int, u: int)
    requires t in m && u in m && t != u
    ensures |m[u]| + TotalOrders(m - {u}) == |m[t]| + TotalOrders(m - {t})
    decreases |m|, 0
  {
    var mu, mt := m - {u}, m - {t};
    WithoutTable(m, u);
    WithoutTable(m, t);
    WithoutTwoTables(m, t, u);
    TotalOrdersAt(mu, t);
    TotalOrdersAt(mt, u);
  }

  /** Dropping two tables' entries in either order gives the same map. */
  lemma WithoutTwoTables(m: ReceivedOrders, t: int, u: int)
    requires t in m && u in m && t != u
    ensures t in m - {u} && u in m - {t}
    ensures (m - {u})[t] == m[t] && (m - {t})[u] == m[u]
    ensures (m - {u}) - {t} == (m - {t}) - {u}
  {
  }

  /** Storing one order raises the total by exactly one. */
  lemma WithOrderTotal(m: ReceivedOrders, order: Order)
    ensures TotalOrders(WithOrder(m, order)) == TotalOrders(m) + 1
  {
    var t := order.table;
    var r := WithOrder(m, order);
    TotalOrdersAt(r, t);
    if t in m {
      TotalOrdersAt(m, t);
      assert r - {t} == m - {t};
    } else {
      assert r - {t} == m;
    }
  }

  /** The orders that decode successfully, in arrival order. */
  function Decoded(messages: seq<JsonText>): seq<Order> {
    if messages == [] then []
    else (match Parse(messages[0]) case Some(o) => [o] case None => []) + Decoded(messages[1..])
  }

  /** The orders for one table, in order: the reference "group by". */
  function OrdersFor(orders: seq<Order>, table: int): seq<Order> {
    if orders == [] then []
    else (if orders[0].table == table then [orders[0]] else []) + OrdersFor(orders[1..], table)
  }

  lemma {:induction false} DecodedAppend(a: seq<JsonText>, b: seq<JsonText>)
    ensures Decoded(a + b) == Decoded(a) + Decoded(b)
  {
    if a == [] {
      assert a + b == b;
    } else {
      assert (a + b)[0] == a[0] && (a + b)[1..] == a[1..] + b;
      DecodedAppend(a[1..], b);
    }
  }

  lemma {:induction false} OrdersForAppend(a: seq<Order>, b: seq<Order>, table: int)
    ensures OrdersFor(a + b, table) == OrdersFor(a, table) + OrdersFor(b, table)
  {
    if a == [] {
      assert a + b == b;
    } else {
      var head := if a[0].table == table then [a[0]] else [];
      assert (a + b)[0] == a[0] && (a + b)[1..] == a[1..] + b;
      OrdersForAppend(a[1..], b, table);
      assert OrdersFor(a + b, table) == head + (OrdersFor(a[1..], table) + OrdersFor(b, table));
      assert OrdersFor(a, table) == head + OrdersFor(a[1..], table);
    }
  }

  /** Storing an order extends exactly its own table's group. */
  lemma LookupWithOrder(m: ReceivedOrders, order: Order, table: int)
    ensures Lookup(WithOrder(m, order), table) == Lookup(m, table) + OrdersFor([order], table)
  {
    assert [order][1..] == [];
  }

  /** The map after one delivered message: the decoded order is stored, a
      body that does not parse changes nothing. */
  function Receive(m: ReceivedOrders, message: JsonText): ReceivedOrders {
    match Parse(message)
    case None => m
    case Some(order) => WithOrder(m, order)
  }

  /** `m` holds exactly `orders` grouped by table: each table's list is
      the table's orders in order, no table has an empty list, and the
      total is the number of orders. */
  ghost predicate GroupedAs(m: ReceivedOrders, orders: seq<Order>) {
    && (forall t :: Lookup(m, t) == OrdersFor(orders, t))
    && (forall t :: t in m ==> m[t] != [])
    && TotalOrders(m) == |orders|
  }

  /** Receiving a message extends each table's group by the orders that
      decoded for that table. */
  lemma ReceiveLookup(m: ReceivedOrders, message: JsonText, table: int)
    ensures Lookup(Receive(m, message), table) == Lookup(m, table) + OrdersFor(Decoded([message]), table)
  {
    assert [message][1..] == [];
    match Parse(message)
    case None =>
      assert Decoded([message]) == [];
    case Some(order) =>
      assert Decoded([message]) == [order];
      LookupWithOrder(m, order, table);
  }

  /** Receiving a message keeps the map grouped, now over the orders so far
      followed by the one that decoded. */
  lemma ReceiveKeepsGrouping(m: ReceivedOrders, orders: seq<Order>, message: JsonText)
    requires GroupedAs(m, orders)
    ensures GroupedAs(Receive(m, message), orders + Decoded([message]))
  {
    var r := Receive(m, message);
    var extra := Decoded([message]);
    forall t
      ensures Lookup(r, t) == OrdersFor(orders + extra, t)
    {
      ReceiveLookup(m, message, t);
      OrdersForAppend(orders, extra, t);
    }
    assert [message][1..] == [];
    if Parse(message).Some? {
      WithOrderTotal(m, Parse(message).value);
    }
  }

  /** In a grouped map, a table has an entry exactly when it has orders. */
  lemma GroupedKeys(m: ReceivedOrders, orders: seq<Order>)
    requires GroupedAs(m, orders)
    ensures forall t :: t in m <==> OrdersFor(orders, t) != []
  {
    forall t | t in m
      ensures OrdersFor(orders, t) != []
    {
      assert Lookup(m, t) == m[t];
    }
  }

  /** What the broker saw the browser client send. */
  datatype Sent = Sent(topic: string, message: JsonText)

  /** The MQTT.js client, reduced to the subscribe and publish calls it
      passes on to the broker. */
  class MqttClient {
    var subscriptions: seq<Subscription>
    var published: seq<Sent>
    /** The handlers registered for the `message` event, in order. */
    var messageHandlers: seq<FoodHandler>

    constructor ()
      ensures subscriptions == [] && published == [] && messageHandlers == []
    {
      subscriptions := [];
      published := [];
      messageHandlers := [];
    }

    /** `client.on('message', handler.onMessageReceive)`. */
    method OnMessage(handler: FoodHandler)
      modifies this`messageHandlers
      ensures messageHandlers == old(messageHandlers) + [handler]
    {
      messageHandlers := messageHandlers + [handler];
    }

    method SubscribeAsync(topics: seq<Subscription>)
      modifies this`subscriptions
      ensures subscriptions == old(subscriptions) + topics
    {
      subscriptions := subscriptions + topics;
    }

    method PublishAsync(topic: string, message: JsonText)
      modifies this`published
      ensures published == old(published) + [Sent(topic, message)]
    {
      published := published + [Sent(topic, message)];
    }
  }

  class FoodHandler {
    const client: MqttClient
    var receivedOrders: ReceivedOrders

    /** Keep the client and register this handler for its `message` event. */
    constructor (client: MqttClient)
      modifies client`messageHandlers
      ensures this.client == client && receivedOrders == map[]
      ensures client.messageHandlers == old(client.messageHandlers) + [this]
    {
      this.client := client;
      receivedOrders := map[];
      new;
      client.OnMessage(this);
    }

    /** Subscribe to the delivery topic at QoS 2, and to nothing else. */
    method Subscribe()
      modifies client`subscriptions
      ensures client.subscriptions == old(client.subscriptions) + [Subscription(DELIVER_TOPIC, QOS_2)]
    {
      client.SubscribeAsync([Subscription(DELIVER_TOPIC, QOS_2)]);
    }

    /** Publish the order's JSON text on the order topic. */
    method SendOrder(order: Order)
      modifies client`published
      ensures client.published == old(client.published) + [Sent(ORDER_TOPIC, Stringify(order))]
      ensures Parse(client.published[|client.published| - 1].message) == Some(order)
    {
      var msg := Stringify(order);
      client.PublishAsync(ORDER_TOPIC, msg);
    }

    /** Store a delivered order under its table; a body that does not parse
        is logged and leaves the map as it was. */
    method OnMessageReceive(topic: string, message: JsonText)
      modifies this`receivedOrders
      ensures Parse(message).None? ==> receivedOrders == old(receivedOrders)
      ensures Parse(message).Some? ==> receivedOrders == WithOrder(old(receivedOrders), Parse(message).value)
      ensures receivedOrders == Receive(old(receivedOrders), message)
    {
      var order: Order;
      match Parse(message) {
        case None =>
          return;
        case Some(o) =>
          order := o;
      }
      if order.table in receivedOrders {
        receivedOrders := receivedOrders[order.table := receivedOrders[order.table] + [order]];
      } else {
        receivedOrders := receivedOrders[order.table := [order]];
      }
    }
  }
}
