# Restaurant order dispatch — a verified model

The restaurant system takes food orders from a browser, hands them to a kitchen over an MQTT broker, and shows deliveries in the browser grouped by table. This project models the sequential decision logic under the system's asyncio concurrency and proves properties of it:

- **Kitchen dispatcher** (`Kitchen`, from `backend/kitchen/order_handler.py`). An `OrderHandler` connects and subscribes to `restaurant/order`. It then receives messages one at a time. For each message with a PUBLISH packet it spawns one `handle_order` task in a `TaskGroup`. A task republishes a non-empty payload unchanged on `restaurant/deliver` at QoS 2. Shutdown unsubscribes and disconnects. The task group is a pending list of packets. `OrderHandler.Drain` runs that list when the group's scope ends. The handler's `log` field is a trace of what it logs, one event per logging call.
- **Broker state** (`TestClient`, from `backend/kitchen/tests/client.py`). The kitchen's test client records subscriptions, publishes, a FIFO message buffer and a connection flag. It is the broker the handler is modelled against. Its `unsubscribe` removes entries with `list.remove` while iterating over the same list. The model follows the Python list iterator exactly. An entry that slides into an index the iterator has already passed is never looked at. So for a two-entry list `[a, b]` of matching entries, `b` survives (`UnsubscribeAdjacentSurvivor`). Every matching entry is removed exactly when the list is *spaced*, that is, no two matching entries are neighbours (`UnsubscribeRemovesAllExactly`). Repeated entries do not affect this. The kitchen's single subscription is such a list.
- **Browser handler** (`Frontend`, from `frontend/src/lib/food_handler.ts`). `FoodHandler.OnMessageReceive` groups decoded orders by table, in place. JSON is abstract. A message body is either the serialisation of an order or text that does not parse (`JsonText`), so parsing a serialised order returns the same order.
- **Configuration** (`BackendConfig`, from `backend/config.py`). `GetConfigFromEnv` takes the environment as a map and applies the presence check of `get_config_from_env`. The `Config` record is a datatype, so its constructor stores each argument unchanged by construction.

`OrderHandlerTests` and `FoodHandlerTests` hold methods that build fresh objects, drive them, and prove in their `ensures` what is asserted about the result. Waits are fixed at zero throughout.
- Restating one repository test each: `ConnectSuccessful`, `ConnectFailure`, `CloseAfterConnect`, `SubscribesToDeliveries`, `SendsOrder`, `ReceivesSingleDelivery` and `ReceivesMultipleDeliveries`. The last three hold for any order, or any number of tables, rather than the test's constants.
- `DispatchOrders` restates `test_order_single` and `test_order_multiple` for any list of payloads.
- Going beyond the repository's tests, which have no counterpart: `DeliveryIsFifo`, `LoopDispatchesAll` and `GroupsDeliveries`.
- Helpers for these methods: the lemma `TestMessagesDispatch` and the methods `BufferTestMessages`, `ListenTimes` and `DeliverToNewTable`.

The model follows the code:
- the configuration check tests presence and non-emptiness only, despite the `int` annotations on `Config`: there is no numeric parse and no `min <= max` check;
- any exception other than `ClientError` that escapes `listen_for_order` ends the loop, and with the test client that is the `IndexError` raised when the buffer runs out.

## Model

| member | source | states |
|---|---|---|
| `TestClient.NextDelivery` | backend/kitchen/tests/client.py:42 | no contract; defines `self.messages.pop(0)`: the front message, or `IndexError` on an empty buffer |
| `TestClient.RemoveFirst` | backend/kitchen/tests/client.py:57 | defines `list.remove(x)` as dropping the first element equal to `x`; its contract states only that one element goes, and `RemoveFirstOne` and `RemoveFirstAt` say which |
| `TestClient.UnsubscribeFrom` | backend/kitchen/tests/client.py:55-57 | no contract; defines the `for … remove` loop from iterator index `i`: each index of the list as it is now is tested once, and a matching entry's first copy is removed |
| `TestClient.Unsubscribed` | backend/kitchen/tests/client.py:53-57 | no contract; `unsubscribe(topics)` as `UnsubscribeFrom` from index 0 |
| `TestClient.RemoveFirstOne` | backend/kitchen/tests/client.py:57 | `list.remove(x)` on a list holding `x` takes out exactly one occurrence of `x` and nothing else |
| `TestClient.RemoveFirstAt` | backend/kitchen/tests/client.py:57 | when index `i` is the first holding its value, `list.remove` of that value deletes index `i` |
| `TestClient.UnsubscribeKeepsOthers` | backend/kitchen/tests/client.py:53-57 | after `unsubscribe`, the entries whose topic was not listed are all still there, in order and with their multiplicity |
| `TestClient.UnsubscribeOnlyRemoves` | backend/kitchen/tests/client.py:53-57 | `unsubscribe` never adds an entry: the result's multiset is contained in the original's |
| `TestClient.UnsubscribeRemovesAll` | backend/kitchen/tests/client.py:53-57 | on any list where no two matching entries are neighbours, repeated entries included, `unsubscribe` leaves exactly the entries whose topic was not listed |
| `TestClient.UnsubscribeFromLeaves` | backend/kitchen/tests/client.py:55-57 | from any iterator index, a matching entry already passed or a neighbouring matching pair still ahead leaves some matching entry in the result |
| `TestClient.UnsubscribeRemovesAllExactly` | backend/kitchen/tests/client.py:53-57 | `unsubscribe` leaves exactly the non-matching entries if and only if no two matching entries are neighbours |
| `TestClient.UnsubscribeAdjacentSurvivor` | backend/kitchen/tests/client.py:55-57 | on the two-entry list `[a, b]` of matching entries, `b` survives, because the iterator skips the index `b` slides into |
| `TestClient.TestMqttClient.constructor` | backend/kitchen/tests/client.py:12-19 | empty subscriptions, publishes and buffer; not connected; `fail_connection` as given |
| `TestClient.TestMqttClient.BufferMessage` | backend/kitchen/tests/client.py:21-23 | the message is appended at the end of the buffer; no other field changes |
| `TestClient.TestMqttClient.Connect` | backend/kitchen/tests/client.py:26-38 | with `fail_connection` it fails with `ConnectError` and the connection flag is unchanged; otherwise it returns 0 and the flag is set |
| `TestClient.TestMqttClient.DeliverMessage` | backend/kitchen/tests/client.py:40-42 | returns and removes the front of the buffer; on an empty buffer it fails with `IndexError` and nothing changes |
| `TestClient.TestMqttClient.Subscribe` | backend/kitchen/tests/client.py:44-47 | appends the requested pairs in order, keeping entries already present, and answers `[0x80]` |
| `TestClient.TestMqttClient.Publish` | backend/kitchen/tests/client.py:49-51 | appends exactly one `(topic, payload, qos)` record; no other field changes |
| `TestClient.TestMqttClient.Unsubscribe` | backend/kitchen/tests/client.py:53-57 | the new list is the result of the Python iteration-with-removal on the old one; no other field changes |
| `TestClient.TestMqttClient.Disconnect` | backend/kitchen/tests/client.py:59-61 | clears the connection flag and touches neither subscriptions nor publishes |
| `Kitchen.ListenStep` | backend/kitchen/order_handler.py:70-84 | a task is spawned exactly when a message with a packet arrives, and for that packet; a fault escapes exactly when it is not a `ClientError`; every dropped message is logged at error level |
| `Kitchen.DeliveriesPermutation` | backend/kitchen/order_handler.py:52-58 | tasks may finish in any order: handling any permutation of the spawned packets makes the same publishes, counted with multiplicity |
| `Kitchen.DeliveryOf` | backend/kitchen/order_handler.py:94-102 | no contract; defines what one `handle_order` publishes: nothing for a missing or empty payload, else `("restaurant/deliver", payload, 2)` |
| `Kitchen.HandlingLog` | backend/kitchen/order_handler.py:94-103 | no contract; defines what one `handle_order` logs: one error for a missing or empty payload, else a preparing and a delivered event |
| `Kitchen.DeliveriesShape` | backend/kitchen/order_handler.py:94-102 | every publish from handling goes to `restaurant/deliver` at QoS 2 and carries the non-empty payload of one of the handled packets, byte for byte |
| `Kitchen.IntakeDeliversEach` | backend/kitchen/order_handler.py:71-102 | when every buffered message has a packet with a non-empty payload, listening to all of them and draining publishes each payload exactly once, in buffer order |
| `Kitchen.IntakeDropsUndeliverable` | backend/kitchen/order_handler.py:71-96 | missing messages, missing packets and empty payloads cause no publish |
| `Kitchen.IntakeDeliveryCount` | backend/kitchen/order_handler.py:71-102 | the number of publishes equals the number of messages that have a packet with a non-empty payload |
| `Kitchen.TaskGroup.constructor` | backend/kitchen/order_handler.py:52 | a new group has no pending task |
| `Kitchen.TaskGroup.CreateTask` | backend/kitchen/order_handler.py:82 | a new task is added after those already pending |
| `Kitchen.OrderHandler.constructor` | backend/kitchen/order_handler.py:17-36 | stores client, broker URL and the two wait bounds (2 and 8 by default) |
| `Kitchen.OrderHandler.Connect` | backend/kitchen/order_handler.py:38-47 | on success the client is connected and exactly `("restaurant/order", 2)` is added to its subscriptions; a failed connect propagates `ConnectError` and adds no subscription |
| `Kitchen.ListenedOneMore` | backend/kitchen/order_handler.py:70-84 | with the test client a fault escapes a listen exactly when the buffer is empty, and it is `IndexError`; otherwise the intake and log grow by what that one message yields |
| `Kitchen.HandledOneMore` | backend/kitchen/order_handler.py:86-103 | running one more task adds exactly that packet's publishes and log events |
| `Kitchen.OrderHandler.ListenUntilStopped` | backend/kitchen/order_handler.py:53-58 | listens until a fault escapes, logs it and stops: the whole buffer is consumed, one task is spawned per message with a packet, in order, and the stopping fault is `IndexError` |
| `Kitchen.OrderHandler.Loop` | backend/kitchen/order_handler.py:49-60 | listens until the buffer is exhausted, then drains and closes: every message is consumed, the publishes are those of every spawned task, the order topic is unsubscribed and the client disconnected |
| `Kitchen.OrderHandler.ListenForOrder` | backend/kitchen/order_handler.py:62-84 | consumes one message; spawns at most one task, exactly as `ListenStep` decides; a swallowed or dropped case returns normally with one error event logged |
| `Kitchen.OrderHandler.HandleOrder` | backend/kitchen/order_handler.py:86-103 | an empty or missing payload publishes nothing and logs an error; otherwise exactly one publish `("restaurant/deliver", payload, 2)` with the packet's bytes |
| `Kitchen.OrderHandler.Drain` | backend/kitchen/order_handler.py:52-58 | every pending task runs to completion; the publishes are exactly those of the pending packets |
| `Kitchen.OrderHandler.Close` | backend/kitchen/order_handler.py:105-108 | unsubscribes `restaurant/order`, then disconnects |
| `OrderHandlerTests.DeliveryIsFifo` | backend/kitchen/tests/client.py:21-42 | messages come back in the order they were buffered; one delivery too many fails with a fault that is not a `ClientError` |
| `OrderHandlerTests.ConnectSuccessful` | backend/kitchen/tests/test_order_handler.py:18-22 | after connect: connected, and the subscriptions are exactly `[("restaurant/order", 2)]` |
| `OrderHandlerTests.ConnectFailure` | backend/kitchen/tests/test_order_handler.py:24-29 | a failing connect raises `ConnectError` and leaves no subscription |
| `OrderHandlerTests.CloseAfterConnect` | backend/kitchen/tests/test_order_handler.py:31-36 | connect then close: not connected and no subscription |
| `OrderHandlerTests.TestMessagesDispatch` | backend/kitchen/tests/test_order_handler.py:53-70 | handling the tests' messages publishes every payload in order when none is empty, and nothing when all are empty |
| `OrderHandlerTests.ListenTimes` | backend/kitchen/tests/test_order_handler.py:67-69 | listening `n` times consumes `n` messages and spawns one task per packet among them, in order |
| `OrderHandlerTests.DispatchOrders` | backend/kitchen/tests/test_order_handler.py:38-71 | N buffered non-empty payloads, N listens and the group's end give exactly N publishes, the i-th carrying the i-th payload; all-empty payloads give none |
| `OrderHandlerTests.LoopDispatchesAll` | backend/kitchen/order_handler.py:49-60 | the loop over N buffered non-empty payloads publishes each once, in order; it consumes every message and ends disconnected with no subscription |
| `Frontend.Parse` | frontend/src/lib/food_handler.ts:53 | no contract; `JSON.parse` over the abstract `JsonText`: the order a serialised body carries, or no order for malformed text |
| `Frontend.Receive` | frontend/src/lib/food_handler.ts:50-63 | no contract; the map after one message: unchanged when the body does not parse, else `WithOrder` of the parsed order |
| `Frontend.Stringify` | frontend/src/lib/food_handler.ts:33 | the JSON text of an order parses back to the same order |
| `Frontend.WithOrder` | frontend/src/lib/food_handler.ts:58-62 | the order is appended at the end of its table's list, or starts a one-element list; the table becomes a key; every other table is unchanged |
| `Frontend.WithOrderTotal` | frontend/src/lib/food_handler.ts:58-62 | storing one order raises the total number of stored orders by exactly one |
| `Frontend.LookupWithOrder` | frontend/src/lib/food_handler.ts:58-62 | storing an order extends its own table's group by that order and leaves every other table's group as it was |
| `Frontend.WithNewTable` | frontend/src/lib/food_handler.ts:60-62 | an order for a table without an entry creates a one-element list and adds one table |
| `Frontend.ReceiveLookup` | frontend/src/lib/food_handler.ts:50-63 | after one message every table's group is its old group followed by the orders of that message for the table |
| `Frontend.GroupedKeys` | frontend/src/lib/food_handler.ts:58-62 | in a grouped map a table has an entry exactly when some received order names it |
| `Frontend.ReceiveKeepsGrouping` | frontend/src/lib/food_handler.ts:50-63 | if the map is the grouping by table of the orders so far, then after one message it is the grouping of those orders followed by the decoded one; a body that does not parse adds nothing |
| `Frontend.MqttClient.SubscribeAsync` | frontend/src/lib/food_handler.ts:25 | the requested topics are appended to what the broker saw subscribed |
| `Frontend.MqttClient.PublishAsync` | frontend/src/lib/food_handler.ts:34 | exactly one `(topic, message)` record is appended to what the broker saw published |
| `Frontend.MqttClient.OnMessage` | frontend/src/lib/food_handler.ts:18 | `client.on('message', …)` appends the handler to the client's registered message handlers |
| `Frontend.FoodHandler.constructor` | frontend/src/lib/food_handler.ts:16-19 | keeps the client, registers the new handler as the client's last message handler, and starts with no received orders |
| `Frontend.FoodHandler.Subscribe` | frontend/src/lib/food_handler.ts:24-26 | subscribes to exactly `restaurant/deliver` at QoS 2 |
| `Frontend.FoodHandler.SendOrder` | frontend/src/lib/food_handler.ts:32-35 | exactly one publish, to `restaurant/order`, whose body parses back to the order |
| `Frontend.FoodHandler.OnMessageReceive` | frontend/src/lib/food_handler.ts:50-63 | a body that does not parse leaves the map unchanged; a parsed order is stored in place as `WithOrder` says |
| `FoodHandlerTests.SubscribesToDeliveries` | frontend/src/lib/food_handler.spec.ts:27-39 | one subscription, to `restaurant/deliver` at QoS 2 |
| `FoodHandlerTests.SendsOrder` | frontend/src/lib/food_handler.spec.ts:41-57 | one publish, on `restaurant/order`, whose body parses to the sent order |
| `FoodHandlerTests.ReceivesSingleDelivery` | frontend/src/lib/food_handler.spec.ts:59-75 | one delivery: one table, holding exactly that order |
| `FoodHandlerTests.ReceivesMultipleDeliveries` | frontend/src/lib/food_handler.spec.ts:77-105 | one delivery for each table `0 .. n-1`: `n` keys, and table `i` holds exactly `[orders[i]]` |
| `FoodHandlerTests.GroupsDeliveries` | frontend/src/lib/food_handler.ts:50-63 | for any sequence of messages, each table holds exactly its decoded orders in arrival order, tables without orders have no key, and the total is the number of decoded orders |
| `BackendConfig.GetEnv` | backend/config.py:32-36 | no contract; `os.getenv(name)`: the value when the variable is set, else `None` |
| `BackendConfig.EnvVars` | backend/config.py:31-37 | no contract; the five looked-up values in the order min wait, max wait, broker URL, username, password |
| `BackendConfig.All` | backend/config.py:39 | Python's `all` over the looked-up values: true exactly when every value is set and non-empty |
| `BackendConfig.GetConfigFromEnv` | backend/config.py:23-44 | succeeds exactly when all five variables are set and non-empty; the record's fields are then min wait, max wait, broker URL, username, password, in that order and unchanged; otherwise `EnvironmentError` |
| `BackendConfig.EachVariableRequired` | backend/config.py:31-42 | any one of the five unset or empty, username and password included, is enough to fail |
| `BackendConfig.PresenceOnly` | backend/config.py:31-44 | success depends only on which of the five variables are set and non-empty |
| `BackendConfig.NoRangeCheck` | backend/config.py:39-44 | a minimum wait above the maximum (`"10"` and `"2"`) is accepted, and so are waits that are not numbers; both are kept verbatim |

## Left out

- asyncio scheduling is not modelled: task interleaving, cancellation of sibling tasks when one fails, and the order in which tasks finish. `Drain` runs pending tasks first-in first-out, and `DeliveriesPermutation` shows that any other completion order publishes the same multiset.
- `Kitchen.OrderHandler.Loop` and `Kitchen.OrderHandler.Drain` state the log order of a sequential drain, one task's events after another's. Under asyncio every task logs its preparing event (or its missing-payload error) before `asyncio.sleep` yields. So the program logs all of those before any delivered event, even with zero waits.
- The random wait (`random.uniform` and `asyncio.sleep`) is a step that does nothing. These are floats, randomness and wall-clock time. The wait bounds are only stored.
- The real amqtt and MQTT.js clients, wire encoding and QoS handshakes are not modelled; they are foreign libraries. The kitchen runs against the test client. The browser's `MqttClient` only records the subscribe and publish calls the broker sees.
- `TestMqttClient.Publish` records `(topic, payload, qos)`. The source's record also holds the `bytes` type object as a constant third element, which the model drops.
- The `timeout` argument of `listen_for_order` is passed on and ignored, as the test client ignores it.
- Exceptions raised by `publish` inside a task are not modelled, because the test client's `publish` never raises.
- `ConnectError` is treated as a subclass of `ClientError`, as amqtt declares it; amqtt is not part of this model. This only matters for real clients: the test client's `deliver_message` raises nothing but `IndexError`.
- Logging output (`backend/kitchen/util.py`) is not modelled: logging calls become events in `OrderHandler.log`, and the browser's `console.error` calls are not recorded.
- JSON parsing is not modelled. Text that parses to something other than an order (`null`, an object without `table`) is not modelled; `order.table` on such a value would throw or store under `undefined`. Tables are integers, so JavaScript numbers that are not integers are not modelled.
- `Frontend.FoodHandler.SendOrder` does not record the QoS of the publish. The call leaves it at the library's default.
- The received-orders map is a field of the handler and starts empty. In the source it is the module-level `receivedOrders` state, and the tests pass a map the code never uses.
- MQTT.js's dispatch of an incoming message to the registered handlers is not modelled; it happens inside the library. The constructor records the registration in `MqttClient.messageHandlers`. Deliveries are fed by calling `OnMessageReceive` on a handler, with `ReceivesSingleDelivery` calling the client's one registered handler.
- The browser module's start-up code (`frontend/src/lib/food_handler.ts:66-80`: connect and subscribe at import) and `close` (`endAsync`) are not modelled; they are single library calls.
- `backend/kitchen/main.py` (process wiring, `.env` loading, `float()` parsing), `backend/backend.py` (a stub), the Svelte state and UI tests, and `frontend/src/lib/types.ts` (used as datatypes only) are not part of this model.
