/** The kitchen's order dispatcher: it subscribes to the order topic, takes
    inbound messages one at a time, spawns one handling task per PUBLISH
    packet and republishes each non-empty payload on the delivery topic.

    The `TaskGroup` is a pending list of spawned `handle_order` tasks that
    `Drain` runs when the group's scope ends; the random wait before each
    publish is a step that does nothing. The process-wide logger becomes the
    handler's `log`, a trace of the events it reports. */
module Kitchen {
  import opened Wrappers
  import opened Mqtt
  import opened TestClient
  import opened Seqs

  const ORDER_TOPIC: string := "restaurant/order"
  const DELIVER_TOPIC: string := "restaurant/deliver"

  datatype Level = Info | Error

  /** The events the dispatcher logs, one constructor per logging call. */
  datatype LogEvent =
    | ListeningForOrders
    | LoopStopped(fault: Fault)
    | MissingMessage
    | MissingPacket
    | ReceivedPacket(packet: PublishPacket)
    | ReceiveFailed(fault: Fault)
    | MissingPayload
    | PreparingOrder(packet: PublishPacket)
    | DeliveredOrder(packet: PublishPacket)

  function LevelOf(e: LogEvent): Level {
    match e
    case ListeningForOrders => Info
    case ReceivedPacket(_) => Info
    case PreparingOrder(_) => Info
    case DeliveredOrder(_) => Info
    case _ => Error
  }

  /** Python truthiness of `packet.data`: present and not `b""`. */
  predicate HasPayload(p: PublishPacket) {
    p.data.Some? && p.data.value != []
  }

  /** The publish one `handle_order(p)` makes: none for a missing or empty
      payload, otherwise the unchanged payload on the delivery topic. */
  function DeliveryOf(p: PublishPacket): seq<Publication> {
    if HasPayload(p) then [Publication(DELIVER_TOPIC, p.data.value, QOS_2)] else []
  }

  /** The publishes made by handling each packet in turn. */
  function Deliveries(ps: seq<PublishPacket>): seq<Publication> {
    FlatMap(ps, DeliveryOf)
  }

  function HandlingLog(p: PublishPacket): seq<LogEvent> {
    if HasPayload(p) then [PreparingOrder(p), DeliveredOrder(p)] else [MissingPayload]
  }

  function HandlingLogs(ps: seq<PublishPacket>): seq<LogEvent> {
    FlatMap(ps, HandlingLog)
  }

  /** Handling one more packet adds exactly its own publishes and log. */
  lemma HandledOneMore(done: seq<PublishPacket>, p: PublishPacket)
    ensures Deliveries(done + [p]) == Deliveries(done) + DeliveryOf(p)
    ensures HandlingLogs(done + [p]) == HandlingLogs(done) + HandlingLog(p)
  {
    assert [p][1..] == [];
    FlatMapAppend(done, [p], DeliveryOf);
    FlatMapAppend(done, [p], HandlingLog);
  }

  /** What one `listen_for_order` call does with what the client delivered:
      spawn a task for a packet, drop the message (logging an error), or let
      an exception escape. */
  datatype ListenOutcome = Spawn(packet: PublishPacket) | Drop(event: LogEvent) | Escape(fault: Fault)

  function ListenStep(received: Result<Option<ApplicationMessage>, Fault>): (o: ListenOutcome)
    ensures o.Spawn? <==> received.Success? && received.value.Some? && received.value.value.publishPacket.Some?
    ensures o.Spawn? ==> o.packet == received.value.value.publishPacket.value
    ensures o.Escape? <==> received.Failure? && !IsClientError(received.error)
    ensures o.Escape? ==> o.fault == received.error
    ensures o.Drop? ==> LevelOf(o.event) == Error
  {
    match received
    case Failure(e) => if IsClientError(e) then Drop(ReceiveFailed(e)) else Escape(e)
    case Success(None) => Drop(MissingMessage)
    case Success(Some(message)) =>
      match message.publishPacket
      case None => Drop(MissingPacket)
      case Some(packet) => Spawn(packet)
  }

  function Spawned(o: ListenOutcome): seq<PublishPacket> {
    if o.Spawn? then [o.packet] else []
  }

  function ListenLog(o: ListenOutcome): seq<LogEvent> {
    match o
    case Spawn(p) => [ReceivedPacket(p)]
    case Drop(e) => [e]
    case Escape(_) => []
  }

  /** What is spawned for one delivered message. */
  function SpawnedBy(m: Option<ApplicationMessage>): seq<PublishPacket> {
    Spawned(ListenStep(Success(m)))
  }

  function ListenedLog(m: Option<ApplicationMessage>): seq<LogEvent> {
    ListenLog(ListenStep(Success(m)))
  }

  /** The packets spawned by listening to each message in turn. */
  function Intake(msgs: seq<Option<ApplicationMessage>>): seq<PublishPacket> {
    FlatMap(msgs, SpawnedBy)
  }

  function IntakeLog(msgs: seq<Option<ApplicationMessage>>): seq<LogEvent> {
    FlatMap(msgs, ListenedLog)
  }

  /** Listening to one more buffered message extends the intake by what
      `ListenStep` makes of that message; only an empty buffer lets a fault
      escape, and that fault is the `IndexError` of `pop(0)`. */
  lemma {:induction false} ListenedOneMore(msgs: seq<Option<ApplicationMessage>>, k: nat)
    requires k <= |msgs|
    ensures var step := ListenStep(NextDelivery(msgs[k..]));
      && (step.Escape? <==> k == |msgs|)
      && (step.Escape? ==> step.fault == IndexError)
      && (k < |msgs| ==>
            && Intake(msgs[..k + 1]) == Intake(msgs[..k]) + Spawned(step)
            && IntakeLog(msgs[..k + 1]) == IntakeLog(msgs[..k]) + ListenLog(step))
  {
    if k < |msgs| {
      assert msgs[k..][0] == msgs[k];
      assert msgs[..k + 1] == msgs[..k] + [msgs[k]];
      assert [msgs[k]][1..] == [];
      FlatMapAppend(msgs[..k], [msgs[k]], SpawnedBy);
      FlatMapAppend(msgs[..k], [msgs[k]], ListenedLog);
    }
  }

  /** A message that ends in exactly one delivery publish. */
  predicate Deliverable(m: Option<ApplicationMessage>) {
    m.Some? && m.value.publishPacket.Some? && HasPayload(m.value.publishPacket.value)
  }

  function PayloadOf(m: Option<ApplicationMessage>): seq<byte>
    requires Deliverable(m)
  {
    m.value.publishPacket.value.data.value
  }

  lemma DeliveriesSplit(qs: seq<PublishPacket>, i: nat)
    requires i < |qs|
    ensures multiset(Deliveries(qs)) == multiset(DeliveryOf(qs[i])) + multiset(Deliveries(qs[..i] + qs[i + 1..]))
  {
    assert qs == qs[..i] + ([qs[i]] + qs[i + 1..]);
    FlatMapAppend(qs[..i], [qs[i]] + qs[i + 1..], DeliveryOf);
    FlatMapAppend([qs[i]], qs[i + 1..], DeliveryOf);
    FlatMapAppend(qs[..i], qs[i + 1..], DeliveryOf);
    assert FlatMap([qs[i]], DeliveryOf) == DeliveryOf(qs[i]);
  }

  lemma MultisetWithout<T>(ps: seq<T>, qs: seq<T>, i: nat)
    requires multiset(ps) == multiset(qs) && ps != [] && i < |qs| && qs[i] == ps[0]
    ensures multiset(ps[1..]) == multiset(qs[..i] + qs[i + 1..])
  {
    var x := ps[0];
    assert ps == [x] + ps[1..];
    assert multiset(ps) == multiset{x} + multiset(ps[1..]);
    assert qs == qs[..i] + [x] + qs[i + 1..];
    assert multiset(qs) == multiset(qs[..i]) + multiset{x} + multiset(qs[i + 1..]);
    var rest := qs[..i] + qs[i + 1..];
    assert multiset(rest) == multiset(qs[..i]) + multiset(qs[i + 1..]);
    forall y
      ensures multiset(ps[1..])[y] == multiset(rest)[y]
    {
      assert multiset(ps)[y] == multiset(qs)[y];
    }
  }

  /** Tasks may finish in any order: handling a permutation of the packets
      makes the same publishes, counted with multiplicity. */
  lemma {:induction false} DeliveriesPermutation(ps: seq<PublishPacket>, qs: seq<PublishPacket>)
    requires multiset(ps) == multiset(qs)
    ensures multiset(Deliveries(ps)) == multiset(Deliveries(qs))
    decreases |ps|
  {
    if ps != [] {
      assert ps[0] in multiset(qs);
      var i :| 0 <= i < |qs| && qs[i] == ps[0];
      MultisetWithout(ps, qs, i);
      DeliveriesPermutation(ps[1..], qs[..i] + qs[i + 1..]);
      DeliveriesSplit(qs, i);
    } else {
      assert qs == [];
    }
  }

  /** Every publish made by handling goes to the delivery topic at QoS 2 and
      carries the non-empty payload of one of the handled packets. */
  lemma {:induction false} DeliveriesShape(ps: seq<PublishPacket>)
    ensures forall d :: d in Deliveries(ps) ==>
      d.topic == DELIVER_TOPIC && d.qos == QOS_2 && d.payload != [] &&
      exists p :: p in ps && p.data == Some(d.payload)
  {
    if ps != [] {
      DeliveriesShape(ps[1..]);
      forall d | d in Deliveries(ps)
        ensures d.topic == DELIVER_TOPIC && d.qos == QOS_2 && d.payload != [] &&
          exists p :: p in ps && p.data == Some(d.payload)
      {
        if d in DeliveryOf(ps[0]) {
          assert ps[0] in ps;
        } else {
          assert d in Deliveries(ps[1..]);
          var p :| p in ps[1..] && p.data == Some(d.payload);
          assert p in ps;
        }
      }
    }
  }

  /** When every buffered message carries a non-empty packet, listening to
      all of them and handling the spawned tasks publishes each payload
      exactly once, in buffer order. */
  lemma {:induction false} IntakeDeliversEach(msgs: seq<Option<ApplicationMessage>>)
    requires forall i :: 0 <= i < |msgs| ==> Deliverable(msgs[i])
    ensures |Deliveries(Intake(msgs))| == |msgs|
    ensures forall i :: 0 <= i < |msgs| ==>
      Deliveries(Intake(msgs))[i] == Publication(DELIVER_TOPIC, PayloadOf(msgs[i]), QOS_2)
  {
    if msgs != [] {
      IntakeDeliversEach(msgs[1..]);
      var p := msgs[0].value.publishPacket.value;
      assert Intake(msgs) == [p] + Intake(msgs[1..]);
      FlatMapAppend([p], Intake(msgs[1..]), DeliveryOf);
      assert FlatMap([p], DeliveryOf) == [Publication(DELIVER_TOPIC, PayloadOf(msgs[0]), QOS_2)];
    }
  }

  /** Messages that are missing, lack a packet or have an empty payload lead
      to no publish at all. */
  lemma {:induction false} IntakeDropsUndeliverable(msgs: seq<Option<ApplicationMessage>>)
    requires forall i :: 0 <= i < |msgs| ==> !Deliverable(msgs[i])
    ensures Deliveries(Intake(msgs)) == []
  {
    if msgs != [] {
      IntakeDropsUndeliverable(msgs[1..]);
      FlatMapAppend(SpawnedBy(msgs[0]), Intake(msgs[1..]), DeliveryOf);
      assert Deliveries(SpawnedBy(msgs[0])) == [];
    }
  }

  /** The number of messages that end in a delivery publish. */
  function DeliverableCount(msgs: seq<Option<ApplicationMessage>>): nat {
    if msgs == [] then 0 else (if Deliverable(msgs[0]) then 1 else 0) + DeliverableCount(msgs[1..])
  }

  /** Listening to a buffer and handling every spawned task publishes once
      per deliverable message and never otherwise. */
  lemma {:induction false} IntakeDeliveryCount(msgs: seq<Option<ApplicationMessage>>)
    ensures |Deliveries(Intake(msgs))| == DeliverableCount(msgs)
  {
    if msgs != [] {
      IntakeDeliveryCount(msgs[1..]);
      FlatMapAppend(SpawnedBy(msgs[0]), Intake(msgs[1..]), DeliveryOf);
      assert |Deliveries(SpawnedBy(msgs[0]))| == if Deliverable(msgs[0]) then 1 else 0;
    }
  }

  /** The group of spawned `handle_order` tasks, each named by its packet. */
  class TaskGroup {
    var pending: seq<PublishPacket>

    constructor ()
      ensures pending == []
    {
      pending := [];
    }

    method CreateTask(packet: PublishPacket)
      modifies this`pending
      ensures pending == old(pending) + [packet]
    {
      pending := pending + [packet];
    }
  }

  class OrderHandler {
    const client: TestMqttClient
    const brokerUrl: string
    const minWait: real
    const maxWait: real
    var log: seq<LogEvent>

    constructor (client: TestMqttClient, brokerUrl: string, minWait: real := 2.0, maxWait: real := 8.0)
      ensures this.client == client && this.brokerUrl == brokerUrl
      ensures this.minWait == minWait && this.maxWait == maxWait
      ensures log == []
    {
      this.client := client;
      this.brokerUrl := brokerUrl;
      this.minWait := minWait;
      this.maxWait := maxWait;
      log := [];
    }

    /** Connect, then subscribe to the order topic; a failed connect
        propagates before any subscription is made. */
    method Connect() returns (r: Outcome<Fault>)
      modifies client`connectionEstablished, client`subscriptions
      ensures client.failConnection ==>
        r == Fail(ConnectError) && client.subscriptions == old(client.subscriptions) &&
        client.connectionEstablished == old(client.connectionEstablished)
      ensures !client.failConnection ==>
        r == Pass && client.connectionEstablished &&
        client.subscriptions == old(client.subscriptions) + [Subscription(ORDER_TOPIC, QOS_2)]
    {
      var connected := client.Connect(brokerUrl);
      if connected.Failure? {
        return Fail(connected.error);
      }
      var _ := client.Subscribe([Subscription(ORDER_TOPIC, QOS_2)]);
      return Pass;
    }

    /** Listen until an exception escapes `ListenForOrder`, then run every
        spawned task and close the connection. With the test client the
        loop ends when the buffer is empty. */
    method Loop()
      modifies this`log, client`messages, client`published, client`subscriptions, client`connectionEstablished
      ensures client.messages == []
      ensures client.published == old(client.published) + Deliveries(Intake(old(client.messages)))
      ensures client.subscriptions == Unsubscribed(old(client.subscriptions), [ORDER_TOPIC])
      ensures !client.connectionEstablished
      ensures log == old(log) + [ListeningForOrders] + IntakeLog(old(client.messages))
        + [LoopStopped(IndexError)] + HandlingLogs(Intake(old(client.messages)))
    {
      log := log + [ListeningForOrders];
      var group := new TaskGroup();
      ListenUntilStopped(group);
      assert group.pending == Intake(old(client.messages));
      Drain(group);
      Close();
    }

    /** The body of a task group's scope: listen again and again until a
        fault escapes, log it, and stop. With the test client that fault is
        the `IndexError` of an empty buffer. */
    method ListenUntilStopped(group: TaskGroup)
      modifies this`log, client`messages, group`pending
      ensures client.messages == []
      ensures group.pending == old(group.pending) + Intake(old(client.messages))
      ensures log == old(log) + IntakeLog(old(client.messages)) + [LoopStopped(IndexError)]
    {
      ghost var msgs := client.messages;
      ghost var k := 0;
      while true
        invariant k <= |msgs| && client.messages == msgs[k..]
        invariant group.pending == old(group.pending) + Intake(msgs[..k])
        invariant log == old(log) + IntakeLog(msgs[..k])
        decreases |client.messages|
      {
        ListenedOneMore(msgs, k);
        var r := ListenForOrder(group);
        if r.Fail? {
          assert k == |msgs| && r.error == IndexError;
          assert msgs[..k] == msgs;
          log := log + [LoopStopped(r.error)];
          break;
        }
        k := k + 1;
      }
    }

    /** Take one message from the client and spawn a handling task for its
        packet. A missing message or packet is logged and dropped, a
        `ClientError` is logged and swallowed, any other fault escapes. */
    method ListenForOrder(group: TaskGroup, timeout: Option<real> := None) returns (r: Outcome<Fault>)
      modifies this`log, client`messages, group`pending
      ensures client.messages == if old(client.messages) == [] then [] else old(client.messages)[1..]
      ensures var step := ListenStep(NextDelivery(old(client.messages)));
        && group.pending == old(group.pending) + Spawned(step)
        && log == old(log) + ListenLog(step)
        && r == if step.Escape? then Fail(step.fault) else Pass
    {
      var received := client.DeliverMessage(timeout);
      match ListenStep(received)
      case Escape(fault) =>
        return Fail(fault);
      case Drop(event) =>
        log := log + [event];
        return Pass;
      case Spawn(packet) =>
        log := log + [ReceivedPacket(packet)];
        group.CreateTask(packet);
        return Pass;
    }

    /** Handle one order: drop a missing or empty payload, otherwise wait
        (a step that does nothing here) and publish the payload unchanged. */
    method HandleOrder(packet: PublishPacket)
      modifies this`log, client`published
      ensures HasPayload(packet) ==>
        client.published == old(client.published) + [Publication(DELIVER_TOPIC, packet.data.value, QOS_2)]
      ensures !HasPayload(packet) ==> client.published == old(client.published)
      ensures log == old(log) + HandlingLog(packet)
    {
      if !HasPayload(packet) {
        log := log + [MissingPayload];
        return;
      }
      var payload := packet.data.value;
      log := log + [PreparingOrder(packet)];
      client.Publish(DELIVER_TOPIC, payload, QOS_2);
      log := log + [DeliveredOrder(packet)];
    }

    /** The end of a task group's scope: every pending task runs to
        completion before control moves on. */
    method Drain(group: TaskGroup)
      modifies this`log, client`published, group`pending
      ensures group.pending == []
      ensures client.published == old(client.published) + Deliveries(old(group.pending))
      ensures log == old(log) + HandlingLogs(old(group.pending))
    {
      ghost var done: seq<PublishPacket> := [];
      while group.pending != []
        invariant old(group.pending) == done + group.pending
        invariant client.published == old(client.published) + Deliveries(done)
        invariant log == old(log) + HandlingLogs(done)
        decreases |group.pending|
      {
        var packet := group.pending[0];
        group.pending := group.pending[1..];
        HandleOrder(packet);
        HandledOneMore(done, packet);
        done := done + [packet];
      }
      assert done + [] == done;
    }

    /** Unsubscribe from the order topic, then disconnect. */
    method Close()
      modifies client`subscriptions, client`connectionEstablished
      ensures client.subscriptions == Unsubscribed(old(client.subscriptions), [ORDER_TOPIC])
      ensures !client.connectionEstablished
    {
      client.Unsubscribe([ORDER_TOPIC]);
      client.Disconnect();
    }
  }
}
