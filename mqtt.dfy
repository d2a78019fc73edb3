/** Value types shared by the kitchen backend and its test broker: the
    parts of amqtt's packets and messages that the dispatcher reads. */
module Mqtt {
  import opened Wrappers

  newtype byte = b: int | 0 <= b < 256

  /** amqtt's `QOS_2`, the exactly-once delivery level. */
  const QOS_2: int := 2

  /** A `(topic, qos)` pair as passed to `subscribe`. */
  datatype Subscription = Subscription(topic: string, qos: int)

  /** One record of a `publish` call: topic, payload and QoS. */
  datatype Publication = Publication(topic: string, payload: seq<byte>, qos: int)

  /** The PUBLISH packet carried by a delivered message; `data` is absent
      when the packet has no payload. */
  datatype PublishPacket = PublishPacket(topicName: string, packetId: int, data: Option<seq<byte>>)

  /** amqtt's `ApplicationMessage(packet_id, topic, qos, data, retain)`
      together with its `publish_packet` attribute, which may be absent. */
  datatype ApplicationMessage = ApplicationMessage(
    packetId: int, topic: string, qos: int, data: seq<byte>, retain: bool,
    publishPacket: Option<PublishPacket>)

  /** The exceptions the kitchen code distinguishes. `ConnectError` is
      amqtt's subclass of `ClientError`; `IndexError` is what `list.pop(0)`
      raises on an empty list. */
  datatype Fault = ConnectError | ClientError | IndexError

  /** True when an `except ClientError` clause catches the fault. */
  predicate IsClientError(f: Fault) {
    f.ConnectError? || f.ClientError?
  }
}
