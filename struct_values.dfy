/** The leaf structure values a node structure is built from. Each carries
    the name fields the node structure reads and, in `other`, whatever else
    the extraction layer recorded about it, which the node structure never
    inspects. For brevity one payload type `E` serves all four leaf kinds;
    no property of the model depends on the payloads. */
module StructValues {

  /** A node's outbound binding to a topic. */
  datatype PublisherStructValue<E> = PublisherStructValue(topicName: string, other: E)

  /** A node's inbound binding to a topic. */
  datatype SubscriptionStructValue<E> = SubscriptionStructValue(topicName: string, other: E)

  /** A named unit of logic run by the executor. */
  datatype CallbackStructValue<E> = CallbackStructValue(callbackName: string, other: E)

  /** A scheduling group: a name and its callbacks, in declared order. */
  datatype CallbackGroupStructValue<E> =
    CallbackGroupStructValue(callbackGroupName: string, callbacks: seq<CallbackStructValue<E>>, other: E)
}
