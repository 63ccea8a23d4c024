/** The queue-binding description every subscription builder produces from a
    subscription id, an HA flag and a list of topics (BuildQueue in
    BaseSubscriberConfigurationBuilder.cs, Build in Fluent/QueueBuilder.cs and
    its copy in IBus.cs). */
module SubscriptionQueue {
  import opened Primitives
  import opened Topology
  import opened Conventions

  /** The catch-all routing key of a topic exchange. */
  const CatchAll: string := "#"

  /** The queue argument that asks the broker to mirror the queue on every node. */
  const HaPolicyKey: string := "x-ha-policy"
  const HaArguments: map<string, string> := map[HaPolicyKey := "all"]

  /** Routing keys of the binding: the topics as given, or the catch-all. */
  function RoutingKeys(topics: seq<string>): (keys: seq<string>)
    ensures |topics| > 0 ==> keys == topics
    ensures |topics| == 0 ==> keys == [CatchAll]
    ensures |keys| > 0
  {
    if |topics| > 0 then topics else [CatchAll]
  }

  /** Queue arguments: the HA policy exactly when the flag is set. */
  function QueueArguments(isHa: bool): (arguments: map<string, string>)
    ensures HaPolicyKey in arguments <==> isHa
    ensures isHa ==> arguments == HaArguments && arguments[HaPolicyKey] == "all"
    ensures !isHa ==> arguments == map[]
  {
    if isHa then HaArguments else map[]
  }

  /** The subscription queue for messages of `messageType`: a durable queue
      named by the queue convention, bound once to the topic exchange named by
      the exchange convention. */
  function BuildQueue(conventions: NamingConventions, messageType: TypeId, subscriptionId: string,
                      isHa: bool, topics: seq<string>): (q: QueueDeclaration)
    ensures q.name == conventions.queueName(messageType, subscriptionId)
    ensures q.durable
    ensures q.arguments == QueueArguments(isHa)
    ensures HaPolicyKey in q.arguments <==> isHa
    ensures isHa ==> q.arguments[HaPolicyKey] == "all"
    ensures !isHa ==> q.arguments == map[]
    ensures |q.bindings| == 1
    ensures q.bindings[0].exchange == ExchangeDeclaration(conventions.exchangeName(messageType), Topic)
    ensures |topics| > 0 ==> q.bindings[0].routingKeys == topics
    ensures |topics| == 0 ==> q.bindings[0].routingKeys == [CatchAll]
  {
    var queue := DeclareDurable(conventions.queueName(messageType, subscriptionId), QueueArguments(isHa));
    var exchange := DeclareTopic(conventions.exchangeName(messageType));
    BindTo(queue, exchange, RoutingKeys(topics))
  }

  /** The subscription queue as one value. */
  lemma BuildQueueValue(conventions: NamingConventions, messageType: TypeId, subscriptionId: string,
                        isHa: bool, topics: seq<string>)
    ensures BuildQueue(conventions, messageType, subscriptionId, isHa, topics)
         == QueueDeclaration(conventions.queueName(messageType, subscriptionId), true, QueueArguments(isHa),
                             [Binding(DeclareTopic(conventions.exchangeName(messageType)), RoutingKeys(topics))])
  {
    var exchange := DeclareTopic(conventions.exchangeName(messageType));
    assert [] + [Binding(exchange, RoutingKeys(topics))] == [Binding(exchange, RoutingKeys(topics))];
  }
}
