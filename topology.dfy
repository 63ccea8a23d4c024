/** Queue and exchange declarations as recorded values. Declaring and binding
    are done by the topology layer, which is not part of this model; here a
    declaration is the description the core hands to it. */
module Topology {

  datatype ExchangeKind = Direct | Topic

  datatype ExchangeDeclaration = ExchangeDeclaration(name: string, kind: ExchangeKind)

  datatype Binding = Binding(exchange: ExchangeDeclaration, routingKeys: seq<string>)

  datatype QueueDeclaration = QueueDeclaration(
    name: string,
    durable: bool,
    arguments: map<string, string>,
    bindings: seq<Binding>)

  /** `Queue.DeclareDurable(name, arguments)`: a durable queue, not yet bound. */
  function DeclareDurable(name: string, arguments: map<string, string>): QueueDeclaration
  {
    QueueDeclaration(name, true, arguments, [])
  }

  /** `Exchange.DeclareTopic(name)`. */
  function DeclareTopic(name: string): ExchangeDeclaration
  {
    ExchangeDeclaration(name, Topic)
  }

  /** `Exchange.DeclareDirect(name)`. */
  function DeclareDirect(name: string): ExchangeDeclaration
  {
    ExchangeDeclaration(name, Direct)
  }

  /** `Exchange.GetDefault()`: the broker's nameless direct exchange. */
  function DefaultExchange(): ExchangeDeclaration
  {
    ExchangeDeclaration("", Direct)
  }

  /** `queue.BindTo(exchange, routingKeys)`: one more binding on the queue. */
  function BindTo(queue: QueueDeclaration, exchange: ExchangeDeclaration, routingKeys: seq<string>): QueueDeclaration
  {
    queue.(bindings := queue.bindings + [Binding(exchange, routingKeys)])
  }
}
