/** `SubscriberConfiguration`: the mutable record every builder fills in and
    hands to the consumer. It gains an `isHa` field here, because
    BaseSubscriberConfigurationBuilder.cs sets one that the record as shown
    does not declare. */
module Configuration {
  import opened Primitives
  import opened Topology
  import opened Handlers

  /** Prefetch count of a fresh configuration. Zero is a legal setting that
      lifts the bound on local buffering; it is stored as given. */
  const DefaultPrefetchCount: UShort := 50

  /** A snapshot of the record's four properties. `None` is a property no
      builder has assigned (null in the source). */
  datatype ConfigValue = ConfigValue(
    queue: Option<QueueDeclaration>,
    onMessage: Option<RawHandler>,
    prefetchCount: UShort,
    isHa: bool)

  /** What the parameterless constructor yields. */
  function Initial(): (c: ConfigValue)
    ensures c.queue.None? && c.onMessage.None?
    ensures c.prefetchCount == 50 && !c.isHa
  {
    ConfigValue(None, None, DefaultPrefetchCount, false)
  }

  class SubscriberConfiguration {
    var queue: Option<QueueDeclaration>
    var onMessage: Option<RawHandler>
    var prefetchCount: UShort
    var isHa: bool

    function Value(): ConfigValue
      reads this
    {
      ConfigValue(queue, onMessage, prefetchCount, isHa)
    }

    constructor()
      ensures Value() == Initial()
    {
      queue, onMessage, prefetchCount, isHa := None, None, DefaultPrefetchCount, false;
    }

    method SetQueue(q: QueueDeclaration)
      modifies this
      ensures Value() == old(Value()).(queue := Some(q))
    {
      queue := Some(q);
    }

    method SetOnMessage(h: RawHandler)
      modifies this
      ensures Value() == old(Value()).(onMessage := Some(h))
    {
      onMessage := Some(h);
    }

    method SetPrefetchCount(n: UShort)
      modifies this
      ensures Value() == old(Value()).(prefetchCount := n)
    {
      prefetchCount := n;
    }

    method SetIsHa(b: bool)
      modifies this
      ensures Value() == old(Value()).(isHa := b)
    {
      isHa := b;
    }
  }
}
