/** BaseSubscriberConfigurationBuilder: the state the standalone builders
    (Sync, Async, RawQueue, RawSubscriber) inherit. Dafny has no class
    inheritance here, so each standalone builder owns one of these objects and
    calls what the subclass would call on `base`. */
module BaseBuilder {
  import opened Primitives
  import opened Topology
  import opened Conventions
  import opened Configuration
  import SubscriptionQueue

  /** What the base `Build` yields: the HA flag copied, and the prefetch count
      that was set, if one ever was, else the record's default. */
  function BaseConfiguration(prefetchCount: Option<UShort>, isHa: bool): (c: ConfigValue)
    ensures c.queue.None? && c.onMessage.None?
    ensures c.isHa == isHa
    ensures prefetchCount.Some? ==> c.prefetchCount == prefetchCount.value
    ensures prefetchCount.None? ==> c.prefetchCount == DefaultPrefetchCount
  {
    var initial := Initial();
    match prefetchCount
    case None => initial.(isHa := isHa)
    case Some(n) => initial.(isHa := isHa, prefetchCount := n)
  }

  class BaseSubscriberConfigurationBuilder {
    /** Append-only: no operation removes or reorders a topic. */
    var topics: seq<string>
    /** `ushort?`: `None` until a subclass sets a prefetch count. */
    var prefetchCount: Option<UShort>
    var isHa: bool

    constructor()
      ensures topics == [] && prefetchCount.None? && !isHa
    {
      topics, prefetchCount, isHa := [], None, false;
    }

    /** `Topics.Add(topic)`. */
    method AddTopic(topic: string)
      modifies this
      ensures topics == old(topics) + [topic]
      ensures prefetchCount == old(prefetchCount) && isHa == old(isHa)
    {
      topics := topics + [topic];
    }

    /** `Topics.AddRange(newTopics)`. */
    method AddTopics(newTopics: seq<string>)
      modifies this
      ensures topics == old(topics) + newTopics
      ensures prefetchCount == old(prefetchCount) && isHa == old(isHa)
    {
      topics := topics + newTopics;
    }

    /** The `PrefetchCount` setter. */
    method SetPrefetchCount(n: UShort)
      modifies this
      ensures prefetchCount == Some(n)
      ensures topics == old(topics) && isHa == old(isHa)
    {
      prefetchCount := Some(n);
    }

    /** The `IsHa` setter. */
    method SetIsHa(b: bool)
      modifies this
      ensures isHa == b
      ensures topics == old(topics) && prefetchCount == old(prefetchCount)
    {
      isHa := b;
    }

    /** `Build()`: a new configuration carrying the HA flag and, when one was
        set, the prefetch count. */
    method Build() returns (c: SubscriberConfiguration)
      ensures fresh(c)
      ensures c.Value() == BaseConfiguration(prefetchCount, isHa)
    {
      c := new SubscriberConfiguration();
      c.SetIsHa(isHa);
      if prefetchCount.Some? {
        c.SetPrefetchCount(prefetchCount.value);
      }
    }

    /** `BuildQueue<T>(subscriptionId, conventions)` over the current topics
        and HA flag. */
    function BuildQueue(conventions: NamingConventions, messageType: TypeId, subscriptionId: string): QueueDeclaration
      reads this
    {
      SubscriptionQueue.BuildQueue(conventions, messageType, subscriptionId, isHa, topics)
    }
  }
}
