/** SyncSubscriberBuilder<T>: a subscription by id with a synchronous
    `Action<T>` handler. */
module SyncSubscriber {
  import opened Primitives
  import opened Conventions
  import opened Handlers
  import opened Configuration
  import opened BaseBuilder
  import SubscriptionQueue

  /** The configuration `Build` assembles from the builder's state: prefetch
      and HA as the base `Build` leaves them, the subscription queue of
      `subscriptionId`, and the action behind the type check and the
      task-completion wrapper. */
  function SyncConfiguration<T(!new)>(topics: seq<string>, prefetchCount: Option<UShort>, isHa: bool,
                                      subscriptionId: string, onMessage: SyncAction<T>,
                                      bc: BuildConfiguration<T>): (c: ConfigValue)
    ensures c.isHa == isHa
    ensures c.prefetchCount == if prefetchCount.Some? then prefetchCount.value else DefaultPrefetchCount
    ensures c.queue == Some(SubscriptionQueue.BuildQueue(bc.conventions, bc.messageType, subscriptionId, isHa, topics))
    ensures c.onMessage == Some(TypeChecked(bc, BodyAdapter(SyncAdapter(onMessage))))
  {
    BaseConfiguration(prefetchCount, isHa).(
      queue := Some(SubscriptionQueue.BuildQueue(bc.conventions, bc.messageType, subscriptionId, isHa, topics)),
      onMessage := Some(TypeChecked(bc, BodyAdapter(SyncAdapter(onMessage)))))
  }

  class SyncSubscriberBuilder<T(!new)> {
    const subscriptionId: string
    const onMessage: SyncAction<T>
    const base: BaseSubscriberConfigurationBuilder

    /** Stores both arguments as given; nothing is validated. */
    constructor(subscriptionId: string, onMessage: SyncAction<T>)
      ensures this.subscriptionId == subscriptionId && this.onMessage == onMessage
      ensures fresh(base)
      ensures base.topics == [] && base.prefetchCount.None? && !base.isHa
    {
      this.subscriptionId := subscriptionId;
      this.onMessage := onMessage;
      base := new BaseSubscriberConfigurationBuilder();
    }

    method WithTopics(topics: seq<string>) returns (self: SyncSubscriberBuilder<T>)
      modifies base
      ensures self == this
      ensures base.topics == old(base.topics) + topics
      ensures base.prefetchCount == old(base.prefetchCount) && base.isHa == old(base.isHa)
    {
      base.AddTopics(topics);
      self := this;
    }

    method WithTopic(topic: string) returns (self: SyncSubscriberBuilder<T>)
      modifies base
      ensures self == this
      ensures base.topics == old(base.topics) + [topic]
      ensures base.prefetchCount == old(base.prefetchCount) && base.isHa == old(base.isHa)
    {
      base.AddTopic(topic);
      self := this;
    }

    method WithPrefetchCount(prefetchCount: UShort) returns (self: SyncSubscriberBuilder<T>)
      modifies base
      ensures self == this
      ensures base.prefetchCount == Some(prefetchCount)
      ensures base.topics == old(base.topics) && base.isHa == old(base.isHa)
    {
      base.SetPrefetchCount(prefetchCount);
      self := this;
    }

    method WithHa(isHa: bool) returns (self: SyncSubscriberBuilder<T>)
      modifies base
      ensures self == this
      ensures base.isHa == isHa
      ensures base.topics == old(base.topics) && base.prefetchCount == old(base.prefetchCount)
    {
      base.SetIsHa(isHa);
      self := this;
    }

    method Build(bc: BuildConfiguration<T>) returns (c: SubscriberConfiguration)
      ensures fresh(c)
      ensures c.Value() == SyncConfiguration(base.topics, base.prefetchCount, base.isHa, subscriptionId, onMessage, bc)
    {
      c := base.Build();
      c.SetQueue(base.BuildQueue(bc.conventions, bc.messageType, subscriptionId));
      c.SetOnMessage(TypeChecked(bc, BodyAdapter(SyncAdapter(onMessage))));
    }
  }
}
