/** AsyncSubscriberBuilder<T>: a subscription by id with a task-returning
    handler. Its constructors validate their arguments. */
module AsyncSubscriber {
  import opened Primitives
  import opened Conventions
  import opened Handlers
  import opened Configuration
  import opened BaseBuilder
  import SubscriptionQueue

  /** The constructors' argument checks, in the order they run: the private
      constructor rejects a null subscription id before the public one looks
      at the handler. */
  function ArgumentCheck(subscriptionId: Option<string>, handlerGiven: bool): (e: Option<Exception>)
    ensures e.None? <==> subscriptionId.Some? && handlerGiven
    ensures subscriptionId.None? ==> e == Some(ArgumentNull("subscriptionId"))
    ensures subscriptionId.Some? && !handlerGiven ==> e == Some(ArgumentNull("onMessage"))
  {
    if subscriptionId.None? then Some(ArgumentNull("subscriptionId"))
    else if !handlerGiven then Some(ArgumentNull("onMessage"))
    else None
  }

  /** The configuration `Build` assembles: prefetch and HA from the base
      `Build`, the queue from `BuildQueue(subscriptionId)`, and the handler
      behind the type check. */
  function AsyncConfiguration<T(!new)>(topics: seq<string>, prefetchCount: Option<UShort>, isHa: bool,
                                       subscriptionId: string, onMessage: MessageHandler<T>,
                                       bc: BuildConfiguration<T>): (c: ConfigValue)
    ensures c.isHa == isHa
    ensures c.prefetchCount == if prefetchCount.Some? then prefetchCount.value else DefaultPrefetchCount
    ensures c.queue == Some(SubscriptionQueue.BuildQueue(bc.conventions, bc.messageType, subscriptionId, isHa, topics))
    ensures c.onMessage == Some(TypeChecked(bc, onMessage))
  {
    BaseConfiguration(prefetchCount, isHa).(
      queue := Some(SubscriptionQueue.BuildQueue(bc.conventions, bc.messageType, subscriptionId, isHa, topics)),
      onMessage := Some(TypeChecked(bc, onMessage)))
  }

  class AsyncSubscriberBuilder<T(!new)> {
    const subscriptionId: string
    const onMessage: MessageHandler<T>
    const base: BaseSubscriberConfigurationBuilder

    /** The state both public constructors reach once their checks pass. */
    constructor(subscriptionId: string, onMessage: MessageHandler<T>)
      ensures this.subscriptionId == subscriptionId && this.onMessage == onMessage
      ensures fresh(base)
      ensures base.topics == [] && base.prefetchCount.None? && !base.isHa
    {
      this.subscriptionId := subscriptionId;
      this.onMessage := onMessage;
      base := new BaseSubscriberConfigurationBuilder();
    }

    /** `new AsyncSubscriberBuilder<T>(subscriptionId, Func<IMessage<T>, MessageReceivedInfo, Task>)`. */
    static method FromMessageHandler(subscriptionId: Option<string>, onMessage: Option<MessageHandler<T>>)
      returns (r: Result<AsyncSubscriberBuilder<T>>)
      ensures r.Err? <==> ArgumentCheck(subscriptionId, onMessage.Some?).Some?
      ensures r.Err? ==> r.error == ArgumentCheck(subscriptionId, onMessage.Some?).value
      ensures r.Ok? ==> fresh(r.value) && fresh(r.value.base)
      ensures r.Ok? ==> r.value.subscriptionId == subscriptionId.value && r.value.onMessage == onMessage.value
      ensures r.Ok? ==> r.value.base.topics == [] && r.value.base.prefetchCount.None? && !r.value.base.isHa
    {
      var check := ArgumentCheck(subscriptionId, onMessage.Some?);
      if check.Some? {
        return Err(check.value);
      }
      var builder := new AsyncSubscriberBuilder(subscriptionId.value, onMessage.value);
      r := Ok(builder);
    }

    /** `new AsyncSubscriberBuilder<T>(subscriptionId, Func<T, Task>)`: the
        handler is adapted to be called with the message body only. */
    static method FromBodyHandler(subscriptionId: Option<string>, onMessage: Option<BodyHandler<T>>)
      returns (r: Result<AsyncSubscriberBuilder<T>>)
      ensures r.Err? <==> ArgumentCheck(subscriptionId, onMessage.Some?).Some?
      ensures r.Err? ==> r.error == ArgumentCheck(subscriptionId, onMessage.Some?).value
      ensures r.Ok? ==> fresh(r.value) && fresh(r.value.base)
      ensures r.Ok? ==> r.value.subscriptionId == subscriptionId.value && r.value.onMessage == BodyAdapter(onMessage.value)
      ensures r.Ok? ==> r.value.base.topics == [] && r.value.base.prefetchCount.None? && !r.value.base.isHa
    {
      var check := ArgumentCheck(subscriptionId, onMessage.Some?);
      if check.Some? {
        return Err(check.value);
      }
      var builder := new AsyncSubscriberBuilder(subscriptionId.value, BodyAdapter(onMessage.value));
      r := Ok(builder);
    }

    method WithTopics(topics: seq<string>) returns (self: AsyncSubscriberBuilder<T>)
      modifies base
      ensures self == this
      ensures base.topics == old(base.topics) + topics
      ensures base.prefetchCount == old(base.prefetchCount) && base.isHa == old(base.isHa)
    {
      base.AddTopics(topics);
      self := this;
    }

    method WithTopic(topic: string) returns (self: AsyncSubscriberBuilder<T>)
      modifies base
      ensures self == this
      ensures base.topics == old(base.topics) + [topic]
      ensures base.prefetchCount == old(base.prefetchCount) && base.isHa == old(base.isHa)
    {
      base.AddTopic(topic);
      self := this;
    }

    method WithPrefetchCount(prefetchCount: UShort) returns (self: AsyncSubscriberBuilder<T>)
      modifies base
      ensures self == this
      ensures base.prefetchCount == Some(prefetchCount)
      ensures base.topics == old(base.topics) && base.isHa == old(base.isHa)
    {
      base.SetPrefetchCount(prefetchCount);
      self := this;
    }

    method WithHa(isHa: bool) returns (self: AsyncSubscriberBuilder<T>)
      modifies base
      ensures self == this
      ensures base.isHa == isHa
      ensures base.topics == old(base.topics) && base.prefetchCount == old(base.prefetchCount)
    {
      base.SetIsHa(isHa);
      self := this;
    }

    method Build(bc: BuildConfiguration<T>) returns (c: SubscriberConfiguration)
      ensures fresh(c)
      ensures c.Value() == AsyncConfiguration(base.topics, base.prefetchCount, base.isHa, subscriptionId, onMessage, bc)
    {
      c := base.Build();
      c.SetQueue(base.BuildQueue(bc.conventions, bc.messageType, subscriptionId));
      c.SetOnMessage(TypeChecked(bc, onMessage));
    }
  }
}
