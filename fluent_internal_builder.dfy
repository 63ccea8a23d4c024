/** InternalSubscriberBuilder<T> (Fluent/InternalSubscriberBuilder.cs): the
    mutable object behind every stage of the fluent subscriber API. Its three
    fields are overwritten call by call; `State()` reads them as a
    `RecipeState`, and each method's effect is the matching `Apply`. */
module FluentInternal {
  import opened Primitives
  import opened Topology
  import opened Conventions
  import opened Handlers
  import opened Configuration
  import opened QueueBuilding
  import opened SubscriberRecipes

  class InternalSubscriberBuilder<T(!new)> {
    var buildQueue: Option<QueueRecipe<T>>
    var buildMessageHandler: Option<HandlerRecipe<T>>
    var prefetchCount: UShort

    function State(): RecipeState<T>
      reads this
    {
      RecipeState(buildQueue, buildMessageHandler, prefetchCount)
    }

    constructor()
      ensures State() == NoRecipes()
    {
      buildQueue, buildMessageHandler, prefetchCount := None, None, DefaultPrefetchCount;
    }

    /** `Queue(IQueue queue)`. */
    method Queue(queue: QueueDeclaration) returns (self: InternalSubscriberBuilder<T>)
      modifies this
      ensures self == this
      ensures State() == Apply(old(State()), QueueGiven(queue))
    {
      buildQueue := Some(ExplicitQueue(queue));
      self := this;
    }

    /** `Queue(consumername, queueConfiguration)`: a fresh queue builder, the
        configuration action run on it once when one is given, and its
        `Build` kept as the queue recipe. */
    method QueueNamed(consumerName: string, queueConfiguration: Option<seq<QueueBuilderCall>>)
      returns (self: InternalSubscriberBuilder<T>)
      modifies this
      ensures self == this
      ensures State() == Apply(old(State()), SubscriberCall.QueueNamed(consumerName, queueConfiguration))
    {
      var queueBuilder := new QueueBuilder(consumerName);
      if queueConfiguration.Some? {
        queueBuilder.Configure(queueConfiguration.value);
      }
      buildQueue := Some(NamedQueue(queueBuilder.State()));
      self := this;
    }

    /** `Handler(Action<T>)`: the action wrapped into a finished task, then
        handed to the body-handler overload. */
    method Handler(onMessage: SyncAction<T>) returns (self: InternalSubscriberBuilder<T>)
      modifies this
      ensures self == this
      ensures State() == Apply(old(State()), SubscriberCall.Handler(onMessage))
    {
      self := HandlerAsync(SyncAdapter(onMessage));
    }

    /** `HandlerAsync(Func<T, Task>)`: called with the message body only. */
    method HandlerAsync(onMessage: BodyHandler<T>) returns (self: InternalSubscriberBuilder<T>)
      modifies this
      ensures self == this
      ensures State() == Apply(old(State()), SubscriberCall.HandlerAsync(onMessage))
    {
      self := HandlerAsyncMessage(BodyAdapter(onMessage));
    }

    /** `HandlerAsync(Func<IMessage<T>, MessageReceivedInfo, Task>)`. */
    method HandlerAsyncMessage(onMessage: MessageHandler<T>) returns (self: InternalSubscriberBuilder<T>)
      modifies this
      ensures self == this
      ensures State() == Apply(old(State()), SubscriberCall.HandlerAsyncMessage(onMessage))
    {
      buildMessageHandler := Some(TypedRecipe(onMessage));
      self := this;
    }

    /** `HandlerAsync(Func<byte[], MessageProperties, MessageReceivedInfo, Task>)`. */
    method HandlerAsyncRaw(onMessage: RawHandler) returns (self: InternalSubscriberBuilder<T>)
      modifies this
      ensures self == this
      ensures State() == Apply(old(State()), SubscriberCall.HandlerAsyncRaw(onMessage))
    {
      buildMessageHandler := Some(RawRecipe(onMessage));
      self := this;
    }

    method WithPrefetchCount(prefetchCount: UShort) returns (self: InternalSubscriberBuilder<T>)
      modifies this
      ensures self == this
      ensures State() == Apply(old(State()), SubscriberCall.WithPrefetchCount(prefetchCount))
    {
      this.prefetchCount := prefetchCount;
      self := this;
    }

    /** `Build`: a new configuration from both recipes and the prefetch
        count, or the `NullReferenceException` of invoking an unset
        delegate. The builder itself is not changed. */
    method Build(bc: BuildConfiguration<T>) returns (r: Result<SubscriberConfiguration>)
      ensures r.Ok? <==> Assemble(State(), bc).Ok?
      ensures r.Err? ==> r.error == Assemble(State(), bc).error
      ensures r.Ok? ==> fresh(r.value) && r.value.Value() == Assemble(State(), bc).value
    {
      if buildQueue.None? || buildMessageHandler.None? {
        return Err(NullReference);
      }
      var c := new SubscriberConfiguration();
      c.SetQueue(buildQueue.value(bc));
      c.SetOnMessage(buildMessageHandler.value(bc));
      c.SetPrefetchCount(prefetchCount);
      r := Ok(c);
    }
  }
}
