/** The staged fluent API: SubscriberBuilder, SubscriberBuilderWithQueue,
    SubscriberBuilderWithHandler and SubscriberBuilderComplete. Every stage
    wraps the same InternalSubscriberBuilder and moves to the next stage by
    returning a new wrapper around it. `Stage` and `Next` are the stage
    graph a caller outside the library sees. */
module FluentStages {
  import opened Primitives
  import opened Topology
  import opened Conventions
  import opened Handlers
  import opened Configuration
  import opened QueueBuilding
  import opened SubscriberRecipes
  import opened FluentInternal

  datatype Stage = Start | WithQueue | WithHandler | Complete
  {
    predicate HasQueue()
    {
      this == WithQueue || this == Complete
    }

    predicate HasHandler()
    {
      this == WithHandler || this == Complete
    }
  }

  /** The stage a public call leads to, or `None` when the stage does not
      offer that call. A queue is chosen exactly where none was yet, a
      handler exactly where none was yet, and
      `SubscriberBuilderWithHandler.WithPrefetchCount` is
      private, so no caller can set the prefetch count at that stage. */
  function Next<T>(stage: Stage, call: SubscriberCall<T>): (r: Option<Stage>)
    ensures call.ChoosesQueue() ==> (r.Some? <==> !stage.HasQueue())
    ensures call.ChoosesHandler() ==> (r.Some? <==> !stage.HasHandler())
    ensures r.Some? ==> r.value.HasQueue() == (stage.HasQueue() || call.ChoosesQueue())
    ensures r.Some? ==> r.value.HasHandler() == (stage.HasHandler() || call.ChoosesHandler())
    ensures stage == WithHandler && call.WithPrefetchCount? ==> r.None?
    ensures stage != WithHandler && call.WithPrefetchCount? ==> r == Some(stage)
  {
    match stage
    case Start =>
      if call.ChoosesQueue() then Some(WithQueue)
      else if call.ChoosesHandler() then Some(WithHandler)
      else Some(Start)
    case WithQueue =>
      if call.ChoosesHandler() then Some(Complete)
      else if call.WithPrefetchCount? then Some(WithQueue)
      else None
    case WithHandler =>
      if call.ChoosesQueue() then Some(Complete) else None
    case Complete =>
      if call.WithPrefetchCount? then Some(Complete) else None
  }

  /** The stage a chain of calls from `SubscriberBuilder` reaches, if every
      call is offered where it is made. */
  function Walk<T>(calls: seq<SubscriberCall<T>>): Option<Stage>
  {
    if calls == [] then Some(Start)
    else
      match Walk(calls[..|calls| - 1])
      case None => None
      case Some(stage) => Next(stage, calls[|calls| - 1])
  }

  /** What a stage says about the shared builder: a stage after a queue
      call holds a queue recipe, one after a handler call a handler recipe,
      and each was chosen at most once on the way. */
  lemma {:induction false} StageInvariant<T(!new)>(calls: seq<SubscriberCall<T>>)
    requires Walk(calls).Some?
    ensures var stage := Walk(calls).value;
      var s := Run(NoRecipes<T>(), calls);
      && QueueCalls(calls) == (if stage.HasQueue() then 1 else 0)
      && HandlerCalls(calls) == (if stage.HasHandler() then 1 else 0)
      && (s.buildQueue.Some? <==> stage.HasQueue())
      && (s.buildMessageHandler.Some? <==> stage.HasHandler())
  {
    if calls != [] {
      var init := calls[..|calls| - 1];
      assert Walk(init).Some?;
      StageInvariant(init);
    }
  }

  /** The type-state guarantee: a chain that reaches
      `SubscriberBuilderComplete` chose exactly one queue and exactly one
      handler, so its `Build` cannot fail. */
  lemma BuildReachable<T(!new)>(calls: seq<SubscriberCall<T>>, bc: BuildConfiguration<T>)
    requires Walk(calls) == Some(Complete)
    ensures QueueCalls(calls) == 1 && HandlerCalls(calls) == 1
    ensures Assemble(Run(NoRecipes<T>(), calls), bc).Ok?
  {
    StageInvariant(calls);
  }

  class SubscriberBuilder<T(!new)> {
    const builder: InternalSubscriberBuilder<T>

    constructor(internalSubscriberBuilder: InternalSubscriberBuilder<T>)
      ensures builder == internalSubscriberBuilder
    {
      builder := internalSubscriberBuilder;
    }

    method Queue(queue: QueueDeclaration) returns (next: SubscriberBuilderWithQueue<T>)
      modifies builder
      ensures fresh(next) && next.builder == builder
      ensures builder.State() == Apply(old(builder.State()), QueueGiven(queue))
    {
      var self := builder.Queue(queue);
      next := new SubscriberBuilderWithQueue(builder);
    }

    method QueueNamed(consumerName: string, queueConfiguration: Option<seq<QueueBuilderCall>>)
      returns (next: SubscriberBuilderWithQueue<T>)
      modifies builder
      ensures fresh(next) && next.builder == builder
      ensures builder.State() == Apply(old(builder.State()), SubscriberCall.QueueNamed(consumerName, queueConfiguration))
    {
      var self := builder.QueueNamed(consumerName, queueConfiguration);
      next := new SubscriberBuilderWithQueue(builder);
    }

    method Handler(onMessage: SyncAction<T>) returns (next: SubscriberBuilderWithHandler<T>)
      modifies builder
      ensures fresh(next) && next.builder == builder
      ensures builder.State() == Apply(old(builder.State()), SubscriberCall.Handler(onMessage))
    {
      var self := builder.Handler(onMessage);
      next := new SubscriberBuilderWithHandler(builder);
    }

    method HandlerAsync(onMessage: BodyHandler<T>) returns (next: SubscriberBuilderWithHandler<T>)
      modifies builder
      ensures fresh(next) && next.builder == builder
      ensures builder.State() == Apply(old(builder.State()), SubscriberCall.HandlerAsync(onMessage))
    {
      var self := builder.HandlerAsync(onMessage);
      next := new SubscriberBuilderWithHandler(builder);
    }

    method HandlerAsyncRaw(onMessage: RawHandler) returns (next: SubscriberBuilderWithHandler<T>)
      modifies builder
      ensures fresh(next) && next.builder == builder
      ensures builder.State() == Apply(old(builder.State()), SubscriberCall.HandlerAsyncRaw(onMessage))
    {
      var self := builder.HandlerAsyncRaw(onMessage);
      next := new SubscriberBuilderWithHandler(builder);
    }

    method HandlerAsyncMessage(onMessage: MessageHandler<T>) returns (next: SubscriberBuilderWithHandler<T>)
      modifies builder
      ensures fresh(next) && next.builder == builder
      ensures builder.State() == Apply(old(builder.State()), SubscriberCall.HandlerAsyncMessage(onMessage))
    {
      var self := builder.HandlerAsyncMessage(onMessage);
      next := new SubscriberBuilderWithHandler(builder);
    }

    method WithPrefetchCount(prefetchCount: UShort) returns (self: SubscriberBuilder<T>)
      modifies builder
      ensures self == this
      ensures builder.State() == old(builder.State()).(prefetchCount := prefetchCount)
    {
      var inner := builder.WithPrefetchCount(prefetchCount);
      self := this;
    }
  }

  class SubscriberBuilderWithQueue<T(!new)> {
    const builder: InternalSubscriberBuilder<T>

    constructor(internalSubscriberBuilder: InternalSubscriberBuilder<T>)
      ensures builder == internalSubscriberBuilder
    {
      builder := internalSubscriberBuilder;
    }

    method Handler(onMessage: SyncAction<T>) returns (next: SubscriberBuilderComplete<T>)
      modifies builder
      ensures fresh(next) && next.builder == builder
      ensures builder.State() == Apply(old(builder.State()), SubscriberCall.Handler(onMessage))
      ensures builder.buildQueue == old(builder.buildQueue)
    {
      var self := builder.Handler(onMessage);
      next := new SubscriberBuilderComplete(builder);
    }

    method HandlerAsync(onMessage: BodyHandler<T>) returns (next: SubscriberBuilderComplete<T>)
      modifies builder
      ensures fresh(next) && next.builder == builder
      ensures builder.State() == Apply(old(builder.State()), SubscriberCall.HandlerAsync(onMessage))
      ensures builder.buildQueue == old(builder.buildQueue)
    {
      var self := builder.HandlerAsync(onMessage);
      next := new SubscriberBuilderComplete(builder);
    }

    method HandlerAsyncRaw(onMessage: RawHandler) returns (next: SubscriberBuilderComplete<T>)
      modifies builder
      ensures fresh(next) && next.builder == builder
      ensures builder.State() == Apply(old(builder.State()), SubscriberCall.HandlerAsyncRaw(onMessage))
      ensures builder.buildQueue == old(builder.buildQueue)
    {
      var self := builder.HandlerAsyncRaw(onMessage);
      next := new SubscriberBuilderComplete(builder);
    }

    method HandlerAsyncMessage(onMessage: MessageHandler<T>) returns (next: SubscriberBuilderComplete<T>)
      modifies builder
      ensures fresh(next) && next.builder == builder
      ensures builder.State() == Apply(old(builder.State()), SubscriberCall.HandlerAsyncMessage(onMessage))
      ensures builder.buildQueue == old(builder.buildQueue)
    {
      var self := builder.HandlerAsyncMessage(onMessage);
      next := new SubscriberBuilderComplete(builder);
    }

    method WithPrefetchCount(prefetchCount: UShort) returns (self: SubscriberBuilderWithQueue<T>)
      modifies builder
      ensures self == this
      ensures builder.State() == old(builder.State()).(prefetchCount := prefetchCount)
    {
      var inner := builder.WithPrefetchCount(prefetchCount);
      self := this;
    }
  }

  class SubscriberBuilderWithHandler<T(!new)> {
    const builder: InternalSubscriberBuilder<T>

    constructor(internalSubscriberBuilder: InternalSubscriberBuilder<T>)
      ensures builder == internalSubscriberBuilder
    {
      builder := internalSubscriberBuilder;
    }

    method Queue(queue: QueueDeclaration) returns (next: SubscriberBuilderComplete<T>)
      modifies builder
      ensures fresh(next) && next.builder == builder
      ensures builder.State() == Apply(old(builder.State()), QueueGiven(queue))
      ensures builder.buildMessageHandler == old(builder.buildMessageHandler)
    {
      var self := builder.Queue(queue);
      next := new SubscriberBuilderComplete(builder);
    }

    method QueueNamed(consumerName: string, queueConfiguration: Option<seq<QueueBuilderCall>>)
      returns (next: SubscriberBuilderComplete<T>)
      modifies builder
      ensures fresh(next) && next.builder == builder
      ensures builder.State() == Apply(old(builder.State()), SubscriberCall.QueueNamed(consumerName, queueConfiguration))
      ensures builder.buildMessageHandler == old(builder.buildMessageHandler)
    {
      var self := builder.QueueNamed(consumerName, queueConfiguration);
      next := new SubscriberBuilderComplete(builder);
    }

    /** Private in the source: no caller outside the class reaches it, which
        is why `Next` offers no prefetch call at this stage. */
    method WithPrefetchCount(prefetchCount: UShort) returns (self: SubscriberBuilderWithHandler<T>)
      modifies builder
      ensures self == this
      ensures builder.State() == old(builder.State()).(prefetchCount := prefetchCount)
    {
      var inner := builder.WithPrefetchCount(prefetchCount);
      self := this;
    }
  }

  class SubscriberBuilderComplete<T(!new)> {
    const builder: InternalSubscriberBuilder<T>

    constructor(internalSubscriberBuilder: InternalSubscriberBuilder<T>)
      ensures builder == internalSubscriberBuilder
    {
      builder := internalSubscriberBuilder;
    }

    /** Exactly the shared builder's `Build`. */
    method Build(bc: BuildConfiguration<T>) returns (r: Result<SubscriberConfiguration>)
      ensures r.Ok? <==> Assemble(builder.State(), bc).Ok?
      ensures r.Err? ==> r.error == Assemble(builder.State(), bc).error
      ensures r.Ok? ==> fresh(r.value) && r.value.Value() == Assemble(builder.State(), bc).value
    {
      r := builder.Build(bc);
    }

    method WithPrefetchCount(prefetchCount: UShort) returns (self: SubscriberBuilderComplete<T>)
      modifies builder
      ensures self == this
      ensures builder.State() == old(builder.State()).(prefetchCount := prefetchCount)
    {
      var inner := builder.WithPrefetchCount(prefetchCount);
      self := this;
    }
  }
}
