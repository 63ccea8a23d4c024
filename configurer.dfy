/** SubscriberConfigurer<T> (IBus.cs): the earlier single-object subscriber
    builder. One class implements three interfaces: ISubscriberConfigurer<T>
    (choose the queue, or set prefetch), IConfigurationWithQueue<T> (choose
    the handler) and ISubscriberConfigurationBuilder (set prefetch, build).
    Its state and assembly are the ones InternalSubscriberBuilder has, so it
    is specified by the same `Apply` and `Assemble`. */
module Configurer {
  import opened Primitives
  import opened Topology
  import opened Conventions
  import opened Handlers
  import opened Configuration
  import opened QueueBuilding
  import opened SubscriberRecipes

  /** The interface a caller holds after each call. */
  datatype ConfigurerStage = SubscriberConfigurer | ConfigurationWithQueue | ConfigurationBuilder

  /** What each interface offers and which interface its methods return. */
  function NextInterface<T>(stage: ConfigurerStage, call: SubscriberCall<T>): (r: Option<ConfigurerStage>)
    ensures call.ChoosesQueue() ==> (r.Some? <==> stage == SubscriberConfigurer)
    ensures call.ChoosesHandler() ==> (r.Some? <==> stage == ConfigurationWithQueue)
    ensures call.WithPrefetchCount? ==> (r.Some? <==> stage != ConfigurationWithQueue)
    ensures call.WithPrefetchCount? && r.Some? ==> r.value == stage
  {
    match stage
    case SubscriberConfigurer =>
      if call.ChoosesQueue() then Some(ConfigurationWithQueue)
      else if call.WithPrefetchCount? then Some(SubscriberConfigurer)
      else None
    case ConfigurationWithQueue =>
      if call.ChoosesHandler() then Some(ConfigurationBuilder) else None
    case ConfigurationBuilder =>
      if call.WithPrefetchCount? then Some(ConfigurationBuilder) else None
  }

  /** The interface a chain of calls from ISubscriberConfigurer<T> ends on. */
  function WalkInterfaces<T>(calls: seq<SubscriberCall<T>>): Option<ConfigurerStage>
  {
    if calls == [] then Some(SubscriberConfigurer)
    else
      match WalkInterfaces(calls[..|calls| - 1])
      case None => None
      case Some(stage) => NextInterface(stage, calls[|calls| - 1])
  }

  predicate OnlyPrefetch<T>(calls: seq<SubscriberCall<T>>)
  {
    forall i :: 0 <= i < |calls| ==> calls[i].WithPrefetchCount?
  }

  lemma OnlyPrefetchAppend<T>(calls: seq<SubscriberCall<T>>, call: SubscriberCall<T>)
    requires OnlyPrefetch(calls) && call.WithPrefetchCount?
    ensures OnlyPrefetch(calls + [call])
  {
  }

  /** A chain that stays on ISubscriberConfigurer made prefetch calls only. */
  lemma {:induction false} ShapeOnConfigurer<T>(calls: seq<SubscriberCall<T>>)
    requires WalkInterfaces(calls) == Some(SubscriberConfigurer)
    ensures OnlyPrefetch(calls)
  {
    if calls != [] {
      var init, last := calls[..|calls| - 1], calls[|calls| - 1];
      assert calls == init + [last];
      assert WalkInterfaces(init) == Some(SubscriberConfigurer) && last.WithPrefetchCount?;
      ShapeOnConfigurer(init);
      OnlyPrefetchAppend(init, last);
    }
  }

  /** A chain on IConfigurationWithQueue ends with its queue call, after
      prefetch calls only. */
  lemma ShapeOnConfigurationWithQueue<T>(calls: seq<SubscriberCall<T>>)
    requires WalkInterfaces(calls) == Some(ConfigurationWithQueue)
    ensures |calls| > 0 && calls[|calls| - 1].ChoosesQueue() && OnlyPrefetch(calls[..|calls| - 1])
  {
    var init := calls[..|calls| - 1];
    assert WalkInterfaces(init) == Some(SubscriberConfigurer);
    ShapeOnConfigurer(init);
  }

  /** A chain on ISubscriberConfigurationBuilder has one queue call directly
      followed by one handler call, and prefetch calls everywhere else. */
  lemma {:induction false} ShapeOnConfigurationBuilder<T>(calls: seq<SubscriberCall<T>>)
    requires WalkInterfaces(calls) == Some(ConfigurationBuilder)
    ensures exists q :: 0 <= q < |calls| - 1 && calls[q].ChoosesQueue() && calls[q + 1].ChoosesHandler()
              && OnlyPrefetch(calls[..q]) && OnlyPrefetch(calls[q + 2..])
  {
    var init, last := calls[..|calls| - 1], calls[|calls| - 1];
    assert calls == init + [last];
    if WalkInterfaces(init) == Some(ConfigurationWithQueue) {
      ShapeOnConfigurationWithQueue(init);
      var q := |calls| - 2;
      assert calls[q] == init[|init| - 1] && calls[q + 1] == last;
      assert calls[..q] == init[..|init| - 1];
      assert calls[q + 2..] == [];
    } else {
      assert WalkInterfaces(init) == Some(ConfigurationBuilder) && last.WithPrefetchCount?;
      ShapeOnConfigurationBuilder(init);
      var q :| 0 <= q < |init| - 1 && init[q].ChoosesQueue() && init[q + 1].ChoosesHandler()
        && OnlyPrefetch(init[..q]) && OnlyPrefetch(init[q + 2..]);
      assert calls[q] == init[q] && calls[q + 1] == init[q + 1];
      assert calls[..q] == init[..q];
      assert calls[q + 2..] == init[q + 2..] + [last];
      OnlyPrefetchAppend(init[q + 2..], last);
    }
  }

  /** The shape of every chain the interfaces accept: prefetch calls, then
      a queue call, then (once the queue is chosen) immediately a handler
      call, then prefetch calls again. */
  lemma InterfaceShape<T>(calls: seq<SubscriberCall<T>>)
    requires WalkInterfaces(calls).Some?
    ensures WalkInterfaces(calls) == Some(SubscriberConfigurer) ==> OnlyPrefetch(calls)
    ensures WalkInterfaces(calls) == Some(ConfigurationWithQueue) ==>
              |calls| > 0 && calls[|calls| - 1].ChoosesQueue() && OnlyPrefetch(calls[..|calls| - 1])
    ensures WalkInterfaces(calls) == Some(ConfigurationBuilder) ==>
              exists q :: 0 <= q < |calls| - 1 && calls[q].ChoosesQueue() && calls[q + 1].ChoosesHandler()
                && OnlyPrefetch(calls[..q]) && OnlyPrefetch(calls[q + 2..])
  {
    match WalkInterfaces(calls).value
    case SubscriberConfigurer => ShapeOnConfigurer(calls);
    case ConfigurationWithQueue => ShapeOnConfigurationWithQueue(calls);
    case ConfigurationBuilder => ShapeOnConfigurationBuilder(calls);
  }

  /** A chain ending on ISubscriberConfigurationBuilder has chosen a queue
      and a handler, so its `Build` succeeds. */
  lemma ConfigurerBuildReachable<T(!new)>(calls: seq<SubscriberCall<T>>, bc: BuildConfiguration<T>)
    requires WalkInterfaces(calls) == Some(ConfigurationBuilder)
    ensures Assemble(Run(NoRecipes<T>(), calls), bc).Ok?
  {
    InterfaceShape(calls);
    var q :| 0 <= q < |calls| - 1 && calls[q].ChoosesQueue() && calls[q + 1].ChoosesHandler()
      && OnlyPrefetch(calls[..q]) && OnlyPrefetch(calls[q + 2..]);
    BuildSucceedsIff(calls, bc);
  }

  class SubscriberConfigurer<T(!new)> {
    var buildQueue: Option<QueueRecipe<T>>
    var buildMessageHandler: Option<HandlerRecipe<T>>
    var prefetchCount: UShort

    function State(): RecipeState<T>
      reads this
    {
      RecipeState(buildQueue, buildMessageHandler, prefetchCount)
    }

    constructor()
      ensures State() == NoRecipes()
    {
      buildQueue, buildMessageHandler, prefetchCount := None, None, DefaultPrefetchCount;
    }

    method Queue(queue: QueueDeclaration) returns (self: SubscriberConfigurer<T>)
      modifies this
      ensures self == this
      ensures State() == Apply(old(State()), QueueGiven(queue))
    {
      buildQueue := Some(ExplicitQueue(queue));
      self := this;
    }

    /** `Queue(consumername, queueConfiguration)`: the configuration action,
        when given, runs once on a fresh queue builder. */
    method QueueNamed(consumerName: string, queueConfiguration: Option<seq<QueueBuilderCall>>)
      returns (self: SubscriberConfigurer<T>)
      modifies this
      ensures self == this
      ensures State() == Apply(old(State()), SubscriberCall.QueueNamed(consumerName, queueConfiguration))
    {
      var queueBuilder := new QueueBuilder(consumerName);
      if queueConfiguration.Some? {
        queueBuilder.Configure(queueConfiguration.value);
      }
      buildQueue := Some(NamedQueue(queueBuilder.State()));
      self := this;
    }

    method Handler(onMessage: SyncAction<T>) returns (self: SubscriberConfigurer<T>)
      modifies this
      ensures self == this
      ensures State() == Apply(old(State()), SubscriberCall.Handler(onMessage))
    {
      self := HandlerAsync(SyncAdapter(onMessage));
    }

    method HandlerAsync(onMessage: BodyHandler<T>) returns (self: SubscriberConfigurer<T>)
      modifies this
      ensures self == this
      ensures State() == Apply(old(State()), SubscriberCall.HandlerAsync(onMessage))
    {
      self := HandlerAsyncMessage(BodyAdapter(onMessage));
    }

    method HandlerAsyncMessage(onMessage: MessageHandler<T>) returns (self: SubscriberConfigurer<T>)
      modifies this
      ensures self == this
      ensures State() == Apply(old(State()), SubscriberCall.HandlerAsyncMessage(onMessage))
    {
      buildMessageHandler := Some(TypedRecipe(onMessage));
      self := this;
    }

    method HandlerAsyncRaw(onMessage: RawHandler) returns (self: SubscriberConfigurer<T>)
      modifies this
      ensures self == this
      ensures State() == Apply(old(State()), SubscriberCall.HandlerAsyncRaw(onMessage))
    {
      buildMessageHandler := Some(RawRecipe(onMessage));
      self := this;
    }

    /** Both explicit interface implementations of `WithPrefetchCount` write
        the same field, so they are one method here. */
    method WithPrefetchCount(prefetchCount: UShort) returns (self: SubscriberConfigurer<T>)
      modifies this
      ensures self == this
      ensures State() == Apply(old(State()), SubscriberCall.WithPrefetchCount(prefetchCount))
    {
      this.prefetchCount := prefetchCount;
      self := this;
    }

    /** `ISubscriberConfigurationBuilder.Build`. */
    method Build(bc: BuildConfiguration<T>) returns (r: Result<SubscriberConfiguration>)
      ensures r.Ok? <==> Assemble(State(), bc).Ok?
      ensures r.Err? ==> r.error == Assemble(State(), bc).error
      ensures r.Ok? ==> fresh(r.value) && r.value.Value() == Assemble(State(), bc).value
    {
      if buildQueue.None? || buildMessageHandler.None? {
        return Err(NullReference);
      }
      var c := new SubscriberConfiguration();
      c.SetQueue(buildQueue.value(bc));
      c.SetOnMessage(buildMessageHandler.value(bc));
      c.SetPrefetchCount(prefetchCount);
      r := Ok(c);
    }
  }
}
