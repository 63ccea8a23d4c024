/** The state that InternalSubscriberBuilder<T> (Fluent/) and
    SubscriberConfigurer<T> (IBus.cs) share: two deferred recipes, one for
    the queue and one for the message handler, each waiting for the build
    configuration, and a prefetch count. Every fluent call overwrites one of
    the three; `Build` runs both recipes. */
module SubscriberRecipes {
  import opened Primitives
  import opened Messages
  import opened Topology
  import opened Conventions
  import opened Handlers
  import opened Configuration
  import opened QueueBuilding

  /** `Func<BuildConfiguration, IQueue>`. */
  type QueueRecipe<!T> = BuildConfiguration<T> -> QueueDeclaration

  /** `Func<BuildConfiguration, Func<byte[], MessageProperties, MessageReceivedInfo, Task>>`. */
  type HandlerRecipe<!T> = BuildConfiguration<T> -> RawHandler

  /** `Queue(IQueue queue)`: the recipe ignores the build configuration and
      yields the given queue. */
  function ExplicitQueue<T(!new)>(queue: QueueDeclaration): (r: QueueRecipe<T>)
    ensures forall bc: BuildConfiguration<T> :: r(bc) == queue
  {
    bc => queue
  }

  /** `queueBuilder.Build` for a queue builder left in state `s` by the
      caller's configuration action. */
  function NamedQueue<T>(s: QueueBuilderState): QueueRecipe<T>
  {
    bc => BuiltQueue(s, bc)
  }

  /** The typed `HandlerAsync`: type check, deserialise, then the handler. */
  function TypedRecipe<T(!new)>(onMessage: MessageHandler<T>): HandlerRecipe<T>
  {
    bc => TypeChecked(bc, onMessage)
  }

  /** The raw `HandlerAsync`: the delegate itself, whatever the build
      configuration. */
  function RawRecipe<T(!new)>(onMessage: RawHandler): (r: HandlerRecipe<T>)
    ensures forall bc: BuildConfiguration<T> :: r(bc) == onMessage
  {
    bc => onMessage
  }

  /** One public call on the builder. `configuration` is the optional
      `Action<QueueBuilder<T>>`, given as the calls it makes on the queue
      builder. */
  datatype SubscriberCall<!T> =
    | QueueGiven(queue: QueueDeclaration)
    | QueueNamed(consumerName: string, configuration: Option<seq<QueueBuilderCall>>)
    | Handler(action: SyncAction<T>)
    | HandlerAsync(body: BodyHandler<T>)
    | HandlerAsyncMessage(onMessage: MessageHandler<T>)
    | HandlerAsyncRaw(raw: RawHandler)
    | WithPrefetchCount(prefetchCount: UShort)
  {
    predicate ChoosesQueue()
    {
      QueueGiven? || QueueNamed?
    }

    predicate ChoosesHandler()
    {
      Handler? || HandlerAsync? || HandlerAsyncMessage? || HandlerAsyncRaw?
    }
  }

  datatype RecipeState<!T> = RecipeState(
    buildQueue: Option<QueueRecipe<T>>,
    buildMessageHandler: Option<HandlerRecipe<T>>,
    prefetchCount: UShort)

  /** A new builder: no recipe yet (null delegates) and prefetch 50. */
  function NoRecipes<T>(): (s: RecipeState<T>)
    ensures s.buildQueue.None? && s.buildMessageHandler.None?
    ensures s.prefetchCount == 50
  {
    RecipeState(None, None, DefaultPrefetchCount)
  }

  /** A null configuration action makes no call. */
  function ConfigurationCalls(configuration: Option<seq<QueueBuilderCall>>): seq<QueueBuilderCall>
  {
    if configuration.Some? then configuration.value else []
  }

  /** The effect of one call: a queue call replaces the queue recipe, a
      handler call replaces the handler recipe, a prefetch call stores the
      count; nothing else changes. */
  function Apply<T(!new)>(s: RecipeState<T>, call: SubscriberCall<T>): (r: RecipeState<T>)
    ensures call.ChoosesQueue() ==>
              r.buildQueue.Some? && r.buildMessageHandler == s.buildMessageHandler && r.prefetchCount == s.prefetchCount
    ensures call.ChoosesHandler() ==>
              r.buildMessageHandler.Some? && r.buildQueue == s.buildQueue && r.prefetchCount == s.prefetchCount
    ensures call.WithPrefetchCount? ==>
              r == s.(prefetchCount := call.prefetchCount)
    ensures call.QueueGiven? ==> forall bc: BuildConfiguration<T> :: r.buildQueue.value(bc) == call.queue
    ensures call.HandlerAsyncRaw? ==> forall bc: BuildConfiguration<T> :: r.buildMessageHandler.value(bc) == call.raw
  {
    match call
    case QueueGiven(q) => s.(buildQueue := Some(ExplicitQueue(q)))
    case QueueNamed(name, cfg) => s.(buildQueue := Some(NamedQueue(Replay(Fresh(name), ConfigurationCalls(cfg)))))
    case Handler(action) => s.(buildMessageHandler := Some(TypedRecipe(BodyAdapter(SyncAdapter(action)))))
    case HandlerAsync(f) => s.(buildMessageHandler := Some(TypedRecipe(BodyAdapter(f))))
    case HandlerAsyncMessage(h) => s.(buildMessageHandler := Some(TypedRecipe(h)))
    case HandlerAsyncRaw(h) => s.(buildMessageHandler := Some(RawRecipe(h)))
    case WithPrefetchCount(n) => s.(prefetchCount := n)
  }

  /** The state after `calls` were made in order. */
  function Run<T(!new)>(s: RecipeState<T>, calls: seq<SubscriberCall<T>>): RecipeState<T>
  {
    if calls == [] then s else Apply(Run(s, calls[..|calls| - 1]), calls[|calls| - 1])
  }

  /** `Build`: both delegates are invoked, so a missing one throws
      `NullReferenceException`; otherwise the queue and handler the recipes
      yield, the current prefetch count, and no HA flag. */
  function Assemble<T(!new)>(s: RecipeState<T>, bc: BuildConfiguration<T>): (r: Result<ConfigValue>)
    ensures r.Ok? <==> s.buildQueue.Some? && s.buildMessageHandler.Some?
    ensures r.Err? ==> r.error == NullReference
    ensures r.Ok? ==> r.value.queue == Some(s.buildQueue.value(bc))
    ensures r.Ok? ==> r.value.onMessage == Some(s.buildMessageHandler.value(bc))
    ensures r.Ok? ==> r.value.prefetchCount == s.prefetchCount && !r.value.isHa
  {
    match (s.buildQueue, s.buildMessageHandler)
    case (Some(buildQueue), Some(buildMessageHandler)) =>
      Ok(Initial().(queue := Some(buildQueue(bc)), onMessage := Some(buildMessageHandler(bc)),
                    prefetchCount := s.prefetchCount))
    case _ => Err(NullReference)
  }

  predicate HasQueueCall<T>(calls: seq<SubscriberCall<T>>)
  {
    exists i :: 0 <= i < |calls| && calls[i].ChoosesQueue()
  }

  predicate HasHandlerCall<T>(calls: seq<SubscriberCall<T>>)
  {
    exists i :: 0 <= i < |calls| && calls[i].ChoosesHandler()
  }

  predicate HasPrefetchCall<T>(calls: seq<SubscriberCall<T>>)
  {
    exists i :: 0 <= i < |calls| && calls[i].WithPrefetchCount?
  }

  /** How many calls chose a queue, and how many a handler. */
  function QueueCalls<T>(calls: seq<SubscriberCall<T>>): nat
  {
    if calls == [] then 0
    else QueueCalls(calls[..|calls| - 1]) + if calls[|calls| - 1].ChoosesQueue() then 1 else 0
  }

  function HandlerCalls<T>(calls: seq<SubscriberCall<T>>): nat
  {
    if calls == [] then 0
    else HandlerCalls(calls[..|calls| - 1]) + if calls[|calls| - 1].ChoosesHandler() then 1 else 0
  }

  lemma {:induction false} RunAppend<T(!new)>(s: RecipeState<T>, first: seq<SubscriberCall<T>>, second: seq<SubscriberCall<T>>)
    ensures Run(s, first + second) == Run(Run(s, first), second)
  {
    if second == [] {
      assert first + second == first;
    } else {
      var init := second[..|second| - 1];
      RunAppend(s, first, init);
      assert (first + second)[..|first + second| - 1] == first + init;
    }
  }

  /** Calls that do not touch a field leave it as it was. */
  lemma {:induction false} Untouched<T(!new)>(s: RecipeState<T>, calls: seq<SubscriberCall<T>>)
    ensures !HasQueueCall(calls) ==> Run(s, calls).buildQueue == s.buildQueue
    ensures !HasHandlerCall(calls) ==> Run(s, calls).buildMessageHandler == s.buildMessageHandler
    ensures !HasPrefetchCall(calls) ==> Run(s, calls).prefetchCount == s.prefetchCount
  {
    if calls != [] {
      var init, last := calls[..|calls| - 1], calls[|calls| - 1];
      Untouched(s, init);
      if HasQueueCall(init) {
        var i :| 0 <= i < |init| && init[i].ChoosesQueue();
        assert calls[i] == init[i];
      }
      if HasHandlerCall(init) {
        var i :| 0 <= i < |init| && init[i].ChoosesHandler();
        assert calls[i] == init[i];
      }
      if HasPrefetchCall(init) {
        var i :| 0 <= i < |init| && init[i].WithPrefetchCount?;
        assert calls[i] == init[i];
      }
    }
  }

  /** No call ever clears a recipe: every queue or handler call installs
      one, and the other calls leave it alone. So this holds for any order
      of calls on the shared builder, including calls made through a stage
      object that was already used. */
  lemma {:induction false} RecipesPersist<T(!new)>(s: RecipeState<T>, calls: seq<SubscriberCall<T>>)
    ensures s.buildQueue.Some? ==> Run(s, calls).buildQueue.Some?
    ensures s.buildMessageHandler.Some? ==> Run(s, calls).buildMessageHandler.Some?
  {
    if calls != [] {
      RecipesPersist(s, calls[..|calls| - 1]);
    }
  }

  /** `WithPrefetchCount` is last-write-wins, zero included. */
  lemma PrefetchLastWriteWins<T(!new)>(s: RecipeState<T>, before: seq<SubscriberCall<T>>, n: UShort,
                                       after: seq<SubscriberCall<T>>)
    requires !HasPrefetchCall(after)
    ensures Run(s, before + [WithPrefetchCount(n)] + after).prefetchCount == n
  {
    RunAppend(s, before + [WithPrefetchCount(n)], after);
    RunAppend(s, before, [WithPrefetchCount(n)]);
    Untouched(Run(s, before + [WithPrefetchCount(n)]), after);
  }

  /** Without a prefetch call, `Build` uses 50. */
  lemma PrefetchDefault<T(!new)>(calls: seq<SubscriberCall<T>>)
    requires !HasPrefetchCall(calls)
    ensures Run(NoRecipes<T>(), calls).prefetchCount == DefaultPrefetchCount
  {
    Untouched(NoRecipes<T>(), calls);
  }

  /** A later queue choice replaces an earlier one: the queue recipe is the
      one installed by the last queue call. */
  lemma QueueChoiceLastWins<T(!new)>(s: RecipeState<T>, before: seq<SubscriberCall<T>>, call: SubscriberCall<T>,
                                     after: seq<SubscriberCall<T>>)
    requires call.ChoosesQueue() && !HasQueueCall(after)
    ensures Run(s, before + [call] + after).buildQueue == Apply(Run(s, before), call).buildQueue
  {
    RunAppend(s, before + [call], after);
    RunAppend(s, before, [call]);
    Untouched(Run(s, before + [call]), after);
  }

  /** A later handler choice replaces an earlier one. */
  lemma HandlerChoiceLastWins<T(!new)>(s: RecipeState<T>, before: seq<SubscriberCall<T>>, call: SubscriberCall<T>,
                                       after: seq<SubscriberCall<T>>)
    requires call.ChoosesHandler() && !HasHandlerCall(after)
    ensures Run(s, before + [call] + after).buildMessageHandler == Apply(Run(s, before), call).buildMessageHandler
  {
    RunAppend(s, before + [call], after);
    RunAppend(s, before, [call]);
    Untouched(Run(s, before + [call]), after);
  }

  /** A recipe is recorded exactly when some call chose it. */
  lemma {:induction false} Recorded<T(!new)>(calls: seq<SubscriberCall<T>>)
    ensures Run(NoRecipes<T>(), calls).buildQueue.Some? <==> HasQueueCall(calls)
    ensures Run(NoRecipes<T>(), calls).buildMessageHandler.Some? <==> HasHandlerCall(calls)
  {
    if calls != [] {
      var init, last := calls[..|calls| - 1], calls[|calls| - 1];
      Recorded(init);
      if HasQueueCall(init) {
        var i :| 0 <= i < |init| && init[i].ChoosesQueue();
        assert calls[i] == init[i];
      }
      if HasHandlerCall(init) {
        var i :| 0 <= i < |init| && init[i].ChoosesHandler();
        assert calls[i] == init[i];
      }
      if HasQueueCall(calls) && !last.ChoosesQueue() {
        var i :| 0 <= i < |calls| && calls[i].ChoosesQueue();
        assert init[i] == calls[i];
      }
      if HasHandlerCall(calls) && !last.ChoosesHandler() {
        var i :| 0 <= i < |calls| && calls[i].ChoosesHandler();
        assert init[i] == calls[i];
      }
    }
  }

  /** `Build` succeeds if and only if both a queue and a handler were chosen. */
  lemma BuildSucceedsIff<T(!new)>(calls: seq<SubscriberCall<T>>, bc: BuildConfiguration<T>)
    ensures Assemble(Run(NoRecipes<T>(), calls), bc).Ok? <==> HasQueueCall(calls) && HasHandlerCall(calls)
  {
    Recorded(calls);
  }

  /** A synchronous `Handler` call, once built: mismatched type names throw
      before the action runs, an undeserialisable body throws the
      deserializer's error, and otherwise the action's outcome becomes an
      already-finished task. */
  lemma SyncHandlerBuilt<T(!new)>(s: RecipeState<T>, action: SyncAction<T>, bc: BuildConfiguration<T>,
                                  body: Bytes, properties: MessageProperties, info: ReceivedInfo)
    ensures var h := Apply(s, Handler(action)).buildMessageHandler.value(bc);
      && (properties.typeName != Some(ExpectedTypeName(bc)) ==>
            h(body, properties, info) == Threw(InvalidMessageType(ExpectedTypeName(bc), properties.typeName)))
      && (properties.typeName == Some(ExpectedTypeName(bc)) && bc.deserialize(body).Err? ==>
            h(body, properties, info) == Threw(bc.deserialize(body).error))
      && (properties.typeName == Some(ExpectedTypeName(bc)) && bc.deserialize(body).Ok? ==>
            h(body, properties, info) == Returned(
              match action(bc.deserialize(body).value) case None => Completed(()) case Some(e) => Faulted(e)))
  {
    SyncDelivery(bc, action, body, properties, info);
  }
}
