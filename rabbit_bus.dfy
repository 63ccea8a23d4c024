/** RabbitBus (RabbitBus.cs): the constructor's argument guards, the simple
    `Subscribe`/`SubscribeAsync` overloads as chains on the staged fluent
    builder, and the RPC server side of `Respond`/`RespondAsync`. */
module Bus {
  import opened Primitives
  import opened Messages
  import opened Topology
  import opened Conventions
  import opened Handlers
  import opened Configuration
  import opened QueueBuilding
  import opened SubscriberRecipes
  import opened FluentStages
  import SubscriptionQueue

  /** `RpcExchange`. */
  const RpcExchange: string := "easy_net_q_rpc"

  /** The collaborators a constructed bus keeps and the model uses. */
  datatype RabbitBus = RabbitBus(serializeType: TypeId -> string, conventions: NamingConventions)

  /** The constructor: `serializeType`, `logger` and `conventions` are checked
      for null in that order; a null `advancedBus` is not checked and fails
      when its `Connected` event is subscribed to. */
  function Create(serializeType: Option<TypeId -> string>, loggerGiven: bool,
                  conventions: Option<NamingConventions>, advancedBusGiven: bool): (r: Result<RabbitBus>)
    ensures r.Ok? <==> serializeType.Some? && loggerGiven && conventions.Some? && advancedBusGiven
    ensures serializeType.None? ==> r == Err(ArgumentNull("serializeType"))
    ensures serializeType.Some? && !loggerGiven ==> r == Err(ArgumentNull("logger"))
    ensures serializeType.Some? && loggerGiven && conventions.None? ==> r == Err(ArgumentNull("conventions"))
    ensures serializeType.Some? && loggerGiven && conventions.Some? && !advancedBusGiven ==> r == Err(NullReference)
    ensures r.Ok? ==> r.value.serializeType == serializeType.value && r.value.conventions == conventions.value
  {
    if serializeType.None? then Err(ArgumentNull("serializeType"))
    else if !loggerGiven then Err(ArgumentNull("logger"))
    else if conventions.None? then Err(ArgumentNull("conventions"))
    else if !advancedBusGiven then Err(NullReference)
    else Ok(RabbitBus(serializeType.value, conventions.value))
  }

  /** `Subscribe(subscriptionId, onMessage)`: `b.Queue(subscriptionId).Handler(onMessage)`. */
  function Subscribe<T>(subscriptionId: string, onMessage: SyncAction<T>): seq<SubscriberCall<T>>
  {
    [QueueNamed(subscriptionId, None), Handler(onMessage)]
  }

  /** `Subscribe(subscriptionId, topic, onMessage)`. */
  function SubscribeTopic<T>(subscriptionId: string, topic: string, onMessage: SyncAction<T>): seq<SubscriberCall<T>>
  {
    [QueueNamed(subscriptionId, Some([WithTopic(topic)])), Handler(onMessage)]
  }

  /** `Subscribe(subscriptionId, topics, onMessage)`. */
  function SubscribeTopics<T>(subscriptionId: string, topics: seq<string>, onMessage: SyncAction<T>): seq<SubscriberCall<T>>
  {
    [QueueNamed(subscriptionId, Some([WithTopics(topics)])), Handler(onMessage)]
  }

  /** `SubscribeAsync(subscriptionId, onMessage)`. */
  function SubscribeAsync<T>(subscriptionId: string, onMessage: BodyHandler<T>): seq<SubscriberCall<T>>
  {
    [QueueNamed(subscriptionId, None), HandlerAsync(onMessage)]
  }

  /** `SubscribeAsync(subscriptionId, topic, onMessage)`. */
  function SubscribeAsyncTopic<T>(subscriptionId: string, topic: string, onMessage: BodyHandler<T>): seq<SubscriberCall<T>>
  {
    [QueueNamed(subscriptionId, Some([WithTopic(topic)])), HandlerAsync(onMessage)]
  }

  /** `SubscribeAsync(subscriptionId, topics, onMessage)`: the only overload
      that rejects a null handler. */
  function SubscribeAsyncTopics<T>(subscriptionId: string, topics: seq<string>, onMessage: Option<BodyHandler<T>>)
    : (r: Result<seq<SubscriberCall<T>>>)
    ensures onMessage.None? <==> r.Err?
    ensures r.Err? ==> r.error == ArgumentNull("onMessage")
    ensures r.Ok? ==> r.value == [QueueNamed(subscriptionId, Some([WithTopics(topics)])), HandlerAsync(onMessage.value)]
  {
    if onMessage.None? then Err(ArgumentNull("onMessage"))
    else Ok([QueueNamed(subscriptionId, Some([WithTopics(topics)])), HandlerAsync(onMessage.value)])
  }

  /** Every convenience overload is a chain the stage graph accepts up to
      `SubscriberBuilderComplete`, so it builds: the subscription queue of
      `subscriptionId` as its configuration action leaves the queue builder,
      the default prefetch of 50, and no HA flag. */
  lemma NamedSubscription<T(!new)>(subscriptionId: string, configuration: Option<seq<QueueBuilderCall>>,
                                   handler: SubscriberCall<T>, bc: BuildConfiguration<T>)
    requires handler.ChoosesHandler()
    ensures var calls := [QueueNamed(subscriptionId, configuration), handler];
      var r := Assemble(Run(NoRecipes<T>(), calls), bc);
      && Walk(calls) == Some(Complete)
      && r.Ok?
      && r.value.queue == Some(BuiltQueue(Replay(Fresh(subscriptionId), ConfigurationCalls(configuration)), bc))
      && r.value.onMessage == Some(Apply(NoRecipes<T>(), handler).buildMessageHandler.value(bc))
      && r.value.prefetchCount == DefaultPrefetchCount && !r.value.isHa
  {
    var calls := [QueueNamed(subscriptionId, configuration), handler];
    var first := calls[..1];
    assert first == [calls[0]] && first[..0] == [];
    assert Walk(first) == Some(WithQueue);
    assert Walk(calls) == Some(Complete);
    assert Run(NoRecipes<T>(), first) == Apply(NoRecipes<T>(), calls[0]);
    BuildReachable(calls, bc);
  }

  /** The bindings of the convenience overloads: one topic binds exactly
      that topic, a list binds its topics (or the catch-all when it is
      empty), and no topic binds the catch-all `#`. The queue is never HA,
      so it has no arguments. */
  lemma SubscribeRoutingKeys<T>(subscriptionId: string, topic: string, topics: seq<string>, bc: BuildConfiguration<T>)
    ensures BuiltQueue(Replay(Fresh(subscriptionId), ConfigurationCalls(None)), bc).bindings[0].routingKeys
            == [SubscriptionQueue.CatchAll]
    ensures BuiltQueue(Replay(Fresh(subscriptionId), ConfigurationCalls(Some([WithTopic(topic)]))), bc).bindings[0].routingKeys
            == [topic]
    ensures |topics| > 0 ==>
              BuiltQueue(Replay(Fresh(subscriptionId), ConfigurationCalls(Some([WithTopics(topics)]))), bc).bindings[0].routingKeys
              == topics
    ensures |topics| == 0 ==>
              BuiltQueue(Replay(Fresh(subscriptionId), ConfigurationCalls(Some([WithTopics(topics)]))), bc).bindings[0].routingKeys
              == [SubscriptionQueue.CatchAll]
    ensures BuiltQueue(Replay(Fresh(subscriptionId), ConfigurationCalls(None)), bc).arguments == map[]
    ensures BuiltQueue(Replay(Fresh(subscriptionId), ConfigurationCalls(Some([WithTopic(topic)]))), bc).arguments == map[]
    ensures BuiltQueue(Replay(Fresh(subscriptionId), ConfigurationCalls(Some([WithTopics(topics)]))), bc).arguments == map[]
  {
    assert [WithTopic(topic)][..0] == [];
    assert [WithTopics(topics)][..0] == [];
  }

  /** The whole queue a configuration action without `HighAvailability`
      calls leaves the builder to declare. */
  lemma ConvenienceQueue<T>(subscriptionId: string, calls: seq<QueueBuilderCall>, bc: BuildConfiguration<T>)
    requires forall i :: 0 <= i < |calls| ==> !SetsHa(calls[i])
    ensures BuiltQueue(Replay(Fresh(subscriptionId), calls), bc) == QueueDeclaration(
              bc.conventions.queueName(bc.messageType, subscriptionId), true, map[],
              [Binding(DeclareTopic(bc.conventions.exchangeName(bc.messageType)), SubscriptionQueue.RoutingKeys(TopicsOf(calls)))])
  {
    var s := Replay(Fresh(subscriptionId), calls);
    ReplayTopics(Fresh(subscriptionId), calls);
    HaDefault(Fresh(subscriptionId), calls);
    assert s == QueueBuilderState(subscriptionId, false, TopicsOf(calls));
    SubscriptionQueue.BuildQueueValue(bc.conventions, bc.messageType, subscriptionId, false, TopicsOf(calls));
  }

  /** What a convenience overload subscribes with: its chain reaches
      `SubscriberBuilderComplete` and builds the durable, argument-free queue
      of `subscriptionId`, bound once to the message type's topic exchange
      with `routingKeys`; the handler `onMessage`; prefetch 50; no HA. */
  ghost predicate SubscribedAs<T(!new)>(calls: seq<SubscriberCall<T>>, subscriptionId: string, bc: BuildConfiguration<T>,
                                  routingKeys: seq<string>, onMessage: RawHandler)
  {
    var r := Assemble(Run(NoRecipes<T>(), calls), bc);
    && Walk(calls) == Some(Complete)
    && r.Ok?
    && r.value.queue == Some(QueueDeclaration(
         bc.conventions.queueName(bc.messageType, subscriptionId), true, map[],
         [Binding(DeclareTopic(bc.conventions.exchangeName(bc.messageType)), routingKeys)]))
    && r.value.onMessage == Some(onMessage)
    && r.value.prefetchCount == DefaultPrefetchCount && !r.value.isHa
  }

  /** `Subscribe(subscriptionId, onMessage)` binds the catch-all and runs the
      action behind the type check. */
  lemma SubscribeBuilds<T(!new)>(subscriptionId: string, onMessage: SyncAction<T>, bc: BuildConfiguration<T>)
    ensures SubscribedAs(Subscribe(subscriptionId, onMessage), subscriptionId, bc,
                         [SubscriptionQueue.CatchAll], TypeChecked(bc, BodyAdapter(SyncAdapter(onMessage))))
  {
    NamedSubscription(subscriptionId, None, Handler(onMessage), bc);
    ConvenienceQueue(subscriptionId, [], bc);
  }

  /** `Subscribe(subscriptionId, topic, onMessage)` binds exactly that topic. */
  lemma SubscribeTopicBuilds<T(!new)>(subscriptionId: string, topic: string, onMessage: SyncAction<T>,
                                      bc: BuildConfiguration<T>)
    ensures SubscribedAs(SubscribeTopic(subscriptionId, topic, onMessage), subscriptionId, bc,
                         [topic], TypeChecked(bc, BodyAdapter(SyncAdapter(onMessage))))
  {
    NamedSubscription(subscriptionId, Some([WithTopic(topic)]), Handler(onMessage), bc);
    ConvenienceQueue(subscriptionId, [WithTopic(topic)], bc);
    assert [WithTopic(topic)][1..] == [];
    assert TopicsOf([WithTopic(topic)]) == [topic];
  }

  /** `Subscribe(subscriptionId, topics, onMessage)` binds the topics, or the
      catch-all when there are none. */
  lemma SubscribeTopicsBuilds<T(!new)>(subscriptionId: string, topics: seq<string>, onMessage: SyncAction<T>,
                                       bc: BuildConfiguration<T>)
    ensures SubscribedAs(SubscribeTopics(subscriptionId, topics, onMessage), subscriptionId, bc,
                         SubscriptionQueue.RoutingKeys(topics), TypeChecked(bc, BodyAdapter(SyncAdapter(onMessage))))
  {
    NamedSubscription(subscriptionId, Some([WithTopics(topics)]), Handler(onMessage), bc);
    ConvenienceQueue(subscriptionId, [WithTopics(topics)], bc);
    assert [WithTopics(topics)][1..] == [] && topics + [] == topics;
  }

  /** `SubscribeAsync(subscriptionId, onMessage)` binds the catch-all and
      calls the handler with the body behind the type check. */
  lemma SubscribeAsyncBuilds<T(!new)>(subscriptionId: string, onMessage: BodyHandler<T>, bc: BuildConfiguration<T>)
    ensures SubscribedAs(SubscribeAsync(subscriptionId, onMessage), subscriptionId, bc,
                         [SubscriptionQueue.CatchAll], TypeChecked(bc, BodyAdapter(onMessage)))
  {
    NamedSubscription(subscriptionId, None, HandlerAsync(onMessage), bc);
    ConvenienceQueue(subscriptionId, [], bc);
  }

  /** `SubscribeAsync(subscriptionId, topic, onMessage)` binds exactly that topic. */
  lemma SubscribeAsyncTopicBuilds<T(!new)>(subscriptionId: string, topic: string, onMessage: BodyHandler<T>,
                                           bc: BuildConfiguration<T>)
    ensures SubscribedAs(SubscribeAsyncTopic(subscriptionId, topic, onMessage), subscriptionId, bc,
                         [topic], TypeChecked(bc, BodyAdapter(onMessage)))
  {
    NamedSubscription(subscriptionId, Some([WithTopic(topic)]), HandlerAsync(onMessage), bc);
    ConvenienceQueue(subscriptionId, [WithTopic(topic)], bc);
    assert [WithTopic(topic)][1..] == [];
    assert TopicsOf([WithTopic(topic)]) == [topic];
  }

  /** `SubscribeAsync(subscriptionId, topics, onMessage)` with a handler binds
      the topics, or the catch-all when there are none. */
  lemma SubscribeAsyncTopicsBuilds<T(!new)>(subscriptionId: string, topics: seq<string>, onMessage: BodyHandler<T>,
                                            bc: BuildConfiguration<T>)
    ensures SubscribeAsyncTopics(subscriptionId, topics, Some(onMessage)).Ok?
    ensures SubscribedAs(SubscribeAsyncTopics(subscriptionId, topics, Some(onMessage)).value, subscriptionId, bc,
                         SubscriptionQueue.RoutingKeys(topics), TypeChecked(bc, BodyAdapter(onMessage)))
  {
    NamedSubscription(subscriptionId, Some([WithTopics(topics)]), HandlerAsync(onMessage), bc);
    ConvenienceQueue(subscriptionId, [WithTopics(topics)], bc);
    assert [WithTopics(topics)][1..] == [] && topics + [] == topics;
  }

  /** A responder delegate: it returns a task, or throws before returning one. */
  type Responder<-TRequest, TResponse> = TRequest -> Invocation<TResponse>

  /** The message handler `RespondAsync` subscribes with. It calls the
      responder on the request body; an exception the responder throws
      leaves the handler at once, and otherwise the handler hands back the
      request's completion task, which the continuation finishes later. */
  function RpcHandler<TRequest(!new), TResponse>(responder: Responder<TRequest, TResponse>): (h: MessageHandler<TRequest>)
    ensures forall m: Message<TRequest>, info: ReceivedInfo {:trigger h(m, info)} ::
      responder(m.body).Threw? ==> h(m, info) == Threw(responder(m.body).error)
    ensures forall m: Message<TRequest>, info: ReceivedInfo {:trigger h(m, info)} ::
      responder(m.body).Returned? ==> h(m, info) == Returned(Running)
  {
    (m: Message<TRequest>, info: ReceivedInfo) =>
      match responder(m.body)
      case Threw(e) => Threw(e)
      case Returned(_) => Returned(Running)
  }

  /** What `RespondAsync` sets up: the RPC exchange, the request queue, and
      the handler subscribed to it. */
  datatype RpcSubscription<!TRequest> = RpcSubscription(
    exchange: ExchangeDeclaration,
    queue: QueueDeclaration,
    handler: MessageHandler<TRequest>)

  /** `RespondAsync`: a null responder is rejected; otherwise a direct
      exchange `easy_net_q_rpc` and a durable queue named after the request
      type, bound to it with that same name as routing key. */
  function RespondAsync<TRequest(!new), TResponse>(bus: RabbitBus, requestType: TypeId,
                                                    responder: Option<Responder<TRequest, TResponse>>)
    : (r: Result<RpcSubscription<TRequest>>)
    ensures responder.None? <==> r.Err?
    ensures r.Err? ==> r.error == ArgumentNull("responder")
    ensures r.Ok? ==> r.value.exchange == ExchangeDeclaration(RpcExchange, Direct)
    ensures r.Ok? ==> var requestTypeName := bus.serializeType(requestType);
      && r.value.queue.name == requestTypeName && r.value.queue.durable && r.value.queue.arguments == map[]
      && r.value.queue.bindings == [Binding(r.value.exchange, [requestTypeName])]
    ensures r.Ok? ==> r.value.handler == RpcHandler(responder.value)
  {
    if responder.None? then Err(ArgumentNull("responder"))
    else
      var requestTypeName := bus.serializeType(requestType);
      var exchange := DeclareDirect(RpcExchange);
      var queue := BindTo(DeclareDurable(requestTypeName, map[]), exchange, [requestTypeName]);
      Ok(RpcSubscription(exchange, queue, RpcHandler(responder.value)))
  }

  /** The task-returning wrapper `Respond` puts around a synchronous
      responder. `Task.Factory.StartNew` returns at once; the task given here
      is the state that task ends in, which is all the continuation reads:
      the wrapper never throws itself, and its task completes with the
      response or faults with what the responder threw. */
  function SyncResponder<TRequest(!new), TResponse>(responder: TRequest -> Result<TResponse>)
    : (r: Responder<TRequest, TResponse>)
    ensures forall request: TRequest {:trigger r(request)} :: r(request).Returned?
    ensures forall request: TRequest {:trigger r(request)} ::
      responder(request).Ok? ==> r(request).task == Completed(responder(request).value)
    ensures forall request: TRequest {:trigger r(request)} ::
      responder(request).Err? ==> r(request).task == Faulted(responder(request).error)
  {
    (request: TRequest) =>
      match responder(request)
      case Ok(response) => Returned(Completed(response))
      case Err(e) => Returned(Faulted(e))
  }

  /** `Respond`: the null check, then `RespondAsync` on the wrapped responder. */
  function Respond<TRequest(!new), TResponse>(bus: RabbitBus, requestType: TypeId,
                                               responder: Option<TRequest -> Result<TResponse>>)
    : (r: Result<RpcSubscription<TRequest>>)
    ensures responder.None? ==> r == Err(ArgumentNull("responder"))
    ensures responder.Some? ==> r == RespondAsync(bus, requestType, Some(SyncResponder(responder.value)))
  {
    if responder.None? then Err(ArgumentNull("responder"))
    else RespondAsync(bus, requestType, Some(SyncResponder(responder.value)))
  }

  /** One `channel.Publish(exchange, routingKey, message)`. */
  datatype Publication<R> = Publication(exchange: ExchangeDeclaration, routingKey: Option<string>, message: Message<R>)

  /** What the continuation on the responder's task does next. */
  datatype ResponseAction<R> =
    | AwaitResponder                        // the responder's task has not finished; the continuation has not run
    | AwaitConnection                       // the continuation is polling `IsConnected`
    | PublishAndComplete(publication: Publication<R>)
    | FailCompletion(error: Exception)      // `tcs.SetException`; nothing is published
    | CancelCompletion                      // `tcs.SetCanceled`; nothing is published
    | ContinuationThrows(error: Exception)  // the continuation faults; `tcs` is never set

  /** The reply to a request: a fresh message carrying the response and the
      request's correlation id, sent to the default exchange with the
      request's reply-to address as routing key. */
  function Reply<R>(request: MessageProperties, response: R): (p: Publication<R>)
    ensures p.exchange == DefaultExchange() && p.routingKey == request.replyTo
    ensures p.message.body == response
    ensures p.message.properties == EmptyProperties.(correlationId := request.correlationId)
  {
    Publication(DefaultExchange(), request.replyTo,
                Message(response, EmptyProperties.(correlationId := request.correlationId)))
  }

  /** The state the request's completion task (`tcs.Task`) is left in. */
  function CompletionOf<R>(action: ResponseAction<R>): Task<()>
  {
    match action
    case PublishAndComplete(_) => Completed(())
    case FailCompletion(e) => Faulted(e)
    case CancelCompletion => Canceled
    case _ => Running
  }

  /** The continuation as written. A faulted task is the only failure it
      recognises; a canceled task falls into the success branch, where
      reading `task.Result` throws. */
  function ResponseDecisionAsWritten<R>(request: MessageProperties, outcome: Task<R>, connected: bool): ResponseAction<R>
  {
    match outcome
    case Running => AwaitResponder
    case Faulted(e) => FailCompletion(Aggregate(e))
    case Completed(response) => if !connected then AwaitConnection else PublishAndComplete(Reply(request, response))
    case Canceled => if !connected then AwaitConnection else ContinuationThrows(Aggregate(TaskCanceled))
  }

  /** As written, a canceled responder task leaves the request's completion
      unfinished forever once the bus is connected. */
  lemma CanceledResponderStrandsRequest<R>(request: MessageProperties)
    ensures ResponseDecisionAsWritten<R>(request, Canceled, true) == ContinuationThrows(Aggregate(TaskCanceled))
    ensures CompletionOf(ResponseDecisionAsWritten<R>(request, Canceled, true)) == Running
  {
  }

  /** The continuation with cancellation treated as a failure of its own: a
      faulted responder faults the completion and publishes nothing, a
      canceled one cancels it, and a successful one publishes exactly one
      reply, once connected, and then completes. */
  function ResponseDecision<R>(request: MessageProperties, outcome: Task<R>, connected: bool): (a: ResponseAction<R>)
    ensures outcome.Running? <==> a.AwaitResponder?
    ensures outcome.Faulted? ==> a == FailCompletion(Aggregate(outcome.error))
    ensures outcome.Canceled? ==> a == CancelCompletion
    ensures outcome.Completed? && !connected ==> a.AwaitConnection?
    ensures outcome.Completed? && connected ==> a == PublishAndComplete(Reply(request, outcome.result))
    ensures a.PublishAndComplete? ==> outcome.Completed? && connected
    ensures !outcome.Running? && (connected || !outcome.Completed?) ==> CompletionOf(a) != Running
    ensures outcome.Completed? ==> a == ResponseDecisionAsWritten(request, outcome, connected)
    ensures outcome.Faulted? ==> a == ResponseDecisionAsWritten(request, outcome, connected)
  {
    match outcome
    case Running => AwaitResponder
    case Faulted(e) => FailCompletion(Aggregate(e))
    case Completed(response) => if !connected then AwaitConnection else PublishAndComplete(Reply(request, response))
    case Canceled => CancelCompletion
  }

  /** The continuation run over the successive samples of `IsConnected`,
      one per 100 ms sleep. Only a completed responder task waits for the
      connection, since only it publishes; a faulted or canceled one decides
      at once. `polls` is how many samples said "disconnected"; a completed
      task that runs out of samples is still waiting. */
  method RespondContinuation<R>(request: MessageProperties, outcome: Task<R>, isConnected: seq<bool>)
    returns (action: ResponseAction<R>, polls: nat)
    ensures polls <= |isConnected|
    ensures forall k :: 0 <= k < polls ==> !isConnected[k]
    ensures outcome.Completed? ==> polls == |isConnected| || isConnected[polls]
    ensures !outcome.Completed? ==> polls == 0
    ensures outcome.Completed? ==> (action.AwaitConnection? <==> polls == |isConnected|)
    ensures action == ResponseDecision(request, outcome, polls < |isConnected|)
  {
    polls := 0;
    if !outcome.Completed? {
      action := ResponseDecision(request, outcome, 0 < |isConnected|);
      return;
    }
    while polls < |isConnected| && !isConnected[polls]
      invariant polls <= |isConnected|
      invariant forall k :: 0 <= k < polls ==> !isConnected[k]
    {
      polls := polls + 1;
    }
    action := ResponseDecision(request, outcome, polls < |isConnected|);
  }
}
