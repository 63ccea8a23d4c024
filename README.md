# EasyNetQ subscriber configuration and RPC responder, in Dafny

This project models the part of EasyNetQ, a .NET client library for RabbitMQ, that turns what the application says about a subscription into a `SubscriberConfiguration`. That configuration holds:

- the queue to consume from;
- the raw `OnMessage` delegate;
- the prefetch count;
- the HA flag.

It also models what `RabbitBus` builds on top of that: the argument guards of its constructor, the `Subscribe`/`SubscribeAsync` convenience overloads, and the server side of `Respond`/`RespondAsync`. Last, it models the two consumer error strategies of the `UncleanShutdownBug` sample.

The model covers every builder the library ships:

- `BaseSubscriberConfigurationBuilder` and its four standalone builders (`SyncSubscriberBuilder`, `AsyncSubscriberBuilder`, `RawQueueBuilder`, `RawSubscriberBuilder`);
- the staged fluent API (`SubscriberBuilder` → `SubscriberBuilderWithQueue` / `SubscriberBuilderWithHandler` → `SubscriberBuilderComplete`) over the shared `InternalSubscriberBuilder`;
- the older single-object `SubscriberConfigurer` from `IBus.cs`;
- the `QueueBuilder` that a configuration action receives.

Objects whose fields the library overwrites are Dafny classes with `modifies` clauses: the builders, `SubscriberConfiguration`, `QueueBuilder` and the error strategy. Each class reads its fields as a value, `State()` or `Value()`. Its methods are specified against pure functions of that value:

- `QueueBuilding.Step` and `QueueBuilding.Replay` for the queue builder;
- `SubscriberRecipes.Apply`, `Run` and `Assemble` for the fluent builders;
- `FluentStages.Next` and `Walk` for the stage graph.

The lemmas state what holds over any sequence of calls: last write wins, topics are only ever appended, and a chain that reaches the final stage always builds.

Modelling choices:

- **Delegates.** The C# delegates (`Action<T>`, `Func<T, Task>`, the raw `Func<byte[], MessageProperties, MessageReceivedInfo, Task>`) are Dafny arrow types. A delegate that throws is modelled with `Invocation` (`Returned(task)` or `Threw(e)`); `SyncAction` returns `Option<Exception>`.
- **Parameters.** Serialisation, naming conventions and `SerializeType` are parameters: `BuildConfiguration.deserialize`, `NamingConventions`, and `serializeType: TypeId -> string`.
- **Nulls.** A null the source checks or dereferences is `None`.
- **Configuration actions.** The `Action<QueueBuilder<T>>` configuration action is the list of calls it makes on the builder.

The code behaves as follows, and the model keeps that behaviour:

- `Build` with a missing queue or handler does not raise a configuration error. It invokes a null delegate, which is `NullReference` here.
- Topics are a list, not a set: duplicates are kept in order.
- The fluent API has no `WithHa`. HA is set only through `QueueBuilder.HighAvailability` or the standalone builders' `WithHa`.
- `WithPrefetchCount` is not offered at every stage: `SubscriberBuilderWithHandler.WithPrefetchCount` is private.
- `BaseSubscriberConfigurationBuilder.Build` assigns `IsHa` on a `SubscriberConfiguration` that, as shown, does not declare it. The model gives the record an `isHa` field.

## Model

| member | source | states |
|---|---|---|
| SubscriptionQueue.RoutingKeys | Source/EasyNetQ/BaseSubscriberConfigurationBuilder.cs:79 | the binding's routing keys are the topics as given, or the single catch-all `#` when there are none; never empty |
| SubscriptionQueue.QueueArguments | Source/EasyNetQ/BaseSubscriberConfigurationBuilder.cs:68-75 | the `x-ha-policy` argument is present if and only if HA is requested, and its value is then `all`; otherwise there are no arguments |
| SubscriptionQueue.BuildQueue | Source/EasyNetQ/BaseSubscriberConfigurationBuilder.cs:62-84 | a durable queue named by the queue convention; `x-ha-policy` iff HA, with the value `all`, and no arguments at all otherwise; exactly one binding to the topic exchange named by the exchange convention, with the topics or `#` |
| SubscriptionQueue.BuildQueueValue | Source/EasyNetQ/BaseSubscriberConfigurationBuilder.cs:62-84 | the declaration as one whole value: name, durability, arguments and its single binding |
| Handlers.CheckMessageType | Source/EasyNetQ/BaseSubscriberConfigurationBuilder.cs:35-46 | the check passes iff the delivered type name equals the expected one (an absent name never matches); on mismatch it logs the error line and yields `InvalidMessageType(expected, actual)` |
| Handlers.TypeChecked | Source/EasyNetQ/Fluent/InternalSubscriberBuilder.cs:78-90 | the installed handler throws the type error before deserialising on a mismatch, throws the deserializer's error on a bad body, and otherwise returns exactly what the application handler returns for the decoded message with the delivery's properties |
| Handlers.BodyAdapter | Source/EasyNetQ/Fluent/InternalSubscriberBuilder.cs:73-76 | the adapted handler is called with the message body only and returns the body handler's invocation unchanged |
| Handlers.SyncAdapter | Source/EasyNetQ/SyncSubscriberBuilder.cs:65-78 | the wrapper around a synchronous action never throws; its task is completed iff the action returned, and faulted with the action's exception otherwise |
| Handlers.SyncDelivery | Source/EasyNetQ/Fluent/InternalSubscriberBuilder.cs:40-58 | end to end for a synchronous handler: a type mismatch throws without running the action; a decodable matching delivery runs the action on that body and completes, or faults with what it threw |
| Configuration.Initial | Source/EasyNetQ/SubscriberConfiguration.cs:14-19 | a fresh configuration has no queue, no handler, prefetch 50 and no HA |
| Configuration.SubscriberConfiguration.constructor | Source/EasyNetQ/SubscriberConfiguration.cs:16-19 | the new record's value is the initial configuration |
| Configuration.SubscriberConfiguration.SetQueue | Source/EasyNetQ/SubscriberConfiguration.cs:21 | only the queue changes |
| Configuration.SubscriberConfiguration.SetOnMessage | Source/EasyNetQ/SubscriberConfiguration.cs:23 | only the handler changes |
| Configuration.SubscriberConfiguration.SetPrefetchCount | Source/EasyNetQ/SubscriberConfiguration.cs:25 | only the prefetch count changes |
| Configuration.SubscriberConfiguration.SetIsHa | Source/EasyNetQ/BaseSubscriberConfigurationBuilder.cs:52 | only the HA flag changes |
| BaseBuilder.BaseConfiguration | Source/EasyNetQ/BaseSubscriberConfigurationBuilder.cs:48-60 | the base build copies the HA flag and takes the prefetch count that was set, or 50 when none ever was; no queue or handler yet |
| BaseBuilder.BaseSubscriberConfigurationBuilder.constructor | Source/EasyNetQ/BaseSubscriberConfigurationBuilder.cs:9-11 | no topics, no prefetch count set, not HA |
| BaseBuilder.BaseSubscriberConfigurationBuilder.AddTopic | Source/EasyNetQ/BaseSubscriberConfigurationBuilder.cs:13-19 | the topic is appended at the end; the other fields are unchanged |
| BaseBuilder.BaseSubscriberConfigurationBuilder.AddTopics | Source/EasyNetQ/BaseSubscriberConfigurationBuilder.cs:13-19 | the topics are appended in order; the other fields are unchanged |
| BaseBuilder.BaseSubscriberConfigurationBuilder.SetPrefetchCount | Source/EasyNetQ/BaseSubscriberConfigurationBuilder.cs:11 | the nullable prefetch count becomes the value; the other fields are unchanged |
| BaseBuilder.BaseSubscriberConfigurationBuilder.SetIsHa | Source/EasyNetQ/BaseSubscriberConfigurationBuilder.cs:21-33 | the HA flag becomes the value; the other fields are unchanged |
| BaseBuilder.BaseSubscriberConfigurationBuilder.Build | Source/EasyNetQ/BaseSubscriberConfigurationBuilder.cs:48-60 | a fresh record whose value is `BaseConfiguration` of the current state |
| SyncSubscriber.SyncConfiguration | Source/EasyNetQ/SyncSubscriberBuilder.cs:47-63 | the built record: HA as set, prefetch as set or 50, the subscription queue of the id, topics and HA flag, and the action behind the type check and task wrapper |
| SyncSubscriber.SyncSubscriberBuilder.constructor | Source/EasyNetQ/SyncSubscriberBuilder.cs:13-17 | id and action stored unvalidated over a fresh, empty base state |
| SyncSubscriber.SyncSubscriberBuilder.WithTopics | Source/EasyNetQ/SyncSubscriberBuilder.cs:19-23 | topics appended in order, prefetch and HA unchanged, the same builder returned |
| SyncSubscriber.SyncSubscriberBuilder.WithTopic | Source/EasyNetQ/SyncSubscriberBuilder.cs:25-29 | one topic appended, prefetch and HA unchanged, the same builder returned |
| SyncSubscriber.SyncSubscriberBuilder.WithPrefetchCount | Source/EasyNetQ/SyncSubscriberBuilder.cs:31-35 | prefetch set, topics and HA unchanged |
| SyncSubscriber.SyncSubscriberBuilder.WithHa | Source/EasyNetQ/SyncSubscriberBuilder.cs:41-45 | HA set, topics and prefetch unchanged |
| SyncSubscriber.SyncSubscriberBuilder.Build | Source/EasyNetQ/SyncSubscriberBuilder.cs:47-63 | a fresh record equal to `SyncConfiguration` of the builder's state |
| AsyncSubscriber.ArgumentCheck | Source/EasyNetQ/AsyncSubscriberBuilder.cs:13-43 | construction fails iff the id or the handler is null; a null id is reported first (`subscriptionId`), then a null handler (`onMessage`) |
| AsyncSubscriber.AsyncConfiguration | Source/EasyNetQ/AsyncSubscriberBuilder.cs:73-87 | the built record: HA as set, prefetch as set or 50, the subscription queue, and the handler behind the type check |
| AsyncSubscriber.AsyncSubscriberBuilder.constructor | Source/EasyNetQ/AsyncSubscriberBuilder.cs:13-21 | id and handler stored over a fresh, empty base state |
| AsyncSubscriber.AsyncSubscriberBuilder.FromMessageHandler | Source/EasyNetQ/AsyncSubscriberBuilder.cs:23-32 | fails exactly with `ArgumentCheck`'s error; otherwise a fresh builder holding the handler as given |
| AsyncSubscriber.AsyncSubscriberBuilder.FromBodyHandler | Source/EasyNetQ/AsyncSubscriberBuilder.cs:34-43 | fails exactly with `ArgumentCheck`'s error; otherwise a fresh builder holding the body handler adapted to whole messages |
| AsyncSubscriber.AsyncSubscriberBuilder.WithTopics | Source/EasyNetQ/AsyncSubscriberBuilder.cs:45-49 | topics appended in order, prefetch and HA unchanged |
| AsyncSubscriber.AsyncSubscriberBuilder.WithTopic | Source/EasyNetQ/AsyncSubscriberBuilder.cs:51-55 | one topic appended, prefetch and HA unchanged |
| AsyncSubscriber.AsyncSubscriberBuilder.WithPrefetchCount | Source/EasyNetQ/AsyncSubscriberBuilder.cs:57-61 | prefetch set, topics and HA unchanged |
| AsyncSubscriber.AsyncSubscriberBuilder.WithHa | Source/EasyNetQ/AsyncSubscriberBuilder.cs:67-71 | HA set, topics and prefetch unchanged |
| AsyncSubscriber.AsyncSubscriberBuilder.Build | Source/EasyNetQ/AsyncSubscriberBuilder.cs:73-87 | a fresh record equal to `AsyncConfiguration` of the builder's state |
| RawBuilders.RawQueueBuilder.Configuration | Source/EasyNetQ/RawQueueBuilder.cs:20-36 | the queue exactly as supplied, the handler behind the type check, and prefetch 50 and no HA because no setter is used |
| RawBuilders.RawQueueBuilder.Build | Source/EasyNetQ/RawQueueBuilder.cs:20-36 | a fresh record equal to that configuration |
| RawBuilders.RawSubscriberBuilder.Configuration | Source/EasyNetQ/RawSubscriberBuilder.cs:20-26 | the queue and the raw delegate exactly as supplied, no type check, prefetch 50, no HA, whatever the build configuration |
| RawBuilders.RawSubscriberBuilder.Build | Source/EasyNetQ/RawSubscriberBuilder.cs:20-26 | a fresh record equal to that configuration |
| QueueBuilding.ReplayTopics | Source/EasyNetQ/Fluent/QueueBuilder.cs:26-36 | after any calls, the builder's topics are the earlier ones followed by every topic named, in call order, duplicates kept; the subscription id never changes |
| QueueBuilding.HaLastWriteWins | Source/EasyNetQ/Fluent/QueueBuilder.cs:20-24 | the HA flag is the value of the last `HighAvailability` call |
| QueueBuilding.HaDefault | Source/EasyNetQ/Fluent/QueueBuilder.cs:11-14 | without a `HighAvailability` call the flag keeps its initial value (false for a new builder) |
| QueueBuilding.ConfiguredQueue | Source/EasyNetQ/Fluent/QueueBuilder.cs:38-60 | a queue configured by any calls is named by the convention, has one binding whose keys are all topics named in order or `#`, and has no arguments when no `HighAvailability` call was made |
| QueueBuilding.QueueBuilder.constructor | Source/EasyNetQ/Fluent/QueueBuilder.cs:11-14 | a new builder for the id: not HA, no topics |
| QueueBuilding.QueueBuilder.HighAvailability | Source/EasyNetQ/Fluent/QueueBuilder.cs:20-24 | the flag is set, the topics are unchanged, the same builder is returned |
| QueueBuilding.QueueBuilder.WithTopic | Source/EasyNetQ/Fluent/QueueBuilder.cs:26-30 | one topic appended, flag unchanged |
| QueueBuilding.QueueBuilder.WithTopics | Source/EasyNetQ/Fluent/QueueBuilder.cs:32-36 | topics appended in order, flag unchanged |
| QueueBuilding.QueueBuilder.Build | Source/EasyNetQ/Fluent/QueueBuilder.cs:38-60 | a durable queue named by the convention; `x-ha-policy` iff HA, with the value `all`, and no arguments otherwise; bound once to the topic exchange of the message type with the topics or `#` |
| QueueBuilding.QueueBuilder.Configure | Source/EasyNetQ/Fluent/InternalSubscriberBuilder.cs:30-33 | running the configuration action leaves the builder in the state its calls produce in order |
| SubscriberRecipes.ExplicitQueue | Source/EasyNetQ/Fluent/InternalSubscriberBuilder.cs:20-24 | the recipe yields the given queue whatever the build configuration |
| SubscriberRecipes.RawRecipe | Source/EasyNetQ/Fluent/InternalSubscriberBuilder.cs:92-96 | the recipe yields the raw delegate whatever the build configuration |
| SubscriberRecipes.NoRecipes | Source/EasyNetQ/Fluent/InternalSubscriberBuilder.cs:10-18 | a new builder has neither recipe and prefetch 50 |
| SubscriberRecipes.Apply | Source/EasyNetQ/Fluent/InternalSubscriberBuilder.cs:20-112 | a queue call sets only the queue recipe, a handler call only the handler recipe, a prefetch call only the count; an explicit queue and a raw handler are kept as given |
| SubscriberRecipes.Assemble | Source/EasyNetQ/Fluent/InternalSubscriberBuilder.cs:98-106 | build succeeds iff both recipes are set, else `NullReference`; on success the queue and handler are the recipes' results, the prefetch count is copied, and HA is off |
| SubscriberRecipes.RunAppend | Source/EasyNetQ/Fluent/InternalSubscriberBuilder.cs:20-112 | running two call lists one after the other is running their concatenation |
| SubscriberRecipes.Untouched | Source/EasyNetQ/Fluent/InternalSubscriberBuilder.cs:20-112 | calls that do not choose a queue, a handler or a prefetch count leave that field as it was |
| SubscriberRecipes.RecipesPersist | Source/EasyNetQ/Fluent/InternalSubscriberBuilder.cs:20-112 | no call ever clears a recipe once set, whatever the order of calls on the shared builder, stage objects reused included |
| SubscriberRecipes.PrefetchLastWriteWins | Source/EasyNetQ/Fluent/InternalSubscriberBuilder.cs:108-112 | the prefetch count is the value of the last `WithPrefetchCount`, zero included |
| SubscriberRecipes.PrefetchDefault | Source/EasyNetQ/Fluent/InternalSubscriberBuilder.cs:18 | with no `WithPrefetchCount` call the count is 50 |
| SubscriberRecipes.QueueChoiceLastWins | Source/EasyNetQ/Fluent/InternalSubscriberBuilder.cs:20-37 | the queue recipe is the one installed by the last queue call |
| SubscriberRecipes.HandlerChoiceLastWins | Source/EasyNetQ/Fluent/InternalSubscriberBuilder.cs:40-96 | the handler recipe is the one installed by the last handler call |
| SubscriberRecipes.Recorded | Source/EasyNetQ/Fluent/InternalSubscriberBuilder.cs:98-106 | from a new builder, a queue recipe exists iff some call chose a queue, and a handler recipe iff some call chose a handler |
| SubscriberRecipes.BuildSucceedsIff | Source/EasyNetQ/Fluent/InternalSubscriberBuilder.cs:98-106 | `Build` on a new builder after any calls succeeds iff a queue and a handler were both chosen |
| SubscriberRecipes.SyncHandlerBuilt | Source/EasyNetQ/Fluent/InternalSubscriberBuilder.cs:40-58 | after `Handler(action)`, the built delegate throws on a type mismatch or a bad body, and otherwise completes or faults as the action returns or throws |
| FluentInternal.InternalSubscriberBuilder.constructor | Source/EasyNetQ/Fluent/InternalSubscriberBuilder.cs:10-18 | no recipes, prefetch 50 |
| FluentInternal.InternalSubscriberBuilder.Queue | Source/EasyNetQ/Fluent/InternalSubscriberBuilder.cs:20-24 | the state becomes `Apply` of the explicit-queue call, the same builder returned |
| FluentInternal.InternalSubscriberBuilder.QueueNamed | Source/EasyNetQ/Fluent/InternalSubscriberBuilder.cs:26-37 | a fresh queue builder runs the configuration action once, if given, and the queue recipe becomes that builder's `Build` |
| FluentInternal.InternalSubscriberBuilder.Handler | Source/EasyNetQ/Fluent/InternalSubscriberBuilder.cs:40-58 | the handler recipe becomes the type-checked, task-wrapped action |
| FluentInternal.InternalSubscriberBuilder.HandlerAsync | Source/EasyNetQ/Fluent/InternalSubscriberBuilder.cs:73-76 | the handler recipe becomes the type-checked body handler |
| FluentInternal.InternalSubscriberBuilder.HandlerAsyncMessage | Source/EasyNetQ/Fluent/InternalSubscriberBuilder.cs:78-90 | the handler recipe becomes the type-checked message handler |
| FluentInternal.InternalSubscriberBuilder.HandlerAsyncRaw | Source/EasyNetQ/Fluent/InternalSubscriberBuilder.cs:92-96 | the handler recipe becomes the raw delegate, unchecked |
| FluentInternal.InternalSubscriberBuilder.WithPrefetchCount | Source/EasyNetQ/Fluent/InternalSubscriberBuilder.cs:108-112 | only the prefetch count changes |
| FluentInternal.InternalSubscriberBuilder.Build | Source/EasyNetQ/Fluent/InternalSubscriberBuilder.cs:98-106 | fails with `NullReference` iff a recipe is missing; otherwise a fresh record equal to `Assemble` of the state; the builder is not changed |
| FluentStages.Next | Source/EasyNetQ/Fluent/SubscriberBuilder.cs:17-57 | the stage graph: a queue call is accepted exactly where no queue was chosen yet, a handler call exactly where no handler was chosen yet, prefetch everywhere except `SubscriberBuilderWithHandler`, and each stage records what was chosen |
| FluentStages.StageInvariant | Source/EasyNetQ/Fluent/SubscriberBuilderWithQueue.cs:15-43 | along any accepted linear chain (each call made on the stage the previous one returned), the queue and the handler were each chosen at most once, and a recipe is set iff the stage says it was chosen |
| FluentStages.BuildReachable | Source/EasyNetQ/Fluent/SubscriberBuilderComplete.cs:14-17 | a linear chain reaching `SubscriberBuilderComplete` chose exactly one queue and one handler, so its `Build` succeeds |
| FluentStages.SubscriberBuilder.constructor | Source/EasyNetQ/Fluent/SubscriberBuilder.cs:12-15 | wraps the given internal builder |
| FluentStages.SubscriberBuilder.Queue | Source/EasyNetQ/Fluent/SubscriberBuilder.cs:17-21 | a new with-queue stage over the same internal builder, whose state is `Apply` of the call |
| FluentStages.SubscriberBuilder.QueueNamed | Source/EasyNetQ/Fluent/SubscriberBuilder.cs:23-27 | likewise for a named queue |
| FluentStages.SubscriberBuilder.Handler | Source/EasyNetQ/Fluent/SubscriberBuilder.cs:29-33 | a new with-handler stage over the same builder, state `Apply` of the call |
| FluentStages.SubscriberBuilder.HandlerAsync | Source/EasyNetQ/Fluent/SubscriberBuilder.cs:35-39 | likewise for a body handler |
| FluentStages.SubscriberBuilder.HandlerAsyncRaw | Source/EasyNetQ/Fluent/SubscriberBuilder.cs:41-45 | likewise for a raw handler |
| FluentStages.SubscriberBuilder.HandlerAsyncMessage | Source/EasyNetQ/Fluent/SubscriberBuilder.cs:47-51 | likewise for a message handler |
| FluentStages.SubscriberBuilder.WithPrefetchCount | Source/EasyNetQ/Fluent/SubscriberBuilder.cs:53-57 | the same stage; only the shared prefetch count changes |
| FluentStages.SubscriberBuilderWithQueue.constructor | Source/EasyNetQ/Fluent/SubscriberBuilderWithQueue.cs:10-13 | wraps the given internal builder |
| FluentStages.SubscriberBuilderWithQueue.Handler | Source/EasyNetQ/Fluent/SubscriberBuilderWithQueue.cs:15-19 | a new complete stage; the handler recipe is set and the queue recipe kept |
| FluentStages.SubscriberBuilderWithQueue.HandlerAsync | Source/EasyNetQ/Fluent/SubscriberBuilderWithQueue.cs:21-25 | likewise for a body handler |
| FluentStages.SubscriberBuilderWithQueue.HandlerAsyncRaw | Source/EasyNetQ/Fluent/SubscriberBuilderWithQueue.cs:27-31 | likewise for a raw handler |
| FluentStages.SubscriberBuilderWithQueue.HandlerAsyncMessage | Source/EasyNetQ/Fluent/SubscriberBuilderWithQueue.cs:33-37 | likewise for a message handler |
| FluentStages.SubscriberBuilderWithQueue.WithPrefetchCount | Source/EasyNetQ/Fluent/SubscriberBuilderWithQueue.cs:39-43 | the same stage; only the prefetch count changes |
| FluentStages.SubscriberBuilderWithHandler.constructor | Source/EasyNetQ/Fluent/SubscriberBuilderWithHandler.cs:11-14 | wraps the given internal builder |
| FluentStages.SubscriberBuilderWithHandler.Queue | Source/EasyNetQ/Fluent/SubscriberBuilderWithHandler.cs:16-20 | a new complete stage; the queue recipe is set and the handler recipe kept |
| FluentStages.SubscriberBuilderWithHandler.QueueNamed | Source/EasyNetQ/Fluent/SubscriberBuilderWithHandler.cs:22-26 | likewise for a named queue |
| FluentStages.SubscriberBuilderWithHandler.WithPrefetchCount | Source/EasyNetQ/Fluent/SubscriberBuilderWithHandler.cs:28-32 | the private setter: only the prefetch count changes |
| FluentStages.SubscriberBuilderComplete.constructor | Source/EasyNetQ/Fluent/SubscriberBuilderComplete.cs:9-12 | wraps the given internal builder |
| FluentStages.SubscriberBuilderComplete.Build | Source/EasyNetQ/Fluent/SubscriberBuilderComplete.cs:14-17 | the internal builder's `Build`: `Assemble` of the shared state |
| FluentStages.SubscriberBuilderComplete.WithPrefetchCount | Source/EasyNetQ/Fluent/SubscriberBuilderComplete.cs:19-23 | the same stage; only the prefetch count changes |
| Configurer.NextInterface | Source/EasyNetQ/IBus.cs:181-188 | a queue is chosen only on `ISubscriberConfigurer`, a handler only on `IConfigurationWithQueue`, prefetch everywhere but `IConfigurationWithQueue`, keeping the interface |
| Configurer.InterfaceShape | Source/EasyNetQ/IBus.cs:422-431 | every accepted chain is prefetch calls, one queue call, immediately one handler call, then prefetch calls |
| Configurer.ShapeOnConfigurer | Source/EasyNetQ/IBus.cs:181-188 | a chain still on `ISubscriberConfigurer` made only prefetch calls |
| Configurer.ShapeOnConfigurationWithQueue | Source/EasyNetQ/IBus.cs:422-431 | a chain on `IConfigurationWithQueue` ends with its one queue call, after prefetch calls only |
| Configurer.ShapeOnConfigurationBuilder | Source/EasyNetQ/IBus.cs:422-431 | a chain on `ISubscriberConfigurationBuilder` has one queue call immediately followed by one handler call, and only prefetch calls elsewhere |
| Configurer.ConfigurerBuildReachable | Source/EasyNetQ/IBus.cs:347-355 | a chain that reaches `ISubscriberConfigurationBuilder` builds without error |
| Configurer.SubscriberConfigurer.constructor | Source/EasyNetQ/IBus.cs:259-267 | no recipes, prefetch 50 |
| Configurer.SubscriberConfigurer.Queue | Source/EasyNetQ/IBus.cs:269-273 | the state becomes `Apply` of the explicit-queue call |
| Configurer.SubscriberConfigurer.QueueNamed | Source/EasyNetQ/IBus.cs:275-286 | a fresh queue builder runs the configuration action once; its `Build` becomes the queue recipe |
| Configurer.SubscriberConfigurer.Handler | Source/EasyNetQ/IBus.cs:289-307 | the handler recipe becomes the type-checked, task-wrapped action |
| Configurer.SubscriberConfigurer.HandlerAsync | Source/EasyNetQ/IBus.cs:322-325 | the handler recipe becomes the type-checked body handler |
| Configurer.SubscriberConfigurer.HandlerAsyncMessage | Source/EasyNetQ/IBus.cs:327-339 | the handler recipe becomes the type-checked message handler |
| Configurer.SubscriberConfigurer.HandlerAsyncRaw | Source/EasyNetQ/IBus.cs:341-345 | the handler recipe becomes the raw delegate |
| Configurer.SubscriberConfigurer.WithPrefetchCount | Source/EasyNetQ/IBus.cs:357-367 | both interface implementations change only the prefetch count |
| Configurer.SubscriberConfigurer.Build | Source/EasyNetQ/IBus.cs:347-355 | `NullReference` iff a recipe is missing; otherwise a fresh record equal to `Assemble` of the state |
| Bus.Create | Source/EasyNetQ/RabbitBus.cs:36-62 | the constructor succeeds iff all four collaborators are given; null `serializeType`, `logger`, `conventions` are rejected in that order by name, a null advanced bus fails on its first use |
| Bus.SubscribeAsyncTopics | Source/EasyNetQ/RabbitBus.cs:94-102 | a null handler is rejected as `onMessage`; otherwise the chain is a named queue with the topics, then the body handler |
| Bus.NamedSubscription | Source/EasyNetQ/RabbitBus.cs:69-92 | every convenience overload's chain reaches the complete stage and builds the subscription queue its configuration action leaves, the type-checked handler of its handler call, prefetch 50 and no HA |
| Bus.ConvenienceQueue | Source/EasyNetQ/RabbitBus.cs:69-102 | a configuration action that never sets HA leaves a durable queue named by the convention, with no arguments, bound once to the message type's topic exchange with its topics or `#` |
| Bus.SubscribeBuilds | Source/EasyNetQ/RabbitBus.cs:69-72 | `Subscribe(id, action)` builds the `#`-bound queue and the type-checked, task-wrapped action, prefetch 50, no HA |
| Bus.SubscribeTopicBuilds | Source/EasyNetQ/RabbitBus.cs:74-77 | `Subscribe(id, topic, action)` builds the queue bound with exactly that topic and the type-checked, task-wrapped action |
| Bus.SubscribeTopicsBuilds | Source/EasyNetQ/RabbitBus.cs:79-82 | `Subscribe(id, topics, action)` builds the queue bound with the topics (or `#` if none) and the type-checked, task-wrapped action |
| Bus.SubscribeAsyncBuilds | Source/EasyNetQ/RabbitBus.cs:84-87 | `SubscribeAsync(id, handler)` builds the `#`-bound queue and the type-checked body handler |
| Bus.SubscribeAsyncTopicBuilds | Source/EasyNetQ/RabbitBus.cs:89-92 | `SubscribeAsync(id, topic, handler)` builds the queue bound with exactly that topic and the type-checked body handler |
| Bus.SubscribeAsyncTopicsBuilds | Source/EasyNetQ/RabbitBus.cs:94-102 | a non-null handler passes the guard, and the subscription has the queue bound with the topics (or `#`) and the type-checked body handler |
| Bus.SubscribeRoutingKeys | Source/EasyNetQ/RabbitBus.cs:69-92 | no topic binds `#`, one topic binds exactly it, a topic list binds its topics (or `#` if empty); none of these queues is HA or has any argument |
| Bus.RpcHandler | Source/EasyNetQ/RabbitBus.cs:135-169 | the handler calls the responder on the request body; a throwing responder's exception leaves the handler, otherwise it hands back the unfinished completion task |
| Bus.RespondAsync | Source/EasyNetQ/RabbitBus.cs:122-170 | a null responder is rejected; otherwise the direct exchange `easy_net_q_rpc`, a durable argument-free queue named by the request type, bound with that name, and the handler above |
| Bus.SyncResponder | Source/EasyNetQ/RabbitBus.cs:116-117 | the wrapper never throws; the state its task ends in is completed with the response or faults with what the responder threw |
| Bus.Respond | Source/EasyNetQ/RabbitBus.cs:109-120 | a null responder is rejected; otherwise exactly `RespondAsync` over the wrapped responder |
| Bus.Reply | Source/EasyNetQ/RabbitBus.cs:157-162 | the reply goes to the default exchange with the request's reply-to as routing key, carries the response and only the request's correlation id |
| Bus.CanceledResponderStrandsRequest | Source/EasyNetQ/RabbitBus.cs:139-166 | as written, a canceled responder task makes the continuation throw once connected, leaving the request's completion running forever |
| Bus.ResponseDecision | Source/EasyNetQ/RabbitBus.cs:139-166 | corrected continuation: faulted faults the completion, canceled cancels it, completed publishes exactly one reply once connected; a finished responder never leaves the completion running once it can act; agrees with the code on completed and faulted tasks |
| Bus.RespondContinuation | Source/EasyNetQ/RabbitBus.cs:139-166 | a faulted or canceled task decides without polling; a completed one skips exactly the leading "disconnected" samples and keeps waiting iff they run out; the action is `ResponseDecision` |
| ErrorStrategies.DoNothingDecision | Source/UncleanShutdownBug/Program.cs:47-50 | every failed delivery is left alone |
| ErrorStrategies.CleanShutdownDecision | Source/UncleanShutdownBug/Program.cs:77-85 | while disposing, nack with requeue; otherwise exactly the default strategy's decision |
| ErrorStrategies.DisposingIffDisposed | Source/UncleanShutdownBug/Program.cs:60-75 | over any lifetime the disposing flag is set iff some `Dispose` happened, and it is never reset |
| ErrorStrategies.DecisionInLifetime | Source/UncleanShutdownBug/Program.cs:77-85 | a failure after any `Dispose` is requeued; a failure before every `Dispose` gets the default decision |
| ErrorStrategies.DefaultConsumerErrorStrategy.Dispose | Source/UncleanShutdownBug/Program.cs:74 | the default strategy is marked disposed |
| ErrorStrategies.AllowCleanShutdownErrorStrategy.constructor | Source/UncleanShutdownBug/Program.cs:62-69 | a fresh default strategy with the given decision, not disposing |
| ErrorStrategies.AllowCleanShutdownErrorStrategy.Dispose | Source/UncleanShutdownBug/Program.cs:71-75 | the flag follows `DisposingAfter` and the default strategy is disposed too |
| ErrorStrategies.AllowCleanShutdownErrorStrategy.HandleConsumerError | Source/UncleanShutdownBug/Program.cs:77-85 | the decision is `CleanShutdownDecision` of the current flag; nothing changes |

## Left out

- Logging: `CheckMessageType` yields the error line it would log (`LogEntry`); the logger call itself is not modelled.
- Consumer dispatch: the consumer loop, ack/nack and prefetch credit belong to the advanced bus, which is not part of this model. The same holds for `RabbitBus.Subscribe(configuration)` (RabbitBus.cs:104-107), which only delegates to it.
- What each `Subscribe`/`SubscribeAsync` overload hands to the advanced bus is modelled as the call chain its lambda makes on the fluent builder (`Bus.Subscribe` and its siblings).
- `RabbitBus` connection events, `IsConnected`, `Advanced`, `OpenPublishChannel` and `Dispose` only delegate and are not modelled.
- The publish channel's `using` disposal and `Console.WriteLine` are not modelled.
- Timing: `Thread.Sleep(100)` between `IsConnected` samples is replaced by a given sequence of samples. A bus that never connects is a sequence that runs out.
- Scheduling: `ContinueWith` and `Task.Factory.StartNew` are not modelled as threads. The responder's eventual task state is an input of the continuation.
- FluentStages.StageInvariant and FluentStages.BuildReachable hold for linear chains, where each call is made on the stage the previous call returned (`Walk`). In C# a stage object stays usable after it has returned the next stage, and every stage shares one internal builder, so reusing an old stage can choose a queue or a handler twice. `SubscriberBuilderComplete.Build` itself promises nothing more than `Assemble` of the shared state. What holds for any order of calls, reuse included, is `SubscriberRecipes.RecipesPersist` and `SubscriberRecipes.BuildSucceedsIff`.
- Bus.ResponseDecision: publishing the reply is taken to succeed. A `Publish` that throws after the `IsConnected` check (RabbitBus.cs:160-162) would fault the continuation and leave the completion unset; that path is not modelled.
- Bus.RpcHandler: the responder's result is always a task. A `RespondAsync` responder that returns a null task makes `.ContinueWith` throw (RabbitBus.cs:139); that is not modelled. `Bus.SyncResponder` never returns one.
- Bus.RpcHandler: the task it returns is stated as `Running` when handed back. How that task ends is stated separately, by `Bus.ResponseDecision` and `Bus.CompletionOf`; the handler's contract does not tie the two together.
- Bus.RespondContinuation: it follows the corrected decision for a canceled responder task (see Findings), which cancels without waiting for the connection. The code as written is `Bus.ResponseDecisionAsWritten`.
- The `task.Exception != null` guard (RabbitBus.cs:144) is always true for a faulted task, so it has no branch of its own.
- The caller side of RPC (the request table, timeouts) is not in the modelled files.
- DefaultConsumerErrorStrategy is not part of this model. Its decision is a parameter, and its `Dispose` only records that it ran.
- The connection factory, serializer and logger that `AllowCleanShutdownErrorStrategy` passes to it are left out. `DoNothingErrorStrategy.Dispose` has no state to change. The sample's `Main` and its message handler are left out.
- The closure `buildQueue = queueBuilder.Build` keeps the queue builder object alive. The model keeps a snapshot of its state after the configuration action. A caller that leaks the builder out of the action and changes it later is not modelled.
- `IBus.cs` repeats `QueueBuilder<T>` (IBus.cs:190-255) and `BuildConfiguration` (IBus.cs:370-419) from `Fluent/`. Each is modelled once.
- Nulls are modelled only where the source checks them or dereferences them in a modelled path: the `AsyncSubscriberBuilder` constructors, the `RabbitBus` constructor, `Respond`/`RespondAsync`, the third `SubscribeAsync`, and unset delegates in `Build`. Null topics, queues, conventions or handlers passed elsewhere are not.
- JSON serialisation (JsonSerializer.cs) is the deserializer parameter of `BuildConfiguration`. `SerializeType` and the naming conventions are parameters too.
- `MessageProperties` carries only `Type`, `CorrelationId` and `ReplyTo`, the fields the modelled code reads or writes.
- DispatchType.cs, the scheduler's ScheduleRepository.cs and the test files are not part of this model.
- BaseBuilder.BaseSubscriberConfigurationBuilder.BuildQueue is a plain function over the builder's fields. It is specified by `SubscriptionQueue.BuildQueue`.

## Findings

| source | as written | input that shows it | evidently intended | confidence | as-written member | corrected member |
|---|---|---|---|---|---|---|
| Source/EasyNetQ/RabbitBus.cs:139-166 | The continuation treats only `task.IsFaulted` as failure. A canceled responder task takes the success branch, and `task.Result` throws there, inside the continuation. `tcs` is then never set. | The responder returns a canceled task while the bus is connected. | The request's completion ends (canceled), and no reply is published. | medium, not executed | Bus.CanceledResponderStrandsRequest | Bus.ResponseDecision |
