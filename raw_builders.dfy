/** RawQueueBuilder<T> and RawSubscriberBuilder: subscriptions to a queue the
    caller already has. Both builders hold only read-only fields, so they are
    values here. */
module RawBuilders {
  import opened Primitives
  import opened Topology
  import opened Conventions
  import opened Handlers
  import opened Configuration

  /** RawQueueBuilder<T>: an explicit queue and a typed handler. */
  datatype RawQueueBuilder<!T(!new)> = RawQueueBuilder(queue: QueueDeclaration, onMessage: MessageHandler<T>)
  {
    /** The object initialiser in `Build`: the queue exactly as supplied, the
        handler behind the type check, and every other property at its
        default, since neither the base `Build` nor any setter is used. */
    function Configuration(bc: BuildConfiguration<T>): (c: ConfigValue)
      ensures c.queue == Some(queue)
      ensures c.onMessage == Some(TypeChecked(bc, onMessage))
      ensures c.prefetchCount == DefaultPrefetchCount && !c.isHa
    {
      Initial().(queue := Some(queue), onMessage := Some(TypeChecked(bc, onMessage)))
    }

    method Build(bc: BuildConfiguration<T>) returns (c: SubscriberConfiguration)
      ensures fresh(c) && c.Value() == Configuration(bc)
    {
      c := new SubscriberConfiguration();
      c.SetQueue(queue);
      c.SetOnMessage(TypeChecked(bc, onMessage));
    }
  }

  /** RawSubscriberBuilder: an explicit queue and a raw handler. */
  datatype RawSubscriberBuilder = RawSubscriberBuilder(queue: QueueDeclaration, onMessage: RawHandler)
  {
    /** The base `Build` on a base state no method ever changed, then the
        queue and the delegate exactly as supplied: no type check, no
        deserialisation. Nothing passed to `Build` takes part. */
    function Configuration(): (c: ConfigValue)
      ensures c.queue == Some(queue) && c.onMessage == Some(onMessage)
      ensures c.prefetchCount == DefaultPrefetchCount && !c.isHa
    {
      Initial().(queue := Some(queue), onMessage := Some(onMessage))
    }

    /** `Build(serializeType, logger, serializer, conventions)`: the build
        configuration is accepted and ignored. */
    method Build<T>(bc: BuildConfiguration<T>) returns (c: SubscriberConfiguration)
      ensures fresh(c) && c.Value() == Configuration()
    {
      c := new SubscriberConfiguration();
      c.SetQueue(queue);
      c.SetOnMessage(onMessage);
    }
  }
}
