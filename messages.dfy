/** Delivery metadata, typed messages, tasks and the result of invoking a
    handler delegate. */
module Messages {
  import opened Primitives

  /** The AMQP basic properties the core reads or writes. A `None` field is
      a property the publisher left unset (null in the source). */
  datatype MessageProperties = MessageProperties(
    typeName: Option<string>,
    correlationId: Option<string>,
    replyTo: Option<string>)

  /** Properties of a freshly constructed message: nothing set. */
  const EmptyProperties: MessageProperties := MessageProperties(None, None, None)

  /** Transport-level facts about one delivery, passed to handlers untouched. */
  datatype ReceivedInfo = ReceivedInfo(consumerTag: string, deliveryTag: nat, redelivered: bool)

  /** `Message<T>`: a deserialised body together with its delivery properties. */
  datatype Message<T> = Message(body: T, properties: MessageProperties)

  /** The final state of a .NET task, or `Running` for one that has not
      finished when it is handed back. */
  datatype Task<R> = Completed(result: R) | Faulted(error: Exception) | Canceled | Running

  /** What calling a delegate that returns a task does: it returns a task,
      or it throws before any task exists. */
  datatype Invocation<R> = Returned(task: Task<R>) | Threw(error: Exception)

  /** One line written through `IEasyNetQLogger.ErrorWrite`. */
  datatype LogEntry = ErrorWrite(format: string, expected: string, actual: Option<string>)
}
