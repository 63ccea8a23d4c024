/** The message-type guard and the adapters that turn every kind of
    application handler into the raw `OnMessage` delegate a subscription
    configuration holds. */
module Handlers {
  import opened Primitives
  import opened Messages
  import opened Conventions

  /** `Func<byte[], MessageProperties, MessageReceivedInfo, Task>`. */
  type RawHandler = (Bytes, MessageProperties, ReceivedInfo) -> Invocation<()>

  /** `Func<IMessage<T>, MessageReceivedInfo, Task>`. */
  type MessageHandler<!T> = (Message<T>, ReceivedInfo) -> Invocation<()>

  /** `Func<T, Task>`. */
  type BodyHandler<-T> = T -> Invocation<()>

  /** `Action<T>`: `None` when it returns, `Some(e)` when it throws `e`. */
  type SyncAction<-T> = T -> Option<Exception>

  const MismatchFormat: string := "Message type is incorrect. Expected '{0}', but was '{1}'"

  /** The verdict of `CheckMessageType`: pass, or an error line that is
      logged and then the exception that is thrown. */
  datatype TypeCheck = TypeMatches | TypeMismatch(log: LogEntry, error: Exception)

  /** `CheckMessageType<T>`: the delivered type name must equal the expected
      one exactly; an absent type name never matches. */
  function CheckMessageType(properties: MessageProperties, typeName: string): (r: TypeCheck)
    ensures r.TypeMatches? <==> properties.typeName == Some(typeName)
    ensures r.TypeMismatch? ==> r.log == ErrorWrite(MismatchFormat, typeName, properties.typeName)
    ensures r.TypeMismatch? ==> r.error == InvalidMessageType(typeName, properties.typeName)
  {
    if properties.typeName != Some(typeName) then
      TypeMismatch(ErrorWrite(MismatchFormat, typeName, properties.typeName),
                   InvalidMessageType(typeName, properties.typeName))
    else
      TypeMatches
  }

  /** The closure the typed builders install as `OnMessage`: check the type,
      deserialise the body, attach the properties, call the handler. */
  function TypeChecked<T(!new)>(bc: BuildConfiguration<T>, onMessage: MessageHandler<T>): (h: RawHandler)
    // a mismatch throws before the deserializer or the handler is consulted
    ensures forall body: Bytes, properties: MessageProperties, info: ReceivedInfo {:trigger h(body, properties, info)} ::
      properties.typeName != Some(ExpectedTypeName(bc)) ==>
        h(body, properties, info) == Threw(InvalidMessageType(ExpectedTypeName(bc), properties.typeName))
    // a body the deserializer rejects throws its exception; the handler is not called
    ensures forall body: Bytes, properties: MessageProperties, info: ReceivedInfo {:trigger h(body, properties, info)} ::
      properties.typeName == Some(ExpectedTypeName(bc)) && bc.deserialize(body).Err? ==>
        h(body, properties, info) == Threw(bc.deserialize(body).error)
    // otherwise the handler's own invocation is the result
    ensures forall body: Bytes, properties: MessageProperties, info: ReceivedInfo {:trigger h(body, properties, info)} ::
      properties.typeName == Some(ExpectedTypeName(bc)) && bc.deserialize(body).Ok? ==>
        h(body, properties, info) == onMessage(Message(bc.deserialize(body).value, properties), info)
  {
    var expected := ExpectedTypeName(bc);
    assert forall properties: MessageProperties {:trigger CheckMessageType(properties, expected)} ::
      CheckMessageType(properties, expected).TypeMismatch? <==> properties.typeName != Some(expected);
    (body: Bytes, properties: MessageProperties, info: ReceivedInfo) =>
      var check := CheckMessageType(properties, expected);
      if check.TypeMismatch? then Threw(check.error)
      else
        match bc.deserialize(body)
        case Err(error) => Threw(error)
        case Ok(value) => onMessage(Message(value, properties), info)
  }

  /** `(message, info) => onMessage(message.Body)`: the handler sees only the
      body, and its invocation is passed on unchanged. */
  function BodyAdapter<T(!new)>(onMessage: BodyHandler<T>): (h: MessageHandler<T>)
    ensures forall message: Message<T>, info: ReceivedInfo {:trigger h(message, info)} :: h(message, info) == onMessage(message.body)
  {
    (message: Message<T>, info: ReceivedInfo) => onMessage(message.body)
  }

  /** The `TaskCompletionSource` wrapper around a synchronous action
      (`CreateTask`, and the lambda in `Handler`): it never throws, and hands
      back an already finished task. */
  function SyncAdapter<T(!new)>(action: SyncAction<T>): (h: BodyHandler<T>)
    ensures forall body: T {:trigger h(body)} :: h(body).Returned?
    ensures forall body: T {:trigger h(body)} :: h(body).task.Completed? <==> action(body).None?
    ensures forall body: T {:trigger h(body)} :: action(body).Some? ==> h(body).task == Faulted(action(body).value)
  {
    (body: T) =>
      match action(body)
      case None => Returned(Completed(()))
      case Some(exception) => Returned(Faulted(exception))
  }

  /** The full path of a synchronous subscription: a type mismatch throws
      without running the action; a matching delivery whose body decodes runs
      the action on exactly that body and completes, or faults with what it
      threw. */
  lemma SyncDelivery<T(!new)>(bc: BuildConfiguration<T>, action: SyncAction<T>,
                        body: Bytes, properties: MessageProperties, info: ReceivedInfo)
    ensures var h := TypeChecked(bc, BodyAdapter(SyncAdapter(action)));
      && (properties.typeName != Some(ExpectedTypeName(bc)) ==> h(body, properties, info).Threw?)
      && (properties.typeName == Some(ExpectedTypeName(bc)) && bc.deserialize(body).Ok? ==>
            var decoded := bc.deserialize(body).value;
            && h(body, properties, info).Returned?
            && (h(body, properties, info).task == Completed(()) <==> action(decoded).None?)
            && (action(decoded).Some? ==> h(body, properties, info).task == Faulted(action(decoded).value)))
  {
    var h := TypeChecked(bc, BodyAdapter(SyncAdapter(action)));
    if properties.typeName == Some(ExpectedTypeName(bc)) && bc.deserialize(body).Ok? {
      var decoded := bc.deserialize(body).value;
      assert h(body, properties, info) == BodyAdapter(SyncAdapter(action))(Message(decoded, properties), info);
      assert h(body, properties, info) == SyncAdapter(action)(decoded);
    }
  }
}
