/** What a builder is given at `Build` time: the collaborators of
    Fluent/BuildConfiguration.cs, reduced to the functions the core calls. */
module Conventions {
  import opened Primitives

  /** `IConventions`: naming policy for exchanges and subscription queues. */
  datatype NamingConventions = NamingConventions(
    exchangeName: TypeId -> string,
    queueName: (TypeId, string) -> string)

  /** `BuildConfiguration`, specialised to the message type `T` being
      subscribed to. `messageType` is `typeof(T)`; `deserialize` is
      `ISerializer.BytesToMessage<T>`, which may throw. */
  datatype BuildConfiguration<T> = BuildConfiguration(
    messageType: TypeId,
    serializeType: TypeId -> string,
    deserialize: Bytes -> Result<T>,
    conventions: NamingConventions)

  /** The type name a delivery of `T` must carry. */
  function ExpectedTypeName<T>(bc: BuildConfiguration<T>): string
  {
    bc.serializeType(bc.messageType)
  }
}
