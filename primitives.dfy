/** Values shared by every part of the model: optional values, results of
    operations that can throw, the exceptions the modelled code raises,
    and the fixed-width integers of the .NET surface. */
module Primitives {

  /** A C# reference that may be null, or a value that may be absent. */
  datatype Option<+T> = None | Some(value: T)

  /** The outcome of an operation that either returns a value or throws. */
  datatype Result<+R> = Ok(value: R) | Err(error: Exception)

  /** A .NET `ushort`: prefetch counts are stored in this width. */
  type UShort = n: int | 0 <= n < 0x1_0000

  type Byte = b: int | 0 <= b < 0x100

  /** A message body as it travels on the wire. */
  type Bytes = seq<Byte>

  /** The identity of a CLR type (what `typeof(T)` yields); serialising it
      to a type name is a collaborator of the model. */
  type TypeId = string

  /** The exceptions the modelled code throws, and a catch-all for the ones
      thrown by code outside the model (application handlers, the
      deserializer). */
  datatype Exception =
    | InvalidMessageType(expected: string, actual: Option<string>)
    | ArgumentNull(paramName: string)
    | NullReference
    | Aggregate(inner: Exception)
    | TaskCanceled
    | Raised(description: string)
}
