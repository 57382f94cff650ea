/** Failure-aware wrappers shared by the layer models. */
module Wrappers {

  /** A value that may be absent: a Swift optional, or an unset layer property. */
  datatype Option<+T> = None | Some(value: T)

  /** Either a value or the reason none could be produced. */
  datatype Result<+T, +E> = Success(value: T) | Failure(error: E)

  /** The outcome of a conditional downcast `x as? T` of an arbitrary layer. */
  datatype Downcast<+T> = Is(value: T) | IsNot(description: string)
}
