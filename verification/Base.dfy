/** Small shared datatypes. */
module Base {

  datatype Option<+T> = None | Some(value: T)

  /** The answer of an injected dependency: a value, or a rejected promise. */
  datatype Reply<+T> = Threw | Got(value: T)

  /** The outcome of a validation or a decoding. */
  datatype Result<+T, +E> = Ok(value: T) | Err(error: E)

  /** The n-th element from the end. */
  function Last<T>(s: seq<T>, n: nat): T
    requires 1 <= n <= |s|
  {
    s[|s| - n]
  }
}
