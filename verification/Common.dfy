/** Error codes and small helpers shared by the models. */
module Common {

  datatype Option<+T> = None | Some(value: T)

  /** The values of `boost::system::error_code` that the library tells apart. */
  datatype ErrorCode = Success | OperationAborted | BadDescriptor | Other(code: int)

  type Failure = e: ErrorCode | e != Success witness OperationAborted

  function Min(a: nat, b: nat): nat { if a <= b then a else b }

  /** `s` without the element at index `i`. */
  function RemoveAt<T>(s: seq<T>, i: nat): (r: seq<T>)
    requires i < |s|
  {
    s[..i] + s[i + 1..]
  }
}
