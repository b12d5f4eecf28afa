/** Small datatypes shared by the other modules. */
module Prelude {

  datatype Option<+T> = None | Some(value: T)
  {
    function GetOr(default: T): T {
      if Some? then value else default
    }
  }

  predicate Distinct<T(==)>(list: seq<T>) {
    forall i, k | 0 <= i < k < |list| :: list[i] != list[k]
  }

  datatype Result<+T, +E> = Ok(value: T) | Err(error: E)
}
