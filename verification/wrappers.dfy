/** Optional values, used where the source has a nullable reference or a step that may not happen. */
module Wrappers {

  datatype Option<+T> = None | Some(value: T)

  function Min(a: nat, b: nat): (m: nat)
    ensures m <= a && m <= b && (m == a || m == b)
  {
    if a <= b then a else b
  }
}
