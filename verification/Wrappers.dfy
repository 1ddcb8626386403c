/** Nullable columns, optional struct fields, and settings that fall back to a default. */
module Wrappers {
  datatype Option<+T> = None | Some(value: T)

  function OrDefault(x: int, d: nat): (r: nat)
    ensures x > 0 ==> r == x
    ensures x <= 0 ==> r == d
  {
    if x <= 0 then d else x
  }
}
