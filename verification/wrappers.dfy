/** Small value types shared by the whole model. */
module Wrappers {

  /** The conventional Some/None datatype, standing for a Go pointer that may be nil. */
  datatype Option<+T> = None | Some(value: T)

  /** Reading a Go map at a key it does not hold yields the zero value of the
      element type; `zero` plays that role here. */
  function Lookup<K, V>(m: map<K, V>, k: K, zero: V): (v: V)
    ensures k in m ==> v == m[k]
    ensures k !in m ==> v == zero
  {
    if k in m then m[k] else zero
  }
}
