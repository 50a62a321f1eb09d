/** The optional value used for the two-valued lookups of Go's `v, ok := m[k]` and `strconv.Atoi`. */
module Wrappers {

  datatype Option<+T> = None | Some(value: T)
}
