/** A small optional-value datatype, used for registry lookups and for what a
    registry `create` hands back (a layer object, or nothing). */
module Wrappers {

  datatype Option<+T> = None | Some(value: T)

}
