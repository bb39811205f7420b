/** The optional value JavaScript expresses with `undefined`: an absent
    optional field, or the miss of an `Array.prototype.find`. */
module Wrappers {

  datatype Option<+T> = None | Some(value: T)
}
