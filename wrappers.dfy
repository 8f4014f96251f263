/** The conventional optional value, used where the source reports success
    with a bool and hands back a layout through an out-parameter. */
module Wrappers {

  datatype Option<+T> = None | Some(value: T)

}
