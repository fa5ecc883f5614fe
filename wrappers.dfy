/** Optional values. `None` stands for an absent JavaScript value, `null`
    or `undefined`; each declaration that uses it says which. */
module Wrappers {

  datatype Option<+T> = None | Some(value: T)
}
