/** Optional values: `None` stands for JavaScript's `undefined` (an unset
    variable) or `NaN` (what `parseInt` gives for an empty string). */
module Wrappers {

  datatype Option<+T> = None | Some(value: T)
}
