/** Optional values, used for the `email?` field of a user and for the
    inverse functions that recover what a formatted string embeds. */
module Wrappers {

  datatype Option<+T> = None | Some(value: T)
}
