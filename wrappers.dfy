/** The absent-or-present result used for the lookups: `None` stands for the
    JSON `null` a handler writes when no record matches. */
module Wrappers {

  datatype Option<+T> = None | Some(value: T)
}
