/** The `Option` type of the handle's queries: `val`, `parent`, `take_or_clone_val`
    and the iterators' `next` all answer "absent" with `None` instead of failing. */
module Wrappers {

  datatype Option<+T> = None | Some(value: T)
}
