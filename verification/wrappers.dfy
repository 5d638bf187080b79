/** The optional value the session uses for the summary, which is `null` until
    the first computation. */
module Wrappers {

  datatype Option<+T> = None | Some(value: T)
}
