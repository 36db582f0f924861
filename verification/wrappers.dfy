/** The optional values the client meets: a file that may not be chosen, a
    server `detail` that may be missing, a guidance list that may be absent. */
module Wrappers {

  datatype Option<+T> = None | Some(value: T)
}
