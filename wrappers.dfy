/** The optional value shared by the client (an unset `auth`, a log line not
    asked for) and the collector (nothing collected yet). */
module Wrappers {
  datatype Option<T> = None | Some(value: T)
}
