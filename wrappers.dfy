/** The optional value used for an HTTP response that may be absent. */
module Wrappers {

  /** `None` stands for a nil `*http.Response` (the fetch failed). */
  datatype Option<+T> = None | Some(value: T)
}
