/** The optional value used wherever the source has a value that may be
    absent (`undefined` in a request body or a document path that was never
    set, `null` from a query that found nothing). */
module Wrappers {

  datatype Option<+T> = None | Some(value: T)
}
