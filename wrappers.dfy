/** The optional value used wherever the dashboard works with JavaScript's
    `undefined`/`null`: a request whose failure was swallowed, a product id
    that is `null`, a query parameter that is absent. */
module Wrappers {

  datatype Option<+T> = None | Some(value: T)
}
