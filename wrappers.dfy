/** Result and option types shared by every module of the model. */
module Wrappers {
  datatype Option<T> = None | Some(value: T)

  /** A Rust `Result`: the success value or the error the source returns. */
  datatype Result<T, E> = Ok(value: T) | Err(error: E)

  /**
   * A computation that either yields a value or panics: a `panic!`, an
   * `unwrap`/`expect` on a failure, a `todo!` or an `unimplemented!`.
   */
  datatype Outcome<T> = Returns(value: T) | Panics

  /** `Option::flatten`: the builder's "set to None" and "never set" both become `None`. */
  function Flatten<T>(o: Option<Option<T>>): (r: Option<T>)
    ensures r.Some? <==> o.Some? && o.value.Some?
    ensures r.Some? ==> r.value == o.value.value
  {
    match o
    case Some(inner) => inner
    case None => None
  }
}
