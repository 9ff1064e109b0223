/** The optional-value wrapper used for every JSON field that the client code
    reaches through optional chaining (`?.`) or a `|| default` fallback. */
module Optional {

  /** `None` stands for `undefined`/`null`; `Some(v)` for a present value. */
  datatype Option<+T> = None | Some(value: T) {

    /** The value, or `default` when absent. */
    function GetOr(default: T): (r: T)
      ensures Some? ==> r == value
      ensures None? ==> r == default
    {
      match this
      case Some(v) => v
      case None => default
    }
  }
}
