/** A result that may be missing: a Cholesky factor that does not exist, or
    a factor row the sampler leaves as it was. */
module Options {

  datatype Option<+T> = None | Some(value: T) {

    /** The new value, or the kept one (`default`) when there is none. */
    function GetOr(default: T): T
    {
      match this
      case Some(v) => v
      case None => default
    }
  }
}
