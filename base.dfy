/** Small wrapper types shared by every module of the model. */
module Base {

  /** A value that may be missing (JavaScript `undefined` / `null`). */
  datatype Option<+T> = None | Some(value: T)

  /** JavaScript `a || b` on two optional numbers that are never zero. */
  function OrElse<T>(a: Option<T>, b: Option<T>): (r: Option<T>)
    ensures a.Some? ==> r == a
    ensures a.None? ==> r == b
  {
    if a.Some? then a else b
  }
}
