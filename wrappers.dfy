/** The optional value used for annotations and error messages (the `Option` of the effect library). */
module Wrappers {

  datatype Option<+T> = None | Some(value: T) {

    /** `Option.getOrElse`: the held value, or `default` when there is none. */
    function GetOr(default: T): T {
      match this
      case Some(v) => v
      case None => default
    }

    /** `Option.orElse`: this option when it holds a value, otherwise `other`. */
    function OrElse(other: Option<T>): Option<T> {
      match this
      case Some(_) => this
      case None => other
    }
  }
}
