/** Optional values: the model's stand-in for Swift optionals. */
module Wrappers {

  datatype Option<+T> = None | Some(value: T) {

    /** Swift's `Optional.map`. */
    function Map<U>(f: T -> U): Option<U> {
      match this
      case None => None
      case Some(v) => Some(f(v))
    }
  }
}
