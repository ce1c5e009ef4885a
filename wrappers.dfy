/** Option, as serde_json's accessors and `HashMap::get` return it. */
module Wrappers {

  datatype Option<+T> = None | Some(value: T) {

    /** Rust's `Option::unwrap_or`. */
    function UnwrapOr(default: T): T {
      if Some? then value else default
    }
  }
}
