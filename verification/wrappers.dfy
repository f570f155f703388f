/** Small wrapper datatypes shared by every module of the model. */
module Wrappers {

  /** `None` stands for JavaScript's `undefined` (an absent property or argument),
      `Some(v)` for a present value. */
  datatype Option<+T> = None | Some(value: T) {

    /** The value, or the default when absent. */
    function GetOr(default: T): T {
      match this
      case Some(v) => v
      case None => default
    }
  }
}
