/**
  * Small value types shared by the whole model: optional values (JavaScript's
  * `undefined`), results of computations that may throw, and JavaScript numbers
  * as far as the application distinguishes them.
  */
module Base {

  /** A value that may be absent (`undefined` / `null` in the application). */
  datatype Option<+T> = None | Some(value: T) {
    function GetOr(default: T): T {
      match this
      case Some(v) => v
      case None => default
    }
  }

  /** The outcome of a computation that either yields a value or throws with a message. */
  datatype Result<+T> = Ok(value: T) | Err(message: string)

  /**
    * A JavaScript number as the lead record stores it: a finite value or NaN
    * (what `parseFloat` yields for text that is not a number).
    */
  datatype JsNumber = Finite(value: real) | NaN {
    /** JavaScript truthiness of a number: 0 and NaN are falsy. */
    predicate Truthy() {
      Finite? && value != 0.0
    }
  }

  /** JavaScript truthiness of an optional number (`undefined` is falsy). */
  predicate TruthyNumber(n: Option<JsNumber>) {
    n.Some? && n.value.Truthy()
  }
}
