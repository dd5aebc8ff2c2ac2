/** Optional values: the model's rendering of JavaScript `undefined`/`null`,
    Kotlin `T?` and Swift `T?`. */
module Wrappers {

  datatype Option<+T> = None | Some(value: T) {

    /** The value, or `default` when absent (`??` in TypeScript and Swift, `?:` in Kotlin). */
    function GetOr(default: T): T {
      match this
      case Some(v) => v
      case None => default
    }
  }
}
