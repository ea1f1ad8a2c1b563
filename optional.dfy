/** The nullable values of the source (`T?` in Kotlin, `T | null` in TypeScript). */
module Optional {

  datatype Option<+T> = None | Some(value: T) {

    /** The value, or `default` when there is none: Kotlin's `?:` and TypeScript's `??`. */
    function GetOr(default: T): T {
      match this
      case Some(v) => v
      case None => default
    }
  }
}
