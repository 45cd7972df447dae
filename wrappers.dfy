/** Optional values: TypeScript's `undefined`/`null` alternatives and `?` fields. */
module Wrappers {

  datatype Option<+T> = None | Some(value: T) {

    /** The value, or `default` when absent (TypeScript's `x ?? default`). */
    function GetOr(default: T): T {
      match this
      case Some(v) => v
      case None => default
    }
  }

  /** Field-wise merge of a `Partial<T>` update: a supplied field wins over the old one. */
  function Override<T>(current: Option<T>, supplied: Option<T>): Option<T> {
    if supplied.Some? then supplied else current
  }

  /** JavaScript's `s || d` on an optional string: absent and empty both fall back to `d`. */
  function OrElse(s: Option<string>, d: string): string {
    if s.Some? && s.value != "" then s.value else d
  }
}
