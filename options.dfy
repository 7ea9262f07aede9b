/** A value that may be missing: JavaScript's `undefined`/`null` next to a real value. */
module Options {

  datatype Option<+T> = None | Some(value: T)

  /** JavaScript's `x || ''` for an optional string: a missing value reads as the empty string. */
  function OrEmpty(o: Option<string>): string
  {
    match o
    case Some(s) => s
    case None => ""
  }
}
