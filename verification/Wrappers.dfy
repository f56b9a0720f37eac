/** An absent value: Elixir's `nil`, a missing row, an exception instead of a result. */
module Wrappers {
  datatype Option<+T> = None | Some(value: T)

  /** Interpolating nil gives the empty string. */
  function OrEmpty(text: Option<string>): string {
    match text
    case None => ""
    case Some(value) => value
  }
}
