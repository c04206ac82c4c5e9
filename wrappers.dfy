/** Small value wrappers shared by every module of the model. */
module Wrappers {

  /** A value that may be missing: `null`/`undefined` in the source. */
  datatype Option<+T> = None | Some(value: T)

  /** The outcome of `JSON.parse`: it either throws a syntax error or yields a value. */
  datatype ParseResult<+T> = SyntaxError | Parsed(value: T)

  /** JavaScript's `opt || fallback` on an optional string: a missing or empty string is falsy. */
  function OrElse(opt: Option<string>, fallback: string): string
  {
    if opt.Some? && opt.value != "" then opt.value else fallback
  }
}
