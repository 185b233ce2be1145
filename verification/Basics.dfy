/** What several modules share. */
module Basics {
  /** An absent or present value: `None` in Python, `null` in TypeScript and SQL. */
  datatype Option<T> = None | Some(value: T)

  predicate OneLine(s: string) {
    '\n' !in s
  }

  function AbsReal(x: real): real { if x < 0.0 then -x else x }

  function MinReal(a: real, b: real): real { if b < a then b else a }

  function MaxReal(a: real, b: real): real { if a < b then b else a }
}
