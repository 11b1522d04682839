/** Shared by all modules. */
module Common {
  datatype Option<+T> = None | Some(value: T)

  function Max(x: real, y: real): real {
    if x >= y then x else y
  }

  function Min(x: real, y: real): real {
    if x <= y then x else y
  }

  function Abs(x: real): real {
    if x < 0.0 then -x else x
  }

  predicate Between(x: real, p: real, q: real) {
    Min(p, q) <= x <= Max(p, q)
  }
}
