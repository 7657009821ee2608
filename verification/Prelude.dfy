/** Shared value types. Errors the program throws are `Err` values carrying the thrown code. */
module Prelude {
  datatype Option<+T> = None | Some(value: T)

  datatype Result<+T, +E> = Ok(value: T) | Err(error: E)

  /** Largest integer a JavaScript number represents exactly together with its neighbours. */
  const MAX_SAFE_INTEGER: int := 0x1F_FFFF_FFFF_FFFF

  function Min(x: int, y: int): int {
    if x <= y then x else y
  }

  function Max(x: int, y: int): int {
    if x >= y then x else y
  }

  function Abs(x: int): int {
    if x < 0 then -x else x
  }

  /** A sequence without its first element. */
  lemma DropFirst<T>(s: seq<T>)
    requires s != []
    ensures s == [s[0]] + s[1..] && multiset(s[1..]) == multiset(s) - multiset{s[0]}
  {
    assert s == [s[0]] + s[1..];
  }

  lemma Regroup<T>(x: seq<T>, y: seq<T>, z: seq<T>)
    ensures x + (y + z) == (x + y) + z
  {
  }
}
