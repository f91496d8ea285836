/** What several modules share. */
module Basics {
  datatype Option<+T> = None | Some(value: T)

  function Max(a: int, b: int): int { if a < b then b else a }

  function Min(a: int, b: int): int { if a < b then a else b }

  lemma Regroup<T>(a: seq<T>, b: seq<T>, c: seq<T>)
    ensures (a + b) + c == a + (b + c)
  {}

  /** The position of the first `a` that a `b` follows. */
  function FirstPair<T(==)>(s: seq<T>, a: T, b: T): (i: Option<nat>)
    ensures i.Some? ==> i.value + 2 <= |s| && s[i.value] == a && s[i.value + 1] == b
  {
    if |s| < 2 then None
    else if s[0] == a && s[1] == b then Some(0)
    else match FirstPair(s[1..], a, b) case None => None case Some(i) => Some(i + 1)
  }
}
