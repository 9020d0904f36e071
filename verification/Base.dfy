/** Small vocabulary shared by every module. */
module Base {
  datatype Option<+T> = None | Some(value: T)

  function Max(a: int, b: int): int { if a < b then b else a }

  function Min(a: int, b: int): int { if a < b then a else b }

  /** Everything but the last element: histories grow at the end, so recursion runs backwards. */
  function Init<T>(s: seq<T>): seq<T>
    requires s != []
  {
    s[..|s| - 1]
  }

  function Last<T>(s: seq<T>): T
    requires s != []
  {
    s[|s| - 1]
  }

  lemma InitLast<T>(s: seq<T>, x: T)
    ensures Init(s + [x]) == s
    ensures Last(s + [x]) == x
  {
  }
}
