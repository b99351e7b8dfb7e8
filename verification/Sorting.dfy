/** Insertion sort by any order, standing for Go's `sort` package. */
module Sorting {

  function InsertBy<T>(before: (T, T) -> bool, x: T, s: seq<T>): seq<T> {
    if s == [] then [x]
    else if !before(x, s[|s| - 1]) then s + [x]
    else InsertBy(before, x, s[..|s| - 1]) + [s[|s| - 1]]
  }

  /** Equal entries keep their order. */
  function SortBy<T>(before: (T, T) -> bool, s: seq<T>): seq<T> {
    if s == [] then [] else InsertBy(before, s[|s| - 1], SortBy(before, s[..|s| - 1]))
  }
}
