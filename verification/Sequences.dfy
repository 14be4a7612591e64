/** Lists of strings: no element twice, and the set of elements. */
module Sequences {

  ghost predicate NoDuplicates(list: seq<string>) {
    forall i, j | 0 <= i < j < |list| :: list[i] != list[j]
  }

  function Elements(list: seq<string>): set<string> {
    set x | x in list
  }
}
