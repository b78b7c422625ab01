/** Two notions about lists that several parts share. */
module Lists {

  predicate NoDuplicates<T(==)>(list: seq<T>) {
    forall i, j | 0 <= i < j < |list| :: list[i] != list[j]
  }

  function Without<T(==, !new)>(list: seq<T>, x: T): (rest: seq<T>)
    ensures forall y :: y in rest <==> y in list && y != x
  {
    if list == [] then [] else (if list[0] == x then [] else [list[0]]) + Without(list[1..], x)
  }
}
