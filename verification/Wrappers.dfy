/** Option and Result values, and first-match search in a table. */
module Wrappers {

  datatype Option<+T> = None | Some(value: T)

  datatype Result<+T, +E> = Success(value: T) | Failure(error: E)

  /** COALESCE(a, b): keep what is already recorded. */
  function OrElse<T>(a: Option<T>, b: T): T {
    if a.Some? then a.value else b
  }

  /** The first row of a table that satisfies a WHERE condition, in insertion order. */
  function FirstWhere<T>(rows: seq<T>, p: T -> bool): (r: Option<nat>)
    ensures r.Some? ==> r.value < |rows| && p(rows[r.value])
  {
    if rows == [] then None
    else if p(rows[0]) then Some(0)
    else
      var rest := FirstWhere(rows[1..], p);
      if rest.Some? then Some(rest.value + 1) else None
  }

  lemma {:induction false} FirstWhereIs<T>(rows: seq<T>, p: T -> bool)
    ensures var r := FirstWhere(rows, p);
            forall i :: 0 <= i < (if r.Some? then r.value else |rows|) ==> !p(rows[i])
  {
    if rows != [] && !p(rows[0]) {
      FirstWhereIs(rows[1..], p);
      assert forall i :: 1 <= i < |rows| ==> rows[i] == rows[1..][i - 1];
    }
  }
}
