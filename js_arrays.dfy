/** The array operations the services use on lists: `indexOf` and removal with `splice`. */
module JsArrays {
  /** `xs.indexOf(x)`. */
  function IndexOf<T(==)>(xs: seq<T>, x: T): (i: int)
    ensures i == -1 <==> x !in xs
    ensures i != -1 ==> 0 <= i < |xs| && xs[i] == x && x !in xs[..i]
  {
    if xs == [] then -1
    else if xs[0] == x then 0
    else
      var j := IndexOf(xs[1..], x);
      assert j != -1 ==> xs[1..][..j] == xs[1..j + 1];
      if j == -1 then -1 else j + 1
  }

  /** `const idx = xs.indexOf(x); if (idx > -1) xs.splice(idx, 1)`. */
  function RemoveFirst<T(==)>(xs: seq<T>, x: T): seq<T> {
    var i := IndexOf(xs, x);
    if i == -1 then xs else xs[..i] + xs[i + 1..]
  }

  /**
   * Removal takes out the first occurrence of `x` and nothing else, keeping
   * the order of the rest; a list without `x` is left as it is.
   */
  lemma RemoveFirstRemovesOne<T>(xs: seq<T>, x: T)
    ensures x !in xs ==> RemoveFirst(xs, x) == xs
    ensures x in xs ==> |RemoveFirst(xs, x)| == |xs| - 1
    ensures multiset(RemoveFirst(xs, x)) == multiset(xs) - multiset{x}
    ensures x in xs ==> exists i :: 0 <= i < |xs| && xs[i] == x && x !in xs[..i] && RemoveFirst(xs, x) == xs[..i] + xs[i + 1..]
  {
    var i := IndexOf(xs, x);
    if i != -1 {
      assert xs == xs[..i] + [x] + xs[i + 1..];
    }
  }

  /** Every element left after the removal was in the list. */
  lemma RemoveFirstKeepsOthers<T>(xs: seq<T>, x: T)
    ensures forall c :: c in RemoveFirst(xs, x) ==> c in xs
  {
    RemoveFirstRemovesOne(xs, x);
    forall c | c in RemoveFirst(xs, x)
      ensures c in xs
    {
      assert multiset(RemoveFirst(xs, x))[c] > 0;
    }
  }
}
