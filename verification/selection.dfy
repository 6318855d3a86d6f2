/**
 * Row selection: keeping the rows of a table that satisfy a condition, as
 * a boolean mask `df[mask]` does. The same selection is used on input rows
 * and on classified rows.
 */
module Selection {

  /** The elements of `xs` satisfying `p`, in their original order. */
  function Filter<T(==,!new)>(xs: seq<T>, p: T -> bool): (ys: seq<T>)
    ensures |ys| <= |xs|
    ensures forall x :: x in ys <==> x in xs && p(x)
  {
    if xs == [] then []
    else (if p(xs[0]) then [xs[0]] else []) + Filter(xs[1..], p)
  }

  /**
   * The selection keeps every element satisfying `p` as often as it occurs
   * in `xs`, and no other element: repeated rows are all kept.
   */
  lemma {:induction false} FilterMultiplicity<T(!new)>(xs: seq<T>, p: T -> bool)
    ensures forall x :: multiset(Filter(xs, p))[x] == if p(x) then multiset(xs)[x] else 0
  {
    if xs != [] {
      FilterMultiplicity(xs[1..], p);
      var head := if p(xs[0]) then [xs[0]] else [];
      assert xs == [xs[0]] + xs[1..];
      assert multiset(xs) == multiset{xs[0]} + multiset(xs[1..]);
      assert multiset(Filter(xs, p)) == multiset(head) + multiset(Filter(xs[1..], p));
    }
  }
}
