/**
 * The lookup behind `init(title:)` of the `EnumTitle` protocol: the first of a type's cases whose
 * title matches. The protocol itself is not part of this model; its lookup is written out here once
 * and used by every enumeration that conforms to it.
 */
module EnumTitle {
  import opened Wrappers

  /** The first element of `cases` that satisfies `p`, or `None` when there is none. */
  function FirstWhere<T>(cases: seq<T>, p: T -> bool): (r: Option<T>)
    ensures r.Some? ==> r.value in cases && p(r.value)
    ensures r.None? <==> forall c | c in cases :: !p(c)
  {
    if cases == [] then None
    else if p(cases[0]) then Some(cases[0])
    else FirstWhere(cases[1..], p)
  }

  /** The case found is preceded only by cases that do not satisfy `p`. */
  lemma {:induction false} FirstWhereIsFirst<T>(cases: seq<T>, p: T -> bool)
    requires FirstWhere(cases, p).Some?
    ensures exists i | 0 <= i < |cases| :: cases[i] == FirstWhere(cases, p).value && forall j | 0 <= j < i :: !p(cases[j])
    decreases |cases|
  {
    if !p(cases[0]) {
      var tail := cases[1..];
      FirstWhereIsFirst(tail, p);
      var i :| 0 <= i < |tail| && tail[i] == FirstWhere(tail, p).value && forall j | 0 <= j < i :: !p(tail[j]);
      assert cases[i + 1] == tail[i];
      assert forall j | 1 <= j < i + 1 :: cases[j] == tail[j - 1];
    } else {
      assert cases[0] == FirstWhere(cases, p).value;
    }
  }

  /** When the matching case is unique, the lookup finds exactly it. */
  lemma FirstWhereUnique<T>(cases: seq<T>, p: T -> bool, c: T)
    requires c in cases && p(c)
    requires forall d | d in cases && p(d) :: d == c
    ensures FirstWhere(cases, p) == Some(c)
  {
  }
}
