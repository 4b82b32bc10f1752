/** The standard library's max-heap, as its users see it: a bag whose `PopMax` returns some
  * greatest element. Which of several equal ones comes first is not promised. */
module Heap {

  ghost predicate TotalPreorder<T(!new)>(le: (T, T) -> bool) {
    && (forall x, y :: le(x, y) || le(y, x))
    && (forall x, y, z :: le(x, y) && le(y, z) ==> le(x, z))
  }

  method PopMax<T(!new, ==)>(h: multiset<T>, le: (T, T) -> bool) returns (top: T, rest: multiset<T>)
    requires h != multiset{} && TotalPreorder(le)
    ensures top in h && rest == h - multiset{top}
    ensures forall x :: x in h ==> le(x, top)
  {
    top :| top in h;
    var todo := h;
    while todo != multiset{}
      invariant todo <= h && top in h
      invariant forall x :: x in h ==> x in todo || le(x, top)
      decreases |todo|
    {
      var x :| x in todo;
      if le(top, x) {
        top := x;
      }
      todo := todo - multiset{x};
    }
    rest := h - multiset{top};
  }
}
