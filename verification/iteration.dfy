/** Iteration over Go maps. Go visits the keys of a map in an unspecified order, so a loop
    over a map asks for some order here and is proved for every one of them. */
module Iteration {
  ghost predicate Enumerates<T(!new)>(order: seq<T>, s: set<T>) {
    && (forall i, j :: 0 <= i < j < |order| ==> order[i] != order[j])
    && (forall x :: x in order <==> x in s)
  }

  method AnyOrder<T(==,!new)>(s: set<T>) returns (order: seq<T>)
    ensures Enumerates(order, s)
  {
    order := [];
    var todo := s;
    while exists x :: x in todo
      invariant forall x :: x in s <==> x in order || x in todo
      invariant forall x :: x in order ==> x !in todo
      invariant forall i, j :: 0 <= i < j < |order| ==> order[i] != order[j]
      decreases todo
    {
      var x :| x in todo;
      order := order + [x];
      todo := todo - {x};
    }
  }
}
