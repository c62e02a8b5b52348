/** Small datatypes and sequence facts shared by the other modules. */
module Common {

  datatype Option<+T> = None | Some(value: T)

  /** No element occurs twice. */
  ghost predicate NoDup<T>(q: seq<T>) {
    forall i, j :: 0 <= i < j < |q| ==> q[i] != q[j]
  }

  /** The sequence without `a`, everything else in its old order. */
  function Without<T(==,!new)>(q: seq<T>, a: T): (r: seq<T>)
    ensures a !in r
    ensures forall b :: b != a ==> (b in r <==> b in q)
    ensures NoDup(q) ==> NoDup(r)
  {
    assert q != [] && NoDup(q) ==> NoDup(q[1..]) && q[0] !in q[1..];
    if q == [] then []
    else if q[0] == a then Without(q[1..], a)
    else [q[0]] + Without(q[1..], a)
  }

  /** Appending a new element or dropping the first one keeps a queue duplicate-free. */
  lemma NoDupQueue<T(!new)>(q: seq<T>, a: T)
    requires NoDup(q)
    ensures a !in q ==> NoDup(q + [a])
    ensures q != [] ==> NoDup(q[1..]) && q[0] !in q[1..]
    ensures q != [] ==> forall b :: b != q[0] ==> (b in q[1..] <==> b in q)
    ensures q != [] ==> NoDup(q[..|q| - 1]) && q[|q| - 1] !in q[..|q| - 1]
    ensures q != [] ==> forall b :: b != q[|q| - 1] ==> (b in q[..|q| - 1] <==> b in q)
  {
  }

  lemma SomeMember<T>(q: seq<T>)
    ensures q == [] || exists a :: a in q
  {
    assert q == [] || q[0] in q;
  }
}
