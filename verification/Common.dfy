/** Small vocabulary shared by every model: optional values and duplicate-free lists. */
module Common {

  datatype Option<+T> = None | Some(value: T)

  /** The deadline of SetInfiniteTimeout. */
  const INFINITE: nat := 0xffff_ffff_ffff_ffff

  function One(b: bool): nat { if b then 1 else 0 }

  predicate Distinct<T(==)>(s: seq<T>) {
    forall i, j | 0 <= i < j < |s| :: s[i] != s[j]
  }

  /** Unlinks x from a list, as LinkedList::Remove does. */
  function Without<T(==)>(s: seq<T>, x: T): seq<T> {
    if s == [] then [] else if s[0] == x then s[1..] else [s[0]] + Without(s[1..], x)
  }

  lemma WithoutMembers<T>(s: seq<T>, x: T)
    requires Distinct(s)
    ensures Distinct(Without(s, x))
    ensures forall y :: y in Without(s, x) <==> y in s && y != x
  {
    if s != [] {
      assert s == [s[0]] + s[1..];
      assert forall y :: y in s <==> y == s[0] || y in s[1..];
      if s[0] != x {
        WithoutMembers(s[1..], x);
        var rest := Without(s[1..], x);
        assert s[0] !in s[1..];
        assert s[0] !in rest;
      }
    }
  }

  lemma DistinctSnoc<T>(s: seq<T>, x: T)
    requires Distinct(s) && x !in s
    ensures Distinct(s + [x])
    ensures forall y :: y in s + [x] <==> y in s || y == x
  {
  }

  /** Moves x to the back of a list. */
  function Requeued<T(==)>(s: seq<T>, x: T): seq<T> {
    Without(s, x) + [x]
  }

  lemma RequeuedMembers<T>(s: seq<T>, x: T)
    requires Distinct(s) && x in s
    ensures Distinct(Requeued(s, x))
    ensures forall y :: y in Requeued(s, x) <==> y in s
  {
    var rest := Without(s, x);
    WithoutMembers(s, x);
    DistinctSnoc(rest, x);
    assert forall y :: y in rest + [x] <==> y in rest || y == x;
  }
}
