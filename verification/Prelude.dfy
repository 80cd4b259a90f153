/** Optional values, results and listings of finite sets, shared by every module of the model. */
module Prelude {

  datatype Option<+T> = None | Some(value: T)

  datatype Result<+T, +E> = Ok(value: T) | Err(error: E)

  function Elems<T>(s: seq<T>): set<T> {
    set x | x in s
  }

  ghost predicate NoDup<T>(s: seq<T>) {
    forall i, j :: 0 <= i < j < |s| ==> s[i] != s[j]
  }

  /** `s` names every element of `keys` exactly once: one of the orders in which a map may be ranged over. */
  ghost predicate Lists<T>(s: seq<T>, keys: set<T>) {
    NoDup(s) && Elems(s) == keys
  }

  lemma {:induction false} ListsSize<T>(s: seq<T>, keys: set<T>)
    requires Lists(s, keys)
    ensures |s| == |keys|
  {
    if s == [] {
      assert keys == {};
    } else {
      var last := s[|s| - 1];
      assert Elems(s[..|s| - 1]) == keys - {last};
      ListsSize(s[..|s| - 1], keys - {last});
    }
  }

  lemma ListsSnoc<T>(s: seq<T>, keys: set<T>, x: T)
    requires Lists(s, keys) && x !in keys
    ensures Lists(s + [x], keys + {x})
  {
    assert x !in Elems(s);
  }

  lemma ListsConcat<T>(a: seq<T>, b: seq<T>, some: set<T>, others: set<T>)
    requires Lists(a, some) && Lists(b, others) && some !! others
    ensures Lists(a + b, some + others)
  {
    forall i, j | 0 <= i < |a| && 0 <= j < |b| ensures a[i] != b[j] {
      assert a[i] in Elems(a) && b[j] in Elems(b);
    }
    assert Elems(a + b) == Elems(a) + Elems(b);
  }

  lemma {:induction false} SubsetSize<T>(a: set<T>, b: set<T>)
    requires a <= b
    ensures |a| <= |b|
    ensures |a| == |b| ==> a == b
  {
    if a != {} {
      var x :| x in a;
      SubsetSize(a - {x}, b - {x});
    }
  }

  lemma {:induction false} Listing<T>(s: set<T>) returns (l: seq<T>)
    ensures Lists(l, s)
    decreases |s|
  {
    if s == {} {
      l := [];
    } else {
      var x :| x in s;
      var front := Listing(s - {x});
      ListsSnoc(front, s - {x}, x);
      assert s - {x} + {x} == s;
      l := front + [x];
    }
  }

  /** There is always a number that is not in use. */
  lemma {:induction false} FreeId(ids: set<nat>) returns (id: nat)
    ensures forall i :: i in ids ==> i < id
    decreases |ids|
  {
    if ids == {} {
      id := 0;
    } else {
      var some :| some in ids;
      var rest := FreeId(ids - {some});
      id := if some >= rest then some + 1 else rest;
      assert forall i :: i in ids ==> i == some || i in ids - {some};
    }
  }
}
