/** Sorting: the result is ordered and a permutation, and for a total order the only such sequence. */
module Sorting {

  ghost predicate Preorder<T(!new)>(leq: (T, T) -> bool) {
    && (forall a, b :: leq(a, b) || leq(b, a))
    && (forall a, b, c :: leq(a, b) && leq(b, c) ==> leq(a, c))
  }

  ghost predicate Total<T(!new)>(leq: (T, T) -> bool) {
    Preorder(leq) && forall a, b :: leq(a, b) && leq(b, a) ==> a == b
  }

  predicate Ordered<T>(s: seq<T>, leq: (T, T) -> bool) {
    forall i, j :: 0 <= i < j < |s| ==> leq(s[i], s[j])
  }

  function Inserted<T>(s: seq<T>, a: T, leq: (T, T) -> bool): seq<T> {
    if s == [] || leq(a, s[0]) then [a] + s else [s[0]] + Inserted(s[1..], a, leq)
  }

  function Sorted<T>(s: seq<T>, leq: (T, T) -> bool): seq<T> {
    if s == [] then [] else Inserted(Sorted(s[..|s| - 1], leq), s[|s| - 1], leq)
  }

  /** Insertion sort, standing for the library's `sort_by`. */
  method Sort<T>(s: seq<T>, leq: (T, T) -> bool) returns (r: seq<T>)
    ensures r == Sorted(s, leq)
  {
    r := [];
    for i := 0 to |s|
      invariant r == Sorted(s[..i], leq)
    {
      assert s[..i + 1][..i] == s[..i];
      r := Inserted(r, s[i], leq);
    }
    assert s[..|s|] == s;
  }

  lemma PrependOrdered<T(!new)>(a: T, s: seq<T>, leq: (T, T) -> bool)
    requires Ordered(s, leq) && forall x :: x in s ==> leq(a, x)
    ensures Ordered([a] + s, leq)
  {
  }

  lemma {:induction false} InsertedElements<T(!new)>(s: seq<T>, a: T, leq: (T, T) -> bool)
    ensures multiset(Inserted(s, a, leq)) == multiset(s) + multiset{a}
    ensures forall x :: x in Inserted(s, a, leq) <==> x in s || x == a
  {
    if s != [] && !leq(a, s[0]) {
      InsertedElements(s[1..], a, leq);
      assert s == [s[0]] + s[1..];
    }
  }

  lemma {:induction false} InsertedIsOrdered<T(!new)>(s: seq<T>, a: T, leq: (T, T) -> bool)
    requires Preorder(leq) && Ordered(s, leq)
    ensures Ordered(Inserted(s, a, leq), leq)
  {
    if s != [] {
      var rest := s[1..];
      assert s == [s[0]] + rest;
      if leq(a, s[0]) {
        forall x | x in s ensures leq(a, x) {
          var i :| 0 <= i < |s| && s[i] == x;
          assert i > 0 ==> leq(s[0], s[i]);
        }
        PrependOrdered(a, s, leq);
      } else {
        InsertedIsOrdered(rest, a, leq);
        InsertedElements(rest, a, leq);
        forall x | x in Inserted(rest, a, leq) ensures leq(s[0], x) {
          if x in rest {
            var i :| 0 <= i < |rest| && rest[i] == x;
            assert leq(s[0], s[i + 1]);
          }
        }
        PrependOrdered(s[0], Inserted(rest, a, leq), leq);
      }
    }
  }

  lemma OneMore<T>(s: seq<T>)
    requires s != []
    ensures multiset(s) == multiset(s[..|s| - 1]) + multiset{s[|s| - 1]}
  {
    assert s == s[..|s| - 1] + [s[|s| - 1]];
  }

  /** Sorting orders and permutes. */
  lemma {:induction false} SortedIsOrdered<T(!new)>(s: seq<T>, leq: (T, T) -> bool)
    requires Preorder(leq)
    ensures Ordered(Sorted(s, leq), leq) && multiset(Sorted(s, leq)) == multiset(s)
  {
    if s != [] {
      var n := |s| - 1;
      var sorted := Sorted(s[..n], leq);
      SortedIsOrdered(s[..n], leq);
      InsertedIsOrdered(sorted, s[n], leq);
      InsertedElements(sorted, s[n], leq);
      OneMore(s);
    }
  }

  lemma FirstIsLeast<T(!new)>(s: seq<T>, x: T, leq: (T, T) -> bool)
    requires Preorder(leq) && Ordered(s, leq) && x in s
    ensures leq(s[0], x)
  {
    var i :| 0 <= i < |s| && s[i] == x;
    if i > 0 {
      assert leq(s[0], s[i]);
    }
  }

  lemma DropFirst<T>(s: seq<T>)
    requires s != []
    ensures multiset(s[1..]) == multiset(s) - multiset{s[0]}
  {
    assert s == [s[0]] + s[1..];
  }

  /** An ordered sequence is determined by its elements and their multiplicities. */
  lemma {:induction false} OrderedIsUnique<T(!new)>(s: seq<T>, t: seq<T>, leq: (T, T) -> bool)
    requires Total(leq) && Ordered(s, leq) && Ordered(t, leq) && multiset(s) == multiset(t)
    ensures s == t
  {
    assert |s| == |multiset(s)| == |multiset(t)| == |t|;
    if s != [] {
      assert s[0] in multiset(t) && t[0] in multiset(s);
      FirstIsLeast(s, t[0], leq);
      FirstIsLeast(t, s[0], leq);
      DropFirst(s);
      DropFirst(t);
      OrderedIsUnique(s[1..], t[1..], leq);
      assert s == [s[0]] + s[1..] && t == [t[0]] + t[1..];
    }
  }
}
