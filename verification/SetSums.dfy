/** Sums of an integer weight over a finite set, with the laws the ledger proofs use. */
module SetSums {

  ghost function Sum<T(!new)>(s: set<T>, f: T -> int): int {
    if s == {} then 0 else
      var x :| x in s;
      f(x) + Sum(s - {x}, f)
  }

  /** Any element may be taken out first. */
  lemma {:induction false} SumRemove<T(!new)>(s: set<T>, f: T -> int, y: T)
    requires y in s
    ensures Sum(s, f) == f(y) + Sum(s - {y}, f)
    decreases |s|
  {
    var x :| x in s && Sum(s, f) == f(x) + Sum(s - {x}, f);
    if x != y {
      SumRemove(s - {x}, f, y);
      SumRemove(s - {y}, f, x);
      assert s - {x} - {y} == s - {y} - {x};
    }
  }

  lemma SumAdd<T(!new)>(s: set<T>, f: T -> int, y: T)
    requires y !in s
    ensures Sum(s + {y}, f) == f(y) + Sum(s, f)
  {
    SumRemove(s + {y}, f, y);
    assert s + {y} - {y} == s;
  }

  lemma {:induction false} SumUnion<T(!new)>(a: set<T>, b: set<T>, f: T -> int)
    requires a !! b
    ensures Sum(a + b, f) == Sum(a, f) + Sum(b, f)
    decreases |b|
  {
    if b == {} {
      assert a + b == a;
    } else {
      var y :| y in b;
      SumUnion(a, b - {y}, f);
      SumAdd(a + (b - {y}), f, y);
      SumRemove(b, f, y);
      assert a + b == a + (b - {y}) + {y};
    }
  }

  lemma {:induction false} SumCongruent<T(!new)>(s: set<T>, f: T -> int, g: T -> int)
    requires forall x :: x in s ==> f(x) == g(x)
    ensures Sum(s, f) == Sum(s, g)
    decreases |s|
  {
    if s != {} {
      var x :| x in s;
      SumRemove(s, f, x);
      SumRemove(s, g, x);
      SumCongruent(s - {x}, f, g);
    }
  }

  lemma {:induction false} SumNonNegative<T(!new)>(s: set<T>, f: T -> int)
    requires forall x :: x in s ==> f(x) >= 0
    ensures Sum(s, f) >= 0
    decreases |s|
  {
    if s != {} {
      var x :| x in s;
      SumRemove(s, f, x);
      SumNonNegative(s - {x}, f);
    }
  }

  lemma SumSubset<T(!new)>(a: set<T>, b: set<T>, f: T -> int)
    requires a <= b
    requires forall x :: x in b ==> f(x) >= 0
    ensures Sum(a, f) <= Sum(b, f)
  {
    SumUnion(a, b - a, f);
    assert a + (b - a) == b;
    SumNonNegative(b - a, f);
  }

  lemma {:induction false} SumAllZero<T(!new)>(s: set<T>, f: T -> int)
    requires forall x :: x in s ==> f(x) == 0
    ensures Sum(s, f) == 0
    decreases |s|
  {
    if s != {} {
      var x :| x in s;
      SumRemove(s, f, x);
      SumAllZero(s - {x}, f);
    }
  }

  lemma {:induction false} SumPlus<T(!new)>(s: set<T>, f: T -> int, g: T -> int, h: T -> int)
    requires forall x :: x in s ==> h(x) == f(x) + g(x)
    ensures Sum(s, h) == Sum(s, f) + Sum(s, g)
    decreases |s|
  {
    if s != {} {
      var x :| x in s;
      SumRemove(s, f, x);
      SumRemove(s, g, x);
      SumRemove(s, h, x);
      SumPlus(s - {x}, f, g, h);
    }
  }

  ghost function Row<A(!new), B(!new)>(f: (A, B) -> int, x: A): B -> int {
    (y: B) => f(x, y)
  }

  ghost function Column<A(!new), B(!new)>(f: (A, B) -> int, y: B): A -> int {
    (x: A) => f(x, y)
  }

  ghost function RowSums<A(!new), B(!new)>(t: set<B>, f: (A, B) -> int): A -> int {
    (x: A) => Sum(t, Row(f, x))
  }

  ghost function ColumnSums<A(!new), B(!new)>(s: set<A>, f: (A, B) -> int): B -> int {
    (y: B) => Sum(s, Column(f, y))
  }

  /** Summing a table by rows or by columns. */
  lemma {:induction false} SumSwap<A(!new), B(!new)>(s: set<A>, t: set<B>, f: (A, B) -> int)
    ensures Sum(s, RowSums(t, f)) == Sum(t, ColumnSums(s, f))
    decreases |s|
  {
    if s == {} {
      SumAllZero(t, ColumnSums(s, f));
    } else {
      var x :| x in s;
      var rest := s - {x};
      SumSwap(rest, t, f);
      SumRemove(s, RowSums(t, f), x);
      forall y | y in t ensures ColumnSums(s, f)(y) == Row(f, x)(y) + ColumnSums(rest, f)(y) {
        SumRemove(s, Column(f, y), x);
      }
      SumPlus(t, Row(f, x), ColumnSums(rest, f), ColumnSums(s, f));
    }
  }
}
