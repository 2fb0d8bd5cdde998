/** Sums of a function over a finite set. */
module Sums {

  lemma Pick<T>(s: set<T>) returns (x: T)
    requires s != {}
    ensures x in s
  {
    x :| x in s;
  }

  // One step of an iteration over a map's keys, in no particular order.
  method Choose<T(==)>(s: set<T>) returns (x: T)
    requires s != {}
    ensures x in s
  {
    x :| x in s;
  }

  // The numbers from lo to hi - 1.
  function Upto(lo: int, hi: int): (s: set<int>)
    requires lo <= hi
    ensures forall t :: t in s <==> lo <= t < hi
    ensures |s| == hi - lo
    decreases hi - lo
  {
    if lo == hi then {} else Upto(lo, hi - 1) + {hi - 1}
  }

  lemma CountWithout<T>(s: set<T>, x: T)
    ensures |s| == |s - {x}| + if x in s then 1 else 0
  {
    assert x in s ==> s == (s - {x}) + {x};
    assert x !in s ==> s - {x} == s;
  }

  ghost function Total<T>(s: set<T>, f: T -> int): int {
    if s == {} then 0
    else
      var x :| x in s;
      f(x) + Total(s - {x}, f)
  }

  // The order of summation does not matter: any element may be taken out first.
  lemma {:induction false} TakeOut<T>(s: set<T>, f: T -> int, x: T)
    requires x in s
    ensures Total(s, f) == f(x) + Total(s - {x}, f)
    decreases s
  {
    var y :| y in s && Total(s, f) == f(y) + Total(s - {y}, f);
    if y != x {
      TakeOut(s - {y}, f, x);
      TakeOut(s - {x}, f, y);
      assert s - {y} - {x} == s - {x} - {y};
    }
  }

  lemma {:induction false} SameTerms<T>(s: set<T>, f: T -> int, g: T -> int)
    requires forall x :: x in s ==> f(x) == g(x)
    ensures Total(s, f) == Total(s, g)
    decreases s
  {
    if s != {} {
      var x :| x in s;
      TakeOut(s, f, x);
      TakeOut(s, g, x);
      SameTerms(s - {x}, f, g);
    }
  }

  // Changing the function at one element changes the sum by the difference.
  lemma ChangeOne<T>(s: set<T>, f: T -> int, g: T -> int, x: T)
    requires x in s && forall y :: y in s && y != x ==> f(y) == g(y)
    ensures Total(s, g) == Total(s, f) - f(x) + g(x)
  {
    TakeOut(s, f, x);
    TakeOut(s, g, x);
    SameTerms(s - {x}, f, g);
  }

  lemma OneMore(n: nat, m: int)
    ensures (n + 1) * m == n * m + m
  {
  }

  lemma {:induction false} AtMostTimes<T>(s: set<T>, f: T -> int, most: int)
    requires forall x :: x in s ==> 0 <= f(x) <= most
    ensures 0 <= Total(s, f) <= |s| * most
    decreases s
  {
    if s != {} {
      var x :| x in s;
      TakeOut(s, f, x);
      AtMostTimes(s - {x}, f, most);
      assert |s| == |s - {x}| + 1;
      OneMore(|s - {x}|, most);
    }
  }

  lemma {:induction false} AtLeastTerm<T>(s: set<T>, f: T -> int, x: T)
    requires (forall y :: y in s ==> f(y) >= 0) && x in s
    ensures Total(s, f) >= f(x)
  {
    TakeOut(s, f, x);
    NonNegative(s - {x}, f);
  }

  lemma {:induction false} NonNegative<T>(s: set<T>, f: T -> int)
    requires forall y :: y in s ==> f(y) >= 0
    ensures Total(s, f) >= 0
    decreases s
  {
    if s != {} {
      var x :| x in s;
      TakeOut(s, f, x);
      NonNegative(s - {x}, f);
    }
  }

  lemma AddElement<T>(s: set<T>, f: T -> int, x: T)
    requires x !in s
    ensures Total(s + {x}, f) == Total(s, f) + f(x)
  {
    TakeOut(s + {x}, f, x);
    assert s + {x} - {x} == s;
  }

  // Terms outside t that are zero do not count.
  lemma {:induction false} OnlySome<T>(s: set<T>, t: set<T>, f: T -> int, g: T -> int)
    requires t <= s && forall x :: x in s ==> f(x) == if x in t then g(x) else 0
    ensures Total(s, f) == Total(t, g)
    decreases s
  {
    if s == {} {
      assert t == {};
    } else {
      var x := Pick(s);
      TakeOut(s, f, x);
      OnlySome(s - {x}, t - {x}, f, g);
      if x in t {
        TakeOut(t, g, x);
      } else {
        assert t - {x} == t;
      }
    }
  }

  // A sum of ones counts.
  lemma {:induction false} SumCounts<T>(s: set<T>, t: set<T>, f: T -> int)
    requires t <= s && forall x :: x in s ==> f(x) == if x in t then 1 else 0
    ensures Total(s, f) == |t|
    decreases s
  {
    if s == {} {
      assert t == {};
    } else {
      var x := Pick(s);
      TakeOut(s, f, x);
      SumCounts(s - {x}, t - {x}, f);
      CountWithout(t, x);
    }
  }
}
