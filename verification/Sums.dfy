/** Weighted sums over sequences. Every counter of the engine is compared with one of them. */
module Sums {

  function Min(a: int, b: int): int {
    if a < b then a else b
  }

  function Sum<T>(weight: T -> nat, s: seq<T>): nat {
    if s == [] then 0 else weight(s[0]) + Sum(weight, s[1..])
  }

  lemma {:induction false} SumAppend<T>(weight: T -> nat, s: seq<T>, x: T)
    ensures Sum(weight, s + [x]) == Sum(weight, s) + weight(x)
  {
    if s == [] {
      assert s + [x] == [x];
    } else {
      assert (s + [x])[1..] == s[1..] + [x];
      SumAppend(weight, s[1..], x);
    }
  }

  lemma SumDropLast<T>(weight: T -> nat, s: seq<T>)
    requires s != []
    ensures Sum(weight, s) == Sum(weight, s[..|s| - 1]) + weight(s[|s| - 1])
  {
    var front := s[..|s| - 1];
    assert s == front + [s[|s| - 1]];
    SumAppend(weight, front, s[|s| - 1]);
  }

  lemma {:induction false} SumUpdate<T>(weight: T -> nat, s: seq<T>, i: nat, x: T)
    requires i < |s|
    ensures Sum(weight, s[i := x]) == Sum(weight, s) - weight(s[i]) + weight(x)
  {
    if i == 0 {
      assert s[0 := x][1..] == s[1..];
    } else {
      assert s[i := x][1..] == s[1..][i - 1 := x];
      SumUpdate(weight, s[1..], i - 1, x);
    }
  }

  /** No element weighs more than the whole. */
  lemma {:induction false} SumAtLeast<T>(weight: T -> nat, s: seq<T>, i: nat)
    requires i < |s|
    ensures weight(s[i]) <= Sum(weight, s)
  {
    if i > 0 {
      SumAtLeast(weight, s[1..], i - 1);
    }
  }

  lemma {:induction false} SumZero<T>(weight: T -> nat, s: seq<T>)
    requires forall i | 0 <= i < |s| :: weight(s[i]) == 0
    ensures Sum(weight, s) == 0
  {
    if s != [] {
      SumZero(weight, s[1..]);
    }
  }

  /** If every element counts once in `whole` and once among the three parts, the totals agree. */
  lemma {:induction false} SumSplit<T>(whole: T -> nat, a: T -> nat, b: T -> nat, c: T -> nat, s: seq<T>)
    requires forall i | 0 <= i < |s| :: whole(s[i]) == a(s[i]) + b(s[i]) + c(s[i])
    ensures Sum(whole, s) == Sum(a, s) + Sum(b, s) + Sum(c, s)
  {
    if s != [] {
      SumSplit(whole, a, b, c, s[1..]);
    }
  }

  lemma {:induction false} SumSame<T>(a: T -> nat, b: T -> nat, s: seq<T>)
    requires forall i | 0 <= i < |s| :: a(s[i]) == b(s[i])
    ensures Sum(a, s) == Sum(b, s)
  {
    if s != [] {
      SumSame(a, b, s[1..]);
    }
  }

  /** A strictly smaller total is witnessed by a strictly smaller element. */
  lemma {:induction false} SumDeficit<T>(a: T -> nat, b: T -> nat, s: seq<T>) returns (i: nat)
    requires Sum(a, s) < Sum(b, s)
    ensures i < |s| && a(s[i]) < b(s[i])
  {
    if a(s[0]) < b(s[0]) {
      i := 0;
    } else {
      var k := SumDeficit(a, b, s[1..]);
      i := k + 1;
    }
  }
}
