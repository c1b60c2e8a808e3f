/** Vocabulary shared by every module: optional values, results, and sums over sequences. */
module Prelude {

  datatype Option<+T> = None | Some(value: T)

  datatype Result<+T, +E> = Ok(value: T) | Err(error: E)

  function Max(a: real, b: real): real {
    if a < b then b else a
  }

  function Min(a: real, b: real): real {
    if a < b then a else b
  }

  /** The sum of `f` over the elements of `s`. */
  function Total<T>(f: T -> real, s: seq<T>): real {
    if |s| == 0 then 0.0 else Total(f, s[..|s| - 1]) + f(s[|s| - 1])
  }

  lemma {:induction false} TotalConcat<T>(f: T -> real, a: seq<T>, b: seq<T>)
    ensures Total(f, a + b) == Total(f, a) + Total(f, b)
  {
    if |b| == 0 {
      assert a + b == a;
    } else {
      assert (a + b)[..|a + b| - 1] == a + b[..|b| - 1];
      TotalConcat(f, a, b[..|b| - 1]);
    }
  }

  lemma {:induction false} TotalSingle<T>(f: T -> real, x: T)
    ensures Total(f, [x]) == f(x)
  {
    assert [x][..0] == [];
  }

  lemma {:induction false} TotalMiddle<T>(f: T -> real, a: seq<T>, x: T, b: seq<T>)
    ensures Total(f, a + [x] + b) == Total(f, a) + f(x) + Total(f, b)
  {
    TotalConcat(f, a + [x], b);
    TotalConcat(f, a, [x]);
    TotalSingle(f, x);
  }

  lemma {:induction false} TotalRemove<T>(f: T -> real, s: seq<T>, i: nat)
    requires i < |s|
    ensures Total(f, s[..i] + s[i + 1..]) == Total(f, s) - f(s[i])
  {
    var a, x, b := s[..i], s[i], s[i + 1..];
    calc {
      Total(f, s);
      { assert s == a + [x] + b; }
      Total(f, a + [x] + b);
      { TotalMiddle(f, a, x, b); }
      Total(f, a) + f(x) + Total(f, b);
      { TotalConcat(f, a, b); }
      Total(f, a + b) + f(x);
    }
  }

  lemma {:induction false} TotalUpdate<T>(f: T -> real, s: seq<T>, i: nat, x: T)
    requires i < |s|
    ensures Total(f, s[i := x]) == Total(f, s) - f(s[i]) + f(x)
  {
    var a, b := s[..i], s[i + 1..];
    assert s == a + [s[i]] + b;
    assert s[i := x] == a + [x] + b;
    TotalMiddle(f, a, s[i], b);
    TotalMiddle(f, a, x, b);
  }

  /** A sum does not depend on the order of its terms. */
  lemma {:induction false} TotalPermutation<T>(f: T -> real, a: seq<T>, b: seq<T>)
    requires multiset(a) == multiset(b)
    ensures Total(f, a) == Total(f, b)
    decreases |a|
  {
    if |a| == 0 {
      assert |multiset(b)| == 0;
    } else {
      var x := a[|a| - 1];
      assert x in multiset(b);
      var j :| 0 <= j < |b| && b[j] == x;
      var rest := b[..j] + b[j + 1..];
      assert a == a[..|a| - 1] + [x];
      assert b == b[..j] + [x] + b[j + 1..];
      assert multiset(rest) == multiset(b) - multiset{x};
      TotalPermutation(f, a[..|a| - 1], rest);
      TotalRemove(f, b, j);
    }
  }

  lemma {:induction false} TotalBounds<T>(f: T -> real, s: seq<T>)
    requires forall x :: x in s ==> f(x) >= 0.0
    ensures Total(f, s) >= 0.0
    ensures forall i :: 0 <= i < |s| ==> f(s[i]) <= Total(f, s)
  {
    if |s| > 0 {
      TotalBounds(f, s[..|s| - 1]);
    }
  }

  lemma {:induction false} TotalZero<T>(f: T -> real, s: seq<T>)
    requires forall x :: x in s ==> f(x) == 0.0
    ensures Total(f, s) == 0.0
  {
    if |s| > 0 {
      TotalZero(f, s[..|s| - 1]);
    }
  }

  lemma {:induction false} TotalEqual<T>(f: T -> real, g: T -> real, s: seq<T>)
    requires forall x :: x in s ==> f(x) == g(x)
    ensures Total(f, s) == Total(g, s)
  {
    if |s| > 0 {
      TotalEqual(f, g, s[..|s| - 1]);
    }
  }

  lemma SomeElement<T>(s: set<T>) returns (x: T)
    requires s != {}
    ensures x in s
  {
    x :| x in s;
  }

  // ---------- Real arithmetic, one nonlinear step at a time ----------

  lemma Distribute(a: real, b: real, c: real)
    ensures a * (b + c) == a * b + a * c
  {
  }

  lemma DivideSum(a: real, b: real, c: real)
    requires c != 0.0
    ensures (a + b) / c == a / c + b / c
  {
  }

  lemma DivideProduct(a: real, b: real, c: real)
    requires c != 0.0
    ensures a * b / c == a * (b / c)
  {
  }

  lemma MultiplyMonotone(a: real, b: real, c: real)
    requires a >= 0.0 && b <= c
    ensures a * b <= a * c
  {
    assert a * (c - b) >= 0.0;
  }

  lemma DivideNonNegative(a: real, b: real)
    requires a >= 0.0 && b > 0.0
    ensures a / b >= 0.0
  {
  }

  lemma RatioExceeds(a: real, b: real, limit: real)
    requires b > 0.0
    ensures a / b > limit <==> a > limit * b
  {
    assert a / b * b == a;
    if a / b > limit {
      assert (a / b - limit) * b > 0.0;
    } else {
      MultiplyMonotone(b, a / b, limit);
    }
  }
}
