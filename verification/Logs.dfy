/** Sums and selections over logs, used to count messages in flight. */
module Logs {
  function Sum<T>(s: seq<T>, f: T -> int): int {
    if s == [] then 0 else f(s[0]) + Sum(s[1..], f)
  }

  function Select<T>(s: seq<T>, keep: T -> bool): seq<T> {
    if s == [] then []
    else if keep(s[0]) then [s[0]] + Select(s[1..], keep)
    else Select(s[1..], keep)
  }

  /** The log that is left when entry n is taken out. */
  function Without<T>(s: seq<T>, n: nat): seq<T>
    requires n < |s|
  {
    s[..n] + s[n + 1..]
  }

  lemma WithoutBeforeLast<T>(s: seq<T>, n: nat, x: T)
    requires n < |s|
    ensures Without(s + [x], n) == Without(s, n) + [x]
  {
  }

  /** Entry n is the oldest of the entries that `same` selects. */
  ghost predicate Oldest<T>(s: seq<T>, n: nat, same: T -> bool)
  {
    n < |s| && same(s[n]) && forall j :: 0 <= j < n ==> !same(s[j])
  }

  lemma {:induction false} SumConcat<T>(a: seq<T>, b: seq<T>, f: T -> int)
    ensures Sum(a + b, f) == Sum(a, f) + Sum(b, f)
  {
    if a == [] {
      assert a + b == b;
    } else {
      assert (a + b)[1..] == a[1..] + b;
      SumConcat(a[1..], b, f);
    }
  }

  lemma SumAppend<T>(a: seq<T>, x: T, f: T -> int)
    ensures Sum(a + [x], f) == Sum(a, f) + f(x)
  {
    SumConcat(a, [x], f);
  }

  lemma SumWithout<T>(s: seq<T>, n: nat, f: T -> int)
    requires n < |s|
    ensures Sum(Without(s, n), f) == Sum(s, f) - f(s[n])
  {
    SumConcat(s[..n], s[n + 1..], f);
    SumConcat(s[..n], s[n..], f);
    assert s == s[..n] + s[n..];
  }

  /** Exchanging entry n for x changes every sum by the difference of the two. */
  lemma SumExchange<T>(s: seq<T>, n: nat, x: T)
    requires n < |s|
    ensures forall f: T -> int :: Sum(Without(s, n) + [x], f) == Sum(s, f) - f(s[n]) + f(x)
    ensures forall f: T -> int :: Sum(Without(s, n), f) == Sum(s, f) - f(s[n])
  {
    forall f: T -> int
      ensures Sum(Without(s, n) + [x], f) == Sum(s, f) - f(s[n]) + f(x) && Sum(Without(s, n), f) == Sum(s, f) - f(s[n])
    {
      SumWithout(s, n, f);
      SumAppend(Without(s, n), x, f);
    }
  }

  lemma {:induction false} SumBounds<T>(s: seq<T>, f: T -> int, n: nat)
    requires n < |s|
    requires forall x :: x in s ==> f(x) >= 0
    ensures f(s[n]) <= Sum(s, f)
  {
    SumNonNegative(s[1..], f);
    if n > 0 {
      SumBounds(s[1..], f, n - 1);
    }
  }

  lemma {:induction false} SumNonNegative<T>(s: seq<T>, f: T -> int)
    requires forall x :: x in s ==> f(x) >= 0
    ensures Sum(s, f) >= 0
  {
    if s != [] {
      SumNonNegative(s[1..], f);
    }
  }

  lemma {:induction false} SumPositive<T>(s: seq<T>, f: T -> int) returns (n: nat)
    requires Sum(s, f) > 0
    ensures n < |s| && f(s[n]) > 0
  {
    if f(s[0]) > 0 {
      n := 0;
    } else {
      n := SumPositive(s[1..], f);
      n := n + 1;
    }
  }

  lemma {:induction false} SelectConcat<T>(a: seq<T>, b: seq<T>, keep: T -> bool)
    ensures Select(a + b, keep) == Select(a, keep) + Select(b, keep)
  {
    if a == [] {
      assert a + b == b;
    } else {
      assert (a + b)[1..] == a[1..] + b;
      SelectConcat(a[1..], b, keep);
    }
  }

  lemma {:induction false} SelectNone<T>(s: seq<T>, keep: T -> bool)
    requires forall x :: x in s ==> !keep(x)
    ensures Select(s, keep) == []
  {
    if s != [] {
      SelectNone(s[1..], keep);
    }
  }

  /** Taking out the oldest selected entry takes the head off the selection. */
  lemma SelectWithoutOldest<T>(s: seq<T>, n: nat, keep: T -> bool)
    requires Oldest(s, n, keep)
    ensures Select(s, keep) == [s[n]] + Select(Without(s, n), keep)
  {
    SelectNone(s[..n], keep);
    assert s == s[..n] + s[n..];
    SelectConcat(s[..n], s[n..], keep);
    SelectConcat(s[..n], s[n + 1..], keep);
  }

  /** Taking out an entry that is not selected leaves the selection as it was. */
  lemma SelectWithoutOther<T>(s: seq<T>, n: nat, keep: T -> bool)
    requires n < |s| && !keep(s[n])
    ensures Select(Without(s, n), keep) == Select(s, keep)
  {
    assert s == s[..n] + s[n..];
    SelectConcat(s[..n], s[n..], keep);
    SelectConcat(s[..n], s[n + 1..], keep);
  }

  lemma {:induction false} SelectSubset<T>(s: seq<T>, keep: T -> bool)
    ensures forall x :: x in Select(s, keep) <==> x in s && keep(x)
  {
    if s != [] {
      SelectSubset(s[1..], keep);
      assert s == [s[0]] + s[1..];
    }
  }

  /** The oldest selected entry exists as soon as some entry is selected. */
  lemma {:induction false} OldestExists<T>(s: seq<T>, keep: T -> bool, j: nat) returns (n: nat)
    requires j < |s| && keep(s[j])
    ensures Oldest(s, n, keep)
  {
    if keep(s[0]) {
      n := 0;
    } else {
      n := OldestExists(s[1..], keep, j - 1);
      n := n + 1;
    }
  }

  function Is(w: string): string -> int {
    x => if x == w then 1 else 0
  }

  lemma {:induction false} CountMembers(q: seq<string>, w: string)
    ensures Sum(q, Is(w)) >= 0
    ensures w in q <==> Sum(q, Is(w)) > 0
  {
    if q != [] {
      CountMembers(q[1..], w);
    }
  }

  /** A queue without repetitions is no longer than the set it draws from. */
  lemma {:induction false} DistinctFits(q: seq<string>, ids: set<string>)
    requires forall w :: Sum(q, Is(w)) <= 1
    requires forall w :: w in q ==> w in ids
    ensures |q| <= |ids|
  {
    if q != [] {
      CountMembers(q[1..], q[0]);
      forall w ensures Sum(q[1..], Is(w)) <= 1 {
        assert Sum(q, Is(w)) == Is(w)(q[0]) + Sum(q[1..], Is(w));
      }
      assert Sum(q, Is(q[0])) == 1 + Sum(q[1..], Is(q[0]));
      DistinctFits(q[1..], ids - {q[0]});
    }
  }

  /** A sum of zeros and ones that is 1 has its 1 at one place only. */
  lemma {:induction false} SumOneUnique<T>(s: seq<T>, f: T -> int) returns (n: nat)
    requires forall x :: x in s ==> f(x) == 0 || f(x) == 1
    requires Sum(s, f) == 1
    ensures n < |s| && f(s[n]) == 1 && forall m :: 0 <= m < |s| && f(s[m]) == 1 ==> m == n
  {
    n := SumPositive(s, f);
    SumWithout(s, n, f);
    var rest := Without(s, n);
    forall m | 0 <= m < |s| && f(s[m]) == 1 ensures m == n {
      if m < n {
        assert rest[m] == s[m];
        SumBounds(rest, f, m);
      } else if m > n {
        assert rest[m - 1] == s[m];
        SumBounds(rest, f, m - 1);
      }
    }
  }

  lemma {:induction false} SumAdds<T>(s: seq<T>, f: T -> int, g: T -> int, h: T -> int)
    requires forall x :: x in s ==> f(x) == g(x) + h(x)
    ensures Sum(s, f) == Sum(s, g) + Sum(s, h)
  {
    if s != [] {
      SumAdds(s[1..], f, g, h);
    }
  }

  lemma {:induction false} SumOnes<T>(s: seq<T>, f: T -> int)
    requires forall x :: x in s ==> f(x) == 1
    ensures Sum(s, f) == |s|
  {
    if s != [] {
      SumOnes(s[1..], f);
    }
  }
}
