/**
 * The two statistics the metrics code computes over Python lists of floats:
 * `sorted(xs)[len(xs) // 2] if xs else 0.0` (the upper median) and
 * `sum(xs) / len(xs) if xs else 0.0` (the mean). Values are exact reals.
 */
module Stats {

  predicate SortedAsc(s: seq<real>)
  {
    forall i, j :: 0 <= i < j < |s| ==> s[i] <= s[j]
  }

  function InsertAsc(x: real, s: seq<real>): seq<real>
  {
    if s == [] || x <= s[0] then [x] + s else [s[0]] + InsertAsc(x, s[1..])
  }

  /** Python's `sorted` on a list of numbers (insertion sort): ascending, and a permutation of `xs`. */
  function SortAsc(xs: seq<real>): (r: seq<real>)
    ensures SortedAsc(r)
    ensures multiset(r) == multiset(xs)
    ensures |r| == |xs|
  {
    if xs == [] then []
    else
      InsertAscCorrect(xs[0], SortAsc(xs[1..]));
      assert xs == [xs[0]] + xs[1..];
      assert |multiset(InsertAsc(xs[0], SortAsc(xs[1..])))| == |multiset(xs)|;
      InsertAsc(xs[0], SortAsc(xs[1..]))
  }

  lemma {:induction false} InsertAscCorrect(x: real, s: seq<real>)
    requires SortedAsc(s)
    ensures SortedAsc(InsertAsc(x, s))
    ensures multiset(InsertAsc(x, s)) == multiset([x] + s)
  {
    InsertAscSorted(x, s);
    InsertAscPerm(x, s);
  }

  lemma {:induction false} InsertAscPerm(x: real, s: seq<real>)
    ensures multiset(InsertAsc(x, s)) == multiset([x] + s)
    decreases |s|
  {
    if s != [] && x > s[0] {
      InsertAscPerm(x, s[1..]);
      assert s == [s[0]] + s[1..];
    }
  }

  /** Inserting keeps the list ascending; the new head is `x` or the old head. */
  lemma {:induction false} InsertAscSorted(x: real, s: seq<real>)
    requires SortedAsc(s)
    ensures |InsertAsc(x, s)| == |s| + 1
    ensures InsertAsc(x, s)[0] == if s == [] || x <= s[0] then x else s[0]
    ensures SortedAsc(InsertAsc(x, s))
    decreases |s|
  {
    if s != [] && x > s[0] {
      var r := InsertAsc(x, s[1..]);
      InsertAscSorted(x, s[1..]);
      assert s[0] <= r[0];
      assert forall k :: 0 <= k < |r| ==> s[0] <= r[k] by {
        forall k | 0 <= k < |r| ensures s[0] <= r[k] {
          if k > 0 {
            assert r[0] <= r[k];
          }
        }
      }
      assert InsertAsc(x, s) == [s[0]] + r;
    }
  }

  /**
   * `sorted(xs)[len(xs) // 2] if xs else 0.0`: for a non-empty list, one of
   * its values, with at most `len // 2` values below it and at most
   * `len - len // 2 - 1` above it.
   */
  function UpperMedian(xs: seq<real>): (m: real)
    ensures xs == [] ==> m == 0.0
    ensures xs != [] ==> m in xs
    ensures CountBelow(xs, m) <= |xs| / 2
    ensures xs != [] ==> CountAbove(xs, m) <= |xs| - |xs| / 2 - 1
  {
    if xs == [] then 0.0
    else
      var s := SortAsc(xs);
      var k := |xs| / 2;
      assert s[k] in multiset(xs) by {
        assert s[k] in multiset(s);
      }
      SplitAtSorted(s, k);
      CountsOfSort(xs, s[k]);
      s[k]
  }

  function CountBelow(xs: seq<real>, m: real): nat
  {
    if xs == [] then 0 else (if xs[0] < m then 1 else 0) + CountBelow(xs[1..], m)
  }

  function CountAbove(xs: seq<real>, m: real): nat
  {
    if xs == [] then 0 else (if xs[0] > m then 1 else 0) + CountAbove(xs[1..], m)
  }

  lemma {:induction false} CountsOfInsert(x: real, s: seq<real>, m: real)
    ensures CountBelow(InsertAsc(x, s), m) == CountBelow([x] + s, m)
    ensures CountAbove(InsertAsc(x, s), m) == CountAbove([x] + s, m)
    decreases |s|
  {
    if s != [] && x > s[0] {
      CountsOfInsert(x, s[1..], m);
      assert ([x] + s)[1..] == s;
      assert ([x] + s[1..])[1..] == s[1..];
    }
  }

  lemma {:induction false} CountsOfSort(xs: seq<real>, m: real)
    ensures CountBelow(SortAsc(xs), m) == CountBelow(xs, m)
    ensures CountAbove(SortAsc(xs), m) == CountAbove(xs, m)
    decreases |xs|
  {
    if xs != [] {
      CountsOfSort(xs[1..], m);
      CountsOfInsert(xs[0], SortAsc(xs[1..]), m);
      assert ([xs[0]] + SortAsc(xs[1..]))[1..] == SortAsc(xs[1..]);
    }
  }

  /** In an ascending list, only the entries before position `k` can lie below `s[k]`. */
  lemma {:induction false} SortedCountBelow(s: seq<real>, k: nat, m: real)
    requires SortedAsc(s) && k <= |s|
    requires forall i :: k <= i < |s| ==> s[i] >= m
    ensures CountBelow(s, m) <= k
    decreases |s|
  {
    if s != [] {
      if k == 0 {
        SortedCountBelow(s[1..], 0, m);
      } else {
        SortedCountBelow(s[1..], k - 1, m);
      }
    }
  }

  /** In an ascending list, only the entries after position `k` can lie above `s[k]`. */
  lemma {:induction false} SortedCountAbove(s: seq<real>, k: nat, m: real)
    requires SortedAsc(s) && k <= |s|
    requires forall i :: 0 <= i < k ==> s[i] <= m
    ensures CountAbove(s, m) <= |s| - k
    decreases |s|
  {
    if s != [] {
      if k == 0 {
        SortedCountAbove(s[1..], 0, m);
        assert CountAbove(s, m) <= 1 + CountAbove(s[1..], m);
      } else {
        SortedCountAbove(s[1..], k - 1, m);
      }
    }
  }

  lemma SplitAtSorted(s: seq<real>, k: nat)
    requires SortedAsc(s) && k < |s|
    ensures CountBelow(s, s[k]) <= k
    ensures CountAbove(s, s[k]) <= |s| - k - 1
  {
    SortedCountBelow(s, k, s[k]);
    SortedCountAbove(s, k + 1, s[k]);
  }

  function Sum(xs: seq<real>): real
  {
    if xs == [] then 0.0 else xs[0] + Sum(xs[1..])
  }

  /** `sum(xs) / len(xs) if xs else 0.0`; the mean of rates in [0, 1] is a rate in [0, 1]. */
  function Mean(xs: seq<real>): (r: real)
    ensures xs == [] ==> r == 0.0
    ensures AllIn(xs, 0.0, 1.0) ==> 0.0 <= r <= 1.0
  {
    if xs == [] then 0.0
    else if AllIn(xs, 0.0, 1.0) then
      SumBounds(xs);
      RatioInUnit(Sum(xs), |xs| as real);
      Sum(xs) / (|xs| as real)
    else
      Sum(xs) / (|xs| as real)
  }

  predicate AllIn(xs: seq<real>, lo: real, hi: real)
  {
    forall i :: 0 <= i < |xs| ==> lo <= xs[i] <= hi
  }

  lemma {:induction false} SumBounds(xs: seq<real>)
    requires AllIn(xs, 0.0, 1.0)
    ensures 0.0 <= Sum(xs) <= |xs| as real
    decreases |xs|
  {
    if xs != [] {
      SumBounds(xs[1..]);
    }
  }

  lemma RatioInUnit(a: real, n: real)
    requires 0.0 < n && 0.0 <= a <= n
    ensures 0.0 <= a / n <= 1.0
  {
    var q := a / n;
    assert q * n == a;
    assert (1.0 - q) * n == n - a;
  }

  /** When every value is the same, the mean and the upper median are that value. */
  lemma ConstantStatistics(xs: seq<real>, c: real)
    requires xs != [] && forall i :: 0 <= i < |xs| ==> xs[i] == c
    ensures Mean(xs) == c
    ensures UpperMedian(xs) == c
  {
    SumOfConstant(xs, c);
  }

  lemma {:induction false} SumOfConstant(xs: seq<real>, c: real)
    requires forall i :: 0 <= i < |xs| ==> xs[i] == c
    ensures Sum(xs) == (|xs| as real) * c
    decreases |xs|
  {
    if xs != [] {
      SumOfConstant(xs[1..], c);
    }
  }
}
