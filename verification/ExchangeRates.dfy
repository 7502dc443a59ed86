/** Exchange rates from several sources: validation, averaging without outliers, and what a
    fetch stores (btpay/bitcoin/exchange.py). Rates are exact rationals. */
module ExchangeRates {
  import opened Wrappers

  // ---- Validation -----------------------------------------------------------

  /** `_validate_rate` of a value that converted to a decimal. */
  function Validated(rate: real, currency: string): Option<real> {
    if rate <= 0.0 then None
    else if currency == "USD" && (rate < 10_000.0 || rate > 2_000_000.0) then None
    else if rate > 500_000_000.0 then None
    else Some(rate)
  }

  ghost predicate Admissible(rate: real, currency: string) {
    0.0 < rate <= 500_000_000.0 && (currency == "USD" ==> 10_000.0 <= rate <= 2_000_000.0)
  }

  lemma ValidatedExactly(rate: real, currency: string)
    ensures Validated(rate, currency) == if Admissible(rate, currency) then Some(rate) else None
  {
  }

  // ---- Sorting --------------------------------------------------------------

  function Insert(x: real, s: seq<real>): (r: seq<real>)
    ensures |r| == |s| + 1
  {
    if s == [] || x <= s[0] then [x] + s else [s[0]] + Insert(x, s[1..])
  }

  /** `sorted`. */
  function Sorted(s: seq<real>): (r: seq<real>)
    ensures |r| == |s|
  {
    if s == [] then [] else Insert(s[0], Sorted(s[1..]))
  }

  ghost predicate Ascending(s: seq<real>) {
    forall i, j :: 0 <= i < j < |s| ==> s[i] <= s[j]
  }

  lemma {:induction false} InsertAscends(x: real, s: seq<real>)
    requires Ascending(s)
    ensures Ascending(Insert(x, s)) && multiset(Insert(x, s)) == multiset(s) + multiset{x}
  {
    if s != [] && x > s[0] {
      InsertAscends(x, s[1..]);
      assert s == [s[0]] + s[1..];
      InFront(s[0], Insert(x, s[1..]), s[1..], x);
    } else {
      assert Insert(x, s) == [x] + s;
    }
  }

  /** A least element in front of an ascending list. */
  lemma InFront(least: real, r: seq<real>, rest: seq<real>, x: real)
    requires Ascending(r) && multiset(r) == multiset(rest) + multiset{x}
    requires least < x && forall i :: 0 <= i < |rest| ==> least <= rest[i]
    ensures Ascending([least] + r)
  {
    forall i | 0 <= i < |r| ensures least <= r[i] {
      assert r[i] in multiset(r);
    }
  }

  lemma {:induction false} SortedAscends(s: seq<real>)
    ensures Ascending(Sorted(s)) && multiset(Sorted(s)) == multiset(s)
  {
    if s != [] {
      SortedAscends(s[1..]);
      InsertAscends(s[0], Sorted(s[1..]));
      assert s == [s[0]] + s[1..];
    }
  }

  lemma FirstIsLeast(s: seq<real>, t: seq<real>)
    requires Ascending(s) && Ascending(t) && multiset(s) == multiset(t) && s != [] && t != []
    ensures s[0] == t[0]
  {
    assert s[0] in multiset(s) && t[0] in multiset(t);
    assert s[0] in t && t[0] in s;
  }

  /** An ascending list is determined by its elements. */
  lemma {:induction false} AscendingUnique(s: seq<real>, t: seq<real>)
    requires Ascending(s) && Ascending(t) && multiset(s) == multiset(t)
    ensures s == t
  {
    assert |s| == |multiset(s)| == |t|;
    if s != [] {
      FirstIsLeast(s, t);
      assert s == [s[0]] + s[1..] && t == [t[0]] + t[1..];
      assert multiset(s[1..]) == multiset(s) - multiset{s[0]};
      assert multiset(t[1..]) == multiset(t) - multiset{t[0]};
      AscendingUnique(s[1..], t[1..]);
    }
  }

  // ---- Averaging ------------------------------------------------------------

  function Sum(s: seq<real>): real {
    if s == [] then 0.0 else s[0] + Sum(s[1..])
  }

  function Distance(a: real, b: real): real {
    if a < b then b - a else a - b
  }

  /** The rates within a threshold of the median. */
  function Near(s: seq<real>, median: real, threshold: real): seq<real> {
    if s == [] then []
    else (if Distance(s[0], median) <= threshold then [s[0]] else []) + Near(s[1..], median, threshold)
  }

  function Middle(s: seq<real>): real
    requires s != []
  {
    s[|s| / 2]
  }

  /** The middle rate, the upper one of two. */
  function Median(rates: seq<real>): real
    requires rates != []
  {
    Middle(Sorted(rates))
  }

  function Mean(s: seq<real>): real
    requires s != []
  {
    Sum(s) / |s| as real
  }

  /** The mean of the rates near the median. */
  function Trimmed(s: seq<real>): real
    requires s != []
  {
    var median := Middle(s);
    var filtered := Near(s, median, median * 0.05);
    if filtered == [] then median else Mean(filtered)
  }

  /** `_average_rates`. */
  function Average(rates: seq<real>): Option<real> {
    if rates == [] then None
    else if |rates| == 1 then Some(rates[0])
    else if |rates| == 2 then Some((rates[0] + rates[1]) / 2.0)
    else Some(Trimmed(Sorted(rates)))
  }

  ghost predicate Between(s: seq<real>, lo: real, hi: real) {
    forall i :: 0 <= i < |s| ==> lo <= s[i] <= hi
  }

  lemma {:induction false} SumBetween(s: seq<real>, lo: real, hi: real)
    requires Between(s, lo, hi)
    ensures lo * |s| as real <= Sum(s) <= hi * |s| as real
  {
    if s != [] {
      var n := |s[1..]| as real;
      SumBetween(s[1..], lo, hi);
      assert |s| as real == n + 1.0;
      OneMore(lo, n);
      OneMore(hi, n);
    }
  }

  lemma OneMore(a: real, n: real)
    ensures a * (n + 1.0) == a * n + a
  {
  }

  lemma QuotientBetween(total: real, n: real, lo: real, hi: real)
    requires n > 0.0 && lo * n <= total <= hi * n
    ensures lo <= total / n <= hi
  {
    var q := total / n;
    assert q * n == total;
    ScaleLess(q, lo, n);
    ScaleLess(hi, q, n);
  }

  lemma ScaleLess(a: real, b: real, n: real)
    requires n > 0.0
    ensures a < b ==> a * n < b * n
  {
  }

  lemma MeanBetween(s: seq<real>, lo: real, hi: real)
    requires s != [] && Between(s, lo, hi)
    ensures lo <= Mean(s) <= hi
  {
    SumBetween(s, lo, hi);
    QuotientBetween(Sum(s), |s| as real, lo, hi);
  }

  lemma {:induction false} NearOnly(s: seq<real>, median: real, threshold: real, lo: real, hi: real)
    requires Between(s, lo, hi)
    ensures Between(Near(s, median, threshold), lo, hi)
    ensures Between(Near(s, median, threshold), median - threshold, median + threshold)
  {
    if s != [] {
      NearOnly(s[1..], median, threshold, lo, hi);
    }
  }

  lemma {:induction false} NearKeeps(s: seq<real>, median: real, threshold: real, k: nat)
    requires k < |s| && s[k] == median && threshold >= 0.0
    ensures Near(s, median, threshold) != []
  {
    if k > 0 {
      NearKeeps(s[1..], median, threshold, k - 1);
    }
  }

  lemma SortedBetween(rates: seq<real>, lo: real, hi: real)
    requires Between(rates, lo, hi)
    ensures Between(Sorted(rates), lo, hi)
  {
    SortedAscends(rates);
    forall i | 0 <= i < |rates| ensures lo <= Sorted(rates)[i] <= hi {
      assert Sorted(rates)[i] in multiset(Sorted(rates));
      assert Sorted(rates)[i] in rates;
    }
  }

  lemma TrimmedBetween(s: seq<real>, lo: real, hi: real)
    requires s != [] && Between(s, lo, hi)
    ensures lo <= Trimmed(s) <= hi
  {
    hide Near, Mean;
    var median := Middle(s);
    NearOnly(s, median, median * 0.05, lo, hi);
    var filtered := Near(s, median, median * 0.05);
    if filtered != [] {
      MeanBetween(filtered, lo, hi);
    }
  }

  /** The average lies between any bounds on the rates. */
  lemma AverageBetween(rates: seq<real>, lo: real, hi: real)
    requires rates != [] && Between(rates, lo, hi)
    ensures Average(rates).Some? && lo <= Average(rates).value <= hi
  {
    hide Sorted, Trimmed;
    if |rates| > 2 {
      SortedBetween(rates, lo, hi);
      TrimmedBetween(Sorted(rates), lo, hi);
    }
  }

  lemma {:induction false} SumInsert(x: real, s: seq<real>)
    ensures Sum(Insert(x, s)) == x + Sum(s)
  {
    var r := Insert(x, s);
    if s == [] || x <= s[0] {
      assert r[1..] == s;
    } else {
      SumInsert(x, s[1..]);
      assert r[1..] == Insert(x, s[1..]);
    }
  }

  lemma {:induction false} SumSorted(s: seq<real>)
    ensures Sum(Sorted(s)) == Sum(s)
  {
    if s != [] {
      SumSorted(s[1..]);
      SumInsert(s[0], Sorted(s[1..]));
    }
  }

  lemma SumOfTwo(s: seq<real>)
    requires |s| == 2
    ensures Sum(s) == s[0] + s[1]
  {
    assert s[1..] == [s[1]] && s[1..][1..] == [];
    assert Sum(s[1..]) == s[1] + Sum([]);
  }

  lemma SameSorted(a: seq<real>, b: seq<real>)
    requires multiset(a) == multiset(b)
    ensures Sorted(a) == Sorted(b) && |a| == |b|
  {
    assert |a| == |multiset(a)| == |b|;
    SortedAscends(a);
    SortedAscends(b);
    AscendingUnique(Sorted(a), Sorted(b));
  }

  lemma SumOfOne(s: seq<real>)
    requires |s| == 1
    ensures Sum(s) == s[0]
  {
  }

  /** The order in which the sources answered does not matter. */
  lemma AverageOfSameRates(a: seq<real>, b: seq<real>)
    requires multiset(a) == multiset(b)
    ensures Average(a) == Average(b)
  {
    SameSorted(a, b);
    SumSorted(a);
    SumSorted(b);
    hide Sorted, Sum, Trimmed;
    if |a| == 1 {
      SumOfOne(a);
      SumOfOne(b);
    }
    if |a| == 2 {
      SumOfTwo(a);
      SumOfTwo(b);
    }
  }

  ghost predicate Positive(s: seq<real>) {
    forall i :: 0 <= i < |s| ==> s[i] > 0.0
  }

  ghost predicate Within5Percent(x: real, m: real) {
    0.95 * m <= x <= 1.05 * m
  }

  /** Not all of a list are outliers, and the trimmed mean is within 5% of the middle. */
  lemma TrimmedNearMiddle(s: seq<real>, hi: real)
    requires s != [] && Between(s, 0.0, hi)
    ensures Near(s, Middle(s), Middle(s) * 0.05) != [] && Within5Percent(Trimmed(s), Middle(s))
  {
    hide Near, Mean;
    var m := Middle(s);
    assert 0.0 <= m;
    NearKeeps(s, m, m * 0.05, |s| / 2);
    NearOnly(s, m, m * 0.05, 0.0, hi);
    MeanBetween(Near(s, m, m * 0.05), m - m * 0.05, m + m * 0.05);
  }

  lemma SortedBelowLast(rates: seq<real>)
    requires rates != [] && Positive(rates)
    ensures var s := Sorted(rates);
      s != [] && Between(s, 0.0, s[|s| - 1]) && Positive(s)
  {
    SortedAscends(rates);
    var s := Sorted(rates);
    forall i | 0 <= i < |s| ensures s[i] > 0.0 {
      assert s[i] in multiset(s);
      assert s[i] in rates;
    }
  }

  /** Three or more positive rates: not all are outliers, and the average is within 5% of
      the middle rate. */
  lemma AverageNearMedian(rates: seq<real>)
    requires |rates| >= 3 && Positive(rates)
    ensures Median(rates) > 0.0 && Near(Sorted(rates), Median(rates), Median(rates) * 0.05) != []
    ensures Average(rates).Some? && Within5Percent(Average(rates).value, Median(rates))
  {
    hide *;
    SortedBelowLast(rates);
    AverageOfMany(rates);
    TrimmedNearMiddle(Sorted(rates), Sorted(rates)[|rates| - 1]);
  }

  lemma AverageOfMany(rates: seq<real>)
    requires |rates| >= 3
    ensures Average(rates) == Some(Trimmed(Sorted(rates))) && Median(rates) == Middle(Sorted(rates))
    ensures Positive(Sorted(rates)) ==> Median(rates) > 0.0
  {
    hide Trimmed, Sorted;
  }

  // ---- What the average is --------------------------------------------------

  /** How many rates are less than x, and how many are at most x. */
  function Below(s: seq<real>, x: real): nat {
    if s == [] then 0 else (if s[0] < x then 1 else 0) + Below(s[1..], x)
  }

  function UpTo(s: seq<real>, x: real): nat {
    if s == [] then 0 else (if s[0] <= x then 1 else 0) + UpTo(s[1..], x)
  }

  lemma {:induction false} RanksInsert(y: real, s: seq<real>, x: real)
    ensures Below(Insert(y, s), x) == Below(s, x) + if y < x then 1 else 0
    ensures UpTo(Insert(y, s), x) == UpTo(s, x) + if y <= x then 1 else 0
  {
    if s == [] || y <= s[0] {
      assert Insert(y, s)[1..] == s;
    } else {
      RanksInsert(y, s[1..], x);
      assert Insert(y, s)[1..] == Insert(y, s[1..]);
    }
  }

  lemma {:induction false} RanksSorted(s: seq<real>, x: real)
    ensures Below(Sorted(s), x) == Below(s, x) && UpTo(Sorted(s), x) == UpTo(s, x)
  {
    if s != [] {
      RanksSorted(s[1..], x);
      RanksInsert(s[0], Sorted(s[1..]), x);
    }
  }

  /** In an ascending list at most k elements are less than the one at k, and more than k are
      at most that. */
  lemma {:induction false} RankOf(s: seq<real>, k: nat)
    requires Ascending(s) && k < |s|
    ensures Below(s, s[k]) <= k < UpTo(s, s[k])
  {
    if k > 0 {
      RankOf(s[1..], k - 1);
    } else {
      NoneBelow(s, s[0]);
    }
  }

  lemma {:induction false} NoneBelow(s: seq<real>, x: real)
    requires forall i :: 0 <= i < |s| ==> x <= s[i]
    ensures Below(s, x) == 0
  {
    if s != [] {
      NoneBelow(s[1..], x);
    }
  }

  lemma {:induction false} RanksApart(s: seq<real>, x: real, y: real)
    requires x < y
    ensures UpTo(s, x) <= Below(s, y)
  {
    if s != [] {
      RanksApart(s[1..], x, y);
    }
  }

  /** The median is the one value with at most half of the rates below it and more than half
      up to it. */
  lemma MedianExactly(rates: seq<real>, m: real)
    requires rates != []
    ensures m == Median(rates) <==> Below(rates, m) <= |rates| / 2 < UpTo(rates, m)
  {
    hide Sorted, Below, UpTo;
    var s, median := Sorted(rates), Median(rates);
    SortedAscends(rates);
    RankOf(s, |s| / 2);
    RanksSorted(rates, median);
    if m < median {
      RanksApart(rates, m, median);
    } else if median < m {
      RanksApart(rates, median, m);
    }
  }

  lemma {:induction false} NearElements(s: seq<real>, median: real, threshold: real, x: real)
    ensures multiset(Near(s, median, threshold))[x]
         == if Distance(x, median) <= threshold then multiset(s)[x] else 0
  {
    if s != [] {
      assert s == [s[0]] + s[1..];
      NearElements(s[1..], median, threshold, x);
    }
  }

  lemma SumOfSame(a: seq<real>, b: seq<real>)
    requires multiset(a) == multiset(b)
    ensures Sum(a) == Sum(b) && |a| == |b|
  {
    hide Sum, Sorted;
    SameSorted(a, b);
    SumSorted(a);
    SumSorted(b);
  }

  /** `kept` are the rates from 95 to 105 percent of the median. */
  ghost predicate Keeps(rates: seq<real>, median: real, kept: seq<real>) {
    forall x :: multiset(kept)[x] == if Within5Percent(x, median) then multiset(rates)[x] else 0
  }

  lemma KeptAreNear(rates: seq<real>, median: real, kept: seq<real>)
    requires median > 0.0 && Keeps(rates, median, kept)
    ensures multiset(kept) == multiset(Near(Sorted(rates), median, median * 0.05))
  {
    hide Near;
    var near := Near(Sorted(rates), median, median * 0.05);
    SortedAscends(rates);
    forall x
      ensures multiset(kept)[x] == multiset(near)[x]
    {
      NearElements(Sorted(rates), median, median * 0.05, x);
    }
  }

  lemma MeanTimes(s: seq<real>)
    requires s != []
    ensures Mean(s) * |s| as real == Sum(s)
  {
  }

  lemma TrimmedOfNear(s: seq<real>)
    requires s != [] && Near(s, Middle(s), Middle(s) * 0.05) != []
    ensures Trimmed(s) * |Near(s, Middle(s), Middle(s) * 0.05)| as real == Sum(Near(s, Middle(s), Middle(s) * 0.05))
  {
    hide Near, Mean;
    MeanTimes(Near(s, Middle(s), Middle(s) * 0.05));
  }

  /** The average of three or more positive rates is the mean of those within 5 percent of the
      median, the value of the middle rank. */
  lemma AverageExactly(rates: seq<real>, median: real, kept: seq<real>)
    requires |rates| >= 3 && Positive(rates) && Below(rates, median) <= |rates| / 2 < UpTo(rates, median)
    requires Keeps(rates, median, kept)
    ensures kept != [] && Average(rates).Some? && Average(rates).value * |kept| as real == Sum(kept)
  {
    hide *;
    MedianExactly(rates, median);
    AverageNearMedian(rates);
    AverageOfMany(rates);
    KeptAreNear(rates, median, kept);
    TrimmedOfNear(Sorted(rates));
    SumOfSame(kept, Near(Sorted(rates), median, median * 0.05));
  }

  /** Of no rate there is no average, of one it is the rate, and of two twice the average is
      their sum. */
  lemma AverageOfFew(rates: seq<real>)
    ensures rates == [] <==> Average(rates).None?
    ensures |rates| == 1 ==> Average(rates).value == rates[0]
    ensures |rates| == 2 ==> 2.0 * Average(rates).value == rates[0] + rates[1]
  {
    hide Trimmed, Sorted;
  }

  // ---- Robustness -----------------------------------------------------------

  /** How many rates lie in [lo, hi]. */
  function Inside(s: seq<real>, lo: real, hi: real): (n: nat)
    ensures n <= |s|
  {
    if s == [] then 0 else (if lo <= s[0] <= hi then 1 else 0) + Inside(s[1..], lo, hi)
  }

  lemma {:induction false} InsideAppend(s: seq<real>, t: seq<real>, lo: real, hi: real)
    ensures Inside(s + t, lo, hi) == Inside(s, lo, hi) + Inside(t, lo, hi)
  {
    if s == [] {
      assert s + t == t;
    } else {
      assert (s + t)[1..] == s[1..] + t;
      InsideAppend(s[1..], t, lo, hi);
    }
  }

  lemma {:induction false} InsideInsert(x: real, s: seq<real>, lo: real, hi: real)
    ensures Inside(Insert(x, s), lo, hi) == Inside(s, lo, hi) + if lo <= x <= hi then 1 else 0
  {
    if s == [] || x <= s[0] {
      assert Insert(x, s)[1..] == s;
    } else {
      InsideInsert(x, s[1..], lo, hi);
      assert Insert(x, s)[1..] == Insert(x, s[1..]);
    }
  }

  lemma {:induction false} InsideSorted(s: seq<real>, lo: real, hi: real)
    ensures Inside(Sorted(s), lo, hi) == Inside(s, lo, hi)
  {
    if s != [] {
      InsideSorted(s[1..], lo, hi);
      InsideInsert(s[0], Sorted(s[1..]), lo, hi);
    }
  }

  lemma {:induction false} NoneInside(s: seq<real>, lo: real, hi: real)
    requires forall i :: 0 <= i < |s| ==> s[i] < lo || s[i] > hi
    ensures Inside(s, lo, hi) == 0
  {
    if s != [] {
      NoneInside(s[1..], lo, hi);
    }
  }

  /** If more than half of the rates lie in an interval, so does the median. */
  lemma MedianInside(rates: seq<real>, lo: real, hi: real)
    requires 2 * Inside(rates, lo, hi) > |rates|
    ensures lo <= Median(rates) <= hi
  {
    SortedAscends(rates);
    InsideSorted(rates, lo, hi);
    hide Sorted, Inside, Ascending;
    MiddleInside(Sorted(rates), lo, hi);
  }

  lemma MiddleInside(s: seq<real>, lo: real, hi: real)
    requires Ascending(s) && 2 * Inside(s, lo, hi) > |s|
    ensures lo <= Middle(s) <= hi
  {
    var mid := |s| / 2;
    OutsideFrom(s, mid, lo, hi);
    OutsideUpTo(s, mid + 1, lo, hi);
  }

  lemma OutsideFrom(s: seq<real>, k: nat, lo: real, hi: real)
    requires Ascending(s) && k < |s|
    ensures s[k] > hi ==> Inside(s, lo, hi) <= k
  {
    if s[k] > hi {
      assert s == s[..k] + s[k..];
      InsideAppend(s[..k], s[k..], lo, hi);
      forall i | 0 <= i < |s[k..]| ensures s[k..][i] > hi {
        assert i > 0 ==> s[k] <= s[k + i];
      }
      NoneInside(s[k..], lo, hi);
    }
  }

  lemma OutsideUpTo(s: seq<real>, k: nat, lo: real, hi: real)
    requires Ascending(s) && 0 < k <= |s|
    ensures s[k - 1] < lo ==> Inside(s, lo, hi) <= |s| - k
  {
    if s[k - 1] < lo {
      assert s == s[..k] + s[k..];
      InsideAppend(s[..k], s[k..], lo, hi);
      forall i | 0 <= i < |s[..k]| ensures s[..k][i] < lo {
        assert i < k - 1 ==> s[i] <= s[k - 1];
      }
      NoneInside(s[..k], lo, hi);
    }
  }

  lemma {:induction false} AllInside(s: seq<real>, lo: real, hi: real)
    requires Inside(s, lo, hi) == |s|
    ensures Between(s, lo, hi)
  {
    if s != [] {
      AllInside(s[1..], lo, hi);
      forall i | 0 <= i < |s| ensures lo <= s[i] <= hi {
        assert i > 0 ==> s[i] == s[1..][i - 1];
      }
    }
  }

  /** A majority of sources bounds the average, whatever the others say: if more than half
      of the positive rates lie in [lo, hi], the average lies in [0.95 lo, 1.05 hi]. */
  lemma MajorityBounds(rates: seq<real>, lo: real, hi: real)
    requires 2 * Inside(rates, lo, hi) > |rates| && Positive(rates)
    ensures Average(rates).Some? && 0.95 * lo <= Average(rates).value <= 1.05 * hi
  {
    if |rates| >= 3 {
      MedianInside(rates, lo, hi);
      AverageNearMedian(rates);
    } else {
      assert Inside(rates, lo, hi) == |rates|;
      AllInside(rates, lo, hi);
      AverageBetween(rates, if lo < 0.0 then 0.0 else lo, hi);
      assert lo <= rates[0] <= hi;
    }
  }

  // ---- Fetching -------------------------------------------------------------

  /** One quote of a source: a currency and the value, if it converts to a decimal. */
  datatype Quote = Quote(currency: string, rate: Option<real>)

  type Collected = map<string, seq<real>>

  /** A quote is collected if its currency is wanted and its rate admissible. */
  function Collect(all: Collected, upper: string -> string, currencies: set<string>, q: Quote): Collected {
    var currency := upper(q.currency);
    if currency !in currencies || q.rate.None? || Validated(q.rate.value, currency).None? then all
    else all[currency := (if currency in all then all[currency] else []) + [q.rate.value]]
  }

  function CollectAll(all: Collected, upper: string -> string, currencies: set<string>, quotes: seq<Quote>): Collected
    decreases |quotes|
  {
    if quotes == [] then all
    else CollectAll(Collect(all, upper, currencies, quotes[0]), upper, currencies, quotes[1..])
  }

  /** The quotes of the sources that answered, in order. */
  function Answered(sources: seq<Option<seq<Quote>>>): seq<Quote> {
    if sources == [] then []
    else (if sources[0].Some? then sources[0].value else []) + Answered(sources[1..])
  }

  function NewRate(rates: map<string, real>, all: Collected, currency: string): Option<real> {
    if currency in all && Average(all[currency]).Some? then Average(all[currency])
    else if currency in rates then Some(rates[currency])
    else None
  }

  /** Rates are replaced where something was collected and kept where nothing was. */
  function Refreshed(rates: map<string, real>, all: Collected): map<string, real> {
    map currency | currency in rates.Keys + all.Keys && NewRate(rates, all, currency).Some? ::
      NewRate(rates, all, currency).value
  }

  lemma {:induction false} AnsweredNext(sources: seq<Option<seq<Quote>>>, i: nat)
    requires i < |sources|
    ensures Answered(sources[..i + 1]) == Answered(sources[..i]) + if sources[i].Some? then sources[i].value else []
    decreases i
  {
    if i > 0 {
      AnsweredNext(sources[1..], i - 1);
      assert sources[..i + 1][1..] == sources[1..][..i] && sources[..i][1..] == sources[1..][..i - 1];
    } else {
      assert sources[..1][1..] == [];
    }
  }

  lemma {:induction false} CollectAppend(all: Collected, upper: string -> string, currencies: set<string>,
        first: seq<Quote>, second: seq<Quote>)
    ensures CollectAll(all, upper, currencies, first + second)
         == CollectAll(CollectAll(all, upper, currencies, first), upper, currencies, second)
    decreases |first|
  {
    hide Collect;
    if first == [] {
      assert first + second == second;
    } else {
      assert (first + second)[0] == first[0] && (first + second)[1..] == first[1..] + second;
      CollectAppend(Collect(all, upper, currencies, first[0]), upper, currencies, first[1..], second);
    }
  }

  ghost predicate AllAdmissible(all: Collected) {
    forall currency :: currency in all ==>
      all[currency] != [] && forall i :: 0 <= i < |all[currency]| ==> Admissible(all[currency][i], currency)
  }

  lemma {:induction false} CollectedAdmissible(all: Collected, upper: string -> string, currencies: set<string>,
        quotes: seq<Quote>)
    requires AllAdmissible(all)
    ensures AllAdmissible(CollectAll(all, upper, currencies, quotes))
    decreases |quotes|
  {
    if quotes != [] {
      CollectedAdmissible(Collect(all, upper, currencies, quotes[0]), upper, currencies, quotes[1..]);
    }
  }

  ghost predicate RatesAdmissible(rates: map<string, real>) {
    forall currency :: currency in rates ==> Admissible(rates[currency], currency)
  }

  lemma AverageAdmissible(rates: seq<real>, currency: string)
    requires rates != [] && forall i :: 0 <= i < |rates| ==> Admissible(rates[i], currency)
    ensures Average(rates).Some? && Admissible(Average(rates).value, currency)
  {
    hide Average;
    var s := Sorted(rates);
    SortedAscends(rates);
    hide Sorted;
    var lo, hi := s[0], s[|s| - 1];
    assert lo in multiset(s) && hi in multiset(s);
    assert lo in rates && hi in rates;
    forall i | 0 <= i < |rates| ensures lo <= rates[i] <= hi {
      assert rates[i] in multiset(rates);
      assert rates[i] in s;
    }
    AverageBetween(rates, lo, hi);
  }

  /** Whatever the sources answer, every rate the service holds is within the bounds that
      single quotes must meet. */
  lemma FetchKeepsAdmissible(rates: map<string, real>, upper: string -> string, currencies: set<string>,
        sources: seq<Option<seq<Quote>>>)
    requires RatesAdmissible(rates)
    ensures RatesAdmissible(Refreshed(rates, CollectAll(map[], upper, currencies, Answered(sources))))
  {
    var all := CollectAll(map[], upper, currencies, Answered(sources));
    CollectedAdmissible(map[], upper, currencies, Answered(sources));
    hide Average, CollectAll, Admissible;
    forall currency | currency in all ensures Average(all[currency]).Some?
        && Admissible(Average(all[currency]).value, currency) {
      AverageAdmissible(all[currency], currency);
    }
  }

  function Without(all: Collected, keys: set<string>): Collected {
    map currency | currency in all && currency !in keys :: all[currency]
  }

  class ExchangeRateService {
    const currencies: set<string>
    var rates: map<string, real>

    constructor (currencies: set<string>)
      ensures this.currencies == currencies && rates == map[]
    {
      this.currencies := currencies;
      rates := map[];
    }

    /** `_do_fetch`; a source that raises, or is unknown, is None. */
    method DoFetch(upper: string -> string, sources: seq<Option<seq<Quote>>>) returns (fetched: bool)
      modifies this
      ensures var all := CollectAll(map[], upper, currencies, Answered(sources));
        (fetched <==> all != map[]) && rates == Refreshed(old(rates), all)
    {
      hide CollectAll, Refreshed, Answered;
      var all := CollectSources(upper, currencies, sources);
      if all == map[] {
        NothingRefreshed(rates);
        return false;
      }
      rates := StoreAverages(rates, all);
      return true;
    }
  }

  lemma NothingRefreshed(rates: map<string, real>)
    ensures Refreshed(rates, map[]) == rates
  {
  }

  /** The loop over the sources. */
  method CollectSources(upper: string -> string, currencies: set<string>,
        sources: seq<Option<seq<Quote>>>) returns (all: Collected)
    ensures all == CollectAll(map[], upper, currencies, Answered(sources))
  {
    hide CollectAll;
    all := map[];
    NothingCollected(upper, currencies);
    for i := 0 to |sources|
      invariant all == CollectAll(map[], upper, currencies, Answered(sources[..i]))
    {
      AnsweredNext(sources, i);
      if sources[i].Some? {
        CollectAppend(map[], upper, currencies, Answered(sources[..i]), sources[i].value);
        all := CollectSource(all, upper, currencies, sources[i].value);
      } else {
        assert Answered(sources[..i]) + [] == Answered(sources[..i]);
      }
    }
    assert sources[..|sources|] == sources;
  }

  lemma NothingCollected(upper: string -> string, currencies: set<string>)
    ensures CollectAll(map[], upper, currencies, []) == map[]
  {
  }

  /** The loop over the quotes of one source. */
  method CollectSource(start: Collected, upper: string -> string, currencies: set<string>,
        quotes: seq<Quote>) returns (all: Collected)
    ensures all == CollectAll(start, upper, currencies, quotes)
  {
    all := start;
    for j := 0 to |quotes|
      invariant CollectAll(all, upper, currencies, quotes[j..]) == CollectAll(start, upper, currencies, quotes)
    {
      assert quotes[j..][0] == quotes[j] && quotes[j..][1..] == quotes[j + 1..];
      var currency := upper(quotes[j].currency);
      if currency in currencies && quotes[j].rate.Some? {
        var validated := Validated(quotes[j].rate.value, currency);
        if validated.Some? {
          all := all[currency := (if currency in all then all[currency] else []) + [validated.value]];
        }
      }
    }
  }

  /** The loop that stores the averages. */
  method StoreAverages(before: map<string, real>, all: Collected) returns (rates: map<string, real>)
    ensures rates == Refreshed(before, all)
  {
    hide Average;
    rates := before;
    var rest := all.Keys;
    NothingRefreshed(before);
    assert Without(all, rest) == map[];
    while rest != {}
      invariant rest <= all.Keys && rates == Refreshed(before, Without(all, rest))
      decreases |rest|
    {
      var currency :| currency in rest;
      StoreNext(before, all, rest, currency);
      rest := rest - {currency};
      var avg := Average(all[currency]);
      if avg.Some? {
        rates := rates[currency := avg.value];
      }
    }
    assert Without(all, {}) == all;
  }

  lemma StoreNext(rates: map<string, real>, all: Collected, rest: set<string>, currency: string)
    requires currency in rest && rest <= all.Keys
    ensures Refreshed(rates, Without(all, rest - {currency}))
         == if Average(all[currency]).Some?
            then Refreshed(rates, Without(all, rest))[currency := Average(all[currency]).value]
            else Refreshed(rates, Without(all, rest))
  {
    hide Average;
  }
}
