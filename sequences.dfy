/** Generic sequence operations the application uses through JavaScript's
    array methods: `filter`, `reduce` into a sum, a stable `sort` with a
    comparator, and `filter` on the index to drop one element. */
module Sequences {

  // ------------------------------------------------------------------
  // filter
  // ------------------------------------------------------------------

  /** The elements of `xs` that satisfy `p`, in their original order. */
  function Filter<T>(xs: seq<T>, p: T -> bool): (r: seq<T>)
    ensures |r| <= |xs|
    decreases |xs|
  {
    if |xs| == 0 then []
    else Filter(xs[..|xs| - 1], p) + (if p(xs[|xs| - 1]) then [xs[|xs| - 1]] else [])
  }

  /** Filtering keeps every occurrence of an element that passes and none of
      one that fails. */
  lemma {:induction false} FilterMultiset<T(!new)>(xs: seq<T>, p: T -> bool)
    ensures forall x :: multiset(Filter(xs, p))[x] == if p(x) then multiset(xs)[x] else 0
    ensures forall x :: x in Filter(xs, p) <==> x in xs && p(x)
    decreases |xs|
  {
    if |xs| > 0 {
      var init, last := xs[..|xs| - 1], xs[|xs| - 1];
      FilterMultiset(init, p);
      assert xs == init + [last];
    }
  }

  /** Every element filtering keeps passes the test. */
  lemma {:induction false} FilterPasses<T>(xs: seq<T>, p: T -> bool)
    ensures forall i :: 0 <= i < |Filter(xs, p)| ==> p(Filter(xs, p)[i])
    decreases |xs|
  {
    if |xs| > 0 {
      var init := xs[..|xs| - 1];
      FilterPasses(init, p);
      var f := Filter(init, p);
      forall i | 0 <= i < |Filter(xs, p)| ensures p(Filter(xs, p)[i]) {
        if i < |f| {
          assert Filter(xs, p)[i] == f[i];
        }
      }
    }
  }

  /** Filtering commutes with concatenation: it keeps the relative order. */
  lemma {:induction false} FilterAppend<T>(xs: seq<T>, ys: seq<T>, p: T -> bool)
    ensures Filter(xs + ys, p) == Filter(xs, p) + Filter(ys, p)
    decreases |ys|
  {
    if |ys| == 0 {
      assert xs + ys == xs;
    } else {
      var init, last := ys[..|ys| - 1], ys[|ys| - 1];
      assert (xs + ys)[..|xs + ys| - 1] == xs + init;
      assert (xs + ys)[|xs + ys| - 1] == last;
      FilterAppend(xs, init, p);
    }
  }

  /** `a` is `b` with some elements left out and the rest in their order. */
  predicate IsSubsequence<T(==)>(a: seq<T>, b: seq<T>)
    decreases |b|
  {
    || |a| == 0
    || (&& |b| > 0
        && (|| IsSubsequence(a, b[..|b| - 1])
            || (a[|a| - 1] == b[|b| - 1] && IsSubsequence(a[..|a| - 1], b[..|b| - 1]))))
  }

  /** What filtering keeps stays in the order of the input. */
  lemma {:induction false} FilterSubsequence<T>(xs: seq<T>, p: T -> bool)
    ensures IsSubsequence(Filter(xs, p), xs)
    decreases |xs|
  {
    if |xs| > 0 {
      var init, last := xs[..|xs| - 1], xs[|xs| - 1];
      FilterSubsequence(init, p);
      var f := Filter(xs, p);
      if p(last) {
        assert f == Filter(init, p) + [last];
        assert f[..|f| - 1] == Filter(init, p);
        assert f[|f| - 1] == last;
      } else {
        assert f == Filter(init, p);
      }
    }
  }

  /** A filter that every element passes changes nothing. */
  lemma {:induction false} FilterAllPass<T>(xs: seq<T>, p: T -> bool)
    requires forall i :: 0 <= i < |xs| ==> p(xs[i])
    ensures Filter(xs, p) == xs
    decreases |xs|
  {
    if |xs| > 0 {
      FilterAllPass(xs[..|xs| - 1], p);
      assert xs[..|xs| - 1] + [xs[|xs| - 1]] == xs;
    }
  }

  /** A filter that no element passes keeps nothing. */
  lemma {:induction false} FilterNonePass<T>(xs: seq<T>, p: T -> bool)
    requires forall i :: 0 <= i < |xs| ==> !p(xs[i])
    ensures Filter(xs, p) == []
    decreases |xs|
  {
    if |xs| > 0 {
      FilterNonePass(xs[..|xs| - 1], p);
    }
  }

  // ------------------------------------------------------------------
  // reduce((sum, x) => sum + amount(x), 0)
  // ------------------------------------------------------------------

  /** The left-to-right sum of `amount` over `xs`, starting from 0. */
  function Total<T>(xs: seq<T>, amount: T -> real): real
    decreases |xs|
  {
    if |xs| == 0 then 0.0 else Total(xs[..|xs| - 1], amount) + amount(xs[|xs| - 1])
  }

  lemma {:induction false} TotalAppend<T>(xs: seq<T>, ys: seq<T>, amount: T -> real)
    ensures Total(xs + ys, amount) == Total(xs, amount) + Total(ys, amount)
    decreases |ys|
  {
    if |ys| == 0 {
      assert xs + ys == xs;
    } else {
      var init := ys[..|ys| - 1];
      assert (xs + ys)[..|xs + ys| - 1] == xs + init;
      assert (xs + ys)[|xs + ys| - 1] == ys[|ys| - 1];
      TotalAppend(xs, init, amount);
    }
  }

  lemma TotalOfThree<T>(a: T, b: T, c: T, amount: T -> real)
    ensures Total([a, b, c], amount) == amount(a) + amount(b) + amount(c)
  {
    assert [a][..0] == [];
    assert Total([a], amount) == amount(a);
    assert [a, b][..1] == [a];
    assert Total([a, b], amount) == amount(a) + amount(b);
    assert [a, b, c][..2] == [a, b];
  }

  lemma {:induction false} TotalNonNegative<T>(xs: seq<T>, amount: T -> real)
    requires forall i :: 0 <= i < |xs| ==> amount(xs[i]) >= 0.0
    ensures Total(xs, amount) >= 0.0
    decreases |xs|
  {
    if |xs| > 0 {
      TotalNonNegative(xs[..|xs| - 1], amount);
    }
  }

  /** A sum over elements of which none is positive is itself not positive;
      so a positive total needs a positive element. */
  lemma {:induction false} PositiveTotalHasPositiveElement<T>(xs: seq<T>, amount: T -> real)
    requires Total(xs, amount) > 0.0
    ensures exists i :: 0 <= i < |xs| && amount(xs[i]) > 0.0
    decreases |xs|
  {
    var init := xs[..|xs| - 1];
    if amount(xs[|xs| - 1]) <= 0.0 {
      PositiveTotalHasPositiveElement(init, amount);
      var i :| 0 <= i < |init| && amount(init[i]) > 0.0;
      assert xs[i] == init[i];
    }
  }

  /** Filtering out only elements whose amount is 0 keeps the sum. */
  lemma {:induction false} TotalFilterDropsZeros<T>(xs: seq<T>, amount: T -> real, p: T -> bool)
    requires forall i :: 0 <= i < |xs| ==> p(xs[i]) || amount(xs[i]) == 0.0
    ensures Total(Filter(xs, p), amount) == Total(xs, amount)
    decreases |xs|
  {
    if |xs| > 0 {
      var init, last := xs[..|xs| - 1], xs[|xs| - 1];
      TotalFilterDropsZeros(init, amount, p);
      TotalAppend(Filter(init, p), if p(last) then [last] else [], amount);
    }
  }

  /** Two sequences whose elements have pairwise the same amounts have the
      same total. */
  lemma {:induction false} TotalPointwise<S, T>(xs: seq<S>, f: S -> real, ys: seq<T>, g: T -> real)
    requires |xs| == |ys|
    requires forall i :: 0 <= i < |xs| ==> f(xs[i]) == g(ys[i])
    ensures Total(xs, f) == Total(ys, g)
    decreases |xs|
  {
    if |xs| > 0 {
      TotalPointwise(xs[..|xs| - 1], f, ys[..|ys| - 1], g);
    }
  }

  /** The test "amount > 0" as a function value. */
  function IsPositive<T>(amount: T -> real): T -> bool
  {
    x => amount(x) > 0.0
  }

  /** `xs.some((x) => amount(x) > 0)` */
  predicate AnyPositive<T>(xs: seq<T>, amount: T -> real)
  {
    exists i :: 0 <= i < |xs| && amount(xs[i]) > 0.0
  }

  /** Among amounts that are never negative, dropping the non-positive ones
      keeps the total. */
  lemma {:induction false} TotalOfPositives<T>(xs: seq<T>, amount: T -> real)
    requires forall i :: 0 <= i < |xs| ==> amount(xs[i]) >= 0.0
    ensures Total(Filter(xs, IsPositive(amount)), amount) == Total(xs, amount)
  {
    var p := IsPositive(amount);
    forall i | 0 <= i < |xs| ensures p(xs[i]) || amount(xs[i]) == 0.0 {
    }
    TotalFilterDropsZeros(xs, amount, p);
  }

  // ------------------------------------------------------------------
  // a stable sort, descending by an integer key
  // ------------------------------------------------------------------

  predicate SortedDesc<T>(xs: seq<T>, key: T -> int)
  {
    forall i, j :: 0 <= i < j < |xs| ==> key(xs[i]) >= key(xs[j])
  }

  /** The test "has key `d`" as a function value. */
  function HasKey<T>(key: T -> int, d: int): T -> bool
  {
    x => key(x) == d
  }

  /** Puts `x` after the leading elements of `s` whose key is at least
      `key(x)`, so that it follows every element it ties with. */
  function InsertDesc<T>(s: seq<T>, x: T, key: T -> int): (r: seq<T>)
    ensures |r| == |s| + 1
    decreases |s|
  {
    if |s| == 0 then [x]
    else if key(s[0]) >= key(x) then [s[0]] + InsertDesc(s[1..], x, key)
    else [x] + s
  }

  /** `xs` sorted by `key`, largest first; elements whose keys tie keep the
      order they have in `xs` (what `Array.prototype.sort` does with the
      comparator `(a, b) => key(b) - key(a)`). */
  function SortDesc<T>(xs: seq<T>, key: T -> int): (r: seq<T>)
    ensures |r| == |xs|
    decreases |xs|
  {
    if |xs| == 0 then [] else InsertDesc(SortDesc(xs[..|xs| - 1], key), xs[|xs| - 1], key)
  }

  lemma {:induction false} InsertDescPermutes<T>(s: seq<T>, x: T, key: T -> int)
    ensures multiset(InsertDesc(s, x, key)) == multiset(s) + multiset{x}
    decreases |s|
  {
    if |s| > 0 && key(s[0]) >= key(x) {
      InsertDescPermutes(s[1..], x, key);
      assert s == [s[0]] + s[1..];
    }
  }

  lemma {:induction false} InsertDescSorted<T>(s: seq<T>, x: T, key: T -> int)
    requires SortedDesc(s, key)
    ensures SortedDesc(InsertDesc(s, x, key), key)
    decreases |s|
  {
    if |s| > 0 && key(s[0]) >= key(x) {
      var rest := InsertDesc(s[1..], x, key);
      InsertDescSorted(s[1..], x, key);
      InsertDescPermutes(s[1..], x, key);
      forall j | 0 <= j < |rest| ensures key(s[0]) >= key(rest[j]) {
        assert rest[j] in multiset(rest);
        assert rest[j] in s[1..] || rest[j] == x;
      }
    }
  }

  lemma {:induction false} SortDescSorted<T>(xs: seq<T>, key: T -> int)
    ensures SortedDesc(SortDesc(xs, key), key)
    decreases |xs|
  {
    if |xs| > 0 {
      SortDescSorted(xs[..|xs| - 1], key);
      InsertDescSorted(SortDesc(xs[..|xs| - 1], key), xs[|xs| - 1], key);
    }
  }

  lemma {:induction false} SortDescPermutes<T>(xs: seq<T>, key: T -> int)
    ensures multiset(SortDesc(xs, key)) == multiset(xs)
    decreases |xs|
  {
    if |xs| > 0 {
      var init := xs[..|xs| - 1];
      SortDescPermutes(init, key);
      InsertDescPermutes(SortDesc(init, key), xs[|xs| - 1], key);
      assert xs == init + [xs[|xs| - 1]];
    }
  }

  /** Inserting into a sorted sequence appends `x` to the elements that share
      its key and leaves the elements of every other key as they were. */
  lemma {:induction false} InsertDescStable<T>(s: seq<T>, x: T, key: T -> int, d: int)
    requires SortedDesc(s, key)
    ensures Filter(InsertDesc(s, x, key), HasKey(key, d))
         == Filter(s, HasKey(key, d)) + (if key(x) == d then [x] else [])
    decreases |s|
  {
    var p := HasKey(key, d);
    if |s| == 0 {
      assert Filter([x], p) == Filter([], p) + (if p(x) then [x] else []);
    } else if key(s[0]) >= key(x) {
      InsertDescStable(s[1..], x, key, d);
      FilterAppend([s[0]], InsertDesc(s[1..], x, key), p);
      FilterAppend([s[0]], s[1..], p);
      assert s == [s[0]] + s[1..];
    } else {
      FilterAppend([x], s, p);
      assert Filter([x], p) == Filter([], p) + (if p(x) then [x] else []);
      if key(x) == d {
        FilterNonePass(s, p);
      }
    }
  }

  /** Stability: for every key, the elements with that key come out of the
      sort in the order they went in. */
  lemma {:induction false} SortDescStable<T>(xs: seq<T>, key: T -> int, d: int)
    ensures Filter(SortDesc(xs, key), HasKey(key, d)) == Filter(xs, HasKey(key, d))
    decreases |xs|
  {
    if |xs| > 0 {
      var init := xs[..|xs| - 1];
      SortDescStable(init, key, d);
      SortDescSorted(init, key);
      InsertDescStable(SortDesc(init, key), xs[|xs| - 1], key, d);
    }
  }

  /** A sequence that is already sorted comes out of the sort unchanged. */
  lemma {:induction false} SortDescOfSorted<T>(xs: seq<T>, key: T -> int)
    requires SortedDesc(xs, key)
    ensures SortDesc(xs, key) == xs
    decreases |xs|
  {
    if |xs| > 0 {
      var init, last := xs[..|xs| - 1], xs[|xs| - 1];
      SortDescOfSorted(init, key);
      InsertAtEnd(init, last, key);
      assert init + [last] == xs;
    }
  }

  lemma {:induction false} InsertAtEnd<T>(s: seq<T>, x: T, key: T -> int)
    requires forall i :: 0 <= i < |s| ==> key(s[i]) >= key(x)
    ensures InsertDesc(s, x, key) == s + [x]
    decreases |s|
  {
    if |s| > 0 {
      InsertAtEnd(s[1..], x, key);
      assert s == [s[0]] + s[1..];
    }
  }

  /** Removing with `p` an element that `p` rejects, wherever the sort put
      it, leaves what `p` keeps of the rest. */
  lemma {:induction false} FilterInsertDescRejected<T>(s: seq<T>, x: T, key: T -> int, p: T -> bool)
    requires !p(x)
    ensures Filter(InsertDesc(s, x, key), p) == Filter(s, p)
    decreases |s|
  {
    if |s| == 0 {
      assert Filter([x], p) == Filter([], p);
    } else if key(s[0]) >= key(x) {
      FilterInsertDescRejected(s[1..], x, key, p);
      FilterAppend([s[0]], InsertDesc(s[1..], x, key), p);
      FilterAppend([s[0]], s[1..], p);
      assert s == [s[0]] + s[1..];
    } else {
      FilterAppend([x], s, p);
      assert Filter([x], p) == Filter([], p);
    }
  }

  // ------------------------------------------------------------------
  // map((x) => sel(x) ? f(x) : x)
  // ------------------------------------------------------------------

  /** `xs` with `f` applied to exactly the elements `sel` selects. */
  function MapWhere<T>(xs: seq<T>, sel: T -> bool, f: T -> T): (r: seq<T>)
    ensures |r| == |xs|
    ensures forall i :: 0 <= i < |xs| && sel(xs[i]) ==> r[i] == f(xs[i])
    ensures forall i :: 0 <= i < |xs| && !sel(xs[i]) ==> r[i] == xs[i]
  {
    seq(|xs|, i requires 0 <= i < |xs| => if sel(xs[i]) then f(xs[i]) else xs[i])
  }

  // ------------------------------------------------------------------
  // filter((_, i) => i !== index)
  // ------------------------------------------------------------------

  /** `xs` without its element at `index`; when `index` names no element,
      nothing is removed. */
  function RemoveAt<T>(xs: seq<T>, index: int): (r: seq<T>)
    ensures 0 <= index < |xs| ==> |r| == |xs| - 1
    ensures 0 <= index < |xs| ==> forall i :: 0 <= i < index ==> r[i] == xs[i]
    ensures 0 <= index < |xs| ==> forall i :: index <= i < |r| ==> r[i] == xs[i + 1]
    ensures !(0 <= index < |xs|) ==> r == xs
  {
    if 0 <= index < |xs| then xs[..index] + xs[index + 1..] else xs
  }
}
