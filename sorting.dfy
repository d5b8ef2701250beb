/**
  Python's `sorted(xs, key=k, reverse=True)` (a stable sort, largest key
  first) and `collections.Counter` with `most_common(n)`.
 */
module Sorting {

  // ---------------------------------------------------------------------
  // Stable sort, largest key first
  // ---------------------------------------------------------------------

  predicate NonIncreasing<T>(s: seq<T>, key: T -> int) {
    forall i, j :: 0 <= i < j < |s| ==> key(s[j]) <= key(s[i])
  }

  function SumKey<T>(s: seq<T>, key: T -> int): int
    decreases |s|
  {
    if s == [] then 0 else key(s[0]) + SumKey(s[1..], key)
  }

  /** Puts `x` before the first element whose key is not larger than its own. */
  function InsertDesc<T>(x: T, s: seq<T>, key: T -> int): seq<T>
    decreases |s|
  {
    if s == [] || key(s[0]) <= key(x) then [x] + s
    else [s[0]] + InsertDesc(x, s[1..], key)
  }

  /** `sorted(s, key=key, reverse=True)`: equal keys keep their input order. */
  function SortDesc<T>(s: seq<T>, key: T -> int): seq<T>
    decreases |s|
  {
    if s == [] then [] else InsertDesc(s[0], SortDesc(s[1..], key), key)
  }

  lemma {:induction false} InsertDescElements<T>(x: T, s: seq<T>, key: T -> int)
    ensures forall y :: y in InsertDesc(x, s, key) <==> y == x || y in s
    ensures multiset(InsertDesc(x, s, key)) == multiset{x} + multiset(s)
    ensures |InsertDesc(x, s, key)| == |s| + 1
    ensures SumKey(InsertDesc(x, s, key), key) == key(x) + SumKey(s, key)
    decreases |s|
  {
    if s == [] || key(s[0]) <= key(x) {
      assert ([x] + s)[1..] == s;
    } else {
      InsertDescElements(x, s[1..], key);
      var t := InsertDesc(x, s[1..], key);
      assert ([s[0]] + t)[1..] == t;
      assert s == [s[0]] + s[1..];
    }
  }

  lemma {:induction false} InsertDescSorted<T>(x: T, s: seq<T>, key: T -> int)
    requires NonIncreasing(s, key)
    ensures NonIncreasing(InsertDesc(x, s, key), key)
    decreases |s|
  {
    if !(s == [] || key(s[0]) <= key(x)) {
      InsertDescSorted(x, s[1..], key);
      InsertDescElements(x, s[1..], key);
      var t := InsertDesc(x, s[1..], key);
      var r := [s[0]] + t;
      forall j | 0 < j < |r| ensures key(r[j]) <= key(s[0]) {
        assert r[j] == t[j - 1];
        assert r[j] in multiset(t);
        if r[j] != x {
          assert r[j] in multiset(s[1..]);
          var k :| 0 <= k < |s[1..]| && s[1..][k] == r[j];
          assert s[k + 1] == r[j];
        }
      }
    }
  }

  /** The sort yields a non-increasing permutation of its input. */
  lemma {:induction false} SortDescFacts<T>(s: seq<T>, key: T -> int)
    ensures NonIncreasing(SortDesc(s, key), key)
    ensures multiset(SortDesc(s, key)) == multiset(s)
    ensures |SortDesc(s, key)| == |s|
    ensures SumKey(SortDesc(s, key), key) == SumKey(s, key)
    decreases |s|
  {
    if s != [] {
      SortDescFacts(s[1..], key);
      InsertDescElements(s[0], SortDesc(s[1..], key), key);
      InsertDescSorted(s[0], SortDesc(s[1..], key), key);
      assert s == [s[0]] + s[1..];
    }
  }

  /** Elements with equal keys appear in increasing `rank`. */
  predicate StableBy<T>(s: seq<T>, key: T -> int, rank: T -> int) {
    forall i, j :: 0 <= i < j < |s| && key(s[i]) == key(s[j]) ==> rank(s[i]) < rank(s[j])
  }

  predicate Increasing<T>(s: seq<T>, rank: T -> int) {
    forall i, j :: 0 <= i < j < |s| ==> rank(s[i]) < rank(s[j])
  }

  /** Putting an element of smallest rank in front keeps a sequence stable. */
  lemma StableFront<T>(x: T, s: seq<T>, key: T -> int, rank: T -> int)
    requires StableBy(s, key, rank)
    requires forall y :: y in s ==> rank(x) < rank(y)
    ensures StableBy([x] + s, key, rank)
  {
    var r := [x] + s;
    forall i, j | 0 <= i < j < |r| && key(r[i]) == key(r[j]) ensures rank(r[i]) < rank(r[j]) {
      assert r[j] == s[j - 1] && s[j - 1] in s;
      if i > 0 {
        assert r[i] == s[i - 1];
      }
    }
  }

  /**
    Replacing the tail behind `h` by a stable `t` holding the old tail and a
    smaller-keyed `x` keeps the sequence stable.
   */
  lemma StableCons<T>(h: T, x: T, rest: seq<T>, t: seq<T>, key: T -> int, rank: T -> int)
    requires StableBy([h] + rest, key, rank) && StableBy(t, key, rank)
    requires forall y :: y in t ==> y == x || y in rest
    requires key(x) < key(h)
    ensures StableBy([h] + t, key, rank)
  {
    var r := [h] + t;
    var before := [h] + rest;
    forall i, j | 0 <= i < j < |r| && key(r[i]) == key(r[j]) ensures rank(r[i]) < rank(r[j]) {
      assert r[j] == t[j - 1] && t[j - 1] in t;
      if i > 0 {
        assert r[i] == t[i - 1];
      } else {
        assert r[j] in rest;
        var m :| 0 <= m < |rest| && rest[m] == r[j];
        assert before[0] == h && before[m + 1] == r[j];
      }
    }
  }

  lemma {:induction false} InsertDescStable<T>(x: T, s: seq<T>, key: T -> int, rank: T -> int)
    requires NonIncreasing(s, key) && StableBy(s, key, rank)
    requires forall y :: y in s ==> rank(x) < rank(y)
    ensures StableBy(InsertDesc(x, s, key), key, rank)
    decreases |s|
  {
    if s == [] || key(s[0]) <= key(x) {
      StableFront(x, s, key, rank);
    } else {
      var rest := s[1..];
      assert s == [s[0]] + rest;
      assert StableBy(rest, key, rank) by {
        forall i, j | 0 <= i < j < |rest| && key(rest[i]) == key(rest[j]) ensures rank(rest[i]) < rank(rest[j]) {
          assert rest[i] == s[i + 1] && rest[j] == s[j + 1];
        }
      }
      InsertDescStable(x, rest, key, rank);
      InsertDescElements(x, rest, key);
      assert StableBy([s[0]] + rest, key, rank);
      assert StableBy(InsertDesc(x, rest, key), key, rank);
      StableCons(s[0], x, rest, InsertDesc(x, rest, key), key, rank);
    }
  }

  /** Stability: a sequence in increasing `rank` keeps equal keys in that order. */
  lemma {:induction false} SortDescStable<T>(s: seq<T>, key: T -> int, rank: T -> int)
    requires Increasing(s, rank)
    ensures StableBy(SortDesc(s, key), key, rank)
    decreases |s|
  {
    if s != [] {
      var rest := SortDesc(s[1..], key);
      SortDescStable(s[1..], key, rank);
      SortDescFacts(s[1..], key);
      forall y | y in rest ensures rank(s[0]) < rank(y) {
        assert y in multiset(s[1..]);
        var m :| 0 <= m < |s[1..]| && s[1..][m] == y;
        assert s[m + 1] == y;
      }
      InsertDescStable(s[0], rest, key, rank);
    }
  }

  lemma {:induction false} SumKeySplit<T>(s: seq<T>, n: nat, key: T -> int)
    requires n <= |s|
    ensures SumKey(s, key) == SumKey(s[..n], key) + SumKey(s[n..], key)
    decreases n
  {
    if n > 0 {
      SumKeySplit(s[1..], n - 1, key);
      assert s[1..][..n - 1] == s[..n][1..];
      assert s[1..][n - 1..] == s[n..];
    }
  }

  lemma {:induction false} SumKeyAtLeastLength<T>(s: seq<T>, key: T -> int)
    requires forall i :: 0 <= i < |s| ==> key(s[i]) >= 1
    ensures SumKey(s, key) >= |s|
    decreases |s|
  {
    if s != [] {
      SumKeyAtLeastLength(s[1..], key);
    }
  }

  // ---------------------------------------------------------------------
  // Counter
  // ---------------------------------------------------------------------

  /** Number of occurrences of `x` in `xs`. */
  function Count<T(==,!new)>(xs: seq<T>, x: T): nat
    decreases |xs|
  {
    if xs == [] then 0
    else Count(xs[..|xs| - 1], x) + (if xs[|xs| - 1] == x then 1 else 0)
  }

  predicate Distinct<T(==,!new)>(s: seq<T>) {
    forall i, j :: 0 <= i < j < |s| ==> s[i] != s[j]
  }

  /** The distinct elements of `xs`, in order of first occurrence (a dict's key order). */
  function FirstSeen<T(==,!new)>(xs: seq<T>): (d: seq<T>)
    ensures Distinct(d)
    ensures forall x :: x in d <==> x in xs
    decreases |xs|
  {
    if xs == [] then []
    else
      var d := FirstSeen(xs[..|xs| - 1]);
      var x := xs[|xs| - 1];
      assert forall y :: y in xs <==> y in xs[..|xs| - 1] || y == x;
      if x in d then d else d + [x]
  }

  /** Where `x` first occurs in `xs`; `len(xs)` when it does not. */
  function FirstIndex<T(==)>(xs: seq<T>, x: T): (i: nat)
    ensures i <= |xs| && (i < |xs| <==> x in xs)
    ensures i < |xs| ==> xs[i] == x
    ensures forall k :: 0 <= k < i ==> xs[k] != x
    decreases |xs|
  {
    if xs == [] then 0
    else if xs[0] == x then 0
    else 1 + FirstIndex(xs[1..], x)
  }

  lemma FirstIndexSnoc<T(!new)>(xs: seq<T>, x: T, y: T)
    requires y in xs
    ensures FirstIndex(xs + [x], y) == FirstIndex(xs, y)
  {
    var i := FirstIndex(xs, y);
    var i' := FirstIndex(xs + [x], y);
    assert (xs + [x])[i] == y;
    if i' < i {
      assert xs[i'] == y;
    }
  }

  /** `FirstSeen` lists the elements in the order they first occur. */
  lemma {:induction false} FirstSeenOrder<T(!new)>(xs: seq<T>)
    ensures forall i, j :: 0 <= i < j < |FirstSeen(xs)| ==>
              FirstIndex(xs, FirstSeen(xs)[i]) < FirstIndex(xs, FirstSeen(xs)[j])
    decreases |xs|
  {
    if xs != [] {
      var init := xs[..|xs| - 1];
      var x := xs[|xs| - 1];
      assert xs == init + [x];
      var d := FirstSeen(init);
      FirstSeenOrder(init);
      forall i, j | 0 <= i < j < |FirstSeen(xs)|
        ensures FirstIndex(xs, FirstSeen(xs)[i]) < FirstIndex(xs, FirstSeen(xs)[j])
      {
        assert FirstSeen(xs)[i] == d[i] && d[i] in init;
        FirstIndexSnoc(init, x, d[i]);
        if j < |d| {
          assert FirstSeen(xs)[j] == d[j] && d[j] in init;
          FirstIndexSnoc(init, x, d[j]);
        } else {
          assert FirstSeen(xs)[j] == x && x !in init;
          assert FirstIndex(xs, x) == |init|;
        }
      }
    }
  }

  /** `Counter(xs).items()`: each distinct element with its count, first seen first. */
  function Tally<T(==,!new)>(xs: seq<T>): (t: seq<(T, nat)>)
    ensures |t| == |FirstSeen(xs)|
    ensures forall i :: 0 <= i < |t| ==> t[i] == (FirstSeen(xs)[i], Count(xs, FirstSeen(xs)[i]))
  {
    var d := FirstSeen(xs);
    seq(|d|, i requires 0 <= i < |d| => (d[i], Count(xs, d[i])))
  }

  function CountOf<T>(entry: (T, nat)): int {
    entry.1
  }

  /** `Counter(xs).most_common(n)`: at most `n` entries, largest count first, ties first seen first. */
  function MostCommon<T(==,!new)>(xs: seq<T>, n: int): (r: seq<(T, nat)>)
  {
    if n <= 0 then []
    else
      var sorted := SortDesc(Tally(xs), CountOf);
      if |sorted| <= n then sorted else sorted[..n]
  }

  function SumCounts<T(==,!new)>(ks: seq<T>, xs: seq<T>): nat
    decreases |ks|
  {
    if ks == [] then 0 else Count(xs, ks[0]) + SumCounts(ks[1..], xs)
  }

  lemma {:induction false} SumCountsAppend<T(!new)>(ks: seq<T>, xs: seq<T>, x: T)
    requires Distinct(ks)
    ensures SumCounts(ks, xs + [x]) == SumCounts(ks, xs) + (if x in ks then 1 else 0)
    decreases |ks|
  {
    if ks != [] {
      assert (xs + [x])[..|xs + [x]| - 1] == xs;
      SumCountsAppend(ks[1..], xs, x);
      assert x in ks <==> x == ks[0] || x in ks[1..];
    }
  }

  lemma {:induction false} SumCountsSnoc<T(!new)>(ks: seq<T>, x: T, xs: seq<T>)
    ensures SumCounts(ks + [x], xs) == SumCounts(ks, xs) + Count(xs, x)
    decreases |ks|
  {
    if ks == [] {
      assert ks + [x] == [x];
      assert [x][1..] == [];
    } else {
      assert (ks + [x])[1..] == ks[1..] + [x];
      SumCountsSnoc(ks[1..], x, xs);
    }
  }

  lemma {:induction false} CountNotIn<T(!new)>(xs: seq<T>, x: T)
    requires x !in xs
    ensures Count(xs, x) == 0
    decreases |xs|
  {
    if xs != [] {
      assert forall y :: y in xs[..|xs| - 1] ==> y in xs;
      CountNotIn(xs[..|xs| - 1], x);
    }
  }

  /** Every element is counted exactly once: the counts of `Counter(xs)` add up to `len(xs)`. */
  lemma {:induction false} TallyTotal<T(!new)>(xs: seq<T>)
    ensures SumCounts(FirstSeen(xs), xs) == |xs|
    decreases |xs|
  {
    if xs != [] {
      var init := xs[..|xs| - 1];
      var x := xs[|xs| - 1];
      assert xs == init + [x];
      var d := FirstSeen(init);
      TallyTotal(init);
      SumCountsAppend(d, init, x);
      if x !in d {
        SumCountsSnoc(d, x, xs);
        CountNotIn(init, x);
        assert Count(xs, x) == 1;
      }
    }
  }

  lemma {:induction false} SumKeyTally<T(!new)>(ks: seq<T>, xs: seq<T>)
    ensures SumKey(seq(|ks|, i requires 0 <= i < |ks| => (ks[i], Count(xs, ks[i]))), CountOf) == SumCounts(ks, xs)
    decreases |ks|
  {
    if ks != [] {
      var t := seq(|ks|, i requires 0 <= i < |ks| => (ks[i], Count(xs, ks[i])));
      var t' := seq(|ks| - 1, i requires 0 <= i < |ks| - 1 => (ks[1..][i], Count(xs, ks[1..][i])));
      assert t[1..] == t';
      SumKeyTally(ks[1..], xs);
    }
  }

  /** The entries of `Counter(xs)` sum to `len(xs)`. */
  lemma TallySum<T(!new)>(xs: seq<T>)
    ensures SumKey(Tally(xs), CountOf) == |xs|
  {
    var d := FirstSeen(xs);
    assert Tally(xs) == seq(|d|, i requires 0 <= i < |d| => (d[i], Count(xs, d[i])));
    SumKeyTally(d, xs);
    TallyTotal(xs);
  }

  lemma {:induction false} CountPositive<T(!new)>(xs: seq<T>, x: T)
    requires x in xs
    ensures Count(xs, x) >= 1
    decreases |xs|
  {
    if xs[|xs| - 1] != x {
      assert x in xs[..|xs| - 1] by {
        var k :| 0 <= k < |xs| && xs[k] == x;
        assert xs[..|xs| - 1][k] == x;
      }
      CountPositive(xs[..|xs| - 1], x);
    }
  }

  /** Each entry of the sorted tally is a distinct element of `xs` with its (positive) count. */
  lemma SortedTallyEntries<T(!new)>(xs: seq<T>)
    ensures |SortDesc(Tally(xs), CountOf)| == |FirstSeen(xs)|
    ensures forall e :: e in SortDesc(Tally(xs), CountOf) ==> e.0 in xs && e.1 == Count(xs, e.0) && e.1 >= 1
  {
    var t := Tally(xs);
    SortDescFacts(t, CountOf);
    forall e | e in SortDesc(t, CountOf) ensures e.0 in xs && e.1 == Count(xs, e.0) && e.1 >= 1 {
      assert e in multiset(SortDesc(t, CountOf));
      assert e in multiset(t);
      var i :| 0 <= i < |t| && t[i] == e;
      CountPositive(xs, e.0);
    }
  }

  /** Every element of `xs` is in the sorted tally, paired with its count. */
  lemma SortedTallyHas<T(!new)>(xs: seq<T>, x: T)
    requires x in xs
    ensures (x, Count(xs, x)) in SortDesc(Tally(xs), CountOf)
  {
    var t := Tally(xs);
    SortDescFacts(t, CountOf);
    var d := FirstSeen(xs);
    var i :| 0 <= i < |d| && d[i] == x;
    assert t[i] == (x, Count(xs, x));
    assert t[i] in multiset(t);
  }

  /** No element of `xs` has two entries in the sorted tally. */
  lemma SortedTallyKeys<T(!new)>(xs: seq<T>)
    ensures forall i, j :: 0 <= i < j < |SortDesc(Tally(xs), CountOf)| ==>
              SortDesc(Tally(xs), CountOf)[i].0 != SortDesc(Tally(xs), CountOf)[j].0
  {
    var t := Tally(xs);
    var s := SortDesc(t, CountOf);
    SortDescFacts(t, CountOf);
    SortedTallyEntries(xs);
    forall i, j | 0 <= i < j < |t| ensures t[i] != t[j] {
      assert FirstSeen(xs)[i] != FirstSeen(xs)[j];
    }
    PermutationDistinct(s, t);
    forall i, j | 0 <= i < j < |s| ensures s[i].0 != s[j].0 {
      assert s[i] in s && s[j] in s;
    }
  }

  /** The entries of `most_common(n)` name distinct elements. */
  lemma MostCommonDistinct<T(!new)>(xs: seq<T>, n: int)
    ensures var r := MostCommon(xs, n);
      forall i, j :: 0 <= i < j < |r| ==> r[i].0 != r[j].0
  {
    SortedTallyKeys(xs);
    var sorted := SortDesc(Tally(xs), CountOf);
    var r := MostCommon(xs, n);
    forall i, j | 0 <= i < j < |r| ensures r[i].0 != r[j].0 {
      assert r[i] == sorted[i] && r[j] == sorted[j];
      assert sorted[i].0 != sorted[j].0;
    }
  }

  /**
    When `n > 0`, an element of `xs` that `most_common(n)` leaves out occurs
    no more often than the last entry, and is only left out when all `n`
    entries were taken.
   */
  lemma MostCommonLeftOut<T(!new)>(xs: seq<T>, n: int, x: T)
    requires x in xs && forall e :: e in MostCommon(xs, n) ==> e.0 != x
    ensures n <= 0 || (|MostCommon(xs, n)| == n && Count(xs, x) <= MostCommon(xs, n)[n - 1].1)
  {
    var sorted := SortDesc(Tally(xs), CountOf);
    var r := MostCommon(xs, n);
    SortDescFacts(Tally(xs), CountOf);
    SortedTallyHas(xs, x);
    var k :| 0 <= k < |sorted| && sorted[k] == (x, Count(xs, x));
    assert forall i :: 0 <= i < |r| ==> r[i] == sorted[i];
  }

  /** Elements earlier in `FirstSeen(xs)` first occur earlier in `xs`. */
  lemma FirstSeenBefore<T(!new)>(xs: seq<T>, a: T, b: T)
    requires a in xs && b in xs
    requires FirstIndex(FirstSeen(xs), a) < FirstIndex(FirstSeen(xs), b)
    ensures FirstIndex(xs, a) < FirstIndex(xs, b)
  {
    var d := FirstSeen(xs);
    FirstSeenOrder(xs);
    var i, j := FirstIndex(d, a), FirstIndex(d, b);
    assert d[i] == a && d[j] == b;
  }

  /** In the sorted tally, entries with equal counts keep first-seen order. */
  lemma SortedTallyTies<T(!new)>(xs: seq<T>)
    ensures var sorted := SortDesc(Tally(xs), CountOf);
      forall i, j :: 0 <= i < j < |sorted| && sorted[i].1 == sorted[j].1 ==>
        FirstIndex(xs, sorted[i].0) < FirstIndex(xs, sorted[j].0)
  {
    var d := FirstSeen(xs);
    var t := Tally(xs);
    var sorted := SortDesc(t, CountOf);
    var rank := (e: (T, nat)) => FirstIndex(d, e.0);
    forall i, j | 0 <= i < j < |t| ensures rank(t[i]) < rank(t[j]) {
      assert t[i].0 == d[i] && t[j].0 == d[j];
    }
    SortDescStable(t, CountOf, rank);
    SortedTallyEntries(xs);
    forall i, j | 0 <= i < j < |sorted| && sorted[i].1 == sorted[j].1
      ensures FirstIndex(xs, sorted[i].0) < FirstIndex(xs, sorted[j].0)
    {
      assert sorted[i] in sorted && sorted[j] in sorted;
      assert CountOf(sorted[i]) == CountOf(sorted[j]);
      FirstSeenBefore(xs, sorted[i].0, sorted[j].0);
    }
  }

  /**
    Ties go to the element seen first: every entry counted as often as an
    element of `xs` left out occurs in `xs` before it.
   */
  lemma MostCommonTies<T(!new)>(xs: seq<T>, n: int, x: T)
    requires x in xs && forall e :: e in MostCommon(xs, n) ==> e.0 != x
    ensures forall e :: e in MostCommon(xs, n) && e.1 == Count(xs, x) ==> FirstIndex(xs, e.0) < FirstIndex(xs, x)
  {
    var sorted := SortDesc(Tally(xs), CountOf);
    var r := MostCommon(xs, n);
    SortedTallyHas(xs, x);
    SortedTallyTies(xs);
    var k :| 0 <= k < |sorted| && sorted[k] == (x, Count(xs, x));
    assert forall i :: 0 <= i < |r| ==> r[i] == sorted[i];
    forall e | e in r && e.1 == Count(xs, x) ensures FirstIndex(xs, e.0) < FirstIndex(xs, x) {
      var i :| 0 <= i < |r| && r[i] == e;
      assert sorted[i] == e && i < k;
    }
  }

  /**
    `most_common(n)`: at most `n` entries (none when `n <= 0`), largest count
    first, each a distinct element of `xs` with its count; when `n > 0`, an
    element of `xs` left out occurs no more often than the last entry, and is
    only left out when `n` entries were taken.
   */
  lemma MostCommonEntries<T(!new)>(xs: seq<T>, n: int)
    ensures |MostCommon(xs, n)| == (if n <= 0 then 0 else if |FirstSeen(xs)| <= n then |FirstSeen(xs)| else n)
    ensures NonIncreasing(MostCommon(xs, n), CountOf)
    ensures forall e :: e in MostCommon(xs, n) ==> e.0 in xs && e.1 == Count(xs, e.0) && e.1 >= 1
    ensures forall i, j :: 0 <= i < j < |MostCommon(xs, n)| ==> MostCommon(xs, n)[i].0 != MostCommon(xs, n)[j].0
    ensures forall x :: x in xs && (forall e :: e in MostCommon(xs, n) ==> e.0 != x) ==>
              n <= 0 || (|MostCommon(xs, n)| == n && Count(xs, x) <= MostCommon(xs, n)[n - 1].1)
  {
    MostCommonShape(xs, n);
    MostCommonDistinct(xs, n);
    forall x | x in xs && (forall e :: e in MostCommon(xs, n) ==> e.0 != x)
      ensures n <= 0 || (|MostCommon(xs, n)| == n && Count(xs, x) <= MostCommon(xs, n)[n - 1].1)
    {
      MostCommonLeftOut(xs, n, x);
    }
  }

  /** Length, order and entries of `most_common(n)`. */
  lemma MostCommonShape<T(!new)>(xs: seq<T>, n: int)
    ensures |MostCommon(xs, n)| == (if n <= 0 then 0 else if |FirstSeen(xs)| <= n then |FirstSeen(xs)| else n)
    ensures NonIncreasing(MostCommon(xs, n), CountOf)
    ensures forall e :: e in MostCommon(xs, n) ==> e.0 in xs && e.1 == Count(xs, e.0) && e.1 >= 1
  {
    SortedTallyEntries(xs);
    SortDescFacts(Tally(xs), CountOf);
    var sorted := SortDesc(Tally(xs), CountOf);
    if n > 0 && |sorted| > n {
      forall e | e in sorted[..n] ensures e in sorted {
        var i :| 0 <= i < n && sorted[..n][i] == e;
        assert sorted[i] == e;
      }
    }
  }

  /** Cutting off a non-empty tail of positive keys loses at least one from the sum. */
  lemma PrefixSumSmaller<T>(s: seq<T>, n: nat, key: T -> int)
    requires n < |s|
    requires forall e :: e in s ==> key(e) >= 1
    ensures SumKey(s[..n], key) < SumKey(s, key)
  {
    SumKeySplit(s, n, key);
    forall i | 0 <= i < |s[n..]| ensures key(s[n..][i]) >= 1 {
      assert s[n..][i] in s;
    }
    SumKeyAtLeastLength(s[n..], key);
  }

  /**
    The slices of `most_common(n)` cover at most `len(xs)` elements, and all
    of them exactly when there are at most `n` distinct elements.
   */
  lemma MostCommonSum<T(!new)>(xs: seq<T>, n: int)
    ensures SumKey(MostCommon(xs, n), CountOf) <= |xs|
    ensures SumKey(MostCommon(xs, n), CountOf) == |xs| <==> xs == [] || (n > 0 && |FirstSeen(xs)| <= n)
  {
    var sorted := SortDesc(Tally(xs), CountOf);
    SortDescFacts(Tally(xs), CountOf);
    SortedTallyEntries(xs);
    TallySum(xs);
    if n <= 0 {
      assert MostCommon(xs, n) == [];
      if xs != [] {
        assert |xs| > 0;
      }
    } else if |sorted| > n {
      assert MostCommon(xs, n) == sorted[..n];
      PrefixSumSmaller(sorted, n, CountOf);
    } else {
      assert MostCommon(xs, n) == sorted;
    }
  }

  /** Two positions holding the same element put it twice in the multiset. */
  lemma {:induction false} CountTwice<T>(s: seq<T>, i: nat, j: nat)
    requires i < j < |s| && s[i] == s[j]
    ensures multiset(s)[s[i]] >= 2
  {
    assert s == s[..i] + [s[i]] + (s[i + 1..j] + [s[j]] + s[j + 1..]);
    assert s[i + 1..] == s[i + 1..j] + [s[j]] + s[j + 1..];
    assert s == s[..i] + [s[i]] + s[i + 1..];
  }

  /** In a sequence without repetitions each element occurs once. */
  lemma {:induction false} DistinctOnce<T(!new)>(s: seq<T>, a: nat)
    requires a < |s| && Distinct(s)
    ensures multiset(s)[s[a]] == 1
    decreases |s|
  {
    var n := |s| - 1;
    assert s == s[..n] + [s[n]];
    if a < n {
      DistinctOnce(s[..n], a);
      assert s[n] != s[a];
    } else {
      assert s[n] !in s[..n];
    }
  }

  /** A permutation of a sequence without repetitions has none either. */
  lemma PermutationDistinct<T(!new)>(s: seq<T>, t: seq<T>)
    requires multiset(s) == multiset(t) && Distinct(t)
    ensures Distinct(s)
  {
    forall i, j | 0 <= i < j < |s| ensures s[i] != s[j] {
      if s[i] == s[j] {
        CountTwice(s, i, j);
        assert s[i] in multiset(t);
        var a :| 0 <= a < |t| && t[a] == s[i];
        DistinctOnce(t, a);
      }
    }
  }

  /** Sorting does not change how many elements of `xs` the entries account for. */
  lemma {:induction false} InsertDescCounts<T(!new)>(x: T, s: seq<T>, key: T -> int, xs: seq<T>)
    ensures SumCounts(InsertDesc(x, s, key), xs) == Count(xs, x) + SumCounts(s, xs)
    decreases |s|
  {
    if s == [] || key(s[0]) <= key(x) {
      assert ([x] + s)[1..] == s;
    } else {
      InsertDescCounts(x, s[1..], key, xs);
      assert ([s[0]] + InsertDesc(x, s[1..], key))[1..] == InsertDesc(x, s[1..], key);
    }
  }

  lemma {:induction false} SortDescCounts<T(!new)>(s: seq<T>, key: T -> int, xs: seq<T>)
    ensures SumCounts(SortDesc(s, key), xs) == SumCounts(s, xs)
    decreases |s|
  {
    if s != [] {
      SortDescCounts(s[1..], key, xs);
      InsertDescCounts(s[0], SortDesc(s[1..], key), key, xs);
    }
  }

  /**
    Three distinct values occur at most `len(xs)` times together, and
    exactly that often when every element is one of them.
   */
  lemma {:induction false} CountThree<T(!new)>(xs: seq<T>, a: T, b: T, c: T)
    requires a != b && b != c && a != c
    ensures Count(xs, a) + Count(xs, b) + Count(xs, c) <= |xs|
    ensures Count(xs, a) + Count(xs, b) + Count(xs, c) == |xs|
            <==> forall i :: 0 <= i < |xs| ==> xs[i] == a || xs[i] == b || xs[i] == c
    decreases |xs|
  {
    if xs != [] {
      var n := |xs| - 1;
      CountThree(xs[..n], a, b, c);
      assert forall i :: 0 <= i < n ==> xs[..n][i] == xs[i];
    }
  }
}
