/**
  What the three charts of a research run are drawn from: the slices of
  the sentiment pie, the slices of the subreddit pie (the `top_n` most
  frequent subreddits and "Others"), and the weekly sentiment counts of
  the trend line; and the file-name form of the brand name.
 */
module Charts {
  import opened Wrappers
  import Text
  import Sorting
  import opened Analyzer

  // ---------------------------------------------------------------------
  // _safe_name
  // ---------------------------------------------------------------------

  /** `s.replace(c, with)` for a one-character pattern. */
  function Replace(s: string, c: char, with: string): (r: string)
    ensures c !in with ==> c !in r
    ensures forall d :: d in r ==> d in with || (d in s && d != c)
    decreases |s|
  {
    if s == [] then [] else (if s[0] == c then with else [s[0]]) + Replace(s[1..], c, with)
  }

  lemma {:induction false} ReplaceAbsent(s: string, c: char, with: string)
    requires c !in s
    ensures Replace(s, c, with) == s
    decreases |s|
  {
    if s != [] {
      ReplaceAbsent(s[1..], c, with);
      assert s == [s[0]] + s[1..];
    }
  }

  predicate NoUpper(s: string) {
    forall d :: d in s ==> !('A' <= d <= 'Z')
  }

  lemma LowerOfLower(s: string)
    ensures NoUpper(Text.Lower(s))
    ensures NoUpper(s) ==> Text.Lower(s) == s
  {
    forall d | d in Text.Lower(s) ensures !('A' <= d <= 'Z') {
      var i :| 0 <= i < |s| && Text.Lower(s)[i] == d;
    }
    if NoUpper(s) {
      forall i | 0 <= i < |s| ensures Text.Lower(s)[i] == s[i] {
        assert s[i] in s;
      }
    }
  }

  /** `_safe_name(name)`: lower case, spaces to "_", "&" to "and", apostrophes dropped. */
  function SafeName(name: string): (r: string)
    ensures ' ' !in r && '&' !in r && '\'' !in r
    ensures NoUpper(r)
  {
    LowerOfLower(name);
    Replace(Replace(Replace(Text.Lower(name), ' ', "_"), '&', "and"), '\'', "")
  }

  /** A name that is already lower case and free of the three characters is left as it is. */
  lemma SafeNameFixed(name: string)
    requires NoUpper(name) && ' ' !in name && '&' !in name && '\'' !in name
    ensures SafeName(name) == name
  {
    LowerOfLower(name);
    ReplaceAbsent(name, ' ', "_");
    ReplaceAbsent(name, '&', "and");
    ReplaceAbsent(name, '\'', "");
  }

  /** Sanitising twice is sanitising once. */
  lemma SafeNameIdempotent(name: string)
    ensures SafeName(SafeName(name)) == SafeName(name)
  {
    SafeNameFixed(SafeName(name));
  }

  // ---------------------------------------------------------------------
  // generate_sentiment_pie
  // ---------------------------------------------------------------------

  function Positive(): string { "positive" }
  function Negative(): string { "negative" }

  /** The three sentiments the charts know, in pie order. */
  function Three(): seq<string> {
    [Positive(), Negative(), Neutral()]
  }

  /** `SENTIMENT_COLORS` */
  function SentimentColor(s: string): string {
    if s == Positive() then "#4CAF50" else if s == Negative() then "#F44336" else "#9E9E9E"
  }

  /** `[r["sentiment"] for r in results]` */
  function Sentiments(results: seq<ResultRow>): (r: seq<string>)
    ensures |r| == |results| && forall i :: 0 <= i < |results| ==> r[i] == results[i].sentiment
  {
    seq(|results|, i requires 0 <= i < |results| => results[i].sentiment)
  }

  /** A slice of the sentiment pie: the sentiment, its count and its colour. */
  datatype Slice = Slice(sentiment: string, size: nat, color: string)

  function SliceSize(s: Slice): int {
    s.size
  }

  /** A slice for each sentiment of `order`, in that order, that occurs in `xs`. */
  function PieOf(order: seq<string>, xs: seq<string>): seq<Slice>
    decreases |order|
  {
    if order == [] then []
    else
      var count := Sorting.Count(xs, order[0]);
      (if count > 0 then [Slice(order[0], count, SentimentColor(order[0]))] else []) + PieOf(order[1..], xs)
  }

  /** The slices of `generate_sentiment_pie` (charts.py:35-45). */
  function SentimentPie(results: seq<ResultRow>): seq<Slice> {
    PieOf(Three(), Sentiments(results))
  }

  /** `a` comes before `b` in `order`. */
  predicate Before(order: seq<string>, a: string, b: string) {
    exists x, y :: 0 <= x < y < |order| && order[x] == a && order[y] == b
  }

  /** Each slice is a sentiment of `order` with its (positive) count and its colour. */
  lemma {:induction false} PieOfEntries(order: seq<string>, xs: seq<string>)
    ensures var p := PieOf(order, xs);
      |p| <= |order|
      && forall k :: 0 <= k < |p| ==> p[k].sentiment in order && p[k].size == Sorting.Count(xs, p[k].sentiment)
                                      && p[k].size >= 1 && p[k].color == SentimentColor(p[k].sentiment)
    decreases |order|
  {
    if order != [] {
      PieOfEntries(order[1..], xs);
      var rest := PieOf(order[1..], xs);
      var p := PieOf(order, xs);
      forall k | |p| - |rest| <= k < |p| ensures p[k].sentiment in order {
        assert p[k] == rest[k - (|p| - |rest|)];
        assert p[k].sentiment in order[1..];
      }
    }
  }

  /** Every sentiment of `order` that occurs in `xs` has its slice. */
  lemma {:induction false} PieOfCovers(order: seq<string>, xs: seq<string>, s: string)
    requires s in order && Sorting.Count(xs, s) > 0
    ensures exists k :: 0 <= k < |PieOf(order, xs)| && PieOf(order, xs)[k].sentiment == s
    decreases |order|
  {
    var p := PieOf(order, xs);
    if s != order[0] {
      assert s in order[1..];
      PieOfCovers(order[1..], xs, s);
      var rest := PieOf(order[1..], xs);
      var k :| 0 <= k < |rest| && rest[k].sentiment == s;
      assert p[|p| - |rest| + k] == rest[k];
    } else {
      assert p[0].sentiment == s;
    }
  }

  /** The slices keep the order of `order`. */
  lemma {:induction false} PieOfOrder(order: seq<string>, xs: seq<string>)
    ensures var p := PieOf(order, xs);
      forall i, j :: 0 <= i < j < |p| ==> Before(order, p[i].sentiment, p[j].sentiment)
    decreases |order|
  {
    if order != [] {
      PieOfOrder(order[1..], xs);
      PieOfEntries(order[1..], xs);
      var rest := PieOf(order[1..], xs);
      var p := PieOf(order, xs);
      var d := |p| - |rest|;
      forall i, j | 0 <= i < j < |p| ensures Before(order, p[i].sentiment, p[j].sentiment) {
        if i < d {
          assert rest[j - d].sentiment in order[1..];
          var y :| 0 <= y < |order[1..]| && order[1..][y] == rest[j - d].sentiment;
          assert order[0] == p[i].sentiment && order[y + 1] == p[j].sentiment;
        } else {
          assert Before(order[1..], rest[i - d].sentiment, rest[j - d].sentiment);
          var x, y :| 0 <= x < y < |order[1..]| && order[1..][x] == rest[i - d].sentiment
                      && order[1..][y] == rest[j - d].sentiment;
          assert order[x + 1] == p[i].sentiment && order[y + 1] == p[j].sentiment;
        }
      }
    }
  }

  /** The slice sizes add up to the counts of the sentiments of `order`. */
  lemma {:induction false} PieOfSum(order: seq<string>, xs: seq<string>)
    ensures Sorting.SumKey(PieOf(order, xs), SliceSize) == Sorting.SumCounts(order, xs)
    decreases |order|
  {
    if order != [] {
      PieOfSum(order[1..], xs);
      var p := PieOf(order, xs);
      if Sorting.Count(xs, order[0]) > 0 {
        assert p[1..] == PieOf(order[1..], xs);
        assert SliceSize(p[0]) == Sorting.Count(xs, order[0]);
      } else {
        assert p == PieOf(order[1..], xs);
      }
    }
  }

  /**
    The sentiment pie has a slice exactly for each of positive, negative
    and neutral that occurs, in that order; any other sentiment gets no
    slice, so the slices cover at most `len(results)` posts, and exactly
    that many when every sentiment is one of the three.
   */
  lemma SentimentPieFacts(results: seq<ResultRow>)
    ensures var p := SentimentPie(results);
      var xs := Sentiments(results);
      |p| <= 3
      && (forall k :: 0 <= k < |p| ==> p[k].sentiment in Three() && p[k].size == Sorting.Count(xs, p[k].sentiment)
                                       && p[k].size >= 1 && p[k].color == SentimentColor(p[k].sentiment))
      && (forall s :: s in Three() && Sorting.Count(xs, s) > 0 ==> exists k :: 0 <= k < |p| && p[k].sentiment == s)
      && (forall i, j :: 0 <= i < j < |p| ==> Before(Three(), p[i].sentiment, p[j].sentiment))
      && Sorting.SumKey(p, SliceSize) <= |results|
      && (Sorting.SumKey(p, SliceSize) == |results| <==> forall i :: 0 <= i < |results| ==> results[i].sentiment in Three())
  {
    var xs := Sentiments(results);
    PieOfEntries(Three(), xs);
    PieOfOrder(Three(), xs);
    PieOfSum(Three(), xs);
    forall s | s in Three() && Sorting.Count(xs, s) > 0
      ensures exists k :: 0 <= k < |SentimentPie(results)| && SentimentPie(results)[k].sentiment == s
    {
      PieOfCovers(Three(), xs, s);
    }
    assert Sorting.SumCounts(Three(), xs)
        == Sorting.Count(xs, Positive()) + Sorting.Count(xs, Negative()) + Sorting.Count(xs, Neutral()) by {
      assert Three()[1..][1..][1..] == [];
    }
    Sorting.CountThree(xs, Positive(), Negative(), Neutral());
  }

  /** The slice selection of `generate_sentiment_pie`. */
  method SentimentSlices(results: seq<ResultRow>) returns (slices: seq<Slice>)
    ensures slices == SentimentPie(results)
  {
    var sentiments := Sentiments(results);
    slices := SlicesFor(Three(), sentiments);
  }

  /** The loop of `generate_sentiment_pie` over the sentiments of `order`. */
  method SlicesFor(order: seq<string>, sentiments: seq<string>) returns (slices: seq<Slice>)
    ensures slices == PieOf(order, sentiments)
  {
    slices := [];
    for k := 0 to |order|
      invariant PieOf(order, sentiments) == slices + PieOf(order[k..], sentiments)
    {
      var count := Sorting.Count(sentiments, order[k]);
      var slice := if count > 0 then [Slice(order[k], count, SentimentColor(order[k]))] else [];
      assert order[k..][1..] == order[k + 1..];
      assert PieOf(order[k..], sentiments) == slice + PieOf(order[k + 1..], sentiments);
      slices := slices + slice;
    }
  }


  // ---------------------------------------------------------------------
  // generate_subreddit_pie
  // ---------------------------------------------------------------------

  /** `[r["subreddit"] for r in results]` */
  function Subreddits(results: seq<ResultRow>): (r: seq<string>)
    ensures |r| == |results| && forall i :: 0 <= i < |results| ==> r[i] == results[i].subreddit
  {
    seq(|results|, i requires 0 <= i < |results| => results[i].subreddit)
  }

  /** A slice of the subreddit pie: its label and size. */
  datatype Wedge = Wedge(name: string, size: int)

  function WedgeSize(w: Wedge): int {
    w.size
  }

  function Others(): string {
    "Others"
  }

  /** `r/{sub}` */
  function SubLabel(sub: string): string {
    "r/" + sub
  }

  function Named(top: seq<(string, nat)>): (r: seq<Wedge>)
    ensures |r| == |top| && forall k :: 0 <= k < |top| ==> r[k] == Wedge(SubLabel(top[k].0), top[k].1)
  {
    seq(|top|, k requires 0 <= k < |top| => Wedge(SubLabel(top[k].0), top[k].1))
  }

  /** The slices of `generate_subreddit_pie` (charts.py:77-87). */
  function SubredditPie(results: seq<ResultRow>, topN: int): seq<Wedge> {
    var top := Sorting.MostCommon(Subreddits(results), topN);
    var others := |results| - Sorting.SumKey(top, Sorting.CountOf);
    Named(top) + (if others > 0 then [Wedge(Others(), others)] else [])
  }

  lemma {:induction false} NamedSum(top: seq<(string, nat)>)
    ensures Sorting.SumKey(Named(top), WedgeSize) == Sorting.SumKey(top, Sorting.CountOf)
    decreases |top|
  {
    if top != [] {
      NamedSum(top[1..]);
      assert Named(top)[1..] == Named(top[1..]);
    }
  }

  lemma SubLabelInjective(a: string, b: string)
    ensures SubLabel(a) == SubLabel(b) ==> a == b
  {
    assert SubLabel(a)[2..] == a && SubLabel(b)[2..] == b;
  }

  /** A subreddit that labels none of the named slices has no `most_common` entry. */
  lemma UnnamedLeftOut(top: seq<(string, nat)>, p: seq<Wedge>, s: string)
    requires |top| <= |p| && p[..|top|] == Named(top)
    requires forall k :: 0 <= k < |top| ==> p[k].name != SubLabel(s)
    ensures forall e :: e in top ==> e.0 != s
  {
    forall e | e in top ensures e.0 != s {
      var k :| 0 <= k < |top| && top[k] == e;
      assert p[k] == p[..|top|][k];
    }
  }

  /**
    The subreddit pie starts with at most `top_n` named slices, largest
    first, each labelled with a different subreddit of the results and
    sized by its count.
   */
  lemma SubredditPieNamed(results: seq<ResultRow>, topN: int)
    ensures var p := SubredditPie(results, topN);
      var subs := Subreddits(results);
      var named := Sorting.MostCommon(subs, topN);
      |named| <= (if topN <= 0 then 0 else topN)
      && p[..|named|] == Named(named)
      && (forall k :: 0 <= k < |named| ==> named[k].0 in subs && named[k].1 == Sorting.Count(subs, named[k].0)
                                           && named[k].1 >= 1)
      && Sorting.NonIncreasing(p[..|named|], WedgeSize)
      && (forall i, j :: 0 <= i < j < |named| ==> p[i].name != p[j].name)
  {
    var subs := Subreddits(results);
    var top := Sorting.MostCommon(subs, topN);
    var p := SubredditPie(results, topN);
    Sorting.MostCommonEntries(subs, topN);
    assert p[..|top|] == Named(top);
    forall k | 0 <= k < |top| ensures top[k].0 in subs && top[k].1 == Sorting.Count(subs, top[k].0) && top[k].1 >= 1 {
      assert top[k] in top;
    }
    forall i, j | 0 <= i < j < |top| ensures p[i].name != p[j].name {
      assert p[i] == Named(top)[i] && p[j] == Named(top)[j];
      SubLabelInjective(top[i].0, top[j].0);
    }
  }

  /**
    A subreddit of the results without a slice of its own is only left out
    when `top_n > 0` slices are named; it occurs no more often than the
    smallest of them, and the named ones counted as often occur first.
   */
  lemma SubredditPieLeftOut(results: seq<ResultRow>, topN: int, s: string)
    requires s in Subreddits(results)
    requires var p := SubredditPie(results, topN);
      forall k :: 0 <= k < |Sorting.MostCommon(Subreddits(results), topN)| && k < |p| ==> p[k].name != SubLabel(s)
    ensures var p := SubredditPie(results, topN);
      var subs := Subreddits(results);
      var named := Sorting.MostCommon(subs, topN);
      topN <= 0 || (|named| == topN && Sorting.Count(subs, s) <= p[topN - 1].size)
    ensures var p := SubredditPie(results, topN);
      var subs := Subreddits(results);
      var named := Sorting.MostCommon(subs, topN);
      forall k :: 0 <= k < |named| && k < |p| && p[k].size == Sorting.Count(subs, s) ==>
        Sorting.FirstIndex(subs, named[k].0) < Sorting.FirstIndex(subs, s)
  {
    var subs := Subreddits(results);
    var top := Sorting.MostCommon(subs, topN);
    var p := SubredditPie(results, topN);
    assert p[..|top|] == Named(top);
    UnnamedLeftOut(top, p, s);
    Sorting.MostCommonLeftOut(subs, topN, s);
    Sorting.MostCommonTies(subs, topN, s);
    forall k | 0 <= k < |top| ensures p[k] == Wedge(SubLabel(top[k].0), top[k].1) && top[k] in top {
      assert p[k] == Named(top)[k];
    }
  }

  /**
    After the named slices comes one "Others" slice exactly when some
    result's subreddit is not among them; every slice is positive and the
    sizes add up to `len(results)`.
   */
  lemma SubredditPieTotal(results: seq<ResultRow>, topN: int)
    ensures var p := SubredditPie(results, topN);
      var subs := Subreddits(results);
      var named := Sorting.MostCommon(subs, topN);
      Sorting.SumKey(p, WedgeSize) == |results|
      && (forall k :: 0 <= k < |p| ==> p[k].size >= 1)
      && (|p| > |named| <==> results != [] && (topN <= 0 || |Sorting.FirstSeen(subs)| > topN))
      && (|p| > |named| ==> |p| == |named| + 1 && p[|named|].name == Others())
  {
    var subs := Subreddits(results);
    var top := Sorting.MostCommon(subs, topN);
    var p := SubredditPie(results, topN);
    SubredditPieNamed(results, topN);
    Sorting.MostCommonSum(subs, topN);
    NamedSum(top);
    var others := |results| - Sorting.SumKey(top, Sorting.CountOf);
    if others > 0 {
      Sorting.SumKeySplit(p, |top|, WedgeSize);
      assert p[|top|..] == [Wedge(Others(), others)];
      assert p[..|top|] == Named(top);
    } else {
      assert p == Named(top);
    }
  }

  /** The slice selection of `generate_subreddit_pie(results, brand_name, top_n)`. */
  method SubredditSlices(results: seq<ResultRow>, topN: int) returns (labels: seq<string>, sizes: seq<int>)
    ensures |labels| == |sizes| == |SubredditPie(results, topN)|
    ensures forall k :: 0 <= k < |labels| ==> SubredditPie(results, topN)[k] == Wedge(labels[k], sizes[k])
  {
    var top := Sorting.MostCommon(Subreddits(results), topN);
    labels := seq(|top|, k requires 0 <= k < |top| => SubLabel(top[k].0));
    sizes := seq(|top|, k requires 0 <= k < |top| => top[k].1 as int);
    var topTotal := Sorting.SumKey(top, Sorting.CountOf);
    var others := |results| - topTotal;
    if others > 0 {
      labels := labels + [Others()];
      sizes := sizes + [others];
    }
  }

  // ---------------------------------------------------------------------
  // generate_sentiment_trend
  // ---------------------------------------------------------------------

  /** `date.weekday()` of day number `d` (days since 1970-01-01, a Thursday): Monday is 0. */
  function Weekday(d: int): int {
    (d + 3) % 7
  }

  /** `date - timedelta(days=date.weekday())`: the Monday that starts the week of `d`. */
  function WeekStart(d: int): int {
    d - Weekday(d)
  }

  /** A week starts on a Monday at most six days before the date, and its days share it. */
  lemma WeekStartFacts(d: int, e: int)
    ensures Weekday(WeekStart(d)) == 0 && d - 6 <= WeekStart(d) <= d
    ensures WeekStart(d) <= e < WeekStart(d) + 7 ==> WeekStart(e) == WeekStart(d)
  {
  }

  /** The counts of one week of the trend line. */
  datatype Week = Week(start: int, positive: nat, negative: nat, neutral: nat)

  /** `None`, `KeyError`, or the weeks in ascending order. */
  datatype Trend = NoResults | KeyError | Weekly(weeks: seq<Week>)

  /** The week start of each result, in result order. */
  function Starts(results: seq<ResultRow>): (r: seq<int>)
    ensures |r| == |results| && forall i :: 0 <= i < |results| ==> r[i] == WeekStart(results[i].createdDay)
  {
    seq(|results|, i requires 0 <= i < |results| => WeekStart(results[i].createdDay))
  }

  /** The number of results of week `w` with sentiment `s`. */
  function CountWeek(results: seq<ResultRow>, w: int, s: string): nat
    decreases |results|
  {
    if results == [] then 0
    else
      var r := results[|results| - 1];
      CountWeek(results[..|results| - 1], w, s) + (if WeekStart(r.createdDay) == w && r.sentiment == s then 1 else 0)
  }

  function WeekOf(results: seq<ResultRow>, w: int): Week {
    Week(w, CountWeek(results, w, Positive()), CountWeek(results, w, Negative()), CountWeek(results, w, Neutral()))
  }

  function WeeksOf(results: seq<ResultRow>, ws: seq<int>): (r: seq<Week>)
    ensures |r| == |ws| && forall k :: 0 <= k < |ws| ==> r[k] == WeekOf(results, ws[k])
  {
    seq(|ws|, k requires 0 <= k < |ws| => WeekOf(results, ws[k]))
  }

  function Negated(x: int): int {
    -x
  }

  /** `sorted(keys)` for day numbers. */
  function Ascending(ws: seq<int>): seq<int> {
    Sorting.SortDesc(ws, Negated)
  }

  predicate AllKnown(results: seq<ResultRow>) {
    forall i :: 0 <= i < |results| ==> results[i].sentiment in Three()
  }

  /**
    What `generate_sentiment_trend` draws: `KeyError` when some sentiment
    is not one of the three, `None` without results, otherwise the counts
    of every week that has a result, earliest week first.
   */
  function TrendOf(results: seq<ResultRow>): Trend {
    if !AllKnown(results) then KeyError
    else if results == [] then NoResults
    else Weekly(WeeksOf(results, Ascending(Sorting.FirstSeen(Starts(results)))))
  }

  function WeekTotal(w: Week): int {
    w.positive + w.negative + w.neutral
  }

  /** With known sentiments, a week's three counts add up to its number of results. */
  lemma {:induction false} WeekTotalCount(results: seq<ResultRow>, w: int)
    requires AllKnown(results)
    ensures WeekTotal(WeekOf(results, w)) == Sorting.Count(Starts(results), w)
    decreases |results|
  {
    if results != [] {
      var n := |results| - 1;
      assert Starts(results)[..n] == Starts(results[..n]);
      assert results[n].sentiment in Three();
      WeekTotalCount(results[..n], w);
    }
  }

  lemma {:induction false} WeeksSum(results: seq<ResultRow>, ws: seq<int>)
    requires AllKnown(results)
    ensures Sorting.SumKey(WeeksOf(results, ws), WeekTotal) == Sorting.SumCounts(ws, Starts(results))
    decreases |ws|
  {
    if ws != [] {
      WeeksSum(results, ws[1..]);
      assert WeeksOf(results, ws)[1..] == WeeksOf(results, ws[1..]);
      WeekTotalCount(results, ws[0]);
    }
  }

  /** `None` comes only from an empty result list. */
  lemma TrendNone(results: seq<ResultRow>)
    requires AllKnown(results)
    ensures TrendOf(results).NoResults? <==> results == []
  {
  }

  /** Each week of the trend line is a Monday with at least one result. */
  lemma TrendMondays(results: seq<ResultRow>, k: nat)
    requires AllKnown(results) && results != [] && k < |TrendOf(results).weeks|
    ensures var week := TrendOf(results).weeks[k];
      Weekday(week.start) == 0 && WeekTotal(week) >= 1
  {
    var xs := Starts(results);
    var d := Sorting.FirstSeen(xs);
    var ws := Ascending(d);
    Sorting.SortDescFacts(d, Negated);
    assert ws[k] in multiset(d);
    assert ws[k] in d;
    assert ws[k] in xs;
    var i :| 0 <= i < |results| && xs[i] == ws[k];
    WeekStartFacts(results[i].createdDay, 0);
    WeekTotalCount(results, ws[k]);
    Sorting.CountPositive(xs, ws[k]);
  }

  /** The weeks of the trend line are strictly ascending. */
  lemma TrendAscending(results: seq<ResultRow>)
    requires AllKnown(results) && results != []
    ensures var weeks := TrendOf(results).weeks;
      forall i, j :: 0 <= i < j < |weeks| ==> weeks[i].start < weeks[j].start
  {
    var d := Sorting.FirstSeen(Starts(results));
    var ws := Ascending(d);
    Sorting.SortDescFacts(d, Negated);
    Sorting.PermutationDistinct(ws, d);
    forall i, j | 0 <= i < j < |ws| ensures ws[i] < ws[j] {
      assert Negated(ws[j]) <= Negated(ws[i]);
    }
  }

  /** Every result falls in one of the weeks. */
  lemma TrendCovers(results: seq<ResultRow>, i: nat)
    requires AllKnown(results) && i < |results|
    ensures var weeks := TrendOf(results).weeks;
      exists k :: 0 <= k < |weeks| && weeks[k].start == WeekStart(results[i].createdDay)
  {
    var xs := Starts(results);
    var d := Sorting.FirstSeen(xs);
    var ws := Ascending(d);
    Sorting.SortDescFacts(d, Negated);
    assert xs[i] in d;
    assert xs[i] in multiset(ws);
    var k :| 0 <= k < |ws| && ws[k] == xs[i];
    assert TrendOf(results).weeks[k].start == xs[i];
  }

  /** The weekly counts add up to `len(results)`. */
  lemma TrendTotal(results: seq<ResultRow>)
    requires AllKnown(results) && results != []
    ensures Sorting.SumKey(TrendOf(results).weeks, WeekTotal) == |results|
  {
    var xs := Starts(results);
    var d := Sorting.FirstSeen(xs);
    WeeksSum(results, Ascending(d));
    Sorting.SortDescCounts(d, Negated, xs);
    Sorting.TallyTotal(xs);
  }

  /** Bucketing result `i` adds its week to the keys when it is new. */
  lemma TrendKeysStep(results: seq<ResultRow>, i: nat)
    requires i < |results|
    ensures var key := WeekStart(results[i].createdDay);
      var d := Sorting.FirstSeen(Starts(results[..i]));
      Sorting.FirstSeen(Starts(results[..i + 1])) == if key in d then d else d + [key]
  {
    var xs := Starts(results[..i + 1]);
    assert xs[..i] == Starts(results[..i]);
  }

  /** Bucketing result `i` adds one to its week's count of its sentiment and nothing else. */
  lemma TrendCountStep(results: seq<ResultRow>, i: nat, w: int, s: string)
    requires i < |results|
    ensures CountWeek(results[..i + 1], w, s)
            == CountWeek(results[..i], w, s)
               + (if WeekStart(results[i].createdDay) == w && results[i].sentiment == s then 1 else 0)
  {
    assert results[..i + 1][..i] == results[..i];
  }

  /** `week[s] += 1` for one of the three sentiments. */
  function Add(week: Week, s: string): Week {
    if s == Positive() then week.(positive := week.positive + 1)
    else if s == Negative() then week.(negative := week.negative + 1)
    else if s == Neutral() then week.(neutral := week.neutral + 1)
    else week
  }

  lemma WeekOfStep(results: seq<ResultRow>, i: nat, w: int)
    requires i < |results|
    ensures WeekOf(results[..i + 1], w)
            == if w == WeekStart(results[i].createdDay) then Add(WeekOf(results[..i], w), results[i].sentiment)
               else WeekOf(results[..i], w)
  {
    TrendCountStep(results, i, w, Positive());
    TrendCountStep(results, i, w, Negative());
    TrendCountStep(results, i, w, Neutral());
  }

  /** `weekly` holds the counts of `results` for its weeks, and the other weeks have none. */
  ghost predicate Tallied(weekly: map<int, Week>, results: seq<ResultRow>) {
    (forall w :: w in weekly ==> weekly[w] == WeekOf(results, w))
    && (forall w :: w !in weekly ==> WeekOf(results, w) == Week(w, 0, 0, 0))
  }

  lemma TalliedStep(weekly: map<int, Week>, results: seq<ResultRow>, i: nat, week: Week)
    requires i < |results| && Tallied(weekly, results[..i])
    requires var key := WeekStart(results[i].createdDay);
      week == Add(if key in weekly then weekly[key] else Week(key, 0, 0, 0), results[i].sentiment)
    ensures Tallied(weekly[WeekStart(results[i].createdDay) := week], results[..i + 1])
  {
    forall w {
      WeekOfStep(results, i, w);
    }
  }

  lemma TrendKnownStep(results: seq<ResultRow>, i: nat)
    requires i < |results|
    ensures AllKnown(results[..i + 1]) <==> AllKnown(results[..i]) && results[i].sentiment in Three()
  {
    assert forall j :: 0 <= j < i ==> results[..i + 1][j] == results[..i][j];
  }

  /** The state of the bucketing loop after `results`. */
  ghost predicate Bucketed(results: seq<ResultRow>, weekly: map<int, Week>, order: seq<int>) {
    AllKnown(results)
    && order == Sorting.FirstSeen(Starts(results))
    && (forall w :: w in weekly <==> w in order)
    && Tallied(weekly, results)
  }

  lemma BucketStep(results: seq<ResultRow>, i: nat, weekly: map<int, Week>, order: seq<int>)
    requires i < |results| && Bucketed(results[..i], weekly, order) && results[i].sentiment in Three()
    ensures var key := WeekStart(results[i].createdDay);
      var week := Add(if key in weekly then weekly[key] else Week(key, 0, 0, 0), results[i].sentiment);
      Bucketed(results[..i + 1], weekly[key := week], if key in weekly then order else order + [key])
  {
    TrendKeysStep(results, i);
    TrendKnownStep(results, i);
    var key := WeekStart(results[i].createdDay);
    TalliedStep(weekly, results, i, Add(if key in weekly then weekly[key] else Week(key, 0, 0, 0), results[i].sentiment));
  }

  /**
    The bucketing loop of `generate_sentiment_trend` (charts.py:120-128):
    the weeks in first-seen order and their counts, or `false` when a
    sentiment outside the three raises `KeyError`.
   */
  method Bucket(results: seq<ResultRow>) returns (ok: bool, weekly: map<int, Week>, order: seq<int>)
    ensures ok <==> AllKnown(results)
    ensures ok ==> order == Sorting.FirstSeen(Starts(results))
                   && (forall w :: w in weekly <==> w in order)
                   && (forall w :: w in weekly ==> weekly[w] == WeekOf(results, w))
                   && (weekly == map[] <==> results == [])
  {
    weekly := map[];
    order := [];
    for i := 0 to |results|
      invariant Bucketed(results[..i], weekly, order)
    {
      var r := results[i];
      var key := WeekStart(r.createdDay);
      // the `defaultdict` creates the entry on first use
      var week := if key in weekly then weekly[key] else Week(key, 0, 0, 0);
      var order' := if key in weekly then order else order + [key];
      if r.sentiment !in Three() {
        // `KeyError`: the inner dict has only the three keys
        assert !AllKnown(results) by {
          assert results[i] == r;
        }
        return false, weekly, order';
      }
      week := Add(week, r.sentiment);
      BucketStep(results, i, weekly, order);
      weekly := weekly[key := week];
      order := order';
    }
    assert results[..|results|] == results;
    if results != [] {
      assert Starts(results)[0] in order;
    }
    ok := true;
  }

  lemma WeeksOfStep(results: seq<ResultRow>, ws: seq<int>, k: nat)
    requires k < |ws|
    ensures WeeksOf(results, ws[..k + 1]) == WeeksOf(results, ws[..k]) + [WeekOf(results, ws[k])]
  {
  }

  /** The weekly bucketing of `generate_sentiment_trend` (charts.py:120-136). */
  method SentimentTrend(results: seq<ResultRow>) returns (t: Trend)
    ensures t == TrendOf(results)
  {
    var ok, weekly, order := Bucket(results);
    if !ok {
      return KeyError;
    }
    if weekly == map[] {
      return NoResults;
    }
    var ws := Ascending(order);
    Sorting.SortDescFacts(order, Negated);
    var weeks: seq<Week> := [];
    for k := 0 to |ws|
      invariant weeks == WeeksOf(results, ws[..k])
    {
      assert ws[k] in multiset(order);
      WeeksOfStep(results, ws, k);
      weeks := weeks + [weekly[ws[k]]];
    }
    assert ws[..|ws|] == ws;
    t := Weekly(weeks);
  }
}
