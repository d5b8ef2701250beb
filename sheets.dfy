/**
  What `SheetsWriter` writes into a research spreadsheet: the "Research
  Data" sheet (a header row, one row per result, the sentiment cell of each
  known sentiment coloured) and the "Summary" sheet built by
  `_build_summary` (totals, sentiment counts, top subreddits, top themes).
  The spreadsheet service itself is not modelled: each write becomes a
  `SheetOp` value, and the data sheet is the sequence of them in call order.
 */
module Sheets {
  import opened Wrappers
  import Text
  import Sorting
  import opened Analyzer
  import Charts

  /** A cell value: text, a whole number, or a calendar day (`created_date`). */
  datatype Cell = Str(s: string) | Num(n: int) | Date(day: int)

  type Row = seq<Cell>

  /** An RGB background colour, each component between 0 and 1. */
  datatype Rgb = Rgb(red: real, green: real, blue: real)

  /** One call on the data worksheet: `ws.update(range, values)` or `ws.format(range, ...)`. */
  datatype SheetOp = Update(range: string, values: seq<Row>) | Format(range: string, bold: bool, background: Rgb)

  // ---------------------------------------------------------------------
  // The data sheet
  // ---------------------------------------------------------------------

  /** `DATA_HEADERS` */
  function DataHeaders(): seq<string> {
    ["Date", "Subreddit", "Title", "Sentiment", "Theme",
     "Summary", "Upvotes", "Comments", "Competitor Mentions", "URL"]
  }

  function HeaderRow(): (r: Row)
    ensures |r| == |DataHeaders()| && forall j :: 0 <= j < |r| ==> r[j] == Str(DataHeaders()[j])
  {
    seq(|DataHeaders()|, j requires 0 <= j < |DataHeaders()| => Str(DataHeaders()[j]))
  }

  /** The header rows' grey, `0.9` in every component. */
  function Grey(): Rgb {
    Rgb(0.9, 0.9, 0.9)
  }

  /** The row written for one result, in the column order of the header. */
  function DataRow(r: ResultRow): Row {
    [Date(r.createdDay), Str(Charts.SubLabel(r.subreddit)), Str(r.title),
     Str(Text.Capitalize(r.sentiment)), Str(r.theme), Str(r.summary),
     Num(r.score), Num(r.numComments), Str(r.competitorMentions), Str(r.url)]
  }

  /**
    What belongs under each header, stated header by header: the reference
    the row layout is checked against.
   */
  function Column(r: ResultRow, header: string): Cell {
    match header
    case "Date" => Date(r.createdDay)
    case "Subreddit" => Str("r/" + r.subreddit)
    case "Title" => Str(r.title)
    case "Sentiment" => Str(Text.Capitalize(r.sentiment))
    case "Theme" => Str(r.theme)
    case "Summary" => Str(r.summary)
    case "Upvotes" => Num(r.score)
    case "Comments" => Num(r.numComments)
    case "Competitor Mentions" => Str(r.competitorMentions)
    case "URL" => Str(r.url)
    case _ => Str("")
  }

  function DataRows(results: seq<ResultRow>): (rows: seq<Row>)
    ensures |rows| == |results| && forall i :: 0 <= i < |results| ==> rows[i] == DataRow(results[i])
  {
    seq(|results|, i requires 0 <= i < |results| => DataRow(results[i]))
  }

  /** `f"A2:J{n + 1}"`: the block of `n` data rows under the header. */
  function DataRange(n: nat): string {
    "A2:J" + Text.NatToString(n + 1)
  }

  /** `f"D{row}"`: the sentiment cell of sheet row `row`. */
  function SentimentCell(row: nat): string {
    "D" + Text.NatToString(row)
  }

  /** `color_map.get(sentiment)` */
  function SentimentColor(s: string): Option<Rgb> {
    if s == Charts.Positive() then Some(Rgb(0.85, 0.95, 0.85))
    else if s == Charts.Negative() then Some(Rgb(0.95, 0.85, 0.85))
    else if s == Neutral() then Some(Rgb(0.93, 0.93, 0.93))
    else None
  }

  /** The colour formats of the results, the `i`-th result's on sheet row `i + 2`. */
  function ColourOps(results: seq<ResultRow>): seq<SheetOp>
    decreases |results|
  {
    if results == [] then []
    else
      var n := |results| - 1;
      var c := SentimentColor(results[n].sentiment);
      ColourOps(results[..n]) + (if c.Some? then [Format(SentimentCell(n + 2), false, c.value)] else [])
  }

  /** The writes to the data worksheet, in call order. */
  function DataSheet(results: seq<ResultRow>): seq<SheetOp> {
    [Update("A1", [HeaderRow()]), Format("A1:J1", true, Grey())]
    + (if results == [] then [] else [Update(DataRange(|results|), DataRows(results))])
    + ColourOps(results)
  }

  /** The row-building loop of `create_research_sheet` (sheets.py:64-77). */
  method BuildRows(results: seq<ResultRow>) returns (rows: seq<Row>)
    ensures rows == DataRows(results)
  {
    rows := [];
    for i := 0 to |results|
      invariant rows == DataRows(results[..i])
    {
      rows := rows + [DataRow(results[i])];
    }
    assert results[..|results|] == results;
  }

  /** The colour-coding loop of `create_research_sheet` (sheets.py:83-91). */
  method ColourFormats(results: seq<ResultRow>) returns (ops: seq<SheetOp>)
    ensures ops == ColourOps(results)
  {
    ops := [];
    for i := 0 to |results|
      invariant ops == ColourOps(results[..i])
    {
      var c := SentimentColor(results[i].sentiment);
      assert results[..i + 1][..i] == results[..i];
      if c.Some? {
        ops := ops + [Format(SentimentCell(i + 2), false, c.value)];
      }
    }
    assert results[..|results|] == results;
  }

  /** The data-sheet part of `create_research_sheet` (sheets.py:58-91). */
  method DataSheetOps(results: seq<ResultRow>) returns (ops: seq<SheetOp>)
    ensures ops == DataSheet(results)
  {
    ops := [Update("A1", [HeaderRow()]), Format("A1:J1", true, Grey())];
    var rows := BuildRows(results);
    if |rows| > 0 {
      ops := ops + [Update(DataRange(|rows|), rows)];
    }
    var colours := ColourFormats(results);
    ops := ops + colours;
  }

  // ---------------------------------------------------------------------
  // What the data sheet promises
  // ---------------------------------------------------------------------

  /** Each row has one value per header, and each value is the one its header names. */
  lemma DataRowColumns(r: ResultRow)
    ensures |DataRow(r)| == |DataHeaders()|
    ensures forall j :: 0 <= j < |DataHeaders()| ==> DataRow(r)[j] == Column(r, DataHeaders()[j])
  {
  }

  /** The sentiment column holds the capitalised sentiment: first letter upper case, the rest lower. */
  lemma SentimentCapitalised(r: ResultRow)
    requires r.sentiment != []
    ensures DataRow(r)[3].s[0] == Text.UpperChar(r.sentiment[0])
    ensures DataRow(r)[3].s[1..] == Text.Lower(r.sentiment[1..])
  {
  }

  /** `str` of naturals is one-to-one. */
  lemma NatToStringInjective(a: nat, b: nat)
    ensures Text.NatToString(a) == Text.NatToString(b) <==> a == b
  {
    if Text.NatToString(a) == Text.NatToString(b) {
      Text.ParseNatToString(a);
      Text.ParseNatToString(b);
    }
  }

  /** Distinct rows have distinct sentiment cells. */
  lemma SentimentCellInjective(a: nat, b: nat)
    ensures SentimentCell(a) == SentimentCell(b) <==> a == b
  {
    NatToStringInjective(a, b);
    if SentimentCell(a) == SentimentCell(b) {
      assert SentimentCell(a)[1..] == Text.NatToString(a);
      assert SentimentCell(b)[1..] == Text.NatToString(b);
    }
  }

  /** The data block ends on row `n + 1`: it holds exactly the `n` rows below the header. */
  lemma DataRangeEnd(n: nat)
    ensures |DataRange(n)| > 4 && DataRange(n)[..4] == "A2:J"
    ensures forall i :: 4 <= i < |DataRange(n)| ==> Text.IsDigit(DataRange(n)[i])
    ensures Text.ParseNat(DataRange(n)[4..]) == n + 1
  {
    assert DataRange(n)[4..] == Text.NatToString(n + 1);
    Text.ParseNatToString(n + 1);
  }

  /** Only known sentiments get a colour, and the three colours differ. */
  lemma SentimentColorKnown(s: string)
    ensures SentimentColor(s).Some? <==> s in Charts.Three()
    ensures SentimentColor(Charts.Positive()) != SentimentColor(Charts.Negative())
    ensures SentimentColor(Charts.Positive()) != SentimentColor(Neutral())
    ensures SentimentColor(Charts.Negative()) != SentimentColor(Neutral())
  {
  }

  /** Colour formats set a background only, never bold text. */
  lemma {:induction false} ColourOpsPlain(results: seq<ResultRow>)
    ensures forall op :: op in ColourOps(results) ==> op.Format? && !op.bold
    ensures |ColourOps(results)| <= |results|
    decreases |results|
  {
    if results != [] {
      ColourOpsPlain(results[..|results| - 1]);
    }
  }

  /**
    Row `i + 2` gets colour `c` exactly when the `i`-th result has a sentiment
    whose colour is `c`; rows of other sentiments stay uncoloured.
   */
  lemma {:induction false} ColourOpsFor(results: seq<ResultRow>, i: nat, c: Rgb)
    ensures Format(SentimentCell(i + 2), false, c) in ColourOps(results)
            <==> i < |results| && SentimentColor(results[i].sentiment) == Some(c)
    decreases |results|
  {
    if results != [] {
      var n := |results| - 1;
      ColourOpsFor(results[..n], i, c);
      SentimentCellInjective(i + 2, n + 2);
      if i < n {
        assert results[..n][i] == results[i];
      }
    }
  }

  /** The header comes first, then the data block when there are results, then the colours. */
  lemma DataSheetLayout(results: seq<ResultRow>)
    ensures var ops := DataSheet(results);
      |ops| >= 2 && ops[0] == Update("A1", [HeaderRow()]) && ops[1] == Format("A1:J1", true, Grey())
      && (results != [] ==> ops[2] == Update(DataRange(|results|), DataRows(results)))
      && (results == [] ==> ops[2..] == ColourOps(results))
      && (forall k :: 2 <= k < |ops| && ops[k].Update? ==> results != [] && k == 2)
  {
    ColourOpsPlain(results);
    var head := [Update("A1", [HeaderRow()]), Format("A1:J1", true, Grey())];
    var block := if results == [] then [] else [Update(DataRange(|results|), DataRows(results))];
    var colours := ColourOps(results);
    var ops := DataSheet(results);
    assert ops == head + block + colours;
    FormatsAfter(head + block, colours);
  }

  /** Only formats follow a prefix when every appended op is a format. */
  lemma FormatsAfter(prefix: seq<SheetOp>, formats: seq<SheetOp>)
    requires forall op :: op in formats ==> op.Format?
    ensures forall k :: |prefix| <= k < |prefix + formats| ==> (prefix + formats)[k].Format?
  {
    forall k | |prefix| <= k < |prefix + formats| ensures (prefix + formats)[k].Format? {
      assert (prefix + formats)[k] == formats[k - |prefix|];
    }
  }

  // ---------------------------------------------------------------------
  // _build_summary
  // ---------------------------------------------------------------------

  /** `[r["theme"] for r in results]` */
  function Themes(results: seq<ResultRow>): (r: seq<string>)
    ensures |r| == |results| && forall i :: 0 <= i < |results| ==> r[i] == results[i].theme
  {
    seq(|results|, i requires 0 <= i < |results| => results[i].theme)
  }

  /** A labelled row: the label text and a second cell. */
  function Pair(name: string, value: Cell): Row {
    [Str(name), value]
  }

  /** One `[prefix + key, count]` row per `most_common` entry. */
  function CountRows(top: seq<(string, nat)>, prefix: string): (rows: seq<Row>)
    ensures |rows| == |top|
    ensures forall k :: 0 <= k < |top| ==> rows[k] == Pair(prefix + top[k].0, Num(top[k].1))
  {
    seq(|top|, k requires 0 <= k < |top| => Pair(prefix + top[k].0, Num(top[k].1)))
  }

  function TopN(): int { 10 }

  /** The eight rows every summary starts with. */
  function Heading(brand: string, results: seq<ResultRow>): seq<Row> {
    var sents := Charts.Sentiments(results);
    [Pair("Metric", Str("Value")),
     Pair("Brand", Str(brand)),
     Pair("Total Relevant Posts", Num(|results|)),
     Pair("Positive", Num(Sorting.Count(sents, Charts.Positive()))),
     Pair("Negative", Num(Sorting.Count(sents, Charts.Negative()))),
     Pair("Neutral", Num(Sorting.Count(sents, Neutral()))),
     [],
     Pair("Top Subreddits", Str("Count"))]
  }

  /** The summary sheet's rows. */
  function Summary(brand: string, results: seq<ResultRow>): seq<Row> {
    Heading(brand, results)
    + CountRows(Sorting.MostCommon(Charts.Subreddits(results), TopN()), "r/")
    + [[], Pair("Top Themes", Str("Count"))]
    + CountRows(Sorting.MostCommon(Themes(results), TopN()), "")
  }

  /** The number in the second cell of row `k`, or 0 when there is none. */
  function ValueAt(rows: seq<Row>, k: int): int {
    if 0 <= k < |rows| && |rows[k]| == 2 && rows[k][1].Num? then rows[k][1].n else 0
  }

  /** `SheetsWriter._build_summary` (sheets.py:109-133). */
  method BuildSummary(brand: string, results: seq<ResultRow>) returns (rows: seq<Row>)
    ensures rows == Summary(brand, results)
  {
    var positive, negative, neutral := 0, 0, 0;
    for i := 0 to |results|
      invariant positive == Sorting.Count(Charts.Sentiments(results[..i]), Charts.Positive())
      invariant negative == Sorting.Count(Charts.Sentiments(results[..i]), Charts.Negative())
      invariant neutral == Sorting.Count(Charts.Sentiments(results[..i]), Neutral())
    {
      var s := results[i].sentiment;
      assert Charts.Sentiments(results[..i + 1]) == Charts.Sentiments(results[..i]) + [s];
      if s == Charts.Positive() {
        positive := positive + 1;
      } else if s == Charts.Negative() {
        negative := negative + 1;
      } else if s == Neutral() {
        neutral := neutral + 1;
      }
    }
    assert results[..|results|] == results;
    rows := [Pair("Metric", Str("Value")),
             Pair("Brand", Str(brand)),
             Pair("Total Relevant Posts", Num(|results|)),
             Pair("Positive", Num(positive)),
             Pair("Negative", Num(negative)),
             Pair("Neutral", Num(neutral)),
             [],
             Pair("Top Subreddits", Str("Count"))];
    rows := AppendCounts(rows, Sorting.MostCommon(Charts.Subreddits(results), TopN()), "r/");
    rows := rows + [[], Pair("Top Themes", Str("Count"))];
    rows := AppendCounts(rows, Sorting.MostCommon(Themes(results), TopN()), "");
  }

  /** `for key, count in top: rows.append([prefix + key, count])` */
  method AppendCounts(rows: seq<Row>, top: seq<(string, nat)>, prefix: string) returns (r: seq<Row>)
    ensures r == rows + CountRows(top, prefix)
  {
    r := rows;
    for k := 0 to |top|
      invariant r == rows + CountRows(top[..k], prefix)
    {
      r := r + [Pair(prefix + top[k].0, Num(top[k].1))];
    }
    assert top[..|top|] == top;
  }

  // ---------------------------------------------------------------------
  // What the summary promises
  // ---------------------------------------------------------------------

  /**
    Eight fixed rows, at most ten subreddit rows, two separator rows, at
    most ten theme rows.
   */
  lemma SummaryLength(brand: string, results: seq<ResultRow>)
    ensures var subs := |Sorting.FirstSeen(Charts.Subreddits(results))|;
            var themes := |Sorting.FirstSeen(Themes(results))|;
      |Summary(brand, results)| == 10 + (if subs <= 10 then subs else 10) + (if themes <= 10 then themes else 10)
  {
    Sorting.MostCommonEntries(Charts.Subreddits(results), TopN());
    Sorting.MostCommonEntries(Themes(results), TopN());
  }

  /** Where the sections of the summary sit. */
  lemma SummaryLayout(brand: string, results: seq<ResultRow>)
    ensures var rows := Summary(brand, results);
            var m := |Sorting.MostCommon(Charts.Subreddits(results), TopN())|;
      |rows| >= 10 + m
      && rows[0] == Pair("Metric", Str("Value")) && rows[1] == Pair("Brand", Str(brand))
      && rows[2] == Pair("Total Relevant Posts", Num(|results|))
      && rows[6] == [] && rows[7] == Pair("Top Subreddits", Str("Count"))
      && rows[8 + m] == [] && rows[9 + m] == Pair("Top Themes", Str("Count"))
  {
  }

  /**
    The Positive, Negative and Neutral counts add up to at most the total,
    and to exactly the total when every result has one of those sentiments.
   */
  lemma SummarySentiments(brand: string, results: seq<ResultRow>)
    ensures var rows := Summary(brand, results);
      ValueAt(rows, 3) + ValueAt(rows, 4) + ValueAt(rows, 5) <= ValueAt(rows, 2) == |results|
    ensures var rows := Summary(brand, results);
      ValueAt(rows, 3) + ValueAt(rows, 4) + ValueAt(rows, 5) == ValueAt(rows, 2)
      <==> forall i :: 0 <= i < |results| ==> results[i].sentiment in Charts.Three()
  {
    var sents := Charts.Sentiments(results);
    Sorting.CountThree(sents, Charts.Positive(), Charts.Negative(), Neutral());
    var rows := Summary(brand, results);
    assert rows[..8] == Heading(brand, results);
  }

  lemma PrefixInjective(prefix: string, a: string, b: string)
    ensures prefix + a == prefix + b ==> a == b
  {
    assert (prefix + a)[|prefix|..] == a && (prefix + b)[|prefix|..] == b;
  }

  /**
    Rows of entries that pair distinct values of `xs` with their counts, in
    non-increasing order: each row names a different value with its count.
   */
  lemma RowsOf(top: seq<(string, nat)>, prefix: string, xs: seq<string>)
    requires forall e :: e in top ==> e.0 in xs && e.1 == Sorting.Count(xs, e.0) && e.1 >= 1
    requires Sorting.NonIncreasing(top, Sorting.CountOf)
    requires forall i, j :: 0 <= i < j < |top| ==> top[i].0 != top[j].0
    ensures var rows := CountRows(top, prefix);
      (forall k :: 0 <= k < |rows| ==>
         exists x :: x in xs && rows[k] == Pair(prefix + x, Num(Sorting.Count(xs, x))) && Sorting.Count(xs, x) >= 1)
      && (forall k :: 0 <= k < |rows| - 1 ==> ValueAt(rows, k) >= ValueAt(rows, k + 1))
      && (forall i, j :: 0 <= i < j < |rows| ==> rows[i][0] != rows[j][0])
  {
    var rows := CountRows(top, prefix);
    forall k | 0 <= k < |rows|
      ensures exists x :: x in xs && rows[k] == Pair(prefix + x, Num(Sorting.Count(xs, x))) && Sorting.Count(xs, x) >= 1
    {
      assert top[k] in top;
    }
    assert forall k :: 0 <= k < |rows| ==>
      exists x :: x in xs && rows[k] == Pair(prefix + x, Num(Sorting.Count(xs, x))) && Sorting.Count(xs, x) >= 1;
    forall k | 0 <= k < |rows| - 1 ensures ValueAt(rows, k) >= ValueAt(rows, k + 1) {
      assert Sorting.CountOf(top[k]) >= Sorting.CountOf(top[k + 1]);
    }
    forall i, j | 0 <= i < j < |rows| ensures rows[i][0] != rows[j][0] {
      PrefixInjective(prefix, top[i].0, top[j].0);
    }
  }

  /** A value that labels no row has no entry. */
  lemma RowsMiss(top: seq<(string, nat)>, prefix: string, x: string)
    requires forall k :: 0 <= k < |top| ==> CountRows(top, prefix)[k][0] != Str(prefix + x)
    ensures forall e :: e in top ==> e.0 != x
  {
    forall e | e in top ensures e.0 != x {
      var k :| 0 <= k < |top| && top[k] == e;
      assert CountRows(top, prefix)[k][0] == Str(prefix + e.0) != Str(prefix + x);
    }
  }

  /** Ten entries, the last counting at least `c`, give ten rows, the last counting at least `c`. */
  lemma RowsLast(top: seq<(string, nat)>, prefix: string, c: int)
    requires |top| == 10 && c <= top[9].1
    ensures |CountRows(top, prefix)| == 10 && c <= ValueAt(CountRows(top, prefix), 9)
  {
  }

  /** A row labelled `prefix + y` that counts `c` comes from the entry `(y, c)`. */
  lemma RowsEntry(top: seq<(string, nat)>, prefix: string, k: int, y: string)
    requires 0 <= k < |top| && CountRows(top, prefix)[k][0] == Str(prefix + y)
    ensures top[k] == (y, ValueAt(CountRows(top, prefix), k)) && top[k] in top
  {
    PrefixInjective(prefix, top[k].0, y);
  }

  /**
    Each top row names a different value that occurs in `xs`, with its
    count (at least 1); counts never increase down the list, and they add
    up to at most `len(xs)`.
   */
  lemma TopRows(xs: seq<string>, prefix: string)
    ensures var rows := CountRows(Sorting.MostCommon(xs, TopN()), prefix);
      |rows| <= 10
      && (forall k :: 0 <= k < |rows| ==>
            exists x :: x in xs && rows[k] == Pair(prefix + x, Num(Sorting.Count(xs, x))) && Sorting.Count(xs, x) >= 1)
      && (forall k :: 0 <= k < |rows| - 1 ==> ValueAt(rows, k) >= ValueAt(rows, k + 1))
      && (forall i, j :: 0 <= i < j < |rows| ==> rows[i][0] != rows[j][0])
      && Sorting.SumKey(Sorting.MostCommon(xs, TopN()), Sorting.CountOf) <= |xs|
  {
    var top := Sorting.MostCommon(xs, TopN());
    Sorting.MostCommonShape(xs, TopN());
    Sorting.MostCommonDistinct(xs, TopN());
    Sorting.MostCommonSum(xs, TopN());
    RowsOf(top, prefix, xs);
  }

  /**
    A value of `xs` without a row of its own is only left out when all ten
    rows are taken, and it occurs no more often than the last row counts.
   */
  lemma TopRowsLeftOut(xs: seq<string>, prefix: string, x: string)
    requires x in xs
    requires var rows := CountRows(Sorting.MostCommon(xs, TopN()), prefix);
      forall k :: 0 <= k < |rows| ==> rows[k][0] != Str(prefix + x)
    ensures var rows := CountRows(Sorting.MostCommon(xs, TopN()), prefix);
      |rows| == 10 && Sorting.Count(xs, x) <= ValueAt(rows, 9)
  {
    var top := Sorting.MostCommon(xs, TopN());
    RowsMiss(top, prefix, x);
    Sorting.MostCommonLeftOut(xs, TopN(), x);
    RowsLast(top, prefix, Sorting.Count(xs, x));
  }

  /**
    The rows counting a value of `xs` without a row of its own as often as
    it occurs name values that occur before it.
   */
  lemma TopRowsTies(xs: seq<string>, prefix: string, x: string)
    requires x in xs
    requires var rows := CountRows(Sorting.MostCommon(xs, TopN()), prefix);
      forall k :: 0 <= k < |rows| ==> rows[k][0] != Str(prefix + x)
    ensures var rows := CountRows(Sorting.MostCommon(xs, TopN()), prefix);
      forall k, y :: 0 <= k < |rows| && rows[k][0] == Str(prefix + y) && ValueAt(rows, k) == Sorting.Count(xs, x) ==>
        Sorting.FirstIndex(xs, y) < Sorting.FirstIndex(xs, x)
  {
    var top := Sorting.MostCommon(xs, TopN());
    var rows := CountRows(top, prefix);
    RowsMiss(top, prefix, x);
    Sorting.MostCommonTies(xs, TopN(), x);
    forall k, y | 0 <= k < |rows| && rows[k][0] == Str(prefix + y) && ValueAt(rows, k) == Sorting.Count(xs, x)
      ensures Sorting.FirstIndex(xs, y) < Sorting.FirstIndex(xs, x)
    {
      RowsEntry(top, prefix, k, y);
    }
  }

  /** The subreddit and theme sections are the top-ten rows of their columns. */
  lemma SummarySections(brand: string, results: seq<ResultRow>)
    ensures var rows := Summary(brand, results);
            var subs := CountRows(Sorting.MostCommon(Charts.Subreddits(results), TopN()), "r/");
            var themes := CountRows(Sorting.MostCommon(Themes(results), TopN()), "");
      rows[8..8 + |subs|] == subs && rows[10 + |subs|..] == themes
  {
  }
}
