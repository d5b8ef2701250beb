# Brand-monitoring bot: a Dafny model of its core

The bot researches what Reddit says about a brand. Given a brand's configuration, it does four things:

- It collects posts from three archives:
  - Arctic Shift, searched subreddit by subreddit;
  - Reddit's own search endpoints;
  - Pullpush.
- It merges the posts into one dictionary keyed by post id, where the first post seen wins.
- It asks an LLM about each post, falling back to a keyword heuristic.
- It summarises the relevant posts as chart data and spreadsheet rows.

The brands are configured through Telegram dialogues:

- `/research_add` asks for the fields one at a time.
- `/research_edit` changes one field of a brand.
- `/research_delete` removes a brand after a `YES`.

The model covers these parts:

| module | file | what it models |
|---|---|---|
| `Wrappers` | `wrappers.dfy` | `Option` and `Result` |
| `Text` | `text.dfy` | the `str` methods the code uses (ASCII case mapping, `strip`, `split`/`join`, substring tests, `str(n)`), with their round-trip lemmas |
| `Sorting` | `sorting.dfy` | the stable `sorted(..., reverse=True)` and `Counter.most_common` |
| `Net` | `net.dfy` | the HTTP session and the clock |
| `Posts` | `posts.dfy` | `RedditPost`, whose identity is its `post_id`, and the first-seen-wins post dictionary |
| `ArcticShift` | `arctic_shift.dfy` | the Arctic Shift adapter class |
| `RedditSearch` | `reddit_search.dfy` | the Reddit search adapter class |
| `Pullpush` | `pullpush.dfy` | the Pullpush adapter class |
| `MultiSource` | `multi_source.dfy` | `MultiSourceFetcher.fetch_all` |
| `Analyzer` | `analyzer.dfy` | `BrandAnalyzer`: the LLM call ladder, fence stripping, `analyze_post`, the keyword fallback and `process_posts` |
| `Charts` | `charts.dfy` | `_safe_name`, the slices of the two pie charts and the weekly trend buckets |
| `Sheets` | `sheets.dfy` | the data-sheet writes and `_build_summary` |
| `Bot` | `bot.dfy` | list answers, brand lookup, the add/edit/delete state transitions and the no-posts report |

How the model represents the system:

- **The network.** A `requests.Session` is an oracle: a fixed script of replies, one per GET, handed out in order. The session keeps the log of requests it was sent.
- **The clock.** `time.sleep` appends its seconds to a log of waits.
- **Adapters and the analyzer.** Each is a class whose methods run the code's retry and paging loops. Each method is proved equal to a tail-recursive specification function, and the properties are proved as lemmas about those functions.
- **Bot handlers.** The conversation handlers are functions from the user's pending entries and the brands file to the next entries, brands and conversation state.

## Model

| member | source | states |
|---|---|---|
| Sorting.SortDescFacts | fetcher.py:526 | `sorted(..., reverse=True)` yields a permutation of its input in non-increasing key order |
| Sorting.SortDescStable | fetcher.py:526 | `sorted` is stable: elements with equal keys keep the order they had in the input |
| Sorting.FirstSeen | charts.py:77 | a `Counter`'s keys: each distinct value once, exactly the values that occur |
| Sorting.FirstSeenOrder | charts.py:77 | a `Counter`'s keys come in the order the values first occur |
| Sorting.Tally | charts.py:77 | a `Counter`'s entries in first-seen order, each value with its number of occurrences |
| Sorting.TallySum | charts.py:77 | the counts of a `Counter` add up to the number of values counted |
| Sorting.MostCommonEntries | charts.py:78 | `most_common(n)` has `min(n, #distinct)` entries in non-increasing count order, each a different occurring value with its count; a value left out (n > 0) occurs no more often than the last entry |
| Sorting.MostCommonDistinct | charts.py:78 | no value has two entries in `most_common(n)` |
| Sorting.MostCommonLeftOut | charts.py:78 | a value of the input left out of `most_common(n)` with n > 0 means n entries were taken, and it occurs no more often than the last of them |
| Sorting.MostCommonTies | charts.py:78 | every entry counted as often as a value left out first occurs before it: ties go to the value seen first |
| Sorting.MostCommonSum | charts.py:78-83 | the counts of `most_common(n)` add up to at most the number of values, exactly when every distinct value is among the entries |
| Sorting.CountThree | sheets.py:119-121 | the counts of three different values add up to at most the number of values, exactly when every value is one of the three |
| Text.LowerIdempotent | charts.py:166 | lower-casing twice is lower-casing once |
| Text.StripIdempotent | bot.py:417 | stripping twice is stripping once |
| Text.StripPadded | bot.py:417 | stripping removes exactly the surrounding whitespace |
| Text.JoinSplit | bot.py:422 | the pieces of `split` joined with the separator give the input back |
| Text.SplitJoin | bot.py:422 | splitting a join of separator-free pieces gives the pieces back |
| Text.ParseNatToString | sheets.py:80 | `int(str(n)) == n` |
| Net.Session.Get | fetcher.py:117 | the reply to a GET is the next unused reply of the session's script, and the request is appended to the session's log |
| Net.Clock.Sleep | fetcher.py:125 | a `time.sleep` appends its seconds to the record of waits, in call order |
| Posts.SamePostIsIdentity | fetcher.py:56-60 | post equality looks only at `post_id`: it is reflexive, symmetric and transitive, equal posts hash alike, and posts differing only in other fields are equal |
| Posts.AdmitValid | fetcher.py:452-453 | storing a post under its id when the id is new keeps each id listed once and each post filed under its own id |
| Posts.AdmitAllKeeps | fetcher.py:451-454 | the merge loop never replaces a stored post, keeps the well-formedness of the store and only appends to its insertion order |
| Posts.AdmitAllKeys | fetcher.py:476-478 | after the merge loop the stored ids are exactly the old ids plus the ids of the posts the filter kept |
| Posts.AdmitAllFirst | fetcher.py:451-453 | a newly stored post is the first kept post of the batch carrying that id |
| Posts.ValuesCover | fetcher.py:526 | every stored post is among `all_posts.values()` |
| Posts.ValuesOnce | fetcher.py:526 | the values carry pairwise different ids and there are as many values as stored ids |
| ArcticShift.ToPosts | fetcher.py:136-149 | the records of a page become posts one for one, in order |
| ArcticShift.RetryFacts | fetcher.py:114-127 | one page makes between 1 and `max_retries + 1` attempts with the same parameters; every attempt but the last failed; the waits are 2, 4, ... seconds, one per failed attempt before the last; a page is read only from an answered reply, and `data` stays `None` only when all `max_retries + 1` attempts failed |
| ArcticShift.PagingKeeps | fetcher.py:100-161 | paging only appends to the request log, the waits and the collected posts |
| ArcticShift.PagingScoped | fetcher.py:104-110 | every request carries the call's subreddit, query, `after` date and `limit` |
| ArcticShift.PagingBounded | fetcher.py:103-115 | a call sends at most `max_pages * (max_retries + 1)` requests |
| ArcticShift.FailedPageStops | fetcher.py:129-130 | a page whose attempts all fail ends the search with the posts collected so far, after `max_retries + 1` identical requests and the backoff waits |
| ArcticShift.AnsweredPage | fetcher.py:132-159 | an answered listing appends its posts; a full page moves the `before` cursor to the last post's day and waits `rate_limit` before the next page, a short or empty one ends the search |
| ArcticShift.CursorFromLastPost | fetcher.py:151-157 | after a full page the next request's `before` is the day of that page's last post, and a short page then ends the search with both pages' posts |
| ArcticShift.AppendPosts | fetcher.py:136-149 | the append loop leaves the posts collected so far followed by the page's posts |
| ArcticShift.ArcticShiftFetcher.FetchPage | fetcher.py:114-127 | the retry loop returns the page, log and waits of the retry specification |
| ArcticShift.ArcticShiftFetcher.SearchSubreddit | fetcher.py:82-161 | the whole call returns the outcome, leaves the request log and the waits of the paging specification |
| RedditSearch.ToPosts | fetcher.py:250-263 | the children of a listing become posts one for one, in order |
| RedditSearch.Rotated | fetcher.py:215 | the rotation starting at the working endpoint index always names one of the two endpoints |
| RedditSearch.GetRetryBounded | fetcher.py:192-211 | `_get_with_retry` repeats the same request, at least once and at most `max_retries` times (never when `max_retries` is 0), and only adds waits |
| RedditSearch.TransportRaises | fetcher.py:195-210 | a connection error is not an `HTTPError`, so it escapes after one request and no wait |
| RedditSearch.SecondBlockGivesNone | fetcher.py:197-203 | a 403 or 429 waits 3 seconds and retries; a second one in a row gives up with `None` |
| RedditSearch.HttpErrorReraised | fetcher.py:204-210 | an HTTP error other than 403/429 on every attempt waits 2 seconds between attempts and re-raises after the last |
| RedditSearch.FallbackNothing | fetcher.py:216-221 | an endpoint that yields nothing passes the same request on to the next endpoint of the rotation |
| RedditSearch.FallbackBounded | fetcher.py:213-222 | the fallback sends at most two requests per endpoint and only appends to the logs |
| RedditSearch.FallbackScoped | fetcher.py:215-218 | every fallback request has the caller's parameters and goes to one of the endpoints with the caller's path |
| RedditSearch.FallbackIndex | fetcher.py:215-222 | the fallback starts at the working endpoint, remembers the endpoint that answered as the new working one, and keeps the index when none answered |
| RedditSearch.PagingKeeps | fetcher.py:227-270 | paging only appends to the request log, the waits and the posts, and keeps the endpoint index valid |
| RedditSearch.PagingBounded | fetcher.py:230-239 | a search sends at most `max_pages * 2 * len(ENDPOINTS)` requests |
| RedditSearch.PagingScoped | fetcher.py:231-236 | every request of a search carries its query, sort, time filter, limit and subreddit restriction, at one of the endpoints with the search's path |
| RedditSearch.FirstRequest | fetcher.py:228-239 | the first request goes to the working endpoint without an `after` token |
| RedditSearch.AppendPosts | fetcher.py:250-263 | the append loop leaves the posts collected so far followed by the page's posts |
| RedditSearch.RedditSearchFetcher.GetWithRetry | fetcher.py:192-211 | the retry loop returns the result, log and waits of its specification |
| RedditSearch.RedditSearchFetcher.SearchWithFallback | fetcher.py:213-222 | the fallback loop returns the result and leaves the working index, log and waits of its specification |
| RedditSearch.RedditSearchFetcher.Paginate | fetcher.py:227-270 | the paging loop returns the outcome and leaves the index, log and waits of the paging specification |
| RedditSearch.RedditSearchFetcher.Search | fetcher.py:224-270 | global search is the paging specification over `/search.json` without subreddit restriction |
| RedditSearch.RedditSearchFetcher.SearchSubreddit | fetcher.py:272-320 | subreddit search is the paging specification over `/r/{subreddit}/search.json` with `restrict_sr` on |
| Pullpush.ToPosts | fetcher.py:370-382 | the records of a page become posts one for one, in order |
| Pullpush.ErrorKeepsPosts | fetcher.py:358-364 | a transport error, an HTTP error or a body that does not decode ends the search after that one request, with the posts collected so far |
| Pullpush.MisshapenRaises | fetcher.py:361-366 | a decoded `null` or a body that is not a dict makes `data.get` raise outside the `try`, so the call raises |
| Pullpush.PageStep | fetcher.py:366-390 | an empty listing ends the search; a short one ends it with its posts; a full one appends its posts, moves `before` to one second before the last post's time (the old `before` when that time is missing) and waits `rate_limit` |
| Pullpush.PagingKeeps | fetcher.py:346-392 | paging only appends to the request log, the waits and the collected posts |
| Pullpush.PagingBounded | fetcher.py:348-359 | at most one request per page and at most `max_pages` pages, each with the call's query, `after` and size |
| Pullpush.AppendPosts | fetcher.py:370-382 | the append loop leaves the posts collected so far followed by the page's posts |
| Pullpush.PullpushFetcher.Search | fetcher.py:336-392 | the whole call, with the default window ending at `now` and starting 90 days earlier, returns the outcome and leaves the log and waits of the paging specification |
| MultiSource.ScopeFacts | fetcher.py:439-442 | the Arctic Shift scope keeps every hint in order, covers every default subreddit case-insensitively, adds only defaults, never adds a name whose lower-case form is already listed, and holds at most hints plus defaults |
| MultiSource.BuildScope | fetcher.py:439-442 | the loop builds exactly the scope list of the specification |
| MultiSource.MergeValid | fetcher.py:425-513 | `all_posts` stays well formed through every merge: each id once in insertion order, each post under its own id |
| MultiSource.MergeKeeps | fetcher.py:451-453 | later calls never replace a stored post and only extend the insertion order |
| MultiSource.MergeSound | fetcher.py:451-510 | every stored post is filed under its own id and was returned by some call and passed that call's date check |
| MultiSource.MergeComplete | fetcher.py:451-510 | every post a successful call returned and kept ends up stored under its id |
| MultiSource.MergeFirstSeen | fetcher.py:451-510 | first seen wins: the post stored under an id is the first kept post with that id in the first call, in plan order, that admitted one |
| MultiSource.RedditPostsRecent | fetcher.py:472-494 | a stored post that no archive call returned came from Reddit's own search and is not older than `after_ts` |
| MultiSource.NewestFacts | fetcher.py:525-526 | the result is sorted newest first, is a permutation of the stored posts, has one post per stored id and holds every stored post |
| MultiSource.NewestUnique | fetcher.py:526 | no two posts of the result share an id |
| MultiSource.MergeGrows | fetcher.py:496-515 | `len(all_posts)` never shrinks as calls are merged, so the added counts in the diagnostics are never negative |
| MultiSource.RaisedCount | fetcher.py:444-458 | the count of failed Arctic Shift calls never exceeds the number of calls |
| MultiSource.Messages | fetcher.py:435-523 | the progress callback receives exactly four messages when one is given and none otherwise |
| MultiSource.Absorb | fetcher.py:451-454 | the merge loop of one call is the admission function with that call's date filter |
| MultiSource.MultiSourceFetcher.ArcticOne | fetcher.py:447-459 | one Arctic Shift call runs the adapter as specified and merges its posts, or nothing when it raised |
| MultiSource.MultiSourceFetcher.ArcticRow | fetcher.py:446-459 | the keyword loop for one subreddit records one call per keyword, the merged store and the error count |
| MultiSource.MultiSourceFetcher.ArcticPhase | fetcher.py:444-459 | every keyword in every scope subreddit is searched in order; the store is the merge of those calls and the error count is the number that raised |
| MultiSource.MultiSourceFetcher.RedditOne | fetcher.py:473-494 | one Reddit search runs the adapter as specified on the quoted keyword and merges only its recent posts |
| MultiSource.MultiSourceFetcher.RedditRow | fetcher.py:485-494 | the keyword loop in one hint subreddit records one call per keyword and the merged store |
| MultiSource.MultiSourceFetcher.RedditGlobal | fetcher.py:472-481 | every keyword is searched globally in order and merged |
| MultiSource.MultiSourceFetcher.RedditPhase | fetcher.py:472-494 | every keyword globally, then every keyword in every hint subreddit, in order, merged into the store |
| MultiSource.MultiSourceFetcher.PullpushPhase | fetcher.py:504-513 | every keyword is searched on Pullpush from `after_ts`, in order, and merged |
| MultiSource.MultiSourceFetcher.FetchAll | fetcher.py:412-526 | the whole orchestration makes exactly the planned calls in order and returns the merged posts newest first, with the diagnostics and progress messages built from counts that only grow |
| Analyzer.PromptOf | analyzer.py:119-129 | the prompt carries the brand name, the subreddit and the score, the first 500 characters of the title and the first 1000 of the body, and "none known" when there are no competitors |
| Analyzer.LastOccurrence | analyzer.py:86 | `rfind` returns the last position before the bound where the separator occurs, or nothing when it occurs nowhere before it |
| Analyzer.IndexOf | analyzer.py:86 | the first position of a character, with no earlier occurrence; nothing exactly when the character is absent |
| Analyzer.NoKeyNoRequest | analyzer.py:64-65 | without an API key `_call_llm` sends nothing, sleeps nothing and returns `None` |
| Analyzer.LadderFacts | analyzer.py:78-109 | the retry loop sends the same prompt at most `max_retries` times; every attempt before the last was rate-limited or failed; a result comes from the last reply and only from a successful parse; waits are only appended |
| Analyzer.RateLimitBacksOff | analyzer.py:92-97 | a 429 on attempt `k` waits `5*(k+1)` seconds and tries again |
| Analyzer.HttpErrorGivesNone | analyzer.py:92-99 | any other HTTP error returns `None` after that one request |
| Analyzer.ParseFailureGivesNone | analyzer.py:82-102 | a body that is not JSON, a missing `choices[0].message.content`, or content that does not decode returns `None` at once |
| Analyzer.UnfenceNeedsNewline | analyzer.py:85-86 | a fenced reply without a newline makes `split("\n", 1)[1]` raise `IndexError`, so it yields nothing exactly then |
| Analyzer.UnfenceFenced | analyzer.py:85-86 | a reply fenced as three backticks, a tag line, a body and three closing backticks yields the stripped body |
| Analyzer.CleanUnfenced | analyzer.py:82-86 | a reply that does not start with a fence is only stripped |
| Analyzer.UnfenceUnclosed | analyzer.py:86 | without a closing fence everything after the first newline is kept, stripped |
| Analyzer.FromVerdict | analyzer.py:132-140 | a verdict gives an analysis exactly when it says relevant; missing fields default to "neutral", "general discussion", "" and no competitors, and present ones are kept |
| Analyzer.Found | analyzer.py:174 | every competitor reported is one of those given whose lower-case name occurs in the text, and no more are reported than given |
| Analyzer.AnyInIff | analyzer.py:152 | `any(term in text ...)` holds exactly when some term occurs in the text |
| Analyzer.CountInFacts | analyzer.py:164-165 | a word count is at most the number of words, zero exactly when no word occurs and full exactly when every word occurs |
| Analyzer.FoundIff | analyzer.py:174 | a competitor is reported exactly when it is one of those given and its lower-case name occurs in the text; no more are reported than given |
| Analyzer.KeywordFallbackFacts | analyzer.py:145-181 | the keyword fallback finds a post relevant exactly when a lower-cased product term occurs in its text or its subreddit is a hint, case-insensitively; then the theme is "general discussion", the summary the first 100 characters of the title, the sentiment one of three and the competitors exactly those named in the text |
| Analyzer.KeywordSentiment | analyzer.py:164-172 | only positive words give "positive" and only negative words give "negative" |
| Analyzer.RowOf | analyzer.py:207-223 | a result row carries the post's id, subreddit, permalink and UTC day, the analysis's sentiment, and the first 500 characters of the body |
| Analyzer.ResultsFacts | analyzer.py:199-223 | the rows are at most one per post, and a row is present exactly when it is the row of a post found relevant |
| Analyzer.ResultsGrow | analyzer.py:207 | rows are only appended: the rows of a prefix of the posts are a prefix of the rows |
| Analyzer.TicksFacts | analyzer.py:228-229 | over `N` posts the callback fires `N / 10` times, the `k`-th time after `10*(k+1)` posts with the total and the relevant count so far, which never decreases and never exceeds the posts done |
| Analyzer.BrandAnalyzer.CallLlm | analyzer.py:62-109 | the method returns the result, leaves the request log and the waits of the retry specification |
| Analyzer.BrandAnalyzer.AnalyzePost | analyzer.py:113-143 | the analysis is the LLM's verdict when it gives one and the keyword fallback otherwise, with the logs of one `_call_llm` |
| Analyzer.BrandAnalyzer.NoKeyUsesKeywords | analyzer.py:64-65 | without an API key every post gets the keyword fallback and no request or wait happens |
| Analyzer.BrandAnalyzer.ProcessPosts | analyzer.py:185-232 | the loop analyses every post in order and returns exactly the rows and callbacks of the specification |
| Charts.Replace | charts.py:166 | `str.replace` of one character leaves no occurrence of it when the replacement does not contain it, and introduces only characters of the replacement |
| Charts.ReplaceAbsent | charts.py:166 | replacing a character that does not occur changes nothing |
| Charts.SafeName | charts.py:164-166 | a sanitised name has no space, `&` or apostrophe and no upper-case letter |
| Charts.SafeNameFixed | charts.py:164-166 | a name already in lower case without those three characters is left as it is |
| Charts.SafeNameIdempotent | charts.py:164-166 | sanitising twice is sanitising once |
| Charts.PieOfEntries | charts.py:38-45 | each slice is a listed sentiment with its count, at least one, and its colour |
| Charts.PieOfCovers | charts.py:39-41 | every listed sentiment that occurs gets a slice |
| Charts.PieOfOrder | charts.py:39 | slices come in the listed order |
| Charts.PieOfSum | charts.py:38-45 | slice sizes add up to the counts of the listed sentiments |
| Charts.SentimentPieFacts | charts.py:35-45 | at most three slices, positive then negative then neutral, each present sentiment with its count and colour; the sizes add up to `len(results)` exactly when every sentiment is one of the three |
| Charts.SentimentSlices | charts.py:35-45 | the loop selects exactly the slices of the specification |
| Charts.SlicesFor | charts.py:39-45 | the loop over the sentiment order builds exactly the slices of the specification |
| Charts.SubredditPieNamed | charts.py:77-81 | at most `top_n` named slices labelled `r/{sub}`, each a different occurring subreddit with its count, in non-increasing order |
| Charts.SubredditPieLeftOut | charts.py:77-81 | a subreddit of the results without a slice of its own is left out only when `top_n > 0` slices are named; it occurs no more often than the smallest of them, and named slices of the same size are subreddits seen before it |
| Charts.SubredditPieTotal | charts.py:77-87 | the slices add up to `len(results)`, each is at least one, and an "Others" slice is appended exactly when some results fall outside the top subreddits |
| Charts.SubredditSlices | charts.py:77-87 | the method returns exactly the labels and sizes of the specification |
| Charts.WeekStartFacts | charts.py:125-127 | a week starts on the Monday at most six days before the date, and every day of that week has the same start |
| Charts.WeekTotalCount | charts.py:128 | with known sentiments, a week's three counts add up to its number of results |
| Charts.TrendNone | charts.py:130-131 | the trend is `None` exactly when there are no results |
| Charts.TrendMondays | charts.py:126-128 | every week of the trend starts on a Monday and holds at least one result |
| Charts.TrendAscending | charts.py:133 | the weeks are strictly ascending |
| Charts.TrendCovers | charts.py:124-128 | every result falls in one of the weeks |
| Charts.TrendTotal | charts.py:124-136 | the weekly counts add up to `len(results)` |
| Charts.Bucket | charts.py:120-128 | the bucketing loop succeeds exactly when every sentiment is one of the three (otherwise `KeyError`), keys the weeks in first-seen order with the counts of the specification, and is empty exactly for no results |
| Charts.SentimentTrend | charts.py:112-136 | the method returns exactly the trend of the specification: `None`, `KeyError` or the ascending weeks |
| Sheets.HeaderRow | sheets.py:25-28 | the header row has one text cell per name of `DATA_HEADERS`, in that order |
| Sheets.DataRows | sheets.py:64-77 | one row per result, in order, the `i`-th being the row of the `i`-th result |
| Sheets.BuildRows | sheets.py:64-77 | the append loop builds exactly the data rows |
| Sheets.ColourFormats | sheets.py:82-91 | the colour loop issues exactly the colour formats of the specification |
| Sheets.DataSheetOps | sheets.py:58-91 | the data-sheet writes are the header, its grey bold format, the data block and the colour formats, in that order |
| Sheets.DataRowColumns | sheets.py:66-77 | every row has ten values, and each is the value its header column names |
| Sheets.SentimentCapitalised | sheets.py:70 | the sentiment cell is the sentiment with its first letter upper-cased and the rest lower-cased |
| Sheets.NatToStringInjective | sheets.py:91 | two row numbers print alike exactly when they are equal |
| Sheets.SentimentCellInjective | sheets.py:91 | distinct results colour distinct cells `D{i + 2}` |
| Sheets.DataRangeEnd | sheets.py:79-80 | the data range is `A2:J` followed by the digits of `n + 1` |
| Sheets.SentimentColorKnown | sheets.py:83-90 | a colour exists exactly for positive, negative and neutral, and the three colours differ |
| Sheets.ColourOpsPlain | sheets.py:88-91 | colour formats never set bold text, and there is at most one per result |
| Sheets.ColourOpsFor | sheets.py:88-91 | cell `D{i + 2}` gets colour `c` exactly when result `i` exists and its sentiment maps to `c` |
| Sheets.DataSheetLayout | sheets.py:58-91 | the header and its format come first; the data block follows exactly when there are results; no other write is a data update |
| Sheets.Themes | sheets.py:113 | the theme column lists each result's theme, in order |
| Sheets.CountRows | sheets.py:125-131 | one `[prefix + key, count]` row per `most_common` entry, in order |
| Sheets.BuildSummary | sheets.py:109-133 | the method returns exactly the summary rows of the specification |
| Sheets.AppendCounts | sheets.py:125-131 | the append loop adds exactly the count rows after the rows so far |
| Sheets.SummaryLength | sheets.py:115-133 | the summary has `10 + min(10, #subreddits) + min(10, #themes)` rows |
| Sheets.SummaryLayout | sheets.py:115-129 | the fixed heading rows, the blank row and the `Top Subreddits` and `Top Themes` headers sit where the code puts them |
| Sheets.SummarySentiments | sheets.py:110-121 | positive, negative and neutral add up to at most the total, which is `len(results)`, with equality exactly when every sentiment is one of the three |
| Sheets.TopRows | sheets.py:125-131 | at most ten count rows, each naming a different occurring value with its count, in non-increasing order of count, their counts adding up to at most the number of values |
| Sheets.TopRowsLeftOut | sheets.py:125-131 | a value without a row of its own is left out only when all ten rows are taken, and it occurs no more often than the last row counts |
| Sheets.TopRowsTies | sheets.py:125-131 | rows counting as often as a value left out name values that occur before it |
| Sheets.SummarySections | sheets.py:125-131 | the subreddit section is the top-ten rows of the subreddit column and the theme section the top-ten rows of the theme column |
| Bot.KeepItems | bot.py:421-423 | the comprehension keeps at most one item per piece |
| Bot.KeepItemsAreItems | bot.py:421-423 | from comma-free pieces, every kept item is non-empty, stripped and comma-free |
| Bot.StripNoComma | bot.py:422 | stripping a comma-free piece leaves it comma-free |
| Bot.ParseItemsAreItems | bot.py:421-423 | every item parsed from an answer is non-empty, has no surrounding whitespace and no comma |
| Bot.SplitPadded | bot.py:422 | leading whitespace only widens the first piece of `split(",")` |
| Bot.KeepItemsCons | bot.py:421-423 | the comprehension works piece by piece: its result on a longer list extends its result on the first piece |
| Bot.KeepPaddedItem | bot.py:421-423 | a piece made of padding and one item keeps just that item, and a blank piece is dropped |
| Bot.ParsePaddedShow | bot.py:421-423 | parsing padding followed by a `", "`-joined list of items gives the items back |
| Bot.ParseShow | bot.py:421-423 | parsing a list of items shown with `", ".join` gives the list back |
| Bot.ShowTrimmed | bot.py:421-423 | a `", "`-joined list of items has no surrounding whitespace and is non-empty when the list is |
| Bot.ShowNotSkip | bot.py:417-418 | a shown list of two or more items never reads "skip", in any case |
| Bot.ParseAnswerShow | bot.py:416-423 | answering a list question with a shown list gives that list back, except the single item "skip" in any case, which gives no items |
| Bot.ListAnswerItems | bot.py:416-423 | every item of a list answer is non-empty, trimmed and comma-free; "skip" gives none |
| Bot.Remove | bot.py:570 | after removing a name the list holds exactly the other names |
| Bot.RemoveKeepsDistinct | bot.py:570 | removing a name keeps the names pairwise distinct |
| Bot.PutValid | bot.py:483-485 | storing a config keeps the brands well formed and the existing names in order, sets that name's config and keeps every other brand's |
| Bot.DeleteValid | bot.py:570 | `del` keeps the brands well formed, removes the name and keeps every other brand's config |
| Bot.FirstMatchFacts | bot.py:140-145 | the lookup finds nothing exactly when no stored name equals the query ignoring case; otherwise it gives the first such name in dict order |
| Bot.FirstMatchIn | bot.py:140-145 | a match is one of the stored names |
| Bot.FindBrand | bot.py:140-145 | the lookup loop with early exit returns exactly the first case-insensitive match |
| Bot.ResearchConfig | bot.py:138-147 | `/research` finds a config exactly when some stored name matches; the copy is that brand's config with `name` set to the stored spelling |
| Bot.EditFieldChoices | bot.py:593-600 | only "1" to "6" select a field, and different choices select different fields |
| Bot.EditSelectFacts | bot.py:656-666 | a choice outside `EDIT_FIELDS` keeps the state and stores nothing; a valid one stores the field; brands never change |
| Bot.EditValueFacts | bot.py:696-720 | both pending entries are always cleared and the dialogue ends; with a truthy brand name, a field and a non-empty config only that field of that brand changes, otherwise the brands are untouched |
| Bot.EditedValueFacts | bot.py:714-717 | category and description are stored as the stripped answer, the other fields as its parsed items |
| Bot.DeleteConfirmFacts | bot.py:554-578 | the pending name is always cleared and the dialogue ends; the brand is removed exactly when the name is truthy, the answer reads `YES` and the brand still exists, every other brand being kept |
| Bot.AddDescriptionFacts | bot.py:476-499 | the pending record is always cleared; a record holding a name is stored under it without `name` and with the stripped description, every other brand being kept; otherwise the brands are untouched |
| Bot.StoredFacts | bot.py:478-485 | the stored record has no `name`, has the description it is given and keeps every other answer |
| Bot.StoredRecord | bot.py:387-485 | a full record is stored with every key but `name`: the category, the four lists and the description |
| Bot.AnswerAllPending | bot.py:387-473 | the questions before the description only build the pending record, leaving the brands alone |
| Bot.AddDialogueStores | bot.py:387-500 | a whole `/research_add` dialogue stores the new config under the stripped name and clears the pending record |
| Bot.RecordName | bot.py:398-404 | the pending record holds the name that was answered |
| Bot.DeleteUnknownBrand | bot.py:521-538 | `/research_delete` with a query that matches no brand ends at once and changes nothing |
| Bot.DeleteDialogue | bot.py:511-578 | `/research_delete` of a matched brand followed by `yes` deletes exactly that brand and clears the pending name |
| Bot.Bullets | bot.py:228-229 | one `- {err}` line per error, in order |
| Bot.JoinSnoc | bot.py:229 | appending `"\n" + line` to a joined message is joining one more line |
| Bot.AppendBullets | bot.py:228-229 | the append loop adds exactly one bullet line per error shown |
| Bot.NoPostsMessage | bot.py:223-231 | the message is the report lines joined with newlines |
| Bot.NoPostsLinesShape | bot.py:224-231 | the header first; nothing more exactly when there are no errors; otherwise a blank line, the title, the first `min(5, n)` errors as bullets, and `... and k more` last exactly when there are more than 5 |
| Bot.MoreCount | bot.py:230-231 | the count on the last line reads back as `len(errors) - 5` |
| Bot.NoNewlineInFixedLines | bot.py:224-231 | the fixed lines have no newline of their own |
| Bot.NoPostsSplit | bot.py:223-231 | when the brand and errors have no newline, splitting the message on newlines gives back its lines |
| Bot.NoPostsReportNeverSent | bot.py:225-231 | as written, every run without posts ends in the `Research failed` message instead of the report |
| Bot.NoPostsReport | bot.py:223-232 | the corrected report is always sent, with the message built from the collected errors |

## Left out

- **HTTP and JSON.** HTTP transport and JSON decoding are abstract:
  - A reply is a status, a transport failure, or a body.
  - A body is not JSON, `null`, or a document of the endpoint's shape.
  - Missing keys read as Python's `.get` defaults.
  - Python truthiness of arbitrary JSON values is modelled only where the code tests it: the `after` token, `created_utc`, and the LLM verdict's `relevant` (analyzer.py:133), which the decoder yields as its truth value.
- **The LLM reply.** `json.loads` of the LLM's content is a function parameter of `BrandAnalyzer`.
- Analyzer.FromVerdict: the decoded verdict's fields are typed. The `decode` parameter is taken to yield the truthiness of `relevant` (so `"false"` or `1` arrive as `Some(true)`). A `sentiment`, `theme` or `summary` that is not a string, and a `competitor_mentions` that is not a list of strings, are not represented; for example, analyzer.py:222 would join a string `competitor_mentions` character by character.
- **The prompt.** The text of `COMBINED_PROMPT` is not modelled, only the values filled into it.
- **Waits.** `time.sleep` is not real time: waits are whole seconds in a log.
- MultiSource.MultiSourceFetcher.FetchAll: does not state the whole run's waits, because only the Reddit phase carries the clock in its log (`RedditState.slept`); each Arctic Shift and PullPush call states its own waits (`ArcticShift.ArcticShiftFetcher.SearchSubreddit`, `Pullpush.PullpushFetcher.Search`), but the phases do not concatenate them.
- Analyzer.BrandAnalyzer.ProcessPosts: does not record the 2.5-second pause after each post (analyzer.py:226), because a fractional wait does not fit the whole-second log.
- **Numbers and dates.**
  - Timestamps are whole seconds and dates are day numbers. The float `created_utc`, `datetime` and `strftime` are not modelled.
  - The current time is a parameter.
  - Percentages and other float arithmetic are not modelled (bot.py:321-323, charts.py:42).
- Text.Lower: maps ASCII letters only, where Python's `lower` also maps non-ASCII letters; the same holds for Text.Upper and Text.Capitalize.
- Text.Strip: removes ASCII whitespace only, where Python's `strip` also removes non-ASCII whitespace.
- **Post fields.** A post's `selftext` that is JSON `null` is not modelled.
- **Logging** is not modelled.
- **The API key.** The key's fallback to the configured `GROQ_API_KEY` is resolved before the model: the class receives the key.
- **Output services.**
  - Plotting and image files (matplotlib) are not modelled.
  - The Google Sheets client is not modelled: authorisation, spreadsheet creation, sharing, the summary sheet's own writes and formats.
  - The two `Sheets` writes become values.
- **Telegram.** Telegram, the async plumbing, task cancellation and the handler registration in `main` are not modelled.
  - Every reply text except the no-posts report is left out.
  - `/start`, `/stop`, `/research_list` and the `*_cancel` handlers are not modelled.
- **The brands file.** `load_brands` and `save_brands` are not modelled: the brands file is a value.
  - `context.user_data` is a record of optional entries.
  - Config keys are an enumeration.
  - An exception escaping a handler is the state `Raised`.
- **`config.py`** is left out apart from the constants the model uses. `LLM_PROVIDERS` is not used by the analyzer.
- **Features with no implementation.** No code implements LLM batching, a provider chain with rate-limit flags, a circuit breaker, a connectivity check, sentiment normalisation or a final date filter over all posts, so none is modelled.
- **Progress interval.** The progress callback fires every 10 posts as analyzer.py:228 does. `test_progress.py` expects an interval of 25; the model follows the code.

## Findings

| source | as written | input that shows it | evidently intended | confidence | as-written member | corrected member |
|---|---|---|---|---|---|---|
| bot.py:225 | the no-posts branch reads `fetcher.errors`, but `MultiSourceFetcher.__init__` (fetcher.py:407-410) sets only `arctic`, `reddit` and `pullpush`, so the read raises `AttributeError` and the pipeline's handler (bot.py:363-365) sends `Research failed: 'MultiSourceFetcher' object has no attribute 'errors'` | any research run whose fetch returns no posts | the message "No posts found for {brand} in the last 3 months." followed by up to five source errors and "... and k more" | not executed | Bot.NoPostsReportNeverSent | Bot.NoPostsReport |
