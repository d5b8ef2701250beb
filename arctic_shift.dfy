/**
  `ArcticShiftFetcher.search_subreddit`: full-text search of one subreddit
  in the Arctic Shift archive, newest first, one page per request, paging
  backwards with a `before` date taken from the last post of each page.
  Each page is tried up to `max_retries + 1` times, waiting `2*(attempt+1)`
  seconds between attempts. Dates are day numbers (days since 1970-01-01).
 */
module ArcticShift {
  import opened Wrappers
  import opened Net
  import opened Posts

  const BaseUrl: string := "https://arctic-shift.photon-reddit.com/api/posts/search"

  const SecondsPerDay: int := 86400

  /** The parameters of one page request; `sort` is always "desc". */
  datatype Query = Query(subreddit: string, query: string, after: int, limit: int, before: Option<int>)

  /**
    A decoded reply: a dict whose "data" list holds the posts (a missing
    key reads as the empty list), or any other shape, on which the
    `.get` calls raise.
   */
  datatype Body = Listing(items: seq<RawPost>) | Misshapen

  /** What the retry loop leaves in `data`: a decoded document, or `None`. */
  datatype Page = Data(body: Body) | NoData

  /** The retry loop's run: the page, the session's request log and the waits. */
  datatype Fetch = Fetch(page: Page, sent: seq<Query>, waits: seq<int>)

  /** The arguments that stay fixed during one `search_subreddit` call. */
  datatype Search = Search(
    subreddit: string, query: string, after: int, limit: int,
    maxPages: int, maxRetries: nat, rateLimit: int)

  /** The day a timestamp falls on (`fromtimestamp(ts).strftime("%Y-%m-%d")`). */
  function DayOf(ts: int): int {
    ts / SecondsPerDay
  }

  /** `https://reddit.com/r/{subreddit}/comments/{id}` */
  function Permalink(subreddit: string, id: string): string {
    "https://reddit.com/r/" + subreddit + "/comments/" + id
  }

  /** The post built from one archive record (fetcher.py:137-149). */
  function ToPost(d: RawPost): RedditPost {
    var sub := Field(d.subreddit, "");
    var id := Field(d.id, "");
    RedditPost(id, Field(d.title, ""), Field(d.selftext, ""), sub,
               Field(d.author, "[deleted]"), Field(d.url, ""),
               Permalink(sub, id),
               Field(d.score, 0), Field(d.numComments, 0), Field(d.createdUtc, 0))
  }

  function ToPosts(ds: seq<RawPost>): (ps: seq<RedditPost>)
    ensures |ps| == |ds| && forall i :: 0 <= i < |ds| ==> ps[i] == ToPost(ds[i])
  {
    seq(|ds|, i requires 0 <= i < |ds| => ToPost(ds[i]))
  }

  /** A GET that ends the retry loop: no transport error, no HTTP error, a body that decodes. */
  predicate Answered(r: Reply<Body>) {
    r.Response? && !HttpError(r.status) && !r.body.NotJson?
  }

  /** The page an answered GET yields: JSON `null` leaves `data` at `None`. */
  function PageOf(r: Reply<Body>): Page
    requires Answered(r)
  {
    if r.body.Null? then NoData else Data(r.body.doc)
  }

  /**
    The retry loop (fetcher.py:114-127) for the request `q` from attempt
    `attempt` on, with the session's log `sent` and `waits` slept so far.
   */
  function Retry(s: seq<Reply<Body>>, q: Query, attempt: nat, maxRetries: nat,
                 sent: seq<Query>, waits: seq<int>): Fetch
    requires attempt <= maxRetries
    decreases maxRetries - attempt
  {
    var r := ReplyAt(s, |sent|);
    if Answered(r) then Fetch(PageOf(r), sent + [q], waits)
    else if attempt < maxRetries then
      Retry(s, q, attempt + 1, maxRetries, sent + [q], waits + [2 * (attempt + 1)])
    else Fetch(NoData, sent + [q], waits)
  }

  function QueryFor(a: Search, before: Option<int>): Query {
    Query(a.subreddit, a.query, a.after, a.limit, before)
  }

  /** The created time of a record, 0 when missing. */
  function CreatedOf(d: RawPost): int {
    Field(d.createdUtc, 0)
  }

  /** A page that carries on the search: a non-empty listing of at least `limit` posts. */
  predicate Full(p: Page, limit: int) {
    p.Data? && p.body.Listing? && |p.body.items| > 0 && |p.body.items| >= limit
  }

  /** The `before` date for the next request: the day of the page's last post. */
  function Cursor(items: seq<RawPost>): Option<int>
    requires |items| > 0
  {
    Some(DayOf(CreatedOf(items[|items| - 1])))
  }

  /**
    How the search ends on a page that does not carry on: no data or an
    empty listing returns what was collected, a short listing returns it
    with the page's posts added, a misshapen body raises.
   */
  function Ending(p: Page, acc: seq<RedditPost>): Fetched {
    match p
    case NoData => Returned(acc)
    case Data(Misshapen) => Raised
    case Data(Listing(items)) => Returned(acc + ToPosts(items))
  }

  /**
    The paging loop (fetcher.py:103-161) from page `page` on, with the
    cursor `before`, the posts `acc` collected, and `sent`/`waits` so far.
   */
  function Paging(a: Search, page: int, before: Option<int>, s: seq<Reply<Body>>,
                  acc: seq<RedditPost>, sent: seq<Query>, waits: seq<int>): Run<Query>
    decreases a.maxPages - page
  {
    if page >= a.maxPages then Run(Returned(acc), sent, waits)
    else
      var f := Retry(s, QueryFor(a, before), 0, a.maxRetries, sent, []);
      if Full(f.page, a.limit) then
        var items := f.page.body.items;
        Paging(a, page + 1, Cursor(items), s, acc + ToPosts(items), f.sent, waits + f.waits + [a.rateLimit])
      else Run(Ending(f.page, acc), f.sent, waits + f.waits)
  }

  /** A whole `search_subreddit` call on the script `s`, after the requests `sent`. */
  function SearchRun(a: Search, s: seq<Reply<Body>>, sent: seq<Query>): Run<Query> {
    Paging(a, 0, None, s, [], sent, [])
  }

  // ---------------------------------------------------------------------
  // What the loops promise
  // ---------------------------------------------------------------------

  /** The waits after `n` failed attempts from `attempt` on: `2*(attempt+1)`, `2*(attempt+2)`, ... */
  function Backoffs(attempt: nat, n: nat): (r: seq<int>)
    ensures |r| == n
  {
    seq(n, j requires 0 <= j < n => 2 * (attempt + j + 1))
  }

  /**
    The retry loop makes between one and `max_retries + 1 - attempt` GETs of
    the same request; every GET but the last failed; it slept `2*(attempt+1)`
    seconds after each failed GET but the last; and it ends with the last
    reply's page, or with no data after the final attempt.
   */
  lemma {:induction false} RetryFacts(s: seq<Reply<Body>>, q: Query, attempt: nat, maxRetries: nat,
                                      sent: seq<Query>, waits: seq<int>)
    requires attempt <= maxRetries
    ensures var f := Retry(s, q, attempt, maxRetries, sent, waits);
      var k := |f.sent| - |sent|;
      1 <= k <= maxRetries + 1 - attempt
      && f.sent == sent + Repeat(q, k)
      && (forall i :: |sent| <= i < |f.sent| - 1 ==> !Answered(ReplyAt(s, i)))
      && f.waits == waits + Backoffs(attempt, k - 1)
      && (Answered(ReplyAt(s, |f.sent| - 1)) ==> f.page == PageOf(ReplyAt(s, |f.sent| - 1)))
      && (!Answered(ReplyAt(s, |f.sent| - 1)) ==> f.page == NoData && k == maxRetries + 1 - attempt)
    decreases maxRetries - attempt
  {
    if !Answered(ReplyAt(s, |sent|)) && attempt < maxRetries {
      var sent1 := sent + [q];
      var w := waits + [2 * (attempt + 1)];
      RetryFacts(s, q, attempt + 1, maxRetries, sent1, w);
      var f := Retry(s, q, attempt, maxRetries, sent, waits);
      assert f == Retry(s, q, attempt + 1, maxRetries, sent1, w);
      var k := |f.sent| - |sent|;
      assert sent1 + Repeat(q, k - 1) == sent + Repeat(q, k);
      assert [2 * (attempt + 1)] + Backoffs(attempt + 1, k - 2) == Backoffs(attempt, k - 1);
    } else {
      assert Repeat(q, 1) == [q];
      assert Backoffs(attempt, 0) == [];
    }
  }

  /**
    Posts collected on earlier pages are kept unless an exception escapes,
    and requests and waits are only ever appended.
   */
  lemma {:induction false} PagingKeeps(a: Search, page: int, before: Option<int>, s: seq<Reply<Body>>,
                                       acc: seq<RedditPost>, sent: seq<Query>, waits: seq<int>)
    ensures var run := Paging(a, page, before, s, acc, sent, waits);
      sent <= run.sent && waits <= run.waits
      && (run.outcome.Returned? ==> acc <= run.outcome.posts)
    decreases a.maxPages - page
  {
    if page < a.maxPages {
      var f := Retry(s, QueryFor(a, before), 0, a.maxRetries, sent, []);
      RetryFacts(s, QueryFor(a, before), 0, a.maxRetries, sent, []);
      if Full(f.page, a.limit) {
        var items := f.page.body.items;
        PagingKeeps(a, page + 1, Cursor(items), s, acc + ToPosts(items), f.sent, waits + f.waits + [a.rateLimit]);
      }
    }
  }

  /** Every request is for the same subreddit, query, `after` date and `limit`. */
  lemma {:induction false} PagingScoped(a: Search, page: int, before: Option<int>, s: seq<Reply<Body>>,
                                        acc: seq<RedditPost>, sent: seq<Query>, waits: seq<int>)
    ensures var run := Paging(a, page, before, s, acc, sent, waits);
      |sent| <= |run.sent|
      && forall i :: |sent| <= i < |run.sent| ==>
        run.sent[i].subreddit == a.subreddit && run.sent[i].query == a.query
        && run.sent[i].after == a.after && run.sent[i].limit == a.limit
    decreases a.maxPages - page
  {
    if page < a.maxPages {
      var q := QueryFor(a, before);
      var f := Retry(s, q, 0, a.maxRetries, sent, []);
      RetryFacts(s, q, 0, a.maxRetries, sent, []);
      assert forall i :: |sent| <= i < |f.sent| ==> f.sent[i] == q;
      if Full(f.page, a.limit) {
        var items := f.page.body.items;
        var run := Paging(a, page + 1, Cursor(items), s, acc + ToPosts(items), f.sent, waits + f.waits + [a.rateLimit]);
        PagingScoped(a, page + 1, Cursor(items), s, acc + ToPosts(items), f.sent, waits + f.waits + [a.rateLimit]);
        PagingKeeps(a, page + 1, Cursor(items), s, acc + ToPosts(items), f.sent, waits + f.waits + [a.rateLimit]);
        forall i | |sent| <= i < |f.sent| ensures run.sent[i] == q {
          assert run.sent[i] == f.sent[i];
        }
      }
    }
  }

  /** At most `max_pages` pages of at most `max_retries + 1` requests each. */
  lemma {:induction false} PagingBounded(a: Search, page: int, before: Option<int>, s: seq<Reply<Body>>,
                                         acc: seq<RedditPost>, sent: seq<Query>, waits: seq<int>)
    requires page <= a.maxPages
    ensures |Paging(a, page, before, s, acc, sent, waits).sent| <= |sent| + (a.maxPages - page) * (a.maxRetries + 1)
    decreases a.maxPages - page
  {
    if page < a.maxPages {
      var f := Retry(s, QueryFor(a, before), 0, a.maxRetries, sent, []);
      RetryFacts(s, QueryFor(a, before), 0, a.maxRetries, sent, []);
      MulStep(a.maxPages - (page + 1), a.maxRetries + 1);
      if Full(f.page, a.limit) {
        var items := f.page.body.items;
        PagingBounded(a, page + 1, Cursor(items), s, acc + ToPosts(items), f.sent, waits + f.waits + [a.rateLimit]);
      }
    }
  }

  lemma MulStep(x: nat, r: nat)
    ensures (x + 1) * r == x * r + r && x * r >= 0
  {
  }

  /**
    A page whose every attempt fails ends the search with the posts of the
    earlier pages, after `max_retries + 1` requests and the waits 2, 4, ...
   */
  lemma FailedPageStops(a: Search, page: int, before: Option<int>, s: seq<Reply<Body>>,
                        acc: seq<RedditPost>, sent: seq<Query>, waits: seq<int>)
    requires page < a.maxPages
    requires forall i :: |sent| <= i <= |sent| + a.maxRetries ==> !Answered(ReplyAt(s, i))
    ensures Paging(a, page, before, s, acc, sent, waits)
         == Run(Returned(acc), sent + Repeat(QueryFor(a, before), a.maxRetries + 1),
                waits + Backoffs(0, a.maxRetries))
  {
    RetryFacts(s, QueryFor(a, before), 0, a.maxRetries, sent, []);
    var f := Retry(s, QueryFor(a, before), 0, a.maxRetries, sent, []);
    assert !Answered(ReplyAt(s, |f.sent| - 1));
  }

  /** A page answered at the first attempt with a listing, and what the search does next. */
  lemma AnsweredPage(a: Search, page: int, before: Option<int>, s: seq<Reply<Body>>,
                     acc: seq<RedditPost>, sent: seq<Query>, waits: seq<int>, items: seq<RawPost>)
    requires page < a.maxPages
    requires Answered(ReplyAt(s, |sent|)) && ReplyAt(s, |sent|).body == Doc(Listing(items))
    ensures var sent' := sent + [QueryFor(a, before)];
      Paging(a, page, before, s, acc, sent, waits)
         == if Full(Data(Listing(items)), a.limit)
            then Paging(a, page + 1, Cursor(items), s, acc + ToPosts(items), sent', waits + [a.rateLimit])
            else Run(Ending(Data(Listing(items)), acc), sent', waits)
  {
    assert waits + [] == waits;
  }

  /**
    The cursor: after a full page, the next request asks for posts before
    the day of that page's last post, and a short page after it ends the
    search with both pages' posts appended in order.
   */
  lemma CursorFromLastPost(a: Search, page: int, before: Option<int>, s: seq<Reply<Body>>,
                           acc: seq<RedditPost>, sent: seq<Query>, waits: seq<int>,
                           items1: seq<RawPost>, items2: seq<RawPost>)
    requires page + 2 <= a.maxPages && 0 < |items2| < a.limit == |items1|
    requires Answered(ReplyAt(s, |sent|)) && ReplyAt(s, |sent|).body == Doc(Listing(items1))
    requires Answered(ReplyAt(s, |sent| + 1)) && ReplyAt(s, |sent| + 1).body == Doc(Listing(items2))
    ensures Paging(a, page, before, s, acc, sent, waits)
         == Run(Returned(acc + ToPosts(items1) + ToPosts(items2)),
                sent + [QueryFor(a, before), QueryFor(a, Cursor(items1))], waits + [a.rateLimit])
  {
    var sent1 := sent + [QueryFor(a, before)];
    assert Full(Data(Listing(items1)), a.limit);
    AnsweredPage(a, page, before, s, acc, sent, waits, items1);
    AnsweredPage(a, page + 1, Cursor(items1), s, acc + ToPosts(items1), sent1, waits + [a.rateLimit], items2);
    assert sent1 + [QueryFor(a, Cursor(items1))] == sent + [QueryFor(a, before), QueryFor(a, Cursor(items1))];
  }

  /** `for d in results: posts.append(RedditPost(...))` */
  method AppendPosts(posts: seq<RedditPost>, results: seq<RawPost>) returns (r: seq<RedditPost>)
    ensures r == posts + ToPosts(results)
  {
    r := posts;
    for i := 0 to |results|
      invariant r == posts + ToPosts(results[..i])
    {
      assert results[..i + 1] == results[..i] + [results[i]];
      r := r + [ToPost(results[i])];
    }
    assert results[..|results|] == results;
  }

  class ArcticShiftFetcher {
    const session: Session<Query, Body>
    const rateLimit: int

    /** `ArcticShiftFetcher(rate_limit)`, its session answering with `replies`. */
    constructor (replies: seq<Reply<Body>>, rateLimit: int)
      ensures fresh(session) && session.script == replies && session.sent == []
      ensures this.rateLimit == rateLimit
    {
      session := new Session(replies);
      this.rateLimit := rateLimit;
    }

    /** One page: up to `max_retries + 1` GETs of the same request. */
    method FetchPage(q: Query, maxRetries: nat, clock: Clock) returns (p: Page)
      modifies session, clock
      ensures var f := Retry(session.script, q, 0, maxRetries, old(session.sent), []);
        p == f.page && session.sent == f.sent && clock.slept == old(clock.slept) + f.waits
    {
      var attempt := 0;
      ghost var waits: seq<int> := [];
      while true
        invariant attempt <= maxRetries
        invariant clock.slept == old(clock.slept) + waits
        invariant Retry(session.script, q, 0, maxRetries, old(session.sent), [])
               == Retry(session.script, q, attempt, maxRetries, session.sent, waits)
        decreases maxRetries - attempt
      {
        var reply := session.Get(q);
        if Answered(reply) {
          p := PageOf(reply);
          return;
        }
        if attempt < maxRetries {
          clock.Sleep(2 * (attempt + 1));
          waits := waits + [2 * (attempt + 1)];
        } else {
          p := NoData;
          return;
        }
        attempt := attempt + 1;
      }
    }

    /** `search_subreddit(subreddit, query, after_date, limit, max_pages, max_retries)` */
    method SearchSubreddit(subreddit: string, query: string, after: int, limit: int,
                           maxPages: int, maxRetries: nat, clock: Clock) returns (r: Fetched)
      modifies session, clock
      ensures var run := SearchRun(Search(subreddit, query, after, limit, maxPages, maxRetries, rateLimit),
                                   session.script, old(session.sent));
        r == run.outcome && session.sent == run.sent && clock.slept == old(clock.slept) + run.waits
    {
      ghost var a := Search(subreddit, query, after, limit, maxPages, maxRetries, rateLimit);
      var posts: seq<RedditPost> := [];
      var before: Option<int> := None;
      var page := 0;
      ghost var waits: seq<int> := [];
      while page < maxPages
        invariant SearchRun(a, session.script, old(session.sent))
               == Paging(a, page, before, session.script, posts, session.sent, waits)
        invariant clock.slept == old(clock.slept) + waits
        decreases maxPages - page
      {
        var q := Query(subreddit, query, after, limit, before);
        ghost var f := Retry(session.script, q, 0, maxRetries, session.sent, []);
        ghost var run := Paging(a, page, before, session.script, posts, session.sent, waits);
        assert run == if Full(f.page, limit)
          then Paging(a, page + 1, Cursor(f.page.body.items), session.script, posts + ToPosts(f.page.body.items),
                      f.sent, waits + f.waits + [rateLimit])
          else Run(Ending(f.page, posts), f.sent, waits + f.waits);
        ghost var slept := clock.slept;
        var data := FetchPage(q, maxRetries, clock);
        assert clock.slept == old(clock.slept) + (waits + f.waits) by {
          assert clock.slept == slept + f.waits;
        }
        waits := waits + f.waits;
        if data.NoData? {
          return Returned(posts);
        }
        if data.body.Misshapen? {
          return Raised;
        }
        var results := data.body.items;
        if |results| == 0 {
          assert posts + ToPosts(results) == posts;
          return Returned(posts);
        }
        posts := AppendPosts(posts, results);
        before := Some(DayOf(CreatedOf(results[|results| - 1])));
        if |results| < limit {
          return Returned(posts);
        }
        clock.Sleep(rateLimit);
        assert clock.slept == old(clock.slept) + (waits + [rateLimit]);
        waits := waits + [rateLimit];
        page := page + 1;
      }
      r := Returned(posts);
    }
  }
}
