/**
  `RedditSearchFetcher`: Reddit's own search JSON endpoints. A request is
  tried at most `max_retries` times (`_get_with_retry`); a request that
  gets nothing is tried at the other endpoint, starting from the one that
  last worked (`_search_with_fallback`); a search pages through results
  with the `after` token Reddit returns (`search`, `search_subreddit`).
 */
module RedditSearch {
  import opened Wrappers
  import opened Net
  import opened Posts

  const Endpoints: seq<string> := ["https://www.reddit.com", "https://old.reddit.com"]

  /** `len(ENDPOINTS)` */
  const EndpointCount: nat := 2

  /** The query string of a search request; `type` is always "link". */
  datatype Params = Params(q: string, sort: string, timeFilter: string, limit: int,
                           restrictSr: bool, after: Option<string>)

  /** A GET of `ENDPOINTS[endpoint] + path` with the query string `params`. */
  datatype Request = Request(endpoint: nat, path: string, params: Params)

  /** The URL a request goes to. */
  function Url(rq: Request): string
    requires rq.endpoint < EndpointCount
  {
    Endpoints[rq.endpoint] + rq.path
  }

  /**
    A decoded reply: a dict whose `data.children` holds the posts (each
    child's "data" record, a missing key reading as empty) and whose
    `data.after` is the next-page token, or any other shape, on which the
    `.get` calls raise.
   */
  datatype Body = Listing(children: seq<RawPost>, after: Option<string>) | Misshapen

  /** What `_get_with_retry` and `_search_with_fallback` end with. */
  datatype Got = Data(body: Body) | Nothing | Raises

  /** A run of `_get_with_retry`: its result, the session's request log and the clock's log. */
  datatype GetRun = GetRun(result: Got, sent: seq<Request>, waits: seq<int>)

  /** A run of `_search_with_fallback`, with the working endpoint index it leaves. */
  datatype FallbackRun = FallbackRun(result: Got, idx: nat, sent: seq<Request>, waits: seq<int>)

  /** A run of `search`/`search_subreddit`, with the working endpoint index it leaves. */
  datatype PagingRun = PagingRun(outcome: Fetched, idx: nat, sent: seq<Request>, waits: seq<int>)

  predicate Blocked(status: int) {
    status == 403 || status == 429
  }

  /** Python's truth value of the `after` token. */
  predicate Truthy(t: Option<string>) {
    t.Some? && t.value != ""
  }

  /** `https://reddit.com{permalink}` */
  function Permalink(path: string): string {
    "https://reddit.com" + path
  }

  /** The post built from one search result (fetcher.py:251-263). */
  function ToPost(d: RawPost): RedditPost {
    RedditPost(Field(d.id, ""), Field(d.title, ""), Field(d.selftext, ""), Field(d.subreddit, ""),
               Field(d.author, ""), Field(d.url, ""), Permalink(Field(d.permalink, "")),
               Field(d.score, 0), Field(d.numComments, 0), Field(d.createdUtc, 0))
  }

  function ToPosts(ds: seq<RawPost>): (ps: seq<RedditPost>)
    ensures |ps| == |ds| && forall i :: 0 <= i < |ds| ==> ps[i] == ToPost(ds[i])
  {
    seq(|ds|, i requires 0 <= i < |ds| => ToPost(ds[i]))
  }

  // ---------------------------------------------------------------------
  // _get_with_retry (fetcher.py:192-211)
  // ---------------------------------------------------------------------

  /** What one reply makes of the attempt: a result, or `None` to try again. */
  function Outcome(r: Reply<Body>, attempt: int, maxRetries: int): Option<Got> {
    match r
    case Transport => Some(Raises)
    case Response(status, body) =>
      if Blocked(status) then (if attempt >= 1 then Some(Nothing) else None)
      else if HttpError(status) then (if attempt < maxRetries - 1 then None else Some(Raises))
      else match body
        case NotJson => Some(Raises)
        case Null => Some(Nothing)
        case Doc(b) => Some(Data(b))
  }

  /** The wait before the next attempt, after a reply that asks for one. */
  function Wait(r: Reply<Body>, attempt: int): int {
    if r.Response? && Blocked(r.status) then 3 * (attempt + 1) else 2
  }

  /** `_get_with_retry` from attempt `attempt` on. */
  function GetRetry(s: seq<Reply<Body>>, rq: Request, attempt: nat, maxRetries: int,
                    sent: seq<Request>, waits: seq<int>): GetRun
    decreases maxRetries - attempt
  {
    if attempt >= maxRetries then GetRun(Nothing, sent, waits)
    else
      var r := ReplyAt(s, |sent|);
      var o := Outcome(r, attempt, maxRetries);
      if o.Some? then GetRun(o.value, sent + [rq], waits)
      else GetRetry(s, rq, attempt + 1, maxRetries, sent + [rq], waits + [Wait(r, attempt)])
  }

  // ---------------------------------------------------------------------
  // _search_with_fallback (fetcher.py:213-222)
  // ---------------------------------------------------------------------

  /** The endpoint at position `j` of the rotation that starts at `idx`. */
  function Rotated(idx: nat, j: nat): (k: nat)
    ensures k < EndpointCount
  {
    (idx + j) % EndpointCount
  }

  /** `_search_with_fallback` from rotation position `j` on. */
  function Fallback(s: seq<Reply<Body>>, idx: nat, path: string, p: Params, j: nat,
                    sent: seq<Request>, waits: seq<int>): FallbackRun
    decreases EndpointCount - j
  {
    if j >= EndpointCount then FallbackRun(Nothing, idx, sent, waits)
    else
      var k := Rotated(idx, j);
      var g := GetRetry(s, Request(k, path, p), 0, 2, sent, waits);
      match g.result
      case Nothing => Fallback(s, idx, path, p, j + 1, g.sent, g.waits)
      case Data(b) => FallbackRun(g.result, k, g.sent, g.waits)
      case Raises => FallbackRun(Raises, idx, g.sent, g.waits)
  }

  // ---------------------------------------------------------------------
  // search / search_subreddit (fetcher.py:224-320)
  // ---------------------------------------------------------------------

  /** The arguments that stay fixed during one search call. */
  datatype Search = Search(path: string, q: string, sort: string, timeFilter: string, limit: int,
                           restrictSr: bool, maxPages: int, rateLimit: int)

  /** The parameters of the next page request: `after` only when the token is truthy. */
  function ParamsFor(a: Search, after: Option<string>): Params {
    Params(a.q, a.sort, a.timeFilter, a.limit, a.restrictSr, if Truthy(after) then after else None)
  }

  /** A page that carries on the search: posts and a truthy `after` token. */
  predicate Full(g: Got) {
    g.Data? && g.body.Listing? && |g.body.children| > 0 && Truthy(g.body.after)
  }

  /** How the search ends on a page that does not carry on. */
  function Ending(g: Got, acc: seq<RedditPost>): Fetched {
    match g
    case Nothing => Returned(acc)
    case Raises => Returned(acc)
    case Data(Misshapen) => Raised
    case Data(Listing(children, _)) => Returned(acc + ToPosts(children))
  }

  /** The paging loop from page `page` on, with cursor `after` and endpoint index `idx`. */
  function Paging(a: Search, page: int, after: Option<string>, idx: nat, s: seq<Reply<Body>>,
                  acc: seq<RedditPost>, sent: seq<Request>, waits: seq<int>): PagingRun
    decreases a.maxPages - page
  {
    if page >= a.maxPages then PagingRun(Returned(acc), idx, sent, waits)
    else
      var f := Fallback(s, idx, a.path, ParamsFor(a, after), 0, sent, waits);
      if Full(f.result) then
        Paging(a, page + 1, f.result.body.after, f.idx, s, acc + ToPosts(f.result.body.children),
               f.sent, f.waits + [a.rateLimit])
      else PagingRun(Ending(f.result, acc), f.idx, f.sent, f.waits)
  }

  function GlobalSearch(query: string, sort: string, timeFilter: string, limit: int, maxPages: int, rateLimit: int): Search {
    Search("/search.json", query, sort, timeFilter, limit, false, maxPages, rateLimit)
  }

  function SubredditSearch(subreddit: string, query: string, sort: string, timeFilter: string,
                           limit: int, maxPages: int, rateLimit: int): Search {
    Search("/r/" + subreddit + "/search.json", query, sort, timeFilter, limit, true, maxPages, rateLimit)
  }

  // ---------------------------------------------------------------------
  // What the loops promise
  // ---------------------------------------------------------------------

  /**
    `_get_with_retry` makes at most `max_retries` GETs of the same request,
    at least one when `max_retries > 0`, and only appends to the clock's log.
   */
  lemma {:induction false} GetRetryBounded(s: seq<Reply<Body>>, rq: Request, attempt: nat, maxRetries: int,
                                           sent: seq<Request>, waits: seq<int>)
    ensures var g := GetRetry(s, rq, attempt, maxRetries, sent, waits);
      var k := |g.sent| - |sent|;
      |sent| <= |g.sent| && g.sent == sent + Repeat(rq, k) && waits <= g.waits
      && (if attempt < maxRetries then 1 <= k <= maxRetries - attempt else k == 0)
    decreases maxRetries - attempt
  {
    if attempt < maxRetries {
      var r := ReplyAt(s, |sent|);
      if Outcome(r, attempt, maxRetries).None? {
        var sent1 := sent + [rq];
        GetRetryBounded(s, rq, attempt + 1, maxRetries, sent1, waits + [Wait(r, attempt)]);
        var g := GetRetry(s, rq, attempt + 1, maxRetries, sent1, waits + [Wait(r, attempt)]);
        var k := |g.sent| - |sent|;
        assert sent1 + Repeat(rq, k - 1) == sent + Repeat(rq, k);
      } else {
        assert Repeat(rq, 1) == [rq];
      }
    } else {
      assert Repeat(rq, 0) == [];
    }
  }

  /** A connection error propagates at once: one GET, no wait. */
  lemma TransportRaises(s: seq<Reply<Body>>, rq: Request, maxRetries: int, sent: seq<Request>, waits: seq<int>)
    requires maxRetries >= 1 && ReplyAt(s, |sent|).Transport?
    ensures GetRetry(s, rq, 0, maxRetries, sent, waits) == GetRun(Raises, sent + [rq], waits)
  {
  }

  /** A second 403/429 in a row gives up with `None`, after one wait of 3 seconds. */
  lemma SecondBlockGivesNone(s: seq<Reply<Body>>, rq: Request, maxRetries: int, sent: seq<Request>, waits: seq<int>)
    requires maxRetries >= 2
    requires ReplyAt(s, |sent|).Response? && Blocked(ReplyAt(s, |sent|).status)
    requires ReplyAt(s, |sent| + 1).Response? && Blocked(ReplyAt(s, |sent| + 1).status)
    ensures GetRetry(s, rq, 0, maxRetries, sent, waits) == GetRun(Nothing, sent + [rq, rq], waits + [3])
  {
    assert sent + [rq] + [rq] == sent + [rq, rq];
  }

  /**
    When every attempt meets an HTTP error other than 403/429, the error of
    the last attempt is raised, after `max_retries` GETs and a 2-second wait
    between each two.
   */
  lemma {:induction false} HttpErrorReraised(s: seq<Reply<Body>>, rq: Request, attempt: nat, maxRetries: int,
                                             sent: seq<Request>, waits: seq<int>)
    requires attempt < maxRetries
    requires forall i :: |sent| <= i < |sent| + maxRetries - attempt ==>
      ReplyAt(s, i).Response? && HttpError(ReplyAt(s, i).status) && !Blocked(ReplyAt(s, i).status)
    ensures GetRetry(s, rq, attempt, maxRetries, sent, waits)
         == GetRun(Raises, sent + Repeat(rq, maxRetries - attempt), waits + Repeat(2, maxRetries - attempt - 1))
    decreases maxRetries - attempt
  {
    var n := maxRetries - attempt;
    if attempt < maxRetries - 1 {
      HttpErrorReraised(s, rq, attempt + 1, maxRetries, sent + [rq], waits + [2]);
      assert sent + [rq] + Repeat(rq, n - 1) == sent + Repeat(rq, n);
      assert waits + [2] + Repeat(2, n - 2) == waits + Repeat(2, n - 1);
    } else {
      assert Repeat(rq, 1) == [rq];
      assert Repeat(2, 0) == [];
    }
  }

  /** `rq` asks one of the endpoints for `path`. */
  predicate AtEndpoint(rq: Request, path: string) {
    rq.endpoint < EndpointCount && rq.path == path
  }

  /** An endpoint that gets nothing passes the search on to the next one. */
  lemma FallbackNothing(s: seq<Reply<Body>>, idx: nat, path: string, p: Params, j: nat,
                        sent: seq<Request>, waits: seq<int>)
    requires j < EndpointCount
    requires GetRetry(s, Request(Rotated(idx, j), path, p), 0, 2, sent, waits).result.Nothing?
    ensures var g := GetRetry(s, Request(Rotated(idx, j), path, p), 0, 2, sent, waits);
      Fallback(s, idx, path, p, j, sent, waits) == Fallback(s, idx, path, p, j + 1, g.sent, g.waits)
  {
  }

  /**
    `_search_with_fallback` tries the endpoints in rotation from the working
    one, each at most once: at most two GETs per endpoint left in the
    rotation. Requests and waits are only appended.
   */
  lemma {:induction false} FallbackBounded(s: seq<Reply<Body>>, idx: nat, path: string, p: Params, j: nat,
                                           sent: seq<Request>, waits: seq<int>)
    ensures var f := Fallback(s, idx, path, p, j, sent, waits);
      sent <= f.sent && waits <= f.waits
      && |f.sent| <= |sent| + 2 * (if j < EndpointCount then EndpointCount - j else 0)
    decreases EndpointCount - j
  {
    if j < EndpointCount {
      var rq := Request(Rotated(idx, j), path, p);
      var g := GetRetry(s, rq, 0, 2, sent, waits);
      GetRetryBounded(s, rq, 0, 2, sent, waits);
      if g.result.Nothing? {
        FallbackNothing(s, idx, path, p, j, sent, waits);
        FallbackBounded(s, idx, path, p, j + 1, g.sent, g.waits);
      }
    }
  }

  /** Every request of `_search_with_fallback` goes to an endpoint, with the same parameters. */
  lemma {:induction false} FallbackScoped(s: seq<Reply<Body>>, idx: nat, path: string, p: Params, j: nat,
                                          sent: seq<Request>, waits: seq<int>)
    ensures var f := Fallback(s, idx, path, p, j, sent, waits);
      |sent| <= |f.sent|
      && forall i :: |sent| <= i < |f.sent| ==> f.sent[i].params == p && AtEndpoint(f.sent[i], path)
    decreases EndpointCount - j
  {
    if j < EndpointCount {
      var k := Rotated(idx, j);
      var rq := Request(k, path, p);
      var g := GetRetry(s, rq, 0, 2, sent, waits);
      GetRetryBounded(s, rq, 0, 2, sent, waits);
      assert AtEndpoint(rq, path);
      assert forall i :: |sent| <= i < |g.sent| ==> g.sent[i] == rq;
      if g.result.Nothing? {
        FallbackNothing(s, idx, path, p, j, sent, waits);
        FallbackScoped(s, idx, path, p, j + 1, g.sent, g.waits);
        FallbackBounded(s, idx, path, p, j + 1, g.sent, g.waits);
        var f := Fallback(s, idx, path, p, j + 1, g.sent, g.waits);
        forall i | |sent| <= i < |g.sent| ensures f.sent[i] == rq {
          assert f.sent[i] == g.sent[i];
        }
      }
    }
  }

  /**
    The first request of `_search_with_fallback` goes to the working
    endpoint. On success the working index becomes the endpoint that
    answered, the one the last request went to; otherwise it is unchanged.
   */
  lemma {:induction false} FallbackIndex(s: seq<Reply<Body>>, idx: nat, path: string, p: Params, j: nat,
                                         sent: seq<Request>, waits: seq<int>)
    ensures var f := Fallback(s, idx, path, p, j, sent, waits);
      (j < EndpointCount ==> |sent| < |f.sent| && f.sent[|sent|].endpoint == Rotated(idx, j))
      && (f.result.Data? ==> f.idx < EndpointCount && |sent| < |f.sent| && f.sent[|f.sent| - 1].endpoint == f.idx)
      && (!f.result.Data? ==> f.idx == idx)
    decreases EndpointCount - j
  {
    if j < EndpointCount {
      var k := Rotated(idx, j);
      var rq := Request(k, path, p);
      var g := GetRetry(s, rq, 0, 2, sent, waits);
      GetRetryBounded(s, rq, 0, 2, sent, waits);
      assert |sent| < |g.sent| && g.sent[|sent|] == rq && g.sent[|g.sent| - 1] == rq;
      if g.result.Nothing? {
        FallbackNothing(s, idx, path, p, j, sent, waits);
        FallbackIndex(s, idx, path, p, j + 1, g.sent, g.waits);
        FallbackBounded(s, idx, path, p, j + 1, g.sent, g.waits);
        var f := Fallback(s, idx, path, p, j + 1, g.sent, g.waits);
        assert f.sent[|sent|] == g.sent[|sent|];
      }
    }
  }

  /**
    Posts collected on earlier pages are kept unless an exception escapes
    (an error during a page request is caught and ends the search); requests
    and waits are only appended; the working index stays a valid one.
   */
  lemma {:induction false} PagingKeeps(a: Search, page: int, after: Option<string>, idx: nat, s: seq<Reply<Body>>,
                                       acc: seq<RedditPost>, sent: seq<Request>, waits: seq<int>)
    requires idx < EndpointCount
    ensures var run := Paging(a, page, after, idx, s, acc, sent, waits);
      sent <= run.sent && waits <= run.waits && run.idx < EndpointCount
      && (run.outcome.Returned? ==> acc <= run.outcome.posts)
    decreases a.maxPages - page
  {
    if page < a.maxPages {
      var f := Fallback(s, idx, a.path, ParamsFor(a, after), 0, sent, waits);
      FallbackBounded(s, idx, a.path, ParamsFor(a, after), 0, sent, waits);
      FallbackIndex(s, idx, a.path, ParamsFor(a, after), 0, sent, waits);
      if Full(f.result) {
        PagingKeeps(a, page + 1, f.result.body.after, f.idx, s, acc + ToPosts(f.result.body.children),
                    f.sent, f.waits + [a.rateLimit]);
      }
    }
  }

  /**
    At most `max_pages` pages, each of at most two GETs at each of the
    endpoints.
   */
  lemma {:induction false} PagingBounded(a: Search, page: int, after: Option<string>, idx: nat, s: seq<Reply<Body>>,
                                         acc: seq<RedditPost>, sent: seq<Request>, waits: seq<int>)
    requires page <= a.maxPages
    ensures |Paging(a, page, after, idx, s, acc, sent, waits).sent| <= |sent| + (a.maxPages - page) * 2 * EndpointCount
    decreases a.maxPages - page
  {
    if page < a.maxPages {
      var f := Fallback(s, idx, a.path, ParamsFor(a, after), 0, sent, waits);
      FallbackBounded(s, idx, a.path, ParamsFor(a, after), 0, sent, waits);
      if Full(f.result) {
        PagingBounded(a, page + 1, f.result.body.after, f.idx, s, acc + ToPosts(f.result.body.children),
                      f.sent, f.waits + [a.rateLimit]);
      }
    }
  }

  /**
    Every request of a search carries its query, sort, time filter, limit
    and subreddit restriction, and goes to an endpoint followed by the
    search path.
   */
  lemma {:induction false} PagingScoped(a: Search, page: int, after: Option<string>, idx: nat, s: seq<Reply<Body>>,
                                        acc: seq<RedditPost>, sent: seq<Request>, waits: seq<int>)
    requires idx < EndpointCount
    ensures var run := Paging(a, page, after, idx, s, acc, sent, waits);
      forall i :: |sent| <= i < |run.sent| ==>
        var p := run.sent[i].params;
        p.q == a.q && p.sort == a.sort && p.timeFilter == a.timeFilter && p.limit == a.limit
        && p.restrictSr == a.restrictSr && AtEndpoint(run.sent[i], a.path)
    decreases a.maxPages - page
  {
    if page < a.maxPages {
      var f := Fallback(s, idx, a.path, ParamsFor(a, after), 0, sent, waits);
      FallbackScoped(s, idx, a.path, ParamsFor(a, after), 0, sent, waits);
      FallbackIndex(s, idx, a.path, ParamsFor(a, after), 0, sent, waits);
      if Full(f.result) {
        var run := Paging(a, page + 1, f.result.body.after, f.idx, s, acc + ToPosts(f.result.body.children),
                          f.sent, f.waits + [a.rateLimit]);
        PagingScoped(a, page + 1, f.result.body.after, f.idx, s, acc + ToPosts(f.result.body.children),
                     f.sent, f.waits + [a.rateLimit]);
        PagingKeeps(a, page + 1, f.result.body.after, f.idx, s, acc + ToPosts(f.result.body.children),
                    f.sent, f.waits + [a.rateLimit]);
        forall i | |sent| <= i < |f.sent| ensures run.sent[i] == f.sent[i] {
        }
      }
    }
  }

  /** The first request of a search goes to the working endpoint, without an `after` token. */
  lemma FirstRequest(a: Search, idx: nat, s: seq<Reply<Body>>, sent: seq<Request>, waits: seq<int>)
    requires idx < EndpointCount && a.maxPages >= 1
    ensures var run := Paging(a, 0, None, idx, s, [], sent, waits);
      |run.sent| > |sent| && run.sent[|sent|] == Request(idx, a.path, ParamsFor(a, None))
  {
    var p := ParamsFor(a, None);
    var f := Fallback(s, idx, a.path, p, 0, sent, waits);
    FallbackIndex(s, idx, a.path, p, 0, sent, waits);
    FallbackScoped(s, idx, a.path, p, 0, sent, waits);
    assert f.sent[|sent|] == Request(idx, a.path, p);
    if Full(f.result) {
      var acc := [] + ToPosts(f.result.body.children);
      PagingKeeps(a, 1, f.result.body.after, f.idx, s, acc, f.sent, f.waits + [a.rateLimit]);
    }
  }

  /** `for child in children: posts.append(RedditPost(...))` */
  method AppendPosts(posts: seq<RedditPost>, children: seq<RawPost>) returns (r: seq<RedditPost>)
    ensures r == posts + ToPosts(children)
  {
    r := posts;
    for i := 0 to |children|
      invariant r == posts + ToPosts(children[..i])
    {
      assert children[..i + 1] == children[..i] + [children[i]];
      r := r + [ToPost(children[i])];
    }
    assert children[..|children|] == children;
  }

  class RedditSearchFetcher {
    const session: Session<Request, Body>
    const rateLimit: int
    var workingEndpointIdx: nat

    ghost predicate Valid()
      reads this
    {
      workingEndpointIdx < EndpointCount
    }

    /** `RedditSearchFetcher(user_agent, rate_limit)`, its session answering with `replies`. */
    constructor (replies: seq<Reply<Body>>, rateLimit: int)
      ensures Valid() && workingEndpointIdx == 0
      ensures fresh(session) && session.script == replies && session.sent == []
      ensures this.rateLimit == rateLimit
    {
      session := new Session(replies);
      this.rateLimit := rateLimit;
      workingEndpointIdx := 0;
    }

    /** `_get_with_retry(url, params, max_retries)` */
    method GetWithRetry(rq: Request, maxRetries: int, clock: Clock) returns (r: Got)
      modifies session, clock
      ensures var g := GetRetry(session.script, rq, 0, maxRetries, old(session.sent), old(clock.slept));
        r == g.result && session.sent == g.sent && clock.slept == g.waits
    {
      var attempt := 0;
      while attempt < maxRetries
        invariant GetRetry(session.script, rq, 0, maxRetries, old(session.sent), old(clock.slept))
               == GetRetry(session.script, rq, attempt, maxRetries, session.sent, clock.slept)
        decreases maxRetries - attempt
      {
        var resp := session.Get(rq);
        if resp.Transport? {
          return Raises;
        }
        if Blocked(resp.status) {
          if attempt >= 1 {
            return Nothing;
          }
          clock.Sleep(3 * (attempt + 1));
        } else if HttpError(resp.status) {
          if attempt < maxRetries - 1 {
            clock.Sleep(2);
          } else {
            return Raises;
          }
        } else {
          match resp.body
          case NotJson => return Raises;
          case Null => return Nothing;
          case Doc(b) => return Data(b);
        }
        attempt := attempt + 1;
      }
      r := Nothing;
    }

    /** `_search_with_fallback(path, params)` */
    method SearchWithFallback(path: string, p: Params, clock: Clock) returns (r: Got)
      requires Valid()
      modifies this, session, clock
      ensures Valid()
      ensures var f := Fallback(session.script, old(workingEndpointIdx), path, p, 0, old(session.sent), old(clock.slept));
        r == f.result && workingEndpointIdx == f.idx && session.sent == f.sent && clock.slept == f.waits
    {
      var idx := workingEndpointIdx;
      var j := 0;
      while j < EndpointCount
        invariant workingEndpointIdx == idx
        invariant Fallback(session.script, idx, path, p, 0, old(session.sent), old(clock.slept))
               == Fallback(session.script, idx, path, p, j, session.sent, clock.slept)
        decreases EndpointCount - j
      {
        var k := Rotated(idx, j);
        var data := GetWithRetry(Request(k, path, p), 2, clock);
        if data.Data? {
          workingEndpointIdx := k;
          return data;
        }
        if data.Raises? {
          return Raises;
        }
        j := j + 1;
      }
      r := Nothing;
    }

    /** The loop shared by `search` and `search_subreddit`. */
    method Paginate(a: Search, clock: Clock) returns (r: Fetched)
      requires Valid() && a.rateLimit == rateLimit
      modifies this, session, clock
      ensures Valid()
      ensures var run := Paging(a, 0, None, old(workingEndpointIdx), session.script, [], old(session.sent), old(clock.slept));
        r == run.outcome && workingEndpointIdx == run.idx && session.sent == run.sent && clock.slept == run.waits
    {
      var posts: seq<RedditPost> := [];
      var after: Option<string> := None;
      var page := 0;
      while page < a.maxPages
        invariant Valid()
        invariant Paging(a, 0, None, old(workingEndpointIdx), session.script, [], old(session.sent), old(clock.slept))
               == Paging(a, page, after, workingEndpointIdx, session.script, posts, session.sent, clock.slept)
        decreases a.maxPages - page
      {
        var params := Params(a.q, a.sort, a.timeFilter, a.limit, a.restrictSr, if Truthy(after) then after else None);
        var data := SearchWithFallback(a.path, params, clock);
        if !data.Data? {
          return Returned(posts);
        }
        if data.body.Misshapen? {
          return Raised;
        }
        var children := data.body.children;
        if |children| == 0 {
          assert posts + ToPosts(children) == posts;
          return Returned(posts);
        }
        posts := AppendPosts(posts, children);
        after := data.body.after;
        if !Truthy(after) {
          return Returned(posts);
        }
        clock.Sleep(rateLimit);
        page := page + 1;
      }
      r := Returned(posts);
    }

    /** `search(query, sort, time_filter, limit, max_pages)` */
    method Search(query: string, sort: string, timeFilter: string, limit: int, maxPages: int, clock: Clock)
      returns (r: Fetched)
      requires Valid()
      modifies this, session, clock
      ensures Valid()
      ensures var run := Paging(GlobalSearch(query, sort, timeFilter, limit, maxPages, rateLimit), 0, None,
                                old(workingEndpointIdx), session.script, [], old(session.sent), old(clock.slept));
        r == run.outcome && workingEndpointIdx == run.idx && session.sent == run.sent && clock.slept == run.waits
    {
      r := Paginate(GlobalSearch(query, sort, timeFilter, limit, maxPages, rateLimit), clock);
    }

    /** `search_subreddit(subreddit, query, sort, time_filter, limit, max_pages)` */
    method SearchSubreddit(subreddit: string, query: string, sort: string, timeFilter: string,
                           limit: int, maxPages: int, clock: Clock)
      returns (r: Fetched)
      requires Valid()
      modifies this, session, clock
      ensures Valid()
      ensures var run := Paging(SubredditSearch(subreddit, query, sort, timeFilter, limit, maxPages, rateLimit), 0, None,
                                old(workingEndpointIdx), session.script, [], old(session.sent), old(clock.slept));
        r == run.outcome && workingEndpointIdx == run.idx && session.sent == run.sent && clock.slept == run.waits
    {
      r := Paginate(SubredditSearch(subreddit, query, sort, timeFilter, limit, maxPages, rateLimit), clock);
    }
  }
}
