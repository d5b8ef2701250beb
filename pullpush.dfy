/**
  `PullpushFetcher.search`: the Pullpush (Pushshift mirror) submission
  search, newest first, one GET per page, paging backwards with a `before`
  timestamp one second older than the last post of each page. Any error
  while getting or decoding a page ends the search with the posts
  collected so far; a decoded body of the wrong shape raises.
 */
module Pullpush {
  import opened Wrappers
  import opened Net
  import opened Posts

  const SecondsPerDay: int := 86400

  /** The parameters of one page request; `sort` is "desc" by `created_utc`. */
  datatype Query = Query(q: string, after: int, before: int, size: int)

  /**
    A decoded reply: a dict whose "data" list holds the posts (a missing or
    empty list ends the search), or any other shape, on which `.get` raises.
   */
  datatype Body = Listing(items: seq<RawPost>) | Misshapen

  /** The arguments that stay fixed during one `search` call. */
  datatype Args = Args(q: string, after: int, limit: int, maxPages: int, rateLimit: int)

  /** `https://reddit.com{permalink}` */
  function Permalink(path: string): string {
    "https://reddit.com" + path
  }

  /** The post built from one search result (fetcher.py:371-382). */
  function ToPost(d: RawPost): RedditPost {
    RedditPost(Field(d.id, ""), Field(d.title, ""), Field(d.selftext, ""), Field(d.subreddit, ""),
               Field(d.author, "[deleted]"), Field(d.url, ""), Permalink(Field(d.permalink, "")),
               Field(d.score, 0), Field(d.numComments, 0), Field(d.createdUtc, 0))
  }

  function ToPosts(ds: seq<RawPost>): (ps: seq<RedditPost>)
    ensures |ps| == |ds| && forall i :: 0 <= i < |ds| ==> ps[i] == ToPost(ds[i])
  {
    seq(|ds|, i requires 0 <= i < |ds| => ToPost(ds[i]))
  }

  /**
    A GET whose `get`, `raise_for_status` and `json` all succeed; any other
    reply raises inside the `try` and ends the search.
   */
  predicate Decoded(r: Reply<Body>) {
    r.Response? && !HttpError(r.status) && !r.body.NotJson?
  }

  /** `int(results[-1].get("created_utc", before_ts)) - 1` */
  function NextBefore(items: seq<RawPost>, before: int): int
    requires |items| > 0
  {
    Field(items[|items| - 1].createdUtc, before) - 1
  }

  function QueryFor(a: Args, before: int): Query {
    Query(a.q, a.after, before, a.limit)
  }

  /**
    The paging loop (fetcher.py:348-392) from page `page` on, with the
    cursor `before`, the posts `acc` collected, the session's log `sent`
    and the seconds `waits` slept.
   */
  function Paging(a: Args, page: int, before: int, s: seq<Reply<Body>>,
                  acc: seq<RedditPost>, sent: seq<Query>, waits: seq<int>): Run<Query>
    decreases a.maxPages - page
  {
    if page >= a.maxPages then Run(Returned(acc), sent, waits)
    else
      var r := ReplyAt(s, |sent|);
      var sent' := sent + [QueryFor(a, before)];
      if !Decoded(r) then Run(Returned(acc), sent', waits)
      else if r.body.Null? || r.body.doc.Misshapen? then Run(Raised, sent', waits)
      else
        var items := r.body.doc.items;
        if |items| == 0 then Run(Returned(acc), sent', waits)
        else if |items| < a.limit then Run(Returned(acc + ToPosts(items)), sent', waits)
        else Paging(a, page + 1, NextBefore(items, before), s, acc + ToPosts(items), sent', waits + [a.rateLimit])
  }

  /** The default window: `after` 90 days before `now`, `before` at `now`. */
  function AfterOrDefault(after: Option<int>, now: int): int {
    if after.Some? then after.value else now - 90 * SecondsPerDay
  }

  function BeforeOrDefault(before: Option<int>, now: int): int {
    if before.Some? then before.value else now
  }

  /** A whole `search` call on the script `s`, after the requests `sent`, at time `now`. */
  function SearchRun(q: string, after: Option<int>, before: Option<int>, limit: int, maxPages: int,
                     rateLimit: int, now: int, s: seq<Reply<Body>>, sent: seq<Query>): Run<Query> {
    Paging(Args(q, AfterOrDefault(after, now), limit, maxPages, rateLimit), 0,
           BeforeOrDefault(before, now), s, [], sent, [])
  }

  // ---------------------------------------------------------------------
  // What the loop promises
  // ---------------------------------------------------------------------

  /**
    An error while getting or decoding a page ends the search with the
    posts of the earlier pages, after that one request.
   */
  lemma ErrorKeepsPosts(a: Args, page: int, before: int, s: seq<Reply<Body>>,
                        acc: seq<RedditPost>, sent: seq<Query>, waits: seq<int>)
    requires page < a.maxPages && !Decoded(ReplyAt(s, |sent|))
    ensures Paging(a, page, before, s, acc, sent, waits) == Run(Returned(acc), sent + [QueryFor(a, before)], waits)
  {
  }

  /** A decoded `null` or a body of another shape lets `AttributeError` escape. */
  lemma MisshapenRaises(a: Args, page: int, before: int, s: seq<Reply<Body>>,
                        acc: seq<RedditPost>, sent: seq<Query>, waits: seq<int>)
    requires page < a.maxPages && Decoded(ReplyAt(s, |sent|))
    requires ReplyAt(s, |sent|).body.Null? || ReplyAt(s, |sent|).body.doc.Misshapen?
    ensures Paging(a, page, before, s, acc, sent, waits).outcome == Raised
  {
  }

  /**
    A page of `items`: an empty one ends the search, a short one ends it
    with its posts added, a full one carries on with `before` set to one
    second before the last post's creation time, after a pause.
   */
  lemma PageStep(a: Args, page: int, before: int, s: seq<Reply<Body>>,
                 acc: seq<RedditPost>, sent: seq<Query>, waits: seq<int>, items: seq<RawPost>)
    requires page < a.maxPages
    requires Decoded(ReplyAt(s, |sent|)) && ReplyAt(s, |sent|).body == Doc(Listing(items))
    ensures var sent' := sent + [QueryFor(a, before)];
      Paging(a, page, before, s, acc, sent, waits)
      == if |items| == 0 then Run(Returned(acc), sent', waits)
         else if |items| < a.limit then Run(Returned(acc + ToPosts(items)), sent', waits)
         else Paging(a, page + 1, Field(items[|items| - 1].createdUtc, before) - 1, s,
                     acc + ToPosts(items), sent', waits + [a.rateLimit])
  {
  }

  /**
    Posts collected on earlier pages are kept unless an exception escapes,
    and requests and waits are only ever appended.
   */
  lemma {:induction false} PagingKeeps(a: Args, page: int, before: int, s: seq<Reply<Body>>,
                                       acc: seq<RedditPost>, sent: seq<Query>, waits: seq<int>)
    ensures var run := Paging(a, page, before, s, acc, sent, waits);
      sent <= run.sent && waits <= run.waits
      && (run.outcome.Returned? ==> acc <= run.outcome.posts)
    decreases a.maxPages - page
  {
    if page < a.maxPages {
      var r := ReplyAt(s, |sent|);
      if Decoded(r) && r.body.Doc? && r.body.doc.Listing? {
        var items := r.body.doc.items;
        if |items| >= a.limit && |items| > 0 {
          PagingKeeps(a, page + 1, NextBefore(items, before), s, acc + ToPosts(items),
                      sent + [QueryFor(a, before)], waits + [a.rateLimit]);
        }
      }
    }
  }

  /**
    One request per page and at most `max_pages` of them, each with the
    same query, `after` timestamp and page size.
   */
  lemma {:induction false} PagingBounded(a: Args, page: int, before: int, s: seq<Reply<Body>>,
                                         acc: seq<RedditPost>, sent: seq<Query>, waits: seq<int>)
    requires page <= a.maxPages
    ensures var run := Paging(a, page, before, s, acc, sent, waits);
      |sent| <= |run.sent| <= |sent| + a.maxPages - page
      && forall i :: |sent| <= i < |run.sent| ==>
           run.sent[i].q == a.q && run.sent[i].after == a.after && run.sent[i].size == a.limit
    decreases a.maxPages - page
  {
    if page < a.maxPages {
      var r := ReplyAt(s, |sent|);
      var sent' := sent + [QueryFor(a, before)];
      if Decoded(r) && r.body.Doc? && r.body.doc.Listing? {
        var items := r.body.doc.items;
        if |items| >= a.limit && |items| > 0 {
          var acc' := acc + ToPosts(items);
          var run := Paging(a, page + 1, NextBefore(items, before), s, acc', sent', waits + [a.rateLimit]);
          PagingBounded(a, page + 1, NextBefore(items, before), s, acc', sent', waits + [a.rateLimit]);
          PagingKeeps(a, page + 1, NextBefore(items, before), s, acc', sent', waits + [a.rateLimit]);
          assert run.sent[|sent|] == sent'[|sent|];
        }
      }
    }
  }

  /** `for d in results: posts.append(RedditPost(...))` */
  method AppendPosts(posts: seq<RedditPost>, results: seq<RawPost>) returns (r: seq<RedditPost>)
    ensures r == posts + ToPosts(results)
  {
    r := posts;
    for i := 0 to |results|
      invariant r == posts + ToPosts(results[..i])
    {
      assert results[..i + 1] == results[..i] + [results[i]];
      r := r + [ToPost(results[i])];
    }
    assert results[..|results|] == results;
  }

  class PullpushFetcher {
    const session: Session<Query, Body>
    const rateLimit: int

    /** `PullpushFetcher(rate_limit)`, its session answering with `replies`. */
    constructor (replies: seq<Reply<Body>>, rateLimit: int)
      ensures fresh(session) && session.script == replies && session.sent == []
      ensures this.rateLimit == rateLimit
    {
      session := new Session(replies);
      this.rateLimit := rateLimit;
    }

    /** `search(query, after_ts, before_ts, limit, max_pages)`, called at time `now`. */
    method Search(query: string, afterTs: Option<int>, beforeTs: Option<int>, limit: int, maxPages: int,
                  now: int, clock: Clock) returns (r: Fetched)
      modifies session, clock
      ensures var run := SearchRun(query, afterTs, beforeTs, limit, maxPages, rateLimit, now,
                                   session.script, old(session.sent));
        r == run.outcome && session.sent == run.sent && clock.slept == old(clock.slept) + run.waits
    {
      var after := if afterTs.Some? then afterTs.value else now - 90 * SecondsPerDay;
      var before := if beforeTs.Some? then beforeTs.value else now;
      ghost var a := Args(query, after, limit, maxPages, rateLimit);
      var posts: seq<RedditPost> := [];
      var page := 0;
      ghost var waits: seq<int> := [];
      while page < maxPages
        invariant SearchRun(query, afterTs, beforeTs, limit, maxPages, rateLimit, now, session.script, old(session.sent))
               == Paging(a, page, before, session.script, posts, session.sent, waits)
        invariant clock.slept == old(clock.slept) + waits
        decreases maxPages - page
      {
        var resp := session.Get(Query(query, after, before, limit));
        if !Decoded(resp) {
          return Returned(posts);
        }
        if resp.body.Null? || resp.body.doc.Misshapen? {
          return Raised;
        }
        var results := resp.body.doc.items;
        if |results| == 0 {
          return Returned(posts);
        }
        posts := AppendPosts(posts, results);
        before := Field(results[|results| - 1].createdUtc, before) - 1;
        if |results| < limit {
          return Returned(posts);
        }
        clock.Sleep(rateLimit);
        assert clock.slept == old(clock.slept) + (waits + [rateLimit]);
        waits := waits + [rateLimit];
        page := page + 1;
      }
      r := Returned(posts);
    }
  }
}
