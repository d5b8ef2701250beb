/**
  `RedditPost`, the raw JSON post record the three archives return, and the
  `post_id`-keyed dictionary `fetch_all` merges their results into.
 */
module Posts {
  import opened Wrappers
  import Sorting

  /** A post. `created_utc` is whole seconds since the epoch. */
  datatype RedditPost = RedditPost(
    postId: string,
    title: string,
    selftext: string,
    subreddit: string,
    author: string,
    url: string,
    permalink: string,
    score: int,
    numComments: int,
    createdUtc: int)

  /** One post object of a JSON reply: every key may be missing. */
  datatype RawPost = RawPost(
    id: Option<string>,
    title: Option<string>,
    selftext: Option<string>,
    subreddit: Option<string>,
    author: Option<string>,
    url: Option<string>,
    permalink: Option<string>,
    score: Option<int>,
    numComments: Option<int>,
    createdUtc: Option<int>)

  /**
    `created_date`, the UTC calendar day of `created_utc`, as a day number
    (days since 1970-01-01; Python's `fromtimestamp` floors like `/` here).
   */
  function CreatedDay(p: RedditPost): int {
    p.createdUtc / 86400
  }

  /** `d.get(key, default)` */
  function Field<T>(o: Option<T>, default: T): T {
    if o.Some? then o.value else default
  }

  /** What a search method ends with: the posts it returns, or an exception it lets escape. */
  datatype Fetched = Returned(posts: seq<RedditPost>) | Raised

  /**
    A whole search run over a scripted session: its outcome, the session's
    log of requests when it ends, and the seconds it slept, in order.
   */
  datatype Run<Q> = Run(outcome: Fetched, sent: seq<Q>, waits: seq<int>)

  // ---------------------------------------------------------------------
  // Identity: `__eq__` and `__hash__` look at `post_id` only
  // ---------------------------------------------------------------------

  predicate SamePost(a: RedditPost, b: RedditPost) {
    a.postId == b.postId
  }

  /** `hash(post_id)`, with the string itself standing for its hash. */
  function Hash(p: RedditPost): string {
    p.postId
  }

  /** Equality is an equivalence and equal posts hash alike, whatever else differs. */
  lemma SamePostIsIdentity(a: RedditPost, b: RedditPost, c: RedditPost)
    ensures SamePost(a, a)
    ensures SamePost(a, b) ==> SamePost(b, a) && Hash(a) == Hash(b)
    ensures SamePost(a, b) && SamePost(b, c) ==> SamePost(a, c)
    ensures a.postId == b.postId && a.title != b.title ==> SamePost(a, b)
  {
  }

  // ---------------------------------------------------------------------
  // The `all_posts` dictionary: keys in insertion order, and the values
  // ---------------------------------------------------------------------

  datatype Corpus = Corpus(order: seq<string>, byId: map<string, RedditPost>)

  const Empty := Corpus([], map[])

  /** Insertion order lists each key once, and each value is filed under its own id. */
  ghost predicate Valid(c: Corpus) {
    Sorting.Distinct(c.order)
    && (forall k :: k in c.order <==> k in c.byId)
    && (forall k :: k in c.byId ==> c.byId[k].postId == k)
  }

  /** `if p.post_id not in all_posts: all_posts[p.post_id] = p` */
  function Admit(c: Corpus, p: RedditPost): Corpus {
    if p.postId in c.byId then c
    else Corpus(c.order + [p.postId], c.byId[p.postId := p])
  }

  /** The loop `for p in posts: if keep(p) and p.post_id not in all_posts: ...` */
  function AdmitAll(c: Corpus, ps: seq<RedditPost>, keep: RedditPost -> bool): Corpus
    decreases |ps|
  {
    if ps == [] then c
    else
      var before := AdmitAll(c, ps[..|ps| - 1], keep);
      if keep(ps[|ps| - 1]) then Admit(before, ps[|ps| - 1]) else before
  }

  /** `all_posts.values()`: the stored posts in insertion order. */
  function Values(c: Corpus): (vs: seq<RedditPost>)
    requires forall k :: k in c.order ==> k in c.byId
    ensures |vs| == |c.order|
  {
    seq(|c.order|, i requires 0 <= i < |c.order| => c.byId[c.order[i]])
  }

  lemma AdmitValid(c: Corpus, p: RedditPost)
    requires Valid(c)
    ensures Valid(Admit(c, p))
  {
    if p.postId !in c.byId {
      var o := c.order + [p.postId];
      forall i, j | 0 <= i < j < |o| ensures o[i] != o[j] {
        if j == |o| - 1 {
          assert o[i] in c.order;
        }
      }
    }
  }

  /**
    The merge loop keeps the dictionary well formed, never overwrites a
    stored post (first seen wins), and only appends to the insertion order.
   */
  lemma {:induction false} AdmitAllKeeps(c: Corpus, ps: seq<RedditPost>, keep: RedditPost -> bool)
    requires Valid(c)
    ensures var r := AdmitAll(c, ps, keep);
      Valid(r)
      && (forall k :: k in c.byId ==> k in r.byId && r.byId[k] == c.byId[k])
      && |c.order| <= |r.order| && r.order[..|c.order|] == c.order
    decreases |ps|
  {
    if ps != [] {
      var before := AdmitAll(c, ps[..|ps| - 1], keep);
      AdmitAllKeeps(c, ps[..|ps| - 1], keep);
      AdmitValid(before, ps[|ps| - 1]);
      var r := AdmitAll(c, ps, keep);
      assert r == before || r == Admit(before, ps[|ps| - 1]);
      assert r.order[..|c.order|] == before.order[..|c.order|];
    }
  }

  /** After the merge loop the keys are the old keys and the ids of the kept posts. */
  lemma {:induction false} AdmitAllKeys(c: Corpus, ps: seq<RedditPost>, keep: RedditPost -> bool)
    ensures var r := AdmitAll(c, ps, keep);
      forall k :: k in r.byId <==> k in c.byId || exists i :: 0 <= i < |ps| && keep(ps[i]) && ps[i].postId == k
    decreases |ps|
  {
    if ps != [] {
      var n := |ps| - 1;
      var init := ps[..n];
      AdmitAllKeys(c, init, keep);
      var r := AdmitAll(c, ps, keep);
      forall k ensures k in r.byId <==> k in c.byId || exists i :: 0 <= i < |ps| && keep(ps[i]) && ps[i].postId == k {
        if exists i :: 0 <= i < n && keep(init[i]) && init[i].postId == k {
          var i :| 0 <= i < n && keep(init[i]) && init[i].postId == k;
          assert ps[i] == init[i];
        }
        if exists i :: 0 <= i < |ps| && keep(ps[i]) && ps[i].postId == k {
          var i :| 0 <= i < |ps| && keep(ps[i]) && ps[i].postId == k;
          if i < n {
            assert init[i] == ps[i];
          }
        }
      }
    }
  }

  /** A newly stored post is the first kept post with that id. */
  lemma {:induction false} AdmitAllFirst(c: Corpus, ps: seq<RedditPost>, keep: RedditPost -> bool)
    ensures var r := AdmitAll(c, ps, keep);
      forall k :: k in r.byId && k !in c.byId ==>
        exists i :: 0 <= i < |ps| && keep(ps[i]) && ps[i] == r.byId[k]
          && forall j :: 0 <= j < i ==> !(keep(ps[j]) && ps[j].postId == k)
    decreases |ps|
  {
    if ps != [] {
      var n := |ps| - 1;
      var init := ps[..n];
      var before := AdmitAll(c, init, keep);
      AdmitAllFirst(c, init, keep);
      AdmitAllKeys(c, init, keep);
      var r := AdmitAll(c, ps, keep);
      forall k | k in r.byId && k !in c.byId
        ensures exists i :: (0 <= i < |ps| && keep(ps[i]) && ps[i] == r.byId[k]
                              && forall j :: 0 <= j < i ==> !(keep(ps[j]) && ps[j].postId == k))
      {
        if k in before.byId {
          var i :| 0 <= i < n && keep(init[i]) && init[i] == before.byId[k]
            && forall j :: 0 <= j < i ==> !(keep(init[j]) && init[j].postId == k);
          assert ps[i] == init[i];
          assert forall j :: 0 <= j < i ==> ps[j] == init[j];
        } else {
          assert keep(ps[n]) && ps[n] == r.byId[k];
          forall j | 0 <= j < n ensures !(keep(ps[j]) && ps[j].postId == k) {
            assert ps[j] == init[j];
          }
        }
      }
    }
  }

  /** Each stored post appears among the values. */
  lemma ValuesCover(c: Corpus)
    requires Valid(c)
    ensures forall k :: k in c.byId ==> exists i :: 0 <= i < |Values(c)| && Values(c)[i] == c.byId[k]
  {
    var vs := Values(c);
    forall k | k in c.byId ensures exists i :: 0 <= i < |vs| && vs[i] == c.byId[k] {
      assert k in c.order;
      var i :| 0 <= i < |c.order| && c.order[i] == k;
      assert vs[i] == c.byId[k];
    }
  }

  /** No two values share an id, and there are as many values as stored posts. */
  lemma ValuesOnce(c: Corpus)
    requires Valid(c)
    ensures forall i, j :: 0 <= i < j < |Values(c)| ==> Values(c)[i].postId != Values(c)[j].postId
    ensures |Values(c)| == |c.byId|
  {
    DistinctCard(c.order);
    assert c.byId.Keys == set k | k in c.order;
  }

  lemma {:induction false} DistinctCard(s: seq<string>)
    requires Sorting.Distinct(s)
    ensures |set k | k in s| == |s|
    decreases |s|
  {
    if s != [] {
      var t := s[..|s| - 1];
      assert Sorting.Distinct(t);
      DistinctCard(t);
      assert (set k | k in s) == (set k | k in t) + {s[|s| - 1]};
      assert s[|s| - 1] !in t;
    }
  }
}
