/**
  `MultiSourceFetcher.fetch_all`: searches Arctic Shift over the hint
  subreddits and the default ones, then Reddit's own search (globally and
  in each hint subreddit), then Pullpush, for every keyword; merges every
  post into one dictionary keyed by post id where the first post seen
  wins; keeps Reddit posts only when they are recent enough; and returns
  the merged posts newest first, reporting per-source diagnostics.
 */
module MultiSource {
  import opened Wrappers
  import opened Net
  import opened Posts
  import Text
  import Sorting
  import ArcticShift
  import RedditSearch
  import Pullpush

  /** `DEFAULT_SUBREDDITS` */
  const DefaultSubreddits: seq<string> := [
    "india", "AskIndia", "indiasocial",
    "IndianGaming", "IndianConsumer", "IndiaTech",
    "gadgets", "technology", "BuyItForLife",
    "IndianSkincareAddicts", "IndianFashionAddicts",
    "IndiaInvestments", "CreditCardsIndia",
    "Fitness", "SkincareAddiction"]

  const SecondsPerDay: int := 86400

  // ---------------------------------------------------------------------
  // The subreddits Arctic Shift searches
  // ---------------------------------------------------------------------

  /**
    `subs`, then each of `defaults` in turn whose lower-case form is not
    among the lower-case forms of the list built so far.
   */
  function WithDefaults(subs: seq<string>, defaults: seq<string>): seq<string>
    decreases |defaults|
  {
    if defaults == [] then subs
    else
      var prev := WithDefaults(subs, defaults[..|defaults| - 1]);
      var d := defaults[|defaults| - 1];
      if Text.Lower(d) in Text.Lowered(prev) then prev else prev + [d]
  }

  /**
    The scope list keeps every hint in its order, covers every default
    case-insensitively, adds only defaults, never adds a name whose lower
    case form is already present, and so holds at most hints + defaults.
   */
  lemma {:induction false} ScopeFacts(hints: seq<string>, defaults: seq<string>)
    ensures var r := WithDefaults(hints, defaults);
      |hints| <= |r| <= |hints| + |defaults| && r[..|hints|] == hints
      && (forall k :: 0 <= k < |defaults| ==> Text.Lower(defaults[k]) in Text.Lowered(r))
      && (forall i :: |hints| <= i < |r| ==> r[i] in defaults)
      && (forall i, j :: 0 <= i < j < |r| && |hints| <= j ==> Text.Lower(r[i]) != Text.Lower(r[j]))
    decreases |defaults|
  {
    if defaults != [] {
      var init := defaults[..|defaults| - 1];
      var prev := WithDefaults(hints, init);
      var d := defaults[|defaults| - 1];
      ScopeFacts(hints, init);
      var r := WithDefaults(hints, defaults);
      forall k | 0 <= k < |defaults| ensures Text.Lower(defaults[k]) in Text.Lowered(r) {
        if k < |defaults| - 1 {
          assert defaults[k] == init[k];
          var i :| 0 <= i < |prev| && Text.Lowered(prev)[i] == Text.Lower(defaults[k]);
          assert Text.Lowered(r)[i] == Text.Lowered(prev)[i];
        } else if Text.Lower(d) !in Text.Lowered(prev) {
          assert Text.Lowered(r)[|prev|] == Text.Lower(d);
        }
      }
      forall i | |hints| <= i < |r| ensures r[i] in defaults {
        if i < |prev| {
          assert prev[i] in init;
        }
      }
      forall i, j | 0 <= i < j < |r| && |hints| <= j ensures Text.Lower(r[i]) != Text.Lower(r[j]) {
        if j == |prev| {
          assert Text.Lowered(prev)[i] == Text.Lower(r[i]);
        }
      }
    }
  }

  /** `after_ts`: `lookback_days` before `now`. */
  function Cutoff(now: int, lookbackDays: int): int {
    now - lookbackDays * SecondsPerDay
  }

  /** `arctic_subs`: the hints, then the default subreddits not already among them. */
  function Scope(hints: seq<string>): seq<string> {
    WithDefaults(hints, DefaultSubreddits)
  }

  /** The loop that builds `arctic_subs` (fetcher.py:439-442). */
  method BuildScope(hints: seq<string>) returns (subs: seq<string>)
    ensures subs == Scope(hints)
  {
    subs := hints;
    for i := 0 to |DefaultSubreddits|
      invariant subs == WithDefaults(hints, DefaultSubreddits[..i])
    {
      var s := DefaultSubreddits[i];
      assert DefaultSubreddits[..i + 1][..i] == DefaultSubreddits[..i];
      if Text.Lower(s) !in Text.Lowered(subs) {
        subs := subs + [s];
      }
    }
    assert DefaultSubreddits[..|DefaultSubreddits|] == DefaultSubreddits;
  }

  // ---------------------------------------------------------------------
  // The calls, in order, and the merge
  // ---------------------------------------------------------------------

  /** One adapter call of `fetch_all`, with its subreddit and keyword. */
  datatype Call =
    | ArcticCall(subreddit: string, keyword: string)
    | RedditCall(keyword: string)
    | RedditSubCall(subreddit: string, keyword: string)
    | PullpushCall(keyword: string)

  /** `for kw in keywords:` inside `for sub in subs:`, one row per subreddit. */
  function Row(sub: string, kws: seq<string>, arctic: bool): (r: seq<Call>)
    ensures |r| == |kws|
  {
    seq(|kws|, k requires 0 <= k < |kws| => if arctic then ArcticCall(sub, kws[k]) else RedditSubCall(sub, kws[k]))
  }

  lemma RowStep(calls0: seq<Call>, sub: string, kws: seq<string>, j: nat, arctic: bool)
    requires j < |kws|
    ensures calls0 + Row(sub, kws[..j + 1], arctic)
         == calls0 + Row(sub, kws[..j], arctic) + [if arctic then ArcticCall(sub, kws[j]) else RedditSubCall(sub, kws[j])]
  {
    assert Row(sub, kws[..j + 1], arctic)
        == Row(sub, kws[..j], arctic) + [if arctic then ArcticCall(sub, kws[j]) else RedditSubCall(sub, kws[j])];
  }

  function Grid(subs: seq<string>, kws: seq<string>, arctic: bool): (r: seq<Call>)
    ensures |r| == |subs| * |kws|
    decreases |subs|
  {
    if subs == [] then []
    else Grid(subs[..|subs| - 1], kws, arctic) + Row(subs[|subs| - 1], kws, arctic)
  }

  function Each(kws: seq<string>, pullpush: bool): (r: seq<Call>)
    ensures |r| == |kws|
  {
    seq(|kws|, k requires 0 <= k < |kws| => if pullpush then PullpushCall(kws[k]) else RedditCall(kws[k]))
  }

  /** The Reddit calls: every keyword globally, then every keyword in every hint subreddit. */
  function RedditCalls(hints: seq<string>, kws: seq<string>): seq<Call> {
    Each(kws, false) + Grid(hints, kws, false)
  }

  /** Every call `fetch_all` makes, in order, for the scope list `subs`. */
  function Plan(subs: seq<string>, hints: seq<string>, kws: seq<string>): seq<Call> {
    Grid(subs, kws, true) + RedditCalls(hints, kws) + Each(kws, true)
  }

  lemma RedditCallsStep(hints: seq<string>, kws: seq<string>, i: nat)
    requires i < |hints|
    ensures RedditCalls(hints[..i + 1], kws) == RedditCalls(hints[..i], kws) + Row(hints[i], kws, false)
  {
    assert hints[..i + 1][..i] == hints[..i];
  }

  lemma EachStep(kws: seq<string>, j: nat, pullpush: bool)
    requires j < |kws|
    ensures Each(kws[..j + 1], pullpush) == Each(kws[..j], pullpush) + [if pullpush then PullpushCall(kws[j]) else RedditCall(kws[j])]
  {
  }

  /** Reddit's own results are kept only from `after_ts` on; the archives' results always. */
  predicate Kept(call: Call, afterTs: int, p: RedditPost) {
    (call.RedditCall? || call.RedditSubCall?) ==> p.createdUtc >= afterTs
  }

  /** The filter `for p in posts:` applies to the posts of `call`. */
  function KeepFor(call: Call, afterTs: int): RedditPost -> bool {
    p => Kept(call, afterTs, p)
  }

  /** What one call adds to `all_posts`: nothing when it raised. */
  function MergeOne(c: Corpus, call: Call, outcome: Fetched, afterTs: int): Corpus {
    if outcome.Raised? then c else AdmitAll(c, outcome.posts, KeepFor(call, afterTs))
  }

  /** `all_posts` after the calls `calls` ended with `outcomes`. */
  function Merge(calls: seq<Call>, outcomes: seq<Fetched>, afterTs: int): Corpus
    requires |calls| == |outcomes|
    decreases |calls|
  {
    if calls == [] then Empty
    else
      var n := |calls| - 1;
      MergeOne(Merge(calls[..n], outcomes[..n], afterTs), calls[n], outcomes[n], afterTs)
  }

  /** `p` was returned by the call and passes that call's date check. */
  predicate Admitted(call: Call, outcome: Fetched, p: RedditPost, afterTs: int) {
    outcome.Returned? && p in outcome.posts && Kept(call, afterTs, p)
  }

  /** The merged dictionary stays well formed. */
  lemma {:induction false} MergeValid(calls: seq<Call>, outcomes: seq<Fetched>, afterTs: int)
    requires |calls| == |outcomes|
    ensures Valid(Merge(calls, outcomes, afterTs))
    decreases |calls|
  {
    if calls != [] {
      var n := |calls| - 1;
      MergeValid(calls[..n], outcomes[..n], afterTs);
      if outcomes[n].Returned? {
        AdmitAllKeeps(Merge(calls[..n], outcomes[..n], afterTs), outcomes[n].posts, KeepFor(calls[n], afterTs));
      }
    }
  }

  /**
    First seen wins: a post stored after the first `m` calls is never
    overwritten by a later call, and the insertion order only grows.
   */
  lemma {:induction false} MergeKeeps(calls: seq<Call>, outcomes: seq<Fetched>, afterTs: int, m: nat)
    requires |calls| == |outcomes| && m <= |calls|
    ensures var early := Merge(calls[..m], outcomes[..m], afterTs);
      var r := Merge(calls, outcomes, afterTs);
      (forall k :: k in early.byId ==> k in r.byId && r.byId[k] == early.byId[k])
      && |early.order| <= |r.order| && r.order[..|early.order|] == early.order
    decreases |calls|
  {
    if m < |calls| {
      var n := |calls| - 1;
      assert calls[..n][..m] == calls[..m] && outcomes[..n][..m] == outcomes[..m];
      MergeKeeps(calls[..n], outcomes[..n], afterTs, m);
      MergeValid(calls[..n], outcomes[..n], afterTs);
      if outcomes[n].Returned? {
        AdmitAllKeeps(Merge(calls[..n], outcomes[..n], afterTs), outcomes[n].posts, KeepFor(calls[n], afterTs));
      }
    } else {
      assert calls[..m] == calls && outcomes[..m] == outcomes;
    }
  }

  /** `p` was admitted by one of the calls. */
  predicate FromCalls(calls: seq<Call>, outcomes: seq<Fetched>, p: RedditPost, afterTs: int)
    requires |calls| == |outcomes|
  {
    exists i :: 0 <= i < |calls| && Admitted(calls[i], outcomes[i], p, afterTs)
  }

  /** A post admitted by the first `n` calls was admitted by the calls. */
  lemma FromEarlierCalls(calls: seq<Call>, outcomes: seq<Fetched>, n: nat, p: RedditPost, afterTs: int)
    requires |calls| == |outcomes| && n <= |calls|
    requires FromCalls(calls[..n], outcomes[..n], p, afterTs)
    ensures FromCalls(calls, outcomes, p, afterTs)
  {
    var i :| 0 <= i < n && Admitted(calls[..n][i], outcomes[..n][i], p, afterTs);
    assert calls[..n][i] == calls[i] && outcomes[..n][i] == outcomes[i];
  }

  /** Every stored post was admitted by some call, under its id. */
  lemma {:induction false} MergeSound(calls: seq<Call>, outcomes: seq<Fetched>, afterTs: int)
    requires |calls| == |outcomes|
    ensures var r := Merge(calls, outcomes, afterTs);
      forall k :: k in r.byId ==> r.byId[k].postId == k && FromCalls(calls, outcomes, r.byId[k], afterTs)
    decreases |calls|
  {
    MergeValid(calls, outcomes, afterTs);
    if calls != [] {
      var n := |calls| - 1;
      var before := Merge(calls[..n], outcomes[..n], afterTs);
      var r := Merge(calls, outcomes, afterTs);
      MergeSound(calls[..n], outcomes[..n], afterTs);
      MergeKeeps(calls, outcomes, afterTs, n);
      forall k | k in r.byId ensures FromCalls(calls, outcomes, r.byId[k], afterTs) {
        if k in before.byId {
          FromEarlierCalls(calls, outcomes, n, before.byId[k], afterTs);
        } else {
          var ps := outcomes[n].posts;
          AdmitAllFirst(before, ps, KeepFor(calls[n], afterTs));
          var j :| 0 <= j < |ps| && Kept(calls[n], afterTs, ps[j]) && ps[j] == r.byId[k];
          assert Admitted(calls[n], outcomes[n], r.byId[k], afterTs);
        }
      }
    }
  }

  /** The post stored under `k` carries id `k` and was admitted by one of the calls. */
  lemma StoredFromCalls(calls: seq<Call>, outcomes: seq<Fetched>, afterTs: int, k: string)
    requires |calls| == |outcomes| && k in Merge(calls, outcomes, afterTs).byId
    ensures Merge(calls, outcomes, afterTs).byId[k].postId == k
    ensures FromCalls(calls, outcomes, Merge(calls, outcomes, afterTs).byId[k], afterTs)
  {
    MergeSound(calls, outcomes, afterTs);
  }

  /** An id no call before call `i` admitted is not stored before call `i`. */
  lemma NoEarlierId(calls: seq<Call>, outcomes: seq<Fetched>, afterTs: int, i: nat, k: string)
    requires |calls| == |outcomes| && i <= |calls|
    requires forall i', p :: 0 <= i' < i && Admitted(calls[i'], outcomes[i'], p, afterTs) ==> p.postId != k
    ensures k !in Merge(calls[..i], outcomes[..i], afterTs).byId
  {
    var early := Merge(calls[..i], outcomes[..i], afterTs);
    if k in early.byId {
      StoredFromCalls(calls[..i], outcomes[..i], afterTs, k);
    }
  }

  /**
    First seen wins across calls: when call `i` is the first call that
    admitted a post with id `k`, the post stored under `k` is the first post
    of that call's batch with id `k` that passed its date check.
   */
  lemma MergeFirstSeen(calls: seq<Call>, outcomes: seq<Fetched>, afterTs: int, i: nat, k: string)
    requires |calls| == |outcomes| && i < |calls|
    requires exists p :: Admitted(calls[i], outcomes[i], p, afterTs) && p.postId == k
    requires forall i', p :: 0 <= i' < i && Admitted(calls[i'], outcomes[i'], p, afterTs) ==> p.postId != k
    ensures var r := Merge(calls, outcomes, afterTs);
      var ps := outcomes[i].posts;
      k in r.byId
      && exists j :: 0 <= j < |ps| && Kept(calls[i], afterTs, ps[j]) && ps[j] == r.byId[k]
           && forall j' :: 0 <= j' < j ==> !(Kept(calls[i], afterTs, ps[j']) && ps[j'].postId == k)
  {
    var early := Merge(calls[..i], outcomes[..i], afterTs);
    var mid := Merge(calls[..i + 1], outcomes[..i + 1], afterTs);
    var ps := outcomes[i].posts;
    var keep := KeepFor(calls[i], afterTs);
    NoEarlierId(calls, outcomes, afterTs, i, k);
    assert calls[..i + 1][..i] == calls[..i] && outcomes[..i + 1][..i] == outcomes[..i];
    assert mid == AdmitAll(early, ps, keep);
    var p :| Admitted(calls[i], outcomes[i], p, afterTs) && p.postId == k;
    var j :| 0 <= j < |ps| && ps[j] == p;
    assert keep(ps[j]);
    AdmitAllKeys(early, ps, keep);
    AdmitAllFirst(early, ps, keep);
    MergeKeeps(calls, outcomes, afterTs, i + 1);
  }

  /** Every post a call admitted ends up stored under its id; `MergeFirstSeen` says which post. */
  lemma {:induction false} MergeComplete(calls: seq<Call>, outcomes: seq<Fetched>, afterTs: int)
    requires |calls| == |outcomes|
    ensures var r := Merge(calls, outcomes, afterTs);
      forall i, p :: 0 <= i < |calls| && Admitted(calls[i], outcomes[i], p, afterTs) ==> p.postId in r.byId
    decreases |calls|
  {
    if calls != [] {
      var n := |calls| - 1;
      var before := Merge(calls[..n], outcomes[..n], afterTs);
      var r := Merge(calls, outcomes, afterTs);
      MergeComplete(calls[..n], outcomes[..n], afterTs);
      MergeKeeps(calls, outcomes, afterTs, n);
      forall i, p | 0 <= i < |calls| && Admitted(calls[i], outcomes[i], p, afterTs) ensures p.postId in r.byId {
        if i < n {
          assert Admitted(calls[..n][i], outcomes[..n][i], p, afterTs);
        } else {
          var ps := outcomes[n].posts;
          var j :| 0 <= j < |ps| && ps[j] == p;
          AdmitAllKeys(before, ps, KeepFor(calls[n], afterTs));
        }
      }
    }
  }

  /**
    The date filter: a stored post that no archive call returned came from
    Reddit's own search and is no older than `after_ts`.
   */
  lemma RedditPostsRecent(calls: seq<Call>, outcomes: seq<Fetched>, afterTs: int, k: string)
    requires |calls| == |outcomes|
    requires k in Merge(calls, outcomes, afterTs).byId
    requires forall i :: 0 <= i < |calls| && (calls[i].ArcticCall? || calls[i].PullpushCall?) && outcomes[i].Returned?
               ==> Merge(calls, outcomes, afterTs).byId[k] !in outcomes[i].posts
    ensures Merge(calls, outcomes, afterTs).byId[k].createdUtc >= afterTs
  {
    MergeSound(calls, outcomes, afterTs);
    var p := Merge(calls, outcomes, afterTs).byId[k];
    var i :| 0 <= i < |calls| && Admitted(calls[i], outcomes[i], p, afterTs);
  }

  // ---------------------------------------------------------------------
  // The result
  // ---------------------------------------------------------------------

  function Created(p: RedditPost): int {
    p.createdUtc
  }

  /** `sorted(all_posts.values(), key=lambda p: p.created_utc, reverse=True)` */
  function Newest(c: Corpus): seq<RedditPost>
    requires forall k :: k in c.order ==> k in c.byId
  {
    Sorting.SortDesc(Values(c), Created)
  }

  /** No two posts of `s` share an id. */
  predicate UniqueIds(s: seq<RedditPost>) {
    forall i, j :: 0 <= i < j < |s| ==> s[i].postId != s[j].postId
  }

  /**
    The result holds every stored post, newest first, is a permutation of
    the stored posts, and has as many posts as distinct ids were stored.
   */
  lemma NewestFacts(c: Corpus)
    requires Valid(c)
    ensures var r := Newest(c);
      Sorting.NonIncreasing(r, Created)
      && multiset(r) == multiset(Values(c))
      && |r| == |c.byId|
      && (forall k :: k in c.byId ==> c.byId[k] in r)
  {
    var vs := Values(c);
    var r := Newest(c);
    Sorting.SortDescFacts(vs, Created);
    ValuesCover(c);
    ValuesOnce(c);
    forall k | k in c.byId ensures c.byId[k] in r {
      assert c.byId[k] in multiset(vs);
    }
  }

  /** The result holds each stored id once. */
  lemma NewestUnique(c: Corpus)
    requires Valid(c)
    ensures UniqueIds(Newest(c))
  {
    Sorting.SortDescFacts(Values(c), Created);
    ValuesOnce(c);
    PermutationUnique(Values(c), Newest(c));
  }

  /** Reordering a sequence keeps its ids distinct. */
  lemma PermutationUnique(vs: seq<RedditPost>, r: seq<RedditPost>)
    requires UniqueIds(vs) && multiset(r) == multiset(vs)
    ensures UniqueIds(r)
  {
    forall i, j | 0 <= i < j < |r| ensures r[i].postId != r[j].postId {
      assert r[i] in multiset(vs) && r[j] in multiset(vs);
      var a :| 0 <= a < |vs| && vs[a] == r[i];
      var b :| 0 <= b < |vs| && vs[b] == r[j];
      if r[i].postId == r[j].postId {
        assert a == b;
        Sorting.CountTwice(r, i, j);
        DistinctOnce(vs, a);
      }
    }
  }

  /** In a sequence of posts with distinct ids, each element occurs once. */
  lemma {:induction false} DistinctOnce(s: seq<RedditPost>, a: nat)
    requires a < |s| && UniqueIds(s)
    ensures multiset(s)[s[a]] == 1
    decreases |s|
  {
    var n := |s| - 1;
    assert s == s[..n] + [s[n]];
    if a < n {
      DistinctOnce(s[..n], a);
      assert s[n] != s[a];
    } else {
      assert s[n] !in s[..n];
    }
  }

  // ---------------------------------------------------------------------
  // Diagnostics and progress messages
  // ---------------------------------------------------------------------

  /** `len(all_posts)` never shrinks as calls are merged. */
  lemma MergeGrows(calls: seq<Call>, outcomes: seq<Fetched>, more: seq<Call>, moreOutcomes: seq<Fetched>, afterTs: int)
    requires |calls| == |outcomes| && |more| == |moreOutcomes|
    ensures |Merge(calls, outcomes, afterTs).byId| <= |Merge(calls + more, outcomes + moreOutcomes, afterTs).byId|
  {
    var cs := calls + more;
    var os := outcomes + moreOutcomes;
    MergeKeeps(cs, os, afterTs, |calls|);
    assert cs[..|calls|] == calls && os[..|calls|] == outcomes;
    KeysGrow(Merge(calls, outcomes, afterTs).byId, Merge(cs, os, afterTs).byId);
  }

  lemma KeysGrow<K, V>(a: map<K, V>, b: map<K, V>)
    requires forall k :: k in a ==> k in b
    ensures |a| <= |b|
  {
    assert b.Keys == a.Keys + (b.Keys - a.Keys);
  }

  /** Recording one more call after `calls0` and `calls` extends the merge by that call. */
  lemma MergeAppend(calls0: seq<Call>, outcomes0: seq<Fetched>, calls: seq<Call>, outcomes: seq<Fetched>,
                    call: Call, outcome: Fetched, afterTs: int)
    requires |calls0| == |outcomes0| && |calls| == |outcomes|
    ensures Merge(calls0 + (calls + [call]), outcomes0 + (outcomes + [outcome]), afterTs)
         == MergeOne(Merge(calls0 + calls, outcomes0 + outcomes, afterTs), call, outcome, afterTs)
  {
    assert calls0 + (calls + [call]) == (calls0 + calls) + [call];
    assert outcomes0 + (outcomes + [outcome]) == (outcomes0 + outcomes) + [outcome];
    MergeStep(calls0 + calls, outcomes0 + outcomes, call, outcome, afterTs);
  }

  /** The number of calls that raised (`arctic_errors`). */
  function RaisedCount(outcomes: seq<Fetched>): (n: nat)
    ensures n <= |outcomes|
    decreases |outcomes|
  {
    if outcomes == [] then 0
    else RaisedCount(outcomes[..|outcomes| - 1]) + if outcomes[|outcomes| - 1].Raised? then 1 else 0
  }

  function ArcticDiagnostic(count: nat, subs: nat, errors: nat): string {
    "Arctic Shift: " + Text.NatToString(count) + " posts from " + Text.NatToString(subs) + " subs"
    + if errors > 0 then " (" + Text.NatToString(errors) + " errors)" else ""
  }

  function RedditDiagnostic(added: nat): string {
    "Reddit: +" + Text.NatToString(added) + " new posts"
  }

  function PullpushDiagnostic(added: nat): string {
    "Pullpush: +" + Text.NatToString(added) + " new posts"
  }

  /** The three entries of `diagnostics`, appended one per source. */
  function Diagnostics(arcticCount: nat, subs: nat, errors: nat, redditAdded: nat, pullpushAdded: nat): (r: seq<string>)
    ensures |r| == 3
  {
    [ArcticDiagnostic(arcticCount, subs, errors)] + [RedditDiagnostic(redditAdded)] + [PullpushDiagnostic(pullpushAdded)]
  }

  function StartMessage(): string {
    "Searching Arctic Shift archive (primary)..."
  }

  function ArcticMessage(arcticCount: nat): string {
    "Arctic Shift: " + Text.NatToString(arcticCount) + " posts. Now trying Reddit..."
  }

  function PullpushMessage(soFar: nat): string {
    "Total so far: " + Text.NatToString(soFar) + ". Trying Pullpush..."
  }

  function DoneMessage(total: nat, diagnostics: seq<string>): string {
    "Fetched " + Text.NatToString(total) + " unique posts. [" + Text.Join(diagnostics, " | ") + "]"
  }

  /** What `progress_callback` receives, in order, when one is given. */
  function Messages(report: bool, arcticCount: nat, soFar: nat, total: nat, diagnostics: seq<string>): (r: seq<string>)
    ensures report <==> |r| == 4
    ensures !report <==> r == []
  {
    if !report then []
    else [StartMessage()] + [ArcticMessage(arcticCount)] + [PullpushMessage(soFar)] + [DoneMessage(total, diagnostics)]
  }

  /** `f'"{kw}"'`: Reddit is asked for the exact phrase. */
  function Quoted(kw: string): string {
    "\"" + kw + "\""
  }

  // ---------------------------------------------------------------------
  // The orchestrator
  // ---------------------------------------------------------------------

  /** `for p in posts: if keep(p) and p.post_id not in all_posts: all_posts[p.post_id] = p` */
  method Absorb(c: Corpus, posts: seq<RedditPost>, call: Call, afterTs: int) returns (r: Corpus)
    ensures r == AdmitAll(c, posts, KeepFor(call, afterTs))
  {
    r := c;
    for i := 0 to |posts|
      invariant r == AdmitAll(c, posts[..i], KeepFor(call, afterTs))
    {
      assert posts[..i + 1][..i] == posts[..i];
      var p := posts[i];
      if Kept(call, afterTs, p) && p.postId !in r.byId {
        r := Corpus(r.order + [p.postId], r.byId[p.postId := p]);
      }
    }
    assert posts[..|posts|] == posts;
  }

  lemma RaisedCountStep(outcomes: seq<Fetched>, out: Fetched)
    ensures RaisedCount(outcomes + [out]) == RaisedCount(outcomes) + if out.Raised? then 1 else 0
  {
    assert (outcomes + [out])[..|outcomes|] == outcomes;
  }

  /** Recording one more call extends the merge by that call. */
  lemma MergeStep(calls: seq<Call>, outcomes: seq<Fetched>, call: Call, outcome: Fetched, afterTs: int)
    requires |calls| == |outcomes|
    ensures Merge(calls + [call], outcomes + [outcome], afterTs)
         == MergeOne(Merge(calls, outcomes, afterTs), call, outcome, afterTs)
  {
    assert (calls + [call])[..|calls|] == calls;
    assert (outcomes + [outcome])[..|outcomes|] == outcomes;
  }

  /**
    What `fetch_all` returns and reports, for the scope `subs` and the
    outcomes of the Arctic Shift, Reddit and Pullpush calls: the merged
    posts newest first; per-source counts that only grow; the diagnostics
    and the progress messages built from those counts.
   */
  ghost predicate Reported(subs: seq<string>, hints: seq<string>, kws: seq<string>, afterTs: int,
                           arcticOutcomes: seq<Fetched>, redditOutcomes: seq<Fetched>, pullpushOutcomes: seq<Fetched>,
                           report: bool, r: seq<RedditPost>, diagnostics: seq<string>, messages: seq<string>)
  {
    |arcticOutcomes| == |subs| * |kws| && |redditOutcomes| == |RedditCalls(hints, kws)|
    && |pullpushOutcomes| == |kws|
    && ReportedPosts(subs, hints, kws, afterTs, arcticOutcomes + redditOutcomes + pullpushOutcomes, r)
    && ReportedCounts(subs, arcticOutcomes, report,
                      |Merge(Grid(subs, kws, true), arcticOutcomes, afterTs).byId|,
                      |Merge(Grid(subs, kws, true) + RedditCalls(hints, kws), arcticOutcomes + redditOutcomes, afterTs).byId|,
                      |Merge(Plan(subs, hints, kws), arcticOutcomes + redditOutcomes + pullpushOutcomes, afterTs).byId|,
                      diagnostics, messages)
  }

  /** The result is the merge of every call, newest first. */
  ghost predicate ReportedPosts(subs: seq<string>, hints: seq<string>, kws: seq<string>, afterTs: int,
                                outcomes: seq<Fetched>, r: seq<RedditPost>)
  {
    |outcomes| == |Plan(subs, hints, kws)|
    && var all := Merge(Plan(subs, hints, kws), outcomes, afterTs);
    Valid(all) && r == Newest(all)
  }

  /**
    The per-source counts `arcticCount <= soFar <= total` only grow, and the
    diagnostics and messages are built from them.
   */
  predicate ReportedCounts(subs: seq<string>, arcticOutcomes: seq<Fetched>, report: bool,
                           arcticCount: nat, soFar: nat, total: nat, diagnostics: seq<string>, messages: seq<string>)
  {
    arcticCount <= soFar <= total
    && diagnostics == Diagnostics(arcticCount, |subs|, RaisedCount(arcticOutcomes), soFar - arcticCount, total - soFar)
    && messages == Messages(report, arcticCount, soFar, total, diagnostics)
  }



  lemma ReportedIntro(subs: seq<string>, hints: seq<string>, kws: seq<string>, afterTs: int,
                      arcticOutcomes: seq<Fetched>, redditOutcomes: seq<Fetched>, pullpushOutcomes: seq<Fetched>,
                      report: bool, r: seq<RedditPost>, diagnostics: seq<string>, messages: seq<string>,
                      errors: nat, all: Corpus, soFar: Corpus, arctic: Corpus, a: nat, b: nat, t: nat)
    requires |arcticOutcomes| == |subs| * |kws| && |redditOutcomes| == |RedditCalls(hints, kws)|
    requires |pullpushOutcomes| == |kws|
    requires arctic == Merge(Grid(subs, kws, true), arcticOutcomes, afterTs)
    requires soFar == Merge(Grid(subs, kws, true) + RedditCalls(hints, kws), arcticOutcomes + redditOutcomes, afterTs)
    requires all == Merge(Plan(subs, hints, kws), arcticOutcomes + redditOutcomes + pullpushOutcomes, afterTs)
    requires Valid(all) && r == Newest(all) && errors == RaisedCount(arcticOutcomes)
    requires a == |arctic.byId| && b == |soFar.byId| && t == |all.byId| && a <= b <= t
    requires diagnostics == Diagnostics(a, |subs|, errors, b - a, t - b)
    requires messages == Messages(report, a, b, t, diagnostics)
    ensures Reported(subs, hints, kws, afterTs, arcticOutcomes, redditOutcomes, pullpushOutcomes, report,
                     r, diagnostics, messages)
  {
    assert ReportedPosts(subs, hints, kws, afterTs, arcticOutcomes + redditOutcomes + pullpushOutcomes, r);
    assert ReportedCounts(subs, arcticOutcomes, report, a, b, t, diagnostics, messages);
  }

  /** Reddit's adapter state around one call: endpoint index, session log and clock log. */
  datatype RedditState = RedditState(idx: nat, sent: seq<RedditSearch.Request>, slept: seq<int>)

  class MultiSourceFetcher {
    const arctic: ArcticShift.ArcticShiftFetcher
    const reddit: RedditSearch.RedditSearchFetcher
    const pullpush: Pullpush.PullpushFetcher

    /** The three adapters, their sessions answering with the given replies. */
    constructor (arcticReplies: seq<Reply<ArcticShift.Body>>, redditReplies: seq<Reply<RedditSearch.Body>>,
                 pullpushReplies: seq<Reply<Pullpush.Body>>, redditRateLimit: int)
      ensures fresh(arctic) && fresh(arctic.session) && arctic.rateLimit == 1
      ensures fresh(reddit) && fresh(reddit.session) && reddit.Valid() && reddit.rateLimit == redditRateLimit
      ensures fresh(pullpush) && fresh(pullpush.session) && pullpush.rateLimit == 1
    {
      arctic := new ArcticShift.ArcticShiftFetcher(arcticReplies, 1);
      reddit := new RedditSearch.RedditSearchFetcher(redditReplies, redditRateLimit);
      pullpush := new Pullpush.PullpushFetcher(pullpushReplies, 1);
    }

    /** Arctic Shift's `search_subreddit` answered `call` with `outcome`, moving its log from `log` to `log'`. */
    ghost predicate ArcticRan(call: Call, afterDate: int, log: seq<ArcticShift.Query>, outcome: Fetched,
                              log': seq<ArcticShift.Query>)
    {
      call.ArcticCall?
      && var run := ArcticShift.SearchRun(ArcticShift.Search(call.subreddit, call.keyword, afterDate, 100, 5, 2,
                                                             arctic.rateLimit), arctic.session.script, log);
      outcome == run.outcome && log' == run.sent
    }

    /**
      The session log after each of the Arctic Shift `calls`: `logs[n]`
      before call `n`, and each call answered as `search_subreddit` does.
     */
    ghost predicate ArcticLog(calls: seq<Call>, afterDate: int, outcomes: seq<Fetched>,
                              logs: seq<seq<ArcticShift.Query>>)
      decreases |calls|
    {
      |outcomes| == |calls| && |logs| == |calls| + 1
      && (calls != [] ==>
            var n := |calls| - 1;
            ArcticLog(calls[..n], afterDate, outcomes[..n], logs[..n + 1])
            && ArcticRan(calls[n], afterDate, logs[n], outcomes[n], logs[n + 1]))
    }

    /** Recording one more answered call extends the log. */
    lemma ArcticLogStep(calls: seq<Call>, afterDate: int, outcomes: seq<Fetched>, logs: seq<seq<ArcticShift.Query>>,
                        call: Call, out: Fetched, log': seq<ArcticShift.Query>)
      requires ArcticLog(calls, afterDate, outcomes, logs)
      requires ArcticRan(call, afterDate, logs[|calls|], out, log')
      ensures ArcticLog(calls + [call], afterDate, outcomes + [out], logs + [log'])
      ensures (logs + [log'])[0] == logs[0]
    {
      assert (calls + [call])[..|calls|] == calls;
      assert (outcomes + [out])[..|outcomes|] == outcomes;
      assert (logs + [log'])[..|logs|] == logs;
    }

    /** One Arctic Shift call and its merge into `all_posts`. */
    method ArcticOne(sub: string, kw: string, afterTs: int, c: Corpus, clock: Clock)
      returns (c': Corpus, out: Fetched)
      modifies arctic.session, clock
      ensures ArcticRan(ArcticCall(sub, kw), ArcticShift.DayOf(afterTs), old(arctic.session.sent), out, arctic.session.sent)
      ensures c' == MergeOne(c, ArcticCall(sub, kw), out, afterTs)
    {
      out := arctic.SearchSubreddit(sub, kw, ArcticShift.DayOf(afterTs), 100, 5, 2, clock);
      c' := c;
      if out.Returned? {
        c' := Absorb(c, out.posts, ArcticCall(sub, kw), afterTs);
      }
    }

    /** `for kw in keywords:` for one subreddit of the Arctic Shift scope. */
    method ArcticRow(sub: string, kws: seq<string>, afterTs: int, c0: Corpus, errors0: nat,
                     ghost calls0: seq<Call>, ghost outcomes0: seq<Fetched>, ghost logs0: seq<seq<ArcticShift.Query>>,
                     clock: Clock)
      returns (c: Corpus, errors: nat, ghost outcomes: seq<Fetched>, ghost logs: seq<seq<ArcticShift.Query>>)
      requires ArcticLog(calls0, ArcticShift.DayOf(afterTs), outcomes0, logs0)
      requires logs0[|calls0|] == arctic.session.sent
      requires c0 == Merge(calls0, outcomes0, afterTs) && errors0 == RaisedCount(outcomes0)
      modifies arctic.session, clock
      ensures var calls := calls0 + Row(sub, kws, true);
        ArcticLog(calls, ArcticShift.DayOf(afterTs), outcomes, logs) && logs[|calls|] == arctic.session.sent
        && logs[0] == logs0[0] && c == Merge(calls, outcomes, afterTs) && errors == RaisedCount(outcomes)
    {
      c, errors, outcomes, logs := c0, errors0, outcomes0, logs0;
      ghost var calls := calls0;
      for j := 0 to |kws|
        invariant calls == calls0 + Row(sub, kws[..j], true)
        invariant ArcticLog(calls, ArcticShift.DayOf(afterTs), outcomes, logs) && logs[|calls|] == arctic.session.sent
        invariant logs[0] == logs0[0]
        invariant c == Merge(calls, outcomes, afterTs) && errors == RaisedCount(outcomes)
      {
        var call := ArcticCall(sub, kws[j]);
        var out;
        c, out := ArcticOne(sub, kws[j], afterTs, c, clock);
        MergeStep(calls, outcomes, call, out, afterTs);
        ArcticLogStep(calls, ArcticShift.DayOf(afterTs), outcomes, logs, call, out, arctic.session.sent);
        RaisedCountStep(outcomes, out);
        if out.Raised? {
          errors := errors + 1;
        }
        RowStep(calls0, sub, kws, j, true);
        calls := calls + [call];
        outcomes := outcomes + [out];
        logs := logs + [arctic.session.sent];
      }
      assert kws[..|kws|] == kws;
    }

    /** Source 1: Arctic Shift, every keyword in every subreddit of the scope. */
    method ArcticPhase(subs: seq<string>, kws: seq<string>, afterTs: int, clock: Clock)
      returns (c: Corpus, errors: nat, ghost outcomes: seq<Fetched>, ghost logs: seq<seq<ArcticShift.Query>>)
      modifies arctic.session, clock
      ensures ArcticLog(Grid(subs, kws, true), ArcticShift.DayOf(afterTs), outcomes, logs)
      ensures logs[0] == old(arctic.session.sent) && logs[|outcomes|] == arctic.session.sent
      ensures c == Merge(Grid(subs, kws, true), outcomes, afterTs) && errors == RaisedCount(outcomes)
    {
      c := Empty;
      errors := 0;
      outcomes := [];
      logs := [arctic.session.sent];
      for i := 0 to |subs|
        invariant ArcticLog(Grid(subs[..i], kws, true), ArcticShift.DayOf(afterTs), outcomes, logs)
        invariant logs[0] == old(arctic.session.sent) && logs[|outcomes|] == arctic.session.sent
        invariant c == Merge(Grid(subs[..i], kws, true), outcomes, afterTs) && errors == RaisedCount(outcomes)
      {
        assert subs[..i + 1][..i] == subs[..i];
        c, errors, outcomes, logs := ArcticRow(subs[i], kws, afterTs, c, errors, Grid(subs[..i], kws, true),
                                               outcomes, logs, clock);
      }
      assert subs[..|subs|] == subs;
    }
  
    /** Reddit's `search` or `search_subreddit` answered `call` with `outcome`, moving from `st` to `st'`. */
    ghost predicate RedditRan(call: Call, st: RedditState, outcome: Fetched, st': RedditState) {
      (call.RedditCall? || call.RedditSubCall?)
      && var a := if call.RedditCall?
                  then RedditSearch.GlobalSearch(Quoted(call.keyword), "new", "year", 100, 3, reddit.rateLimit)
                  else RedditSearch.SubredditSearch(call.subreddit, Quoted(call.keyword), "new", "year", 100, 3,
                                                    reddit.rateLimit);
      var run := RedditSearch.Paging(a, 0, None, st.idx, reddit.session.script, [], st.sent, st.slept);
      outcome == run.outcome && st' == RedditState(run.idx, run.sent, run.waits)
    }

    /** The Reddit adapter's state before each of the Reddit `calls`, and after the last. */
    ghost predicate RedditLog(calls: seq<Call>, outcomes: seq<Fetched>, states: seq<RedditState>)
      decreases |calls|
    {
      |outcomes| == |calls| && |states| == |calls| + 1
      && (calls != [] ==>
            var n := |calls| - 1;
            RedditLog(calls[..n], outcomes[..n], states[..n + 1])
            && RedditRan(calls[n], states[n], outcomes[n], states[n + 1]))
    }

    lemma RedditLogStep(calls: seq<Call>, outcomes: seq<Fetched>, states: seq<RedditState>,
                        call: Call, out: Fetched, st': RedditState)
      requires RedditLog(calls, outcomes, states)
      requires RedditRan(call, states[|calls|], out, st')
      ensures RedditLog(calls + [call], outcomes + [out], states + [st'])
      ensures (states + [st'])[0] == states[0]
    {
      assert (calls + [call])[..|calls|] == calls;
      assert (outcomes + [out])[..|outcomes|] == outcomes;
      assert (states + [st'])[..|states|] == states;
    }

    ghost function RedditNow(clock: Clock): RedditState
      reads reddit, reddit.session, clock
    {
      RedditState(reddit.workingEndpointIdx, reddit.session.sent, clock.slept)
    }

    /** One Reddit search and its merge into `all_posts`, keeping recent posts only. */
    method RedditOne(call: Call, afterTs: int, c: Corpus, clock: Clock) returns (c': Corpus, out: Fetched)
      requires reddit.Valid() && (call.RedditCall? || call.RedditSubCall?)
      modifies reddit, reddit.session, clock
      ensures reddit.Valid()
      ensures RedditRan(call, old(RedditNow(clock)), out, RedditNow(clock))
      ensures c' == MergeOne(c, call, out, afterTs)
    {
      if call.RedditCall? {
        out := reddit.Search(Quoted(call.keyword), "new", "year", 100, 3, clock);
      } else {
        out := reddit.SearchSubreddit(call.subreddit, Quoted(call.keyword), "new", "year", 100, 3, clock);
      }
      c' := c;
      if out.Returned? {
        c' := Absorb(c, out.posts, call, afterTs);
      }
    }

    /** `for kw in keywords:` in one hint subreddit, on Reddit. */
    method RedditRow(sub: string, kws: seq<string>, afterTs: int, c0: Corpus,
                     ghost calls0: seq<Call>, ghost outcomes0: seq<Fetched>,
                     ghost rcalls0: seq<Call>, ghost routs0: seq<Fetched>, ghost states0: seq<RedditState>,
                     clock: Clock)
      returns (c: Corpus, ghost routs: seq<Fetched>, ghost states: seq<RedditState>)
      requires reddit.Valid() && |calls0| == |outcomes0|
      requires RedditLog(rcalls0, routs0, states0) && states0[|rcalls0|] == RedditNow(clock)
      requires c0 == Merge(calls0 + rcalls0, outcomes0 + routs0, afterTs)
      modifies reddit, reddit.session, clock
      ensures reddit.Valid()
      ensures var rcalls := rcalls0 + Row(sub, kws, false);
        RedditLog(rcalls, routs, states) && states[|rcalls|] == RedditNow(clock) && states[0] == states0[0]
        && c == Merge(calls0 + rcalls, outcomes0 + routs, afterTs)
    {
      c, routs, states := c0, routs0, states0;
      ghost var rcalls := rcalls0;
      for j := 0 to |kws|
        invariant reddit.Valid()
        invariant rcalls == rcalls0 + Row(sub, kws[..j], false)
        invariant RedditLog(rcalls, routs, states) && states[|rcalls|] == RedditNow(clock) && states[0] == states0[0]
        invariant c == Merge(calls0 + rcalls, outcomes0 + routs, afterTs)
      {
        var call := RedditSubCall(sub, kws[j]);
        var out;
        c, out := RedditOne(call, afterTs, c, clock);
        MergeAppend(calls0, outcomes0, rcalls, routs, call, out, afterTs);
        RedditLogStep(rcalls, routs, states, call, out, RedditNow(clock));
        RowStep(rcalls0, sub, kws, j, false);
        rcalls := rcalls + [call];
        routs := routs + [out];
        states := states + [RedditNow(clock)];
      }
      assert kws[..|kws|] == kws;
    }

    /** `for kw in keywords:` on Reddit's global search. */
    method RedditGlobal(kws: seq<string>, afterTs: int, c0: Corpus,
                        ghost calls0: seq<Call>, ghost outcomes0: seq<Fetched>, clock: Clock)
      returns (c: Corpus, ghost routs: seq<Fetched>, ghost states: seq<RedditState>)
      requires reddit.Valid() && |calls0| == |outcomes0| && c0 == Merge(calls0, outcomes0, afterTs)
      modifies reddit, reddit.session, clock
      ensures reddit.Valid()
      ensures RedditLog(Each(kws, false), routs, states)
      ensures states[0] == old(RedditNow(clock)) && states[|routs|] == RedditNow(clock)
      ensures c == Merge(calls0 + Each(kws, false), outcomes0 + routs, afterTs)
    {
      c, routs, states := c0, [], [RedditNow(clock)];
      ghost var rcalls: seq<Call> := [];
      assert calls0 + [] == calls0 && outcomes0 + [] == outcomes0;
      for j := 0 to |kws|
        invariant reddit.Valid()
        invariant rcalls == Each(kws[..j], false)
        invariant RedditLog(rcalls, routs, states) && states[|rcalls|] == RedditNow(clock)
        invariant states[0] == old(RedditNow(clock))
        invariant c == Merge(calls0 + rcalls, outcomes0 + routs, afterTs)
      {
        var call := RedditCall(kws[j]);
        var out;
        c, out := RedditOne(call, afterTs, c, clock);
        MergeAppend(calls0, outcomes0, rcalls, routs, call, out, afterTs);
        RedditLogStep(rcalls, routs, states, call, out, RedditNow(clock));
        EachStep(kws, j, false);
        rcalls := rcalls + [call];
        routs := routs + [out];
        states := states + [RedditNow(clock)];
      }
      assert kws[..|kws|] == kws;
    }

    /** Source 2: Reddit's own search, every keyword globally, then in every hint subreddit. */
    method RedditPhase(hints: seq<string>, kws: seq<string>, afterTs: int, c0: Corpus,
                       ghost calls0: seq<Call>, ghost outcomes0: seq<Fetched>, clock: Clock)
      returns (c: Corpus, ghost routs: seq<Fetched>, ghost states: seq<RedditState>)
      requires reddit.Valid() && |calls0| == |outcomes0| && c0 == Merge(calls0, outcomes0, afterTs)
      modifies reddit, reddit.session, clock
      ensures reddit.Valid()
      ensures RedditLog(RedditCalls(hints, kws), routs, states)
      ensures states[0] == old(RedditNow(clock)) && states[|routs|] == RedditNow(clock)
      ensures c == Merge(calls0 + RedditCalls(hints, kws), outcomes0 + routs, afterTs)
    {
      c, routs, states := RedditGlobal(kws, afterTs, c0, calls0, outcomes0, clock);
      ghost var rcalls := Each(kws, false);
      assert RedditCalls(hints[..0], kws) == rcalls;
      for i := 0 to |hints|
        invariant reddit.Valid()
        invariant rcalls == RedditCalls(hints[..i], kws)
        invariant RedditLog(rcalls, routs, states) && states[|rcalls|] == RedditNow(clock)
        invariant states[0] == old(RedditNow(clock))
        invariant c == Merge(calls0 + rcalls, outcomes0 + routs, afterTs)
      {
        RedditCallsStep(hints, kws, i);
        c, routs, states := RedditRow(hints[i], kws, afterTs, c, calls0, outcomes0, rcalls, routs, states, clock);
        rcalls := rcalls + Row(hints[i], kws, false);
      }
      assert hints[..|hints|] == hints;
    }

    /** Pullpush's `search` answered `call` with `outcome`, moving its log from `log` to `log'`. */
    ghost predicate PullpushRan(call: Call, afterTs: int, now: int, log: seq<Pullpush.Query>, outcome: Fetched,
                                log': seq<Pullpush.Query>)
    {
      call.PullpushCall?
      && var run := Pullpush.SearchRun(call.keyword, Some(afterTs), None, 100, 5, pullpush.rateLimit, now,
                                       pullpush.session.script, log);
      outcome == run.outcome && log' == run.sent
    }

    /** The Pullpush session log before each of the Pullpush `calls`, and after the last. */
    ghost predicate PullpushLog(calls: seq<Call>, afterTs: int, now: int, outcomes: seq<Fetched>,
                                logs: seq<seq<Pullpush.Query>>)
      decreases |calls|
    {
      |outcomes| == |calls| && |logs| == |calls| + 1
      && (calls != [] ==>
            var n := |calls| - 1;
            PullpushLog(calls[..n], afterTs, now, outcomes[..n], logs[..n + 1])
            && PullpushRan(calls[n], afterTs, now, logs[n], outcomes[n], logs[n + 1]))
    }

    lemma PullpushLogStep(calls: seq<Call>, afterTs: int, now: int, outcomes: seq<Fetched>,
                          logs: seq<seq<Pullpush.Query>>, call: Call, out: Fetched, log': seq<Pullpush.Query>)
      requires PullpushLog(calls, afterTs, now, outcomes, logs)
      requires PullpushRan(call, afterTs, now, logs[|calls|], out, log')
      ensures PullpushLog(calls + [call], afterTs, now, outcomes + [out], logs + [log'])
      ensures (logs + [log'])[0] == logs[0]
    {
      assert (calls + [call])[..|calls|] == calls;
      assert (outcomes + [out])[..|outcomes|] == outcomes;
      assert (logs + [log'])[..|logs|] == logs;
    }

    /** Source 3: Pullpush, every keyword from `after_ts` on. */
    method PullpushPhase(kws: seq<string>, afterTs: int, now: int, c0: Corpus,
                         ghost calls0: seq<Call>, ghost outcomes0: seq<Fetched>, clock: Clock)
      returns (c: Corpus, ghost pouts: seq<Fetched>, ghost logs: seq<seq<Pullpush.Query>>)
      requires |calls0| == |outcomes0| && c0 == Merge(calls0, outcomes0, afterTs)
      modifies pullpush.session, clock
      ensures PullpushLog(Each(kws, true), afterTs, now, pouts, logs)
      ensures logs[0] == old(pullpush.session.sent) && logs[|pouts|] == pullpush.session.sent
      ensures c == Merge(calls0 + Each(kws, true), outcomes0 + pouts, afterTs)
    {
      c, pouts, logs := c0, [], [pullpush.session.sent];
      ghost var pcalls: seq<Call> := [];
      assert calls0 + [] == calls0 && outcomes0 + [] == outcomes0;
      for j := 0 to |kws|
        invariant pcalls == Each(kws[..j], true)
        invariant PullpushLog(pcalls, afterTs, now, pouts, logs) && logs[|pcalls|] == pullpush.session.sent
        invariant logs[0] == old(pullpush.session.sent)
        invariant c == Merge(calls0 + pcalls, outcomes0 + pouts, afterTs)
      {
        var call := PullpushCall(kws[j]);
        var out := pullpush.Search(kws[j], Some(afterTs), None, 100, 5, now, clock);
        MergeAppend(calls0, outcomes0, pcalls, pouts, call, out, afterTs);
        PullpushLogStep(pcalls, afterTs, now, pouts, logs, call, out, pullpush.session.sent);
        EachStep(kws, j, true);
        if out.Returned? {
          c := Absorb(c, out.posts, call, afterTs);
        }
        pcalls := pcalls + [call];
        pouts := pouts + [out];
        logs := logs + [pullpush.session.sent];
      }
      assert kws[..|kws|] == kws;
    }
  
    /**
      `fetch_all(brand_config, lookback_days, progress_callback)` at time
      `now`; `report` says whether a callback was given.
     */
    method FetchAll(keywords: seq<string>, hints: seq<string>, lookbackDays: int, now: int, report: bool,
                    clock: Clock)
      returns (r: seq<RedditPost>, diagnostics: seq<string>, messages: seq<string>,
               ghost arcticOutcomes: seq<Fetched>, ghost arcticLogs: seq<seq<ArcticShift.Query>>,
               ghost redditOutcomes: seq<Fetched>, ghost redditStates: seq<RedditState>,
               ghost pullpushOutcomes: seq<Fetched>, ghost pullpushLogs: seq<seq<Pullpush.Query>>)
      requires reddit.Valid()
      modifies arctic.session, reddit, reddit.session, pullpush.session, clock
      ensures reddit.Valid()
      ensures ArcticLog(Grid(Scope(hints), keywords, true),
                        ArcticShift.DayOf(Cutoff(now, lookbackDays)), arcticOutcomes, arcticLogs)
      ensures arcticLogs[0] == old(arctic.session.sent) && arcticLogs[|arcticOutcomes|] == arctic.session.sent
      ensures RedditLog(RedditCalls(hints, keywords), redditOutcomes, redditStates)
      ensures redditStates[0].idx == old(reddit.workingEndpointIdx) && redditStates[0].sent == old(reddit.session.sent)
      ensures redditStates[|redditOutcomes|].idx == reddit.workingEndpointIdx
      ensures redditStates[|redditOutcomes|].sent == reddit.session.sent
      ensures PullpushLog(Each(keywords, true), Cutoff(now, lookbackDays), now, pullpushOutcomes, pullpushLogs)
      ensures pullpushLogs[0] == old(pullpush.session.sent) && pullpushLogs[|pullpushOutcomes|] == pullpush.session.sent
      ensures Reported(Scope(hints), hints, keywords, Cutoff(now, lookbackDays), arcticOutcomes, redditOutcomes,
                       pullpushOutcomes, report, r, diagnostics, messages)
    {
      var afterTs := Cutoff(now, lookbackDays);
      messages := if report then [StartMessage()] else [];
      var subs := BuildScope(hints);
      var c, errors;
      c, errors, arcticOutcomes, arcticLogs := ArcticPhase(subs, keywords, afterTs, clock);
      var arcticCount := |c.byId|;
      ghost var arcticMerged := Merge(Grid(subs, keywords, true), arcticOutcomes, afterTs);
      assert arcticCount == |arcticMerged.byId|;
      diagnostics := [ArcticDiagnostic(arcticCount, |subs|, errors)];
      if report {
        messages := messages + [ArcticMessage(arcticCount)];
      }

      ghost var calls := Grid(subs, keywords, true);
      assert reddit.workingEndpointIdx == old(reddit.workingEndpointIdx) && reddit.session.sent == old(reddit.session.sent);
      c, redditOutcomes, redditStates := RedditPhase(hints, keywords, afterTs, c, calls, arcticOutcomes, clock);
      MergeGrows(calls, arcticOutcomes, RedditCalls(hints, keywords), redditOutcomes, afterTs);
      var soFar := |c.byId|;
      ghost var soFarMerged := Merge(Grid(subs, keywords, true) + RedditCalls(hints, keywords),
                                     arcticOutcomes + redditOutcomes, afterTs);
      assert soFar == |soFarMerged.byId|;
      diagnostics := diagnostics + [RedditDiagnostic(soFar - arcticCount)];
      if report {
        messages := messages + [PullpushMessage(soFar)];
      }

      ghost var outcomes := arcticOutcomes + redditOutcomes;
      calls := calls + RedditCalls(hints, keywords);
      c, pullpushOutcomes, pullpushLogs := PullpushPhase(keywords, afterTs, now, c, calls, outcomes, clock);
      MergeGrows(calls, outcomes, Each(keywords, true), pullpushOutcomes, afterTs);
      var total := |c.byId|;
      diagnostics := diagnostics + [PullpushDiagnostic(total - soFar)];
      if report {
        messages := messages + [DoneMessage(total, diagnostics)];
      }

      MergeValid(calls + Each(keywords, true), outcomes + pullpushOutcomes, afterTs);
      r := Sorting.SortDesc(Values(c), Created);
      ReportedIntro(subs, hints, keywords, afterTs, arcticOutcomes, redditOutcomes, pullpushOutcomes, report,
                    r, diagnostics, messages, errors, c, soFarMerged, arcticMerged,
                    arcticCount, soFar, total);
    }
  }
}
