/**
  `BrandAnalyzer`: one LLM call per post that decides relevance and
  sentiment, with a keyword heuristic when the LLM yields nothing, and the
  loop that keeps the relevant posts as result rows.
 */
module Analyzer {
  import opened Wrappers
  import opened Net
  import opened Posts
  import Text

  /** The keys of a brand configuration the analyzer reads; a missing list reads as empty. */
  datatype BrandConfig = BrandConfig(
    name: string,
    description: Option<string>,
    category: Option<string>,
    productTerms: seq<string>,
    competitors: seq<string>,
    subredditHints: seq<string>)

  /**
    The values `COMBINED_PROMPT.format(...)` fills in; the wording of the
    template itself is not modelled.
   */
  datatype Prompt = Prompt(
    brand: string, description: string, category: string,
    title: string, body: string, subreddit: string, score: int,
    competitors: string)

  /** The prompt for `post` (analyzer.py:117-127). */
  function PromptOf(post: RedditPost, cfg: BrandConfig): (p: Prompt)
    ensures |p.title| <= 500 && |p.body| <= 1000
    ensures Text.StartsWith(post.title, p.title) && Text.StartsWith(post.selftext, p.body)
    ensures cfg.competitors == [] ==> p.competitors == NoneKnown()
    ensures p.brand == cfg.name && p.subreddit == post.subreddit && p.score == post.score
  {
    Prompt(cfg.name, Field(cfg.description, ""), Field(cfg.category, "general"),
           Text.Prefix(post.title, 500), Text.Prefix(post.selftext, 1000), post.subreddit, post.score,
           if cfg.competitors == [] then NoneKnown() else Text.Join(cfg.competitors, ", "))
  }

  function NoneKnown(): string {
    "none known"
  }

  // ---------------------------------------------------------------------
  // One LLM reply
  // ---------------------------------------------------------------------

  /**
    The JSON object the model answers with; a key it leaves out is `None`.
    `relevant` holds the truth value Python gives the key's value.
   */
  datatype Verdict = Verdict(
    relevant: Option<bool>,
    sentiment: Option<string>,
    theme: Option<string>,
    summary: Option<string>,
    competitorMentions: Option<seq<string>>)

  /** `json.loads(content)`: an object, another JSON value, or text that is not JSON. */
  datatype Decoded = Object(verdict: Verdict) | OtherValue | Invalid

  /**
    The response body's `choices[0]["message"]["content"]`: text; a missing
    key or index (`KeyError`/`IndexError`); or a value of another type on
    the way (`TypeError`/`AttributeError`).
   */
  datatype Completion = Content(text: string) | Missing | NotText

  /** How one attempt of the retry loop ends. */
  datatype Attempt = Done(result: Option<Verdict>) | RateLimited | Failed

  function Fence(): string {
    "```"
  }

  /** The last position before `n` at which `sep` occurs in `s` (`str.rfind`). */
  function LastOccurrence(s: string, sep: string, n: nat): (r: Option<nat>)
    requires n <= |s|
    ensures r.Some? ==> r.value < n && Text.OccursAt(s, sep, r.value)
                        && forall j :: r.value < j < n ==> !Text.OccursAt(s, sep, j)
    ensures r.None? ==> forall j :: 0 <= j < n ==> !Text.OccursAt(s, sep, j)
    decreases n
  {
    if n == 0 then None
    else if Text.OccursAt(s, sep, n - 1) then Some(n - 1)
    else LastOccurrence(s, sep, n - 1)
  }

  /** `s.rsplit(sep, 1)[0]`: `s` up to the last `sep`, or all of `s` when there is none. */
  function BeforeLast(s: string, sep: string): string {
    var k := LastOccurrence(s, sep, |s|);
    if k.Some? then s[..k.value] else s
  }

  /** The position of the first `c` in `s`. */
  function IndexOf(s: string, c: char): (r: Option<nat>)
    ensures r.Some? ==> r.value < |s| && s[r.value] == c && c !in s[..r.value]
    ensures r.None? <==> c !in s
  {
    if c !in s then None
    else if s[0] == c then Some(0)
    else
      var k := IndexOf(s[1..], c);
      assert s == [s[0]] + s[1..];
      Some(k.value + 1)
  }

  /**
    `content.split("\n", 1)[1].rsplit("```", 1)[0].strip()`: `None` when
    there is no newline, since `[1]` raises `IndexError`.
   */
  function Unfence(content: string): Option<string> {
    var nl := IndexOf(content, '\n');
    if nl.None? then None
    else Some(Text.Strip(BeforeLast(content[nl.value + 1..], Fence())))
  }

  /** The reply text after `.strip()` and the fence stripping of analyzer.py:82-86. */
  function Clean(text: string): Option<string> {
    var content := Text.Strip(text);
    if Text.StartsWith(content, Fence()) then Unfence(content) else Some(content)
  }

  /**
    One attempt (analyzer.py:79-108): a 429 waits and retries, another
    HTTP error or a parse failure gives `None` at once, any other exception
    retries, and an object is returned.
   */
  function Step(r: Reply<Completion>, decode: string -> Decoded): Attempt {
    if r.Transport? then Failed
    else if HttpError(r.status) then (if r.status == 429 then RateLimited else Done(None))
    else if r.body.NotJson? || r.body == Doc(Missing) then Done(None)
    else if r.body.Null? || r.body == Doc(NotText) then Failed
    else
      match Clean(r.body.doc.text)
      case None => Done(None)
      case Some(content) =>
        match decode(content)
        case Invalid => Done(None)
        case OtherValue => Failed
        case Object(v) => Done(Some(v))
  }

  /** The result of `_call_llm`, the session's log of requests and the seconds slept. */
  datatype LlmRun = LlmRun(result: Option<Verdict>, sent: seq<Prompt>, waits: seq<int>)

  /** The retry loop from attempt `attempt` on (analyzer.py:78-109). */
  function Ladder(s: seq<Reply<Completion>>, prompt: Prompt, decode: string -> Decoded, attempt: nat,
                  maxRetries: int, sent: seq<Prompt>, waits: seq<int>): LlmRun
    decreases maxRetries - attempt
  {
    if attempt >= maxRetries then LlmRun(None, sent, waits)
    else
      var sent' := sent + [prompt];
      match Step(ReplyAt(s, |sent|), decode)
      case Done(x) => LlmRun(x, sent', waits)
      case RateLimited => Ladder(s, prompt, decode, attempt + 1, maxRetries, sent', waits + [5 * (attempt + 1)])
      case Failed =>
        Ladder(s, prompt, decode, attempt + 1, maxRetries, sent', if attempt < maxRetries - 1 then waits + [1] else waits)
  }

  /** `_call_llm(prompt, max_retries)`: nothing at all without an API key. */
  function LlmCall(hasKey: bool, s: seq<Reply<Completion>>, prompt: Prompt, decode: string -> Decoded,
                   maxRetries: int, sent: seq<Prompt>): LlmRun
  {
    if !hasKey then LlmRun(None, sent, []) else Ladder(s, prompt, decode, 0, maxRetries, sent, [])
  }

  // ---------------------------------------------------------------------
  // What the call ladder promises
  // ---------------------------------------------------------------------

  /** Without an API key no request is made and no time passes. */
  lemma NoKeyNoRequest(s: seq<Reply<Completion>>, prompt: Prompt, decode: string -> Decoded, maxRetries: int,
                       sent: seq<Prompt>)
    ensures LlmCall(false, s, prompt, decode, maxRetries, sent) == LlmRun(None, sent, [])
  {
  }

  /**
    The loop makes at most `max_retries - attempt` requests, all of the
    same prompt; every reply before the last one rate-limited or failed;
    a verdict comes from the last reply only; and the run slept
    `5*(k+1)` after a 429 on attempt `k`.
   */
  lemma {:induction false} LadderFacts(s: seq<Reply<Completion>>, prompt: Prompt, decode: string -> Decoded,
                                       attempt: nat, maxRetries: int, sent: seq<Prompt>, waits: seq<int>)
    ensures var run := Ladder(s, prompt, decode, attempt, maxRetries, sent, waits);
      (exists k: nat :: (attempt + k <= maxRetries || k == 0) && run.sent == sent + Repeat(prompt, k))
      && (forall i :: |sent| <= i < |run.sent| - 1 ==> Step(ReplyAt(s, i), decode) in {RateLimited, Failed})
      && (run.result.Some? ==> |run.sent| > |sent| && Step(ReplyAt(s, |run.sent| - 1), decode) == Done(run.result))
      && waits <= run.waits
    decreases maxRetries - attempt
  {
    var run := Ladder(s, prompt, decode, attempt, maxRetries, sent, waits);
    if attempt >= maxRetries {
      assert run.sent == sent + Repeat(prompt, 0);
    } else {
      var sent' := sent + [prompt];
      var st := Step(ReplyAt(s, |sent|), decode);
      if st.Done? {
        assert run.sent == sent + Repeat(prompt, 1);
      } else {
        var waits' := if st.RateLimited? || attempt < maxRetries - 1 then waits + [if st.RateLimited? then 5 * (attempt + 1) else 1] else waits;
        assert run == Ladder(s, prompt, decode, attempt + 1, maxRetries, sent', waits');
        LadderFacts(s, prompt, decode, attempt + 1, maxRetries, sent', waits');
        var k: nat :| (attempt + 1 + k <= maxRetries || k == 0) && run.sent == sent' + Repeat(prompt, k);
        assert run.sent == sent + Repeat(prompt, k + 1);
        forall i | |sent| <= i < |run.sent| - 1 ensures Step(ReplyAt(s, i), decode) in {RateLimited, Failed} {
        }
      }
    }
  }

  /** A 429 on attempt `k` (not the last) costs `5*(k+1)` seconds, then the loop tries again. */
  lemma RateLimitBacksOff(s: seq<Reply<Completion>>, prompt: Prompt, decode: string -> Decoded,
                          attempt: nat, maxRetries: int, sent: seq<Prompt>, waits: seq<int>)
    requires attempt < maxRetries
    requires ReplyAt(s, |sent|).Response? && ReplyAt(s, |sent|).status == 429
    ensures Ladder(s, prompt, decode, attempt, maxRetries, sent, waits)
         == Ladder(s, prompt, decode, attempt + 1, maxRetries, sent + [prompt], waits + [5 * (attempt + 1)])
  {
  }

  /** Any other HTTP error gives `None` after that one request. */
  lemma HttpErrorGivesNone(s: seq<Reply<Completion>>, prompt: Prompt, decode: string -> Decoded,
                           attempt: nat, maxRetries: int, sent: seq<Prompt>, waits: seq<int>)
    requires attempt < maxRetries
    requires ReplyAt(s, |sent|).Response? && HttpError(ReplyAt(s, |sent|).status) && ReplyAt(s, |sent|).status != 429
    ensures Ladder(s, prompt, decode, attempt, maxRetries, sent, waits) == LlmRun(None, sent + [prompt], waits)
  {
  }

  /**
    A reply that cannot be parsed (not JSON, a missing key or index, a
    fenced reply without a newline, content that is not JSON) gives
    `None` without another attempt.
   */
  lemma ParseFailureGivesNone(s: seq<Reply<Completion>>, prompt: Prompt, decode: string -> Decoded,
                              attempt: nat, maxRetries: int, sent: seq<Prompt>, waits: seq<int>)
    requires attempt < maxRetries
    requires var r := ReplyAt(s, |sent|);
      r.Response? && !HttpError(r.status)
      && (r.body.NotJson? || r.body == Doc(Missing)
          || (r.body.Doc? && r.body.doc.Content? && (Clean(r.body.doc.text).None?
                                                    || decode(Clean(r.body.doc.text).value) == Invalid)))
    ensures Ladder(s, prompt, decode, attempt, maxRetries, sent, waits) == LlmRun(None, sent + [prompt], waits)
  {
  }

  // ---------------------------------------------------------------------
  // Fence stripping
  // ---------------------------------------------------------------------

  /** A fenced reply yields nothing exactly when it has no newline. */
  lemma UnfenceNeedsNewline(content: string)
    ensures Unfence(content).None? <==> '\n' !in content
  {
  }

  /**
    Fencing a body as "```tag\n" + body + "```" and stripping the fence
    gives the body back, stripped of surrounding white space.
   */
  lemma UnfenceFenced(tag: string, body: string)
    requires '\n' !in tag
    ensures Unfence(Fence() + tag + "\n" + body + Fence()) == Some(Text.Strip(body))
  {
    var c := Fence() + tag + "\n" + body + Fence();
    var n := |Fence() + tag|;
    assert c[n] == '\n';
    assert '\n' !in c[..n] by {
      assert c[..n] == Fence() + tag;
    }
    var rest := c[n + 1..];
    assert rest == body + Fence();
    assert Text.OccursAt(rest, Fence(), |body|);
    var k := LastOccurrence(rest, Fence(), |rest|);
    assert k == Some(|body|);
    assert rest[..|body|] == body;
  }

  /** Text that does not start with a fence is only stripped. */
  lemma CleanUnfenced(text: string)
    requires !Text.StartsWith(Text.Strip(text), Fence())
    ensures Clean(text) == Some(Text.Strip(text))
  {
  }

  /** Without a closing fence, everything after the first newline is kept. */
  lemma UnfenceUnclosed(content: string, nl: nat)
    requires nl < |content| && content[nl] == '\n' && '\n' !in content[..nl]
    requires !Text.Contains(content[nl + 1..], Fence())
    ensures Unfence(content) == Some(Text.Strip(content[nl + 1..]))
  {
    var k := IndexOf(content, '\n');
    assert content[nl] in content;
    assert k.value == nl;
    Text.ContainsIffOccurs(content[nl + 1..], Fence());
  }

  // ---------------------------------------------------------------------
  // analyze_post
  // ---------------------------------------------------------------------

  /** The analysis of a relevant post. */
  datatype Analysis = Analysis(sentiment: string, theme: string, summary: string, competitorMentions: seq<string>)

  function Neutral(): string {
    "neutral"
  }

  function GeneralDiscussion(): string {
    "general discussion"
  }

  /**
    The LLM's verdict read as analyzer.py:132-140 does: a post is relevant
    only when `relevant` is present and true, a present key keeps its value,
    and a missing key takes its default.
   */
  function FromVerdict(v: Verdict): (r: Option<Analysis>)
    ensures r.Some? <==> v.relevant == Some(true)
    ensures r.Some? && v.sentiment.None? ==> r.value.sentiment == Neutral()
    ensures r.Some? && v.theme.None? ==> r.value.theme == GeneralDiscussion()
    ensures r.Some? && v.summary.None? ==> r.value.summary == ""
    ensures r.Some? && v.competitorMentions.None? ==> r.value.competitorMentions == []
    ensures r.Some? && v.sentiment.Some? ==> r.value.sentiment == v.sentiment.value
    ensures r.Some? && v.theme.Some? ==> r.value.theme == v.theme.value
    ensures r.Some? && v.summary.Some? ==> r.value.summary == v.summary.value
    ensures r.Some? && v.competitorMentions.Some? ==> r.value.competitorMentions == v.competitorMentions.value
  {
    if v.relevant != Some(true) then None
    else Some(Analysis(Field(v.sentiment, Neutral()), Field(v.theme, GeneralDiscussion()),
                       Field(v.summary, ""), Field(v.competitorMentions, [])))
  }

  /** `analyze_post`: the LLM's verdict when it gives one, the keyword heuristic otherwise. */
  function Analyze(post: RedditPost, cfg: BrandConfig, llm: Option<Verdict>): Option<Analysis> {
    if llm.Some? then FromVerdict(llm.value) else KeywordFallback(post, cfg)
  }

  // ---------------------------------------------------------------------
  // _keyword_fallback
  // ---------------------------------------------------------------------

  /** `f"{post.title} {post.selftext}".lower()` */
  function PostText(post: RedditPost): string {
    Text.Lower(post.title + " " + post.selftext)
  }

  function PositiveWords(): seq<string> {
    ["love", "great", "amazing", "best", "awesome", "excellent",
     "recommend", "good", "fantastic", "happy", "satisfied", "smooth"]
  }

  function NegativeWords(): seq<string> {
    ["hate", "worst", "terrible", "bad", "awful", "scam", "fraud",
     "disappointed", "horrible", "poor", "waste", "trash", "bug",
     "crash", "slow", "stuck", "useless"]
  }

  /** `any(term in text for term in terms)` */
  predicate AnyIn(terms: seq<string>, text: string)
    decreases |terms|
  {
    terms != [] && (AnyIn(terms[..|terms| - 1], text) || Text.Contains(text, terms[|terms| - 1]))
  }

  /** `sum(1 for w in words if w in text)` */
  function CountIn(words: seq<string>, text: string): nat
    decreases |words|
  {
    if words == [] then 0
    else CountIn(words[..|words| - 1], text) + (if Text.Contains(text, words[|words| - 1]) then 1 else 0)
  }

  /** `[c for c in competitors if c.lower() in text]` */
  function Found(competitors: seq<string>, text: string): (r: seq<string>)
    ensures |r| <= |competitors|
    ensures forall c :: c in r ==> c in competitors && Text.Contains(text, Text.Lower(c))
    decreases |competitors|
  {
    if competitors == [] then []
    else
      var init := competitors[..|competitors| - 1];
      var c := competitors[|competitors| - 1];
      assert forall d :: d in init ==> d in competitors;
      Found(init, text) + (if Text.Contains(text, Text.Lower(c)) then [c] else [])
  }

  /** The sentiment of the word counts (analyzer.py:167-172). */
  function Sentiment(pos: nat, neg: nat): string {
    if pos > neg then "positive" else if neg > pos then "negative" else Neutral()
  }

  /** `_keyword_fallback`: relevant by a product term in the text or by its subreddit. */
  function KeywordFallback(post: RedditPost, cfg: BrandConfig): (r: Option<Analysis>) {
    var text := PostText(post);
    if !(AnyIn(Text.Lowered(cfg.productTerms), text) || Text.Lower(post.subreddit) in Text.Lowered(cfg.subredditHints))
    then None
    else Some(Analysis(Sentiment(CountIn(PositiveWords(), text), CountIn(NegativeWords(), text)),
                       GeneralDiscussion(), Text.Prefix(post.title, 100),
                       Found(cfg.competitors, text)))
  }

  /** `any` is true exactly when some term occurs in the text. */
  lemma {:induction false} AnyInIff(terms: seq<string>, text: string)
    ensures AnyIn(terms, text) <==> exists i :: 0 <= i < |terms| && Text.Contains(text, terms[i])
    decreases |terms|
  {
    if terms != [] {
      var n := |terms| - 1;
      AnyInIff(terms[..n], text);
      if exists i :: 0 <= i < n && Text.Contains(text, terms[..n][i]) {
        var i :| 0 <= i < n && Text.Contains(text, terms[..n][i]);
        assert terms[i] == terms[..n][i];
      }
      if exists i :: 0 <= i < |terms| && Text.Contains(text, terms[i]) {
        var i :| 0 <= i < |terms| && Text.Contains(text, terms[i]);
        if i < n {
          assert terms[..n][i] == terms[i];
        }
      }
    }
  }

  /**
    The count is the number of words that occur in the text: it is at most
    the number of words, zero exactly when none occurs, and all of them
    exactly when every one does.
   */
  lemma {:induction false} CountInFacts(words: seq<string>, text: string)
    ensures CountIn(words, text) <= |words|
    ensures CountIn(words, text) == 0 <==> forall i :: 0 <= i < |words| ==> !Text.Contains(text, words[i])
    ensures CountIn(words, text) == |words| <==> forall i :: 0 <= i < |words| ==> Text.Contains(text, words[i])
    decreases |words|
  {
    if words != [] {
      var n := |words| - 1;
      CountInFacts(words[..n], text);
      assert forall i :: 0 <= i < n ==> words[..n][i] == words[i];
    }
  }

  /**
    A competitor is reported exactly when its lower-case name occurs in the
    text, and no more competitors are reported than were given.
   */
  lemma {:induction false} FoundIff(competitors: seq<string>, text: string, c: string)
    ensures c in Found(competitors, text) <==> c in competitors && Text.Contains(text, Text.Lower(c))
    ensures |Found(competitors, text)| <= |competitors|
    decreases |competitors|
  {
    if competitors != [] {
      var n := |competitors| - 1;
      FoundIff(competitors[..n], text, c);
      assert competitors == competitors[..n] + [competitors[n]];
    }
  }

  /**
    The heuristic keeps a post exactly when one of the product terms, lower-
    cased, occurs in its lower-cased title and body, or its subreddit is
    one of the hints regardless of case; the analysis then has the
    default theme, a summary that is the start of the title (at most 100
    characters) and only competitors the text names.
   */
  lemma KeywordFallbackFacts(post: RedditPost, cfg: BrandConfig)
    ensures var r := KeywordFallback(post, cfg);
      (r.Some? <==> (exists i :: 0 <= i < |cfg.productTerms| && Text.Contains(PostText(post), Text.Lower(cfg.productTerms[i])))
                    || Text.Lower(post.subreddit) in Text.Lowered(cfg.subredditHints))
      && (r.Some? ==> r.value.theme == GeneralDiscussion() && |r.value.summary| <= 100
                      && Text.StartsWith(post.title, r.value.summary)
                      && r.value.sentiment in {"positive", "negative", Neutral()}
                      && forall c :: c in r.value.competitorMentions <==>
                           c in cfg.competitors && Text.Contains(PostText(post), Text.Lower(c)))
  {
    var terms := Text.Lowered(cfg.productTerms);
    AnyInIff(terms, PostText(post));
    if exists i :: 0 <= i < |cfg.productTerms| && Text.Contains(PostText(post), Text.Lower(cfg.productTerms[i])) {
      var i :| 0 <= i < |cfg.productTerms| && Text.Contains(PostText(post), Text.Lower(cfg.productTerms[i]));
      assert Text.Contains(PostText(post), terms[i]);
    }
    forall c {
      FoundIff(cfg.competitors, PostText(post), c);
    }
  }

  /**
    A kept post whose text has some positive word and no negative word is
    positive, and the other way round negative.
   */
  lemma KeywordSentiment(post: RedditPost, cfg: BrandConfig)
    requires KeywordFallback(post, cfg).Some?
    ensures var text := PostText(post);
      ((exists i :: 0 <= i < |PositiveWords()| && Text.Contains(text, PositiveWords()[i]))
       && (forall j :: 0 <= j < |NegativeWords()| ==> !Text.Contains(text, NegativeWords()[j]))
       ==> KeywordFallback(post, cfg).value.sentiment == "positive")
      && ((exists j :: 0 <= j < |NegativeWords()| && Text.Contains(text, NegativeWords()[j]))
          && (forall i :: 0 <= i < |PositiveWords()| ==> !Text.Contains(text, PositiveWords()[i]))
          ==> KeywordFallback(post, cfg).value.sentiment == "negative")
  {
    CountInFacts(PositiveWords(), PostText(post));
    CountInFacts(NegativeWords(), PostText(post));
  }

  // ---------------------------------------------------------------------
  // process_posts
  // ---------------------------------------------------------------------

  /** One row of `results`, the dict built at analyzer.py:207-223. */
  datatype ResultRow = ResultRow(
    postId: string, title: string, selftext: string, subreddit: string, author: string,
    url: string, score: int, numComments: int, createdDay: int, createdUtc: int,
    relevanceConfidence: real, sentiment: string, theme: string, summary: string,
    competitorMentions: string)

  /** The row of a relevant post. */
  function RowOf(post: RedditPost, a: Analysis): (r: ResultRow)
    ensures r.postId == post.postId && r.subreddit == post.subreddit && r.sentiment == a.sentiment
    ensures r.url == post.permalink && |r.selftext| <= 500 && Text.StartsWith(post.selftext, r.selftext)
    ensures r.createdDay == CreatedDay(post)
  {
    ResultRow(post.postId, post.title, Text.Prefix(post.selftext, 500), post.subreddit, post.author,
              post.permalink, post.score, post.numComments, CreatedDay(post), post.createdUtc, 0.9,
              a.sentiment, a.theme, a.summary, Text.Join(a.competitorMentions, ", "))
  }

  /** The rows of the posts found relevant, in input order. */
  function Results(posts: seq<RedditPost>, analyses: seq<Option<Analysis>>): seq<ResultRow>
    requires |analyses| == |posts|
    decreases |posts|
  {
    if posts == [] then []
    else
      var n := |posts| - 1;
      Results(posts[..n], analyses[..n]) + (if analyses[n].Some? then [RowOf(posts[n], analyses[n].value)] else [])
  }

  /** The callback fires every `ProgressEvery` posts (analyzer.py:228). */
  const ProgressEvery: nat := 10

  /** `progress_callback(done, total, relevant)` */
  datatype Tick = Tick(done: nat, total: nat, relevant: nat)

  /** The callbacks made while the first `|posts|` posts of `total` were analysed. */
  function Ticks(posts: seq<RedditPost>, analyses: seq<Option<Analysis>>, total: nat): seq<Tick>
    requires |analyses| == |posts|
    decreases |posts|
  {
    if posts == [] then []
    else
      var n := |posts| - 1;
      Ticks(posts[..n], analyses[..n], total)
      + (if |posts| % ProgressEvery == 0 then [Tick(|posts|, total, |Results(posts, analyses)|)] else [])
  }

  /**
    A row for every relevant post and no other: each row is that of some
    post with an analysis, and every such post has its row.
   */
  lemma {:induction false} ResultsFacts(posts: seq<RedditPost>, analyses: seq<Option<Analysis>>)
    requires |analyses| == |posts|
    ensures |Results(posts, analyses)| <= |posts|
    ensures forall row :: row in Results(posts, analyses) <==>
              exists i :: 0 <= i < |posts| && analyses[i].Some? && row == RowOf(posts[i], analyses[i].value)
    decreases |posts|
  {
    if posts != [] {
      var n := |posts| - 1;
      ResultsFacts(posts[..n], analyses[..n]);
      forall row | row in Results(posts, analyses)
        ensures exists i :: 0 <= i < |posts| && analyses[i].Some? && row == RowOf(posts[i], analyses[i].value)
      {
        if row in Results(posts[..n], analyses[..n]) {
          var i :| 0 <= i < n && analyses[..n][i].Some? && row == RowOf(posts[..n][i], analyses[..n][i].value);
          assert posts[i] == posts[..n][i] && analyses[i] == analyses[..n][i];
        }
      }
      forall i | 0 <= i < |posts| && analyses[i].Some?
        ensures RowOf(posts[i], analyses[i].value) in Results(posts, analyses)
      {
        if i < n {
          assert posts[..n][i] == posts[i] && analyses[..n][i] == analyses[i];
        }
      }
    }
  }

  /** Rows are only ever appended: the rows of a prefix of the posts are a prefix of the rows. */
  lemma {:induction false} ResultsGrow(posts: seq<RedditPost>, analyses: seq<Option<Analysis>>, m: nat)
    requires |analyses| == |posts| && m <= |posts|
    ensures Results(posts[..m], analyses[..m]) <= Results(posts, analyses)
    decreases |posts|
  {
    if m < |posts| {
      var n := |posts| - 1;
      assert posts[..n][..m] == posts[..m] && analyses[..n][..m] == analyses[..m];
      ResultsGrow(posts[..n], analyses[..n], m);
    } else {
      assert posts[..m] == posts && analyses[..m] == analyses;
    }
  }

  /** The ticks' positions: one every `ProgressEvery` posts, each with the rows of the posts done. */
  lemma {:induction false} TicksShape(posts: seq<RedditPost>, analyses: seq<Option<Analysis>>, total: nat)
    requires |analyses| == |posts|
    ensures var t := Ticks(posts, analyses, total);
      |t| == |posts| / ProgressEvery
      && forall k :: 0 <= k < |t| ==>
           t[k].done == ProgressEvery * (k + 1) && t[k].done <= |posts| && t[k].total == total
           && t[k].relevant == |Results(posts[..t[k].done], analyses[..t[k].done])|
    decreases |posts|
  {
    if posts != [] {
      var n := |posts| - 1;
      TicksShape(posts[..n], analyses[..n], total);
      var t0 := Ticks(posts[..n], analyses[..n], total);
      var t := Ticks(posts, analyses, total);
      assert t == t0 + (if |posts| % ProgressEvery == 0 then [Tick(|posts|, total, |Results(posts, analyses)|)] else []);
      forall k | 0 <= k < |t0|
        ensures t[k].relevant == |Results(posts[..t[k].done], analyses[..t[k].done])|
      {
        assert t[k] == t0[k];
        assert posts[..n][..t0[k].done] == posts[..t0[k].done];
        assert analyses[..n][..t0[k].done] == analyses[..t0[k].done];
      }
      if |posts| % ProgressEvery == 0 {
        assert posts[..|posts|] == posts && analyses[..|posts|] == analyses;
      }
    }
  }

  /**
    Over `N` posts the callback fires `N / 10` times, the `k`-th time after
    `10*(k+1)` posts, with the number of rows so far, which never exceeds
    the posts done and never decreases.
   */
  lemma TicksFacts(posts: seq<RedditPost>, analyses: seq<Option<Analysis>>, total: nat)
    requires |analyses| == |posts|
    ensures var t := Ticks(posts, analyses, total);
      |t| == |posts| / ProgressEvery
      && (forall k :: 0 <= k < |t| ==>
            t[k].done == ProgressEvery * (k + 1) && t[k].total == total
            && t[k].relevant == |Results(posts[..t[k].done], analyses[..t[k].done])| && t[k].relevant <= t[k].done)
      && (forall k :: 0 <= k < |t| - 1 ==> t[k].relevant <= t[k + 1].relevant)
  {
    TicksShape(posts, analyses, total);
    var t := Ticks(posts, analyses, total);
    forall k | 0 <= k < |t|
      ensures t[k].relevant <= t[k].done
    {
      ResultsFacts(posts[..t[k].done], analyses[..t[k].done]);
    }
    forall k | 0 <= k < |t| - 1
      ensures t[k].relevant <= t[k + 1].relevant
    {
      var d, e := t[k].done, t[k + 1].done;
      ResultsGrow(posts[..e], analyses[..e], d);
      assert posts[..e][..d] == posts[..d] && analyses[..e][..d] == analyses[..d];
    }
  }

  /** Analysing post `i` appends its row, if any, and its tick, if one is due. */
  lemma ProcessStep(posts: seq<RedditPost>, i: nat, analyses: seq<Option<Analysis>>, a: Option<Analysis>, total: nat)
    requires i < |posts| && |analyses| == i
    ensures posts[..i + 1] == posts[..i] + [posts[i]]
    ensures var rows := Results(posts[..i], analyses) + (if a.Some? then [RowOf(posts[i], a.value)] else []);
      Results(posts[..i + 1], analyses + [a]) == rows
      && Ticks(posts[..i + 1], analyses + [a], total)
         == Ticks(posts[..i], analyses, total) + (if (i + 1) % ProgressEvery == 0 then [Tick(i + 1, total, |rows|)] else [])
  {
    assert posts[..i + 1][..i] == posts[..i];
    assert (analyses + [a])[..i] == analyses;
  }

  /** The session's log and the clock's log between two calls. */
  datatype LlmState = LlmState(sent: seq<Prompt>, slept: seq<int>)

  /** `max_retries` as `analyze_post` calls `_call_llm`. */
  const MaxRetries: int := 3

  class BrandAnalyzer {
    /** The API key; the empty string stands for a missing key. */
    const apiKey: string
    /** The chat-completions endpoint: each `requests.post` is one request of its script. */
    const session: Session<Prompt, Completion>
    /** `json.loads` on the cleaned reply text. */
    const decode: string -> Decoded

    constructor (apiKey: string, replies: seq<Reply<Completion>>, decode: string -> Decoded)
      ensures this.apiKey == apiKey && this.decode == decode
      ensures fresh(session) && session.script == replies && session.sent == []
    {
      this.apiKey := apiKey;
      this.decode := decode;
      session := new Session(replies);
    }

    /** `_call_llm(prompt, max_retries)` */
    method CallLlm(prompt: Prompt, maxRetries: int, clock: Clock) returns (r: Option<Verdict>)
      modifies session, clock
      ensures var run := LlmCall(apiKey != "", session.script, prompt, decode, maxRetries, old(session.sent));
        r == run.result && session.sent == run.sent && clock.slept == old(clock.slept) + run.waits
    {
      if apiKey == "" {
        return None;
      }
      ghost var waits: seq<int> := [];
      var attempt: nat := 0;
      while attempt < maxRetries
        invariant Ladder(session.script, prompt, decode, 0, maxRetries, old(session.sent), [])
               == Ladder(session.script, prompt, decode, attempt, maxRetries, session.sent, waits)
        invariant clock.slept == old(clock.slept) + waits
        decreases maxRetries - attempt
      {
        var resp := session.Get(prompt);
        var failed := false;
        if resp.Transport? {
          failed := true;
        } else if HttpError(resp.status) {
          if resp.status == 429 {
            clock.Sleep(5 * (attempt + 1));
            waits := waits + [5 * (attempt + 1)];
            attempt := attempt + 1;
            continue;
          }
          return None;
        } else if resp.body.NotJson? || resp.body == Doc(Missing) {
          return None;
        } else if resp.body.Null? || resp.body == Doc(NotText) {
          failed := true;
        } else {
          var content := Text.Strip(resp.body.doc.text);
          if Text.StartsWith(content, Fence()) {
            var unfenced := Unfence(content);
            if unfenced.None? {
              return None;
            }
            content := unfenced.value;
          }
          var parsed := decode(content);
          if parsed.Invalid? {
            return None;
          } else if parsed.OtherValue? {
            failed := true;
          } else {
            return Some(parsed.verdict);
          }
        }
        assert failed;
        if attempt < maxRetries - 1 {
          clock.Sleep(1);
          waits := waits + [1];
        }
        attempt := attempt + 1;
      }
      r := None;
    }

    /** `analyze_post(post, brand_config)` */
    method AnalyzePost(post: RedditPost, cfg: BrandConfig, clock: Clock) returns (r: Option<Analysis>)
      modifies session, clock
      ensures Analyzed(post, cfg, LlmState(old(session.sent), old(clock.slept)), r, LlmState(session.sent, clock.slept))
    {
      var prompt := PromptOf(post, cfg);
      var result := CallLlm(prompt, MaxRetries, clock);
      if result.Some? {
        return FromVerdict(result.value);
      }
      r := KeywordFallback(post, cfg);
    }

    /** `post` was analysed to `a`, taking the logs from `st` to `st'`. */
    ghost predicate Analyzed(post: RedditPost, cfg: BrandConfig, st: LlmState, a: Option<Analysis>, st': LlmState)
    {
      var run := LlmCall(apiKey != "", session.script, PromptOf(post, cfg), decode, MaxRetries, st.sent);
      a == Analyze(post, cfg, run.result) && st' == LlmState(run.sent, st.slept + run.waits)
    }

    /** `states[n]` before post `n` is analysed, each post analysed to `analyses[n]`. */
    ghost predicate AnalyzeLog(posts: seq<RedditPost>, cfg: BrandConfig, analyses: seq<Option<Analysis>>,
                               states: seq<LlmState>)
      decreases |posts|
    {
      |analyses| == |posts| && |states| == |posts| + 1
      && (posts != [] ==>
            var n := |posts| - 1;
            AnalyzeLog(posts[..n], cfg, analyses[..n], states[..n + 1])
            && Analyzed(posts[n], cfg, states[n], analyses[n], states[n + 1]))
    }

    /** Recording the analysis of post `i` extends the log. */
    lemma AnalyzeLogStep(posts: seq<RedditPost>, i: nat, cfg: BrandConfig, analyses: seq<Option<Analysis>>,
                         states: seq<LlmState>, a: Option<Analysis>, st': LlmState)
      requires i < |posts| && AnalyzeLog(posts[..i], cfg, analyses, states)
      requires Analyzed(posts[i], cfg, states[i], a, st')
      ensures AnalyzeLog(posts[..i + 1], cfg, analyses + [a], states + [st'])
      ensures (states + [st'])[0] == states[0] && (states + [st'])[i + 1] == st'
    {
      assert posts[..i + 1][..i] == posts[..i];
      assert (analyses + [a])[..|analyses|] == analyses;
      assert (states + [st'])[..|states|] == states;
    }

    /**
      Without an API key no request is made, no time passes and every post
      is judged by the keyword heuristic alone.
     */
    lemma {:induction false} NoKeyUsesKeywords(posts: seq<RedditPost>, cfg: BrandConfig,
                                               analyses: seq<Option<Analysis>>, states: seq<LlmState>)
      requires apiKey == "" && AnalyzeLog(posts, cfg, analyses, states)
      ensures states[|posts|] == states[0]
      ensures forall i :: 0 <= i < |posts| ==> analyses[i] == KeywordFallback(posts[i], cfg)
      decreases |posts|
    {
      if posts != [] {
        var n := |posts| - 1;
        NoKeyUsesKeywords(posts[..n], cfg, analyses[..n], states[..n + 1]);
        assert states[n + 1] == states[n];
        forall i | 0 <= i < n ensures analyses[i] == KeywordFallback(posts[i], cfg) {
          assert analyses[..n][i] == analyses[i] && posts[..n][i] == posts[i];
        }
      }
    }

    /** `process_posts(posts, brand_config, progress_callback)` */
    method ProcessPosts(posts: seq<RedditPost>, cfg: BrandConfig, clock: Clock)
      returns (results: seq<ResultRow>, ticks: seq<Tick>, ghost analyses: seq<Option<Analysis>>,
               ghost states: seq<LlmState>)
      modifies session, clock
      ensures AnalyzeLog(posts, cfg, analyses, states)
      ensures states[0] == LlmState(old(session.sent), old(clock.slept))
      ensures states[|posts|] == LlmState(session.sent, clock.slept)
      ensures results == Results(posts, analyses) && ticks == Ticks(posts, analyses, |posts|)
    {
      results, ticks, analyses := [], [], [];
      states := [LlmState(session.sent, clock.slept)];
      var total := |posts|;
      for i := 0 to total
        invariant AnalyzeLog(posts[..i], cfg, analyses, states)
        invariant states[0] == LlmState(old(session.sent), old(clock.slept))
        invariant states[i] == LlmState(session.sent, clock.slept)
        invariant results == Results(posts[..i], analyses) && ticks == Ticks(posts[..i], analyses, total)
      {
        var analysis := AnalyzePost(posts[i], cfg, clock);
        ghost var st' := LlmState(session.sent, clock.slept);
        AnalyzeLogStep(posts, i, cfg, analyses, states, analysis, st');
        ProcessStep(posts, i, analyses, analysis, total);
        if analysis.Some? {
          results := results + [RowOf(posts[i], analysis.value)];
        }
        analyses := analyses + [analysis];
        states := states + [st'];
        if (i + 1) % ProgressEvery == 0 {
          ticks := ticks + [Tick(i + 1, total, |results|)];
        }
      }
      assert posts[..total] == posts;
    }
  }
}
