/** The X (Twitter) search scraper (api/x-scraper/scraper.ts) once the
    browser is abstracted: what each scroll's page view yields is an input,
    and so is the exception that may end the session early. Tweets are
    de-duplicated by URL in a map that keeps insertion order, as a JavaScript
    `Map` does. */
module Scraper {
  import opened Common
  import opened ScraperTypes
  import opened AgentRunner

  // ---------------------------------------------------------------------------
  // findApplePodcastUrl
  // ---------------------------------------------------------------------------

  /** The URL, lower-cased, names an Apple Podcasts host. */
  predicate IsAppleLink(url: string)
  {
    Contains(Lower(url), "podcasts.apple.com") || Contains(Lower(url), "itunes.apple.com")
  }

  /** `findApplePodcastUrl(urls)`: the first Apple Podcasts link, as written,
      or `None` for `null`. */
  function FindApplePodcastUrl(urls: seq<string>): (r: Option<string>)
    ensures r.None? <==> forall i :: 0 <= i < |urls| ==> !IsAppleLink(urls[i])
    ensures r.Some? ==> exists i :: 0 <= i < |urls| && urls[i] == r.value && IsAppleLink(urls[i])
                                 && forall j :: 0 <= j < i ==> !IsAppleLink(urls[j])
  {
    if urls == [] then None
    else if IsAppleLink(urls[0]) then Some(urls[0])
    else
      var r := FindApplePodcastUrl(urls[1..]);
      assert forall j :: 1 <= j < |urls| ==> urls[j] == urls[1..][j - 1];
      r
  }

  // ---------------------------------------------------------------------------
  // extractTweetsFromPage
  // ---------------------------------------------------------------------------

  /** What the in-page script returns for one tweet element. */
  datatype Extracted = Extracted(
    username: Option<string>,
    text: string,
    tweetUrl: Option<string>,
    timestamp: string,
    urls: seq<string>)

  /** One tweet element: the script's result, or an exception while reading it. */
  datatype ElementRead = Evaluated(data: Extracted) | EvaluateThrew

  /** One page view: its tweet elements, or `None` when looking them up threw. */
  type PageView = Option<seq<ElementRead>>

  /** The element is kept: it was read and has a username and a tweet URL. */
  predicate Usable(e: ElementRead)
  {
    e.Evaluated? && Truthy(e.data.username) && Truthy(e.data.tweetUrl)
  }

  function TweetOf(d: Extracted, runDate: string, query: string): Tweet
    requires Truthy(d.username) && Truthy(d.tweetUrl)
  {
    Tweet(runDate, query, d.username.value, d.tweetUrl.value, d.text, d.timestamp, d.urls, FindApplePodcastUrl(d.urls))
  }

  /** A tweet as extraction builds it: handle and URL present, the run's date
      and query, and the first Apple link of its URLs. */
  predicate WellFormedTweet(t: Tweet, runDate: string, query: string)
  {
    && t.twitterHandle != "" && t.tweetUrl != ""
    && t.runDate == runDate && t.sourceQuery == query
    && t.applePodcastUrl == FindApplePodcastUrl(t.urlsInTweet)
  }

  /** The tweets of the usable elements, in page order. */
  function ElementTweets(elements: seq<ElementRead>, runDate: string, query: string): (r: seq<Tweet>)
    ensures |r| <= |elements|
    ensures forall t :: t in r ==> WellFormedTweet(t, runDate, query)
  {
    if elements == [] then []
    else
      var init := ElementTweets(elements[..|elements| - 1], runDate, query);
      var e := elements[|elements| - 1];
      if Usable(e) then init + [TweetOf(e.data, runDate, query)] else init
  }

  /** One element yields its tweet when it is usable and nothing otherwise. */
  lemma ElementTweetsOne(e: ElementRead, runDate: string, query: string)
    ensures ElementTweets([e], runDate, query)
         == if Usable(e) then [TweetOf(e.data, runDate, query)] else []
  {
    assert [e][..0] == [];
  }

  /** Elements are read independently and in order: the tweets of `a + b`
      are those of `a` followed by those of `b`. */
  lemma {:induction false} ElementTweetsAppend(a: seq<ElementRead>, b: seq<ElementRead>, runDate: string, query: string)
    ensures ElementTweets(a + b, runDate, query)
         == ElementTweets(a, runDate, query) + ElementTweets(b, runDate, query)
  {
    if b == [] {
      assert a + b == a;
    } else {
      var last := b[|b| - 1];
      var extra := if Usable(last) then [TweetOf(last.data, runDate, query)] else [];
      assert (a + b)[..|a + b| - 1] == a + b[..|b| - 1];
      assert (a + b)[|a + b| - 1] == last;
      ElementTweetsAppend(a, b[..|b| - 1], runDate, query);
      assert ElementTweets(a + b, runDate, query)
          == (ElementTweets(a, runDate, query) + ElementTweets(b[..|b| - 1], runDate, query)) + extra;
      assert ElementTweets(b, runDate, query) == ElementTweets(b[..|b| - 1], runDate, query) + extra;
      assert (ElementTweets(a, runDate, query) + ElementTweets(b[..|b| - 1], runDate, query)) + extra
          == ElementTweets(a, runDate, query) + (ElementTweets(b[..|b| - 1], runDate, query) + extra);
    }
  }

  /** Everything a page view yields. */
  function PageTweets(view: PageView, runDate: string, query: string): (r: seq<Tweet>)
    ensures forall t :: t in r ==> WellFormedTweet(t, runDate, query)
  {
    match view
    case None => []
    case Some(elements) => ElementTweets(elements, runDate, query)
  }

  /** `extractTweetsFromPage(page, runDate, query)` */
  method ExtractTweetsFromPage(view: PageView, runDate: string, query: string) returns (tweets: seq<Tweet>)
    ensures tweets == PageTweets(view, runDate, query)
  {
    tweets := [];
    if view.None? {
      return;
    }
    var elements := view.value;
    var i := 0;
    while i < |elements|
      invariant 0 <= i <= |elements|
      invariant tweets == ElementTweets(elements[..i], runDate, query)
    {
      assert elements[..i + 1][..i] == elements[..i];
      var element := elements[i];
      if element.EvaluateThrew? {
        i := i + 1;
        continue;
      }
      var tweetData := element.data;
      if !Truthy(tweetData.username) || !Truthy(tweetData.tweetUrl) {
        i := i + 1;
        continue;
      }
      var applePodcastUrl := FindApplePodcastUrl(tweetData.urls);
      var tweet := Tweet(runDate, query, tweetData.username.value, tweetData.tweetUrl.value,
                         tweetData.text, tweetData.timestamp, tweetData.urls, applePodcastUrl);
      tweets := tweets + [tweet];
      i := i + 1;
    }
    assert elements[..i] == elements;
  }

  // ---------------------------------------------------------------------------
  // De-duplication by URL
  // ---------------------------------------------------------------------------

  /** The contents of the `Map<string, Tweet>`: keys in insertion order and
      the value of each key. */
  datatype Collected = Collected(order: seq<string>, byUrl: map<string, Tweet>)

  const NoTweets: Collected := Collected([], map[])

  /** The map's invariant: the order lists each key once, and every tweet
      is stored under its own URL. */
  ghost predicate WellKeyed(c: Collected)
  {
    && (forall k :: k in c.byUrl <==> k in c.order)
    && (forall i, j :: 0 <= i < j < |c.order| ==> c.order[i] != c.order[j])
    && (forall k :: k in c.byUrl ==> c.byUrl[k].tweetUrl == k)
  }

  /** `tweets.set(t.tweet_url, t)`: a new key goes last, an existing key
      keeps its place and gets the new value. */
  function Insert(c: Collected, t: Tweet): Collected
  {
    Collected(if t.tweetUrl in c.byUrl then c.order else c.order + [t.tweetUrl], c.byUrl[t.tweetUrl := t])
  }

  /** The map after setting each of `ts` in turn. */
  function InsertAll(c: Collected, ts: seq<Tweet>): Collected
  {
    if ts == [] then c else Insert(InsertAll(c, ts[..|ts| - 1]), ts[|ts| - 1])
  }

  /** The last tweet of `ts` with URL `url`, if any. */
  function LastWithUrl(ts: seq<Tweet>, url: string): (r: Option<Tweet>)
    ensures r.Some? ==> r.value in ts && r.value.tweetUrl == url
    ensures r.None? ==> forall t :: t in ts ==> t.tweetUrl != url
  {
    if ts == [] then None
    else if ts[|ts| - 1].tweetUrl == url then Some(ts[|ts| - 1])
    else LastWithUrl(ts[..|ts| - 1], url)
  }

  lemma InsertKeepsWellKeyed(c: Collected, t: Tweet)
    requires WellKeyed(c)
    ensures WellKeyed(Insert(c, t))
  {
  }

  lemma {:induction false} InsertAllKeepsWellKeyed(c: Collected, ts: seq<Tweet>)
    requires WellKeyed(c)
    ensures WellKeyed(InsertAll(c, ts))
  {
    if ts != [] {
      InsertAllKeepsWellKeyed(c, ts[..|ts| - 1]);
      InsertKeepsWellKeyed(InsertAll(c, ts[..|ts| - 1]), ts[|ts| - 1]);
    }
  }

  lemma {:induction false} InsertAllAppend(c: Collected, a: seq<Tweet>, b: seq<Tweet>)
    ensures InsertAll(c, a + b) == InsertAll(InsertAll(c, a), b)
  {
    if b == [] {
      assert a + b == a;
    } else {
      assert (a + b)[..|a + b| - 1] == a + b[..|b| - 1];
      InsertAllAppend(c, a, b[..|b| - 1]);
    }
  }

  /** Later tweets win: starting from an empty map, a URL is a key exactly
      when some tweet has it, and its value is the last such tweet. */
  lemma {:induction false} LastWriterWins(ts: seq<Tweet>, url: string)
    ensures var c := InsertAll(NoTweets, ts);
      && (url in c.byUrl <==> LastWithUrl(ts, url).Some?)
      && (url in c.byUrl ==> c.byUrl[url] == LastWithUrl(ts, url).value)
  {
    if ts != [] {
      LastWriterWins(ts[..|ts| - 1], url);
    }
  }

  /** `Array.from(tweets.values())` */
  function ValuesOf(c: Collected): (r: seq<Tweet>)
    requires forall k :: k in c.order ==> k in c.byUrl
    ensures |r| == |c.order| && forall i :: 0 <= i < |r| ==> r[i] == c.byUrl[c.order[i]]
    decreases |c.order|
  {
    if c.order == [] then []
    else ValuesOf(Collected(c.order[..|c.order| - 1], c.byUrl)) + [c.byUrl[c.order[|c.order| - 1]]]
  }

  /** The collected tweets have pairwise distinct URLs. */
  lemma DistinctUrls(c: Collected)
    requires WellKeyed(c)
    ensures var vs := ValuesOf(c);
      forall i, j :: 0 <= i < j < |vs| ==> vs[i].tweetUrl != vs[j].tweetUrl
  {
  }

  /** The JavaScript `Map` the scraper fills. */
  class TweetMap {
    var order: seq<string>
    var byUrl: map<string, Tweet>

    function Contents(): Collected
      reads this
    {
      Collected(order, byUrl)
    }

    constructor ()
      ensures Contents() == NoTweets
    {
      order := [];
      byUrl := map[];
    }

    /** `map.set(tweet.tweet_url, tweet)` */
    method Set(t: Tweet)
      modifies this
      ensures Contents() == Insert(old(Contents()), t)
    {
      if t.tweetUrl !in byUrl {
        order := order + [t.tweetUrl];
      }
      byUrl := byUrl[t.tweetUrl := t];
    }

    /** `tweetsOnPage.forEach(t => map.set(t.tweet_url, t))` */
    method SetAll(ts: seq<Tweet>)
      requires WellKeyed(Contents())
      modifies this
      ensures WellKeyed(Contents())
      ensures Contents() == InsertAll(old(Contents()), ts)
    {
      var j := 0;
      while j < |ts|
        invariant 0 <= j <= |ts|
        invariant WellKeyed(Contents())
        invariant Contents() == InsertAll(old(Contents()), ts[..j])
      {
        assert ts[..j + 1][..j] == ts[..j];
        InsertKeepsWellKeyed(Contents(), ts[j]);
        Set(ts[j]);
        j := j + 1;
      }
      assert ts[..j] == ts;
    }

    /** `Array.from(map.values())` */
    method Values() returns (vs: seq<Tweet>)
      requires WellKeyed(Contents())
      ensures vs == ValuesOf(Contents())
    {
      vs := [];
      var i := 0;
      while i < |order|
        invariant 0 <= i <= |order|
        invariant vs == ValuesOf(Collected(order[..i], byUrl))
      {
        assert order[..i + 1][..i] == order[..i];
        vs := vs + [byUrl[order[i]]];
        i := i + 1;
      }
      assert order[..i] == order;
    }
  }

  // ---------------------------------------------------------------------------
  // scrapeXSearch
  // ---------------------------------------------------------------------------

  /** What the browser did: the page views read, one per scroll, before the
      session ended, and the exception that ended it early, if any. */
  datatype Session = Session(views: seq<PageView>, crash: Option<Thrown>)

  const DefaultMaxScrolls: nat := 5

  /** The tweets of the first views, in the order they were read. */
  function AllTweets(views: seq<PageView>, runDate: string, query: string): seq<Tweet>
  {
    if views == [] then []
    else AllTweets(views[..|views| - 1], runDate, query) + PageTweets(views[|views| - 1], runDate, query)
  }

  lemma AllTweetsStep(views: seq<PageView>, i: nat, runDate: string, query: string)
    requires i < |views|
    ensures AllTweets(views[..i + 1], runDate, query) == AllTweets(views[..i], runDate, query) + PageTweets(views[i], runDate, query)
  {
    assert views[..i + 1][..i] == views[..i];
  }

  /** Reading view `i` inserts its tweets into the map gathered so far. */
  lemma GatherStep(views: seq<PageView>, i: nat, runDate: string, query: string)
    requires i < |views|
    ensures InsertAll(NoTweets, AllTweets(views[..i + 1], runDate, query))
      == InsertAll(InsertAll(NoTweets, AllTweets(views[..i], runDate, query)), PageTweets(views[i], runDate, query))
  {
    InsertAllAppend(NoTweets, AllTweets(views[..i], runDate, query), PageTweets(views[i], runDate, query));
    AllTweetsStep(views, i, runDate, query);
  }

  /** `new Set(tweets.map(t => t.twitter_handle))` */
  function Handles(tweets: seq<Tweet>): set<string>
  {
    set t | t in tweets :: t.twitterHandle
  }

  /** `tweets.filter(t => t.apple_podcast_url !== null).length` */
  function AppleLinkCount(tweets: seq<Tweet>): (r: nat)
    ensures r <= |tweets|
  {
    if tweets == [] then 0
    else AppleLinkCount(tweets[..|tweets| - 1]) + (if tweets[|tweets| - 1].applePodcastUrl.Some? then 1 else 0)
  }

  /** The number of scrolls: `max_scrolls`, defaulting to 5 when absent. A
      negative `max_scrolls` runs no scroll, as `Some(0)` does here. */
  function ScrollCount(maxScrolls: Option<nat>): nat
  {
    if maxScrolls.Some? then maxScrolls.value else DefaultMaxScrolls
  }

  /** The scrolls that ran: all of them, unless the session ended early. */
  function ScrollsRun(maxScrolls: Option<nat>, session: Session): (n: nat)
    ensures n <= |session.views| && n <= ScrollCount(maxScrolls)
  {
    if ScrollCount(maxScrolls) <= |session.views| then ScrollCount(maxScrolls) else |session.views|
  }

  /** The map at the end of the session. */
  function Gathered(maxScrolls: Option<nat>, runDate: string, query: string, session: Session): Collected
  {
    InsertAll(NoTweets, AllTweets(session.views[..ScrollsRun(maxScrolls, session)], runDate, query))
  }

  /** The result built from the final map and the exception, if any. */
  function Report(c: Collected, crash: Option<Thrown>): ScraperResult
    requires WellKeyed(c)
  {
    var tweets := ValuesOf(c);
    var errors := if crash.Some? then [CaughtMessage(crash.value)] else [];
    ScraperResult(
      |errors| == 0 && |tweets| > 0,
      tweets,
      Metrics(|tweets|, |Handles(tweets)|, AppleLinkCount(tweets)),
      errors)
  }

  /** What `scrapeXSearch` returns. */
  function ScrapeResult(maxScrolls: Option<nat>, runDate: string, query: string, session: Session): (r: ScraperResult)
    ensures r.success <==> r.errors == [] && r.tweets != []
    ensures r.metrics.tweetsCollected == |r.tweets|
    ensures |r.errors| == if session.crash.Some? then 1 else 0
  {
    InsertAllKeepsWellKeyed(NoTweets, AllTweets(session.views[..ScrollsRun(maxScrolls, session)], runDate, query));
    Report(Gathered(maxScrolls, runDate, query, session), session.crash)
  }

  /** The scroll loop of `scrapeXSearch`: each page's tweets go into the map
      until the scroll budget or the session's pages run out. */
  method GatherPages(query: string, maxScrolls: Option<nat>, runDate: string, session: Session)
    returns (tweets: TweetMap)
    ensures fresh(tweets)
    ensures tweets.Contents() == Gathered(maxScrolls, runDate, query, session)
  {
    var scrolls := ScrollCount(maxScrolls);
    tweets := new TweetMap();
    var i := 0;
    while i < scrolls && i < |session.views|
      invariant fresh(tweets)
      invariant 0 <= i <= ScrollsRun(maxScrolls, session)
      invariant WellKeyed(tweets.Contents())
      invariant tweets.Contents() == InsertAll(NoTweets, AllTweets(session.views[..i], runDate, query))
    {
      var tweetsOnPage := ExtractTweetsFromPage(session.views[i], runDate, query);
      GatherStep(session.views, i, runDate, query);
      tweets.SetAll(tweetsOnPage);
      i := i + 1;
    }
    assert i == ScrollsRun(maxScrolls, session);
  }

  /** `scrapeXSearch(config)` once the browser is abstracted; `runDate` is the
      date part of the clock. */
  method ScrapeXSearch(query: string, maxScrolls: Option<nat>, runDate: string, session: Session)
    returns (result: ScraperResult)
    ensures result == ScrapeResult(maxScrolls, runDate, query, session)
  {
    var tweets := GatherPages(query, maxScrolls, runDate, session);
    var errors: seq<string> := [];
    ScrapeResultIsReport(maxScrolls, runDate, query, session);
    if session.crash.Some? {
      errors := errors + [CaughtMessage(session.crash.value)];
    }
    var tweetsArray := tweets.Values();
    result := ScraperResult(
      |errors| == 0 && |tweetsArray| > 0,
      tweetsArray,
      Metrics(|tweetsArray|, |Handles(tweetsArray)|, AppleLinkCount(tweetsArray)),
      errors);
  }

  lemma ScrapeResultIsReport(maxScrolls: Option<nat>, runDate: string, query: string, session: Session)
    ensures WellKeyed(Gathered(maxScrolls, runDate, query, session))
    ensures ScrapeResult(maxScrolls, runDate, query, session) == Report(Gathered(maxScrolls, runDate, query, session), session.crash)
  {
    InsertAllKeepsWellKeyed(NoTweets, AllTweets(session.views[..ScrollsRun(maxScrolls, session)], runDate, query));
  }

  // ---------------------------------------------------------------------------
  // Properties of the result
  // ---------------------------------------------------------------------------

  lemma {:induction false} HandlesBound(tweets: seq<Tweet>)
    ensures |Handles(tweets)| <= |tweets|
  {
    if tweets != [] {
      var init := tweets[..|tweets| - 1];
      HandlesBound(init);
      assert Handles(tweets) == Handles(init) + {tweets[|tweets| - 1].twitterHandle} by {
        assert tweets == init + [tweets[|tweets| - 1]];
      }
    }
  }

  /** The counts: the tweets collected are the tweets returned, and neither
      the distinct handles nor the Apple links outnumber them; success means
      no error and at least one tweet; at most one error is reported, exactly
      when the session ended early. */
  lemma ResultMetrics(maxScrolls: Option<nat>, runDate: string, query: string, session: Session)
    ensures var r := ScrapeResult(maxScrolls, runDate, query, session);
      && r.metrics.tweetsCollected == |r.tweets|
      && r.metrics.uniqueHandles <= r.metrics.tweetsCollected
      && r.metrics.appleLinksFound <= r.metrics.tweetsCollected
      && (r.success <==> r.errors == [] && |r.tweets| > 0)
      && |r.errors| <= 1
      && (r.errors == [] <==> session.crash.None?)
  {
    HandlesBound(ScrapeResult(maxScrolls, runDate, query, session).tweets);
  }

  /** The returned tweets have pairwise distinct URLs and were all built by
      extraction from the run's date and query. */
  lemma ResultTweets(maxScrolls: Option<nat>, runDate: string, query: string, session: Session)
    ensures var r := ScrapeResult(maxScrolls, runDate, query, session);
      var all := AllTweets(session.views[..ScrollsRun(maxScrolls, session)], runDate, query);
      && (forall i, j :: 0 <= i < j < |r.tweets| ==> r.tweets[i].tweetUrl != r.tweets[j].tweetUrl)
      && (forall i :: 0 <= i < |r.tweets| ==> r.tweets[i] in all)
      && (forall t :: t in all ==> exists i :: 0 <= i < |r.tweets| && r.tweets[i] == LastWithUrl(all, t.tweetUrl).value)
  {
    var all := AllTweets(session.views[..ScrollsRun(maxScrolls, session)], runDate, query);
    var c := Gathered(maxScrolls, runDate, query, session);
    ScrapeResultIsReport(maxScrolls, runDate, query, session);
    DistinctUrls(c);
    forall i | 0 <= i < |ValuesOf(c)| ensures ValuesOf(c)[i] in all {
      var url := c.order[i];
      LastWriterWins(all, url);
    }
    forall t | t in all
      ensures LastWithUrl(all, t.tweetUrl).Some?
      ensures exists i :: 0 <= i < |ValuesOf(c)| && ValuesOf(c)[i] == LastWithUrl(all, t.tweetUrl).value
    {
      ReturnedLast(c, all, t);
    }
  }

  /** An extracted tweet's URL is among the returned tweets, holding the
      last tweet extracted with that URL. */
  lemma ReturnedLast(c: Collected, all: seq<Tweet>, t: Tweet)
    requires c == InsertAll(NoTweets, all) && WellKeyed(c) && t in all
    ensures LastWithUrl(all, t.tweetUrl).Some?
    ensures exists i :: 0 <= i < |ValuesOf(c)| && ValuesOf(c)[i] == LastWithUrl(all, t.tweetUrl).value
  {
    var url := t.tweetUrl;
    LastWriterWins(all, url);
    assert url in c.order;
    var i :| 0 <= i < |c.order| && c.order[i] == url;
    assert ValuesOf(c)[i] == c.byUrl[url];
  }

  /** Tweets read before the session ended are kept: an early end does not
      lose what the scrolls before it gathered. */
  lemma CrashKeepsGathered(maxScrolls: Option<nat>, runDate: string, query: string, views: seq<PageView>, t: Thrown)
    ensures ScrapeResult(maxScrolls, runDate, query, Session(views, Some(t))).tweets
         == ScrapeResult(maxScrolls, runDate, query, Session(views, None)).tweets
    ensures ScrapeResult(maxScrolls, runDate, query, Session(views, Some(t))).errors == [CaughtMessage(t)]
  {
  }
}
