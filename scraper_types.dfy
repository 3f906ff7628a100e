/** The records of the X (Twitter) scraper (api/x-scraper/types.ts). */
module ScraperTypes {
  import opened Common

  /** One collected tweet; `applePodcastUrl` is `None` for JavaScript `null`. */
  datatype Tweet = Tweet(
    runDate: string,
    sourceQuery: string,
    twitterHandle: string,
    tweetUrl: string,
    tweetText: string,
    tweetCreatedAt: string,
    urlsInTweet: seq<string>,
    applePodcastUrl: Option<string>)

  datatype Metrics = Metrics(tweetsCollected: nat, uniqueHandles: nat, appleLinksFound: nat)

  datatype ScraperResult = ScraperResult(success: bool, tweets: seq<Tweet>, metrics: Metrics, errors: seq<string>)
}
