/** Apple Podcasts link resolution (api/resolve-source.ts): the URL parser
    built from three regular expressions and the handler's guards in front of
    the episode search. The ListenNotes search is a parameter. */
module ResolveSource {
  import opened Common
  import opened SharedTypes

  // ---------------------------------------------------------------------------
  // The three patterns, as predicates on a match position
  // ---------------------------------------------------------------------------

  /** The patterns `parseApplePodcastsURL` matches. */
  datatype Pattern =
    | PodcastId     // /id(\d+)/
    | EpisodeParam  // /[?&]i=(\d+)/
    | PodcastPath   // /\/podcast\/([^\/]+)\/id\d+/

  const PodcastSegment: string := "/podcast/"

  /** The first `/` at or after `k`, or `|s|`: where `[^\/]+` stops. */
  function SegmentEnd(s: string, k: nat): (e: nat)
    requires k <= |s|
    ensures k <= e <= |s|
    ensures forall j :: k <= j < e ==> s[j] != '/'
    ensures e == |s| || s[e] == '/'
    decreases |s| - k
  {
    if k == |s| || s[k] == '/' then k else SegmentEnd(s, k + 1)
  }

  /** The maximal run of digits starting at `k` (what `\d+` captures). */
  function DigitRun(s: string, k: nat): (r: string)
    requires k <= |s|
    ensures k + |r| <= |s| && s[k..k + |r|] == r && AllDigits(r)
    ensures k + |r| == |s| || !IsDigit(s[k + |r|])
    decreases |s| - k
  {
    if k == |s| || !IsDigit(s[k]) then [] else [s[k]] + DigitRun(s, k + 1)
  }

  /** Pattern `p` matches `s` at position `i`. */
  predicate MatchesAt(p: Pattern, s: string, i: nat)
  {
    match p
    case PodcastId =>
      i + 3 <= |s| && s[i] == 'i' && s[i + 1] == 'd' && IsDigit(s[i + 2])
    case EpisodeParam =>
      i + 4 <= |s| && (s[i] == '?' || s[i] == '&') && s[i + 1] == 'i' && s[i + 2] == '=' && IsDigit(s[i + 3])
    case PodcastPath =>
      // `[^\/]+` can only stop at a `/`, so no shorter slug can be followed by `/id`
      && i + |PodcastSegment| <= |s| && s[i..i + |PodcastSegment|] == PodcastSegment
      && var e := SegmentEnd(s, i + |PodcastSegment|);
         e > i + |PodcastSegment| && e + 4 <= |s| && s[e + 1] == 'i' && s[e + 2] == 'd' && IsDigit(s[e + 3])
  }

  /** `s.match(p)` without the `g` flag: the leftmost match at or after `start`. */
  function FindMatch(p: Pattern, s: string, start: nat): (r: Option<nat>)
    ensures r.Some? ==> start <= r.value < |s| && MatchesAt(p, s, r.value)
    ensures r.Some? ==> forall j :: start <= j < r.value ==> !MatchesAt(p, s, j)
    ensures r.None? ==> forall j :: start <= j ==> !MatchesAt(p, s, j)
    decreases |s| - start
  {
    if start >= |s| then None
    else if MatchesAt(p, s, start) then Some(start)
    else FindMatch(p, s, start + 1)
  }

  // ---------------------------------------------------------------------------
  // parseApplePodcastsURL
  // ---------------------------------------------------------------------------

  datatype ParsedAppleUrl = ParsedAppleUrl(
    podcastId: string,
    episodeId: Option<string>,
    titleHint: string,
    originalUrl: string)

  /** `.replace(/-/g, ' ')` */
  function HyphensToSpaces(s: string): (r: string)
    ensures |r| == |s|
    ensures forall i :: 0 <= i < |s| ==> r[i] == if s[i] == '-' then ' ' else s[i]
  {
    if s == [] then [] else [if s[0] == '-' then ' ' else s[0]] + HyphensToSpaces(s[1..])
  }

  /** The characters `/[^a-zA-Z0-9\s]/g` does not remove. */
  predicate IsTitleChar(c: char) { IsAsciiAlnum(c) || IsJsWhitespace(c) }

  /** `.replace(/[^a-zA-Z0-9\s]/g, '')` */
  function KeepTitleChars(s: string): (r: string)
    ensures |r| <= |s|
    ensures forall i :: 0 <= i < |r| ==> IsTitleChar(r[i])
    ensures (forall i :: 0 <= i < |s| ==> IsTitleChar(s[i])) ==> r == s
  {
    if s == [] then []
    else (if IsTitleChar(s[0]) then [s[0]] else []) + KeepTitleChars(s[1..])
  }

  /** The search text made from the URL slug. */
  function TitleFromSlug(slug: string): string
  {
    Trim(KeepTitleChars(HyphensToSpaces(slug)))
  }

  /** The slug `([^\/]+)` captured by a path match at `i`. */
  function SlugAt(s: string, i: nat): string
    requires MatchesAt(PodcastPath, s, i)
  {
    s[i + |PodcastSegment|..SegmentEnd(s, i + |PodcastSegment|)]
  }

  /** `parseApplePodcastsURL(url)`; `None` is `null`. */
  function ParseApplePodcastsUrl(url: string): (r: Option<ParsedAppleUrl>)
    ensures r.Some? ==> r.value.originalUrl == url && r.value.podcastId != [] && AllDigits(r.value.podcastId)
  {
    match FindMatch(PodcastId, url, 0)
    case None => None
    case Some(i) =>
      var episode := FindMatch(EpisodeParam, url, 0);
      var path := FindMatch(PodcastPath, url, 0);
      DigitRunFound(url, i + 2);
      Some(ParsedAppleUrl(
        DigitRun(url, i + 2),
        if episode.Some? then Some(DigitRun(url, episode.value + 3)) else None,
        if path.Some? then TitleFromSlug(SlugAt(url, path.value)) else "",
        url))
  }

  /** `i` is the leftmost position where `p` matches `s`. */
  predicate LeftmostMatch(p: Pattern, s: string, i: nat)
  {
    MatchesAt(p, s, i) && forall j :: 0 <= j < i ==> !MatchesAt(p, s, j)
  }

  /** `r` is the whole, non-empty run of digits starting at `k` in `s`. */
  predicate DigitRunAt(s: string, k: nat, r: string)
  {
    && |r| >= 1 && AllDigits(r) && k + |r| <= |s| && s[k..k + |r|] == r
    && (k + |r| == |s| || !IsDigit(s[k + |r|]))
  }

  /** The parser fails exactly when no `id` is directly followed by a digit. */
  lemma ParseFailsWithoutId(url: string)
    ensures ParseApplePodcastsUrl(url).None? <==> forall i: nat :: !MatchesAt(PodcastId, url, i)
  {
    match FindMatch(PodcastId, url, 0)
    case None =>
    case Some(i) =>
      assert MatchesAt(PodcastId, url, i);
  }

  /** Otherwise the podcast id is the whole digit run after the leftmost such
      `id`, wherever it sits, and the URL is kept as given. */
  lemma ParsePodcastId(url: string)
    requires ParseApplePodcastsUrl(url).Some?
    ensures var r := ParseApplePodcastsUrl(url).value;
      && r.originalUrl == url
      && exists i: nat :: LeftmostMatch(PodcastId, url, i) && DigitRunAt(url, i + 2, r.podcastId)
  {
    var i := FindMatch(PodcastId, url, 0).value;
    assert ParseApplePodcastsUrl(url).value.podcastId == DigitRun(url, i + 2);
    LeftmostFound(PodcastId, url);
    DigitRunFound(url, i + 2);
  }

  /** The episode id is present exactly when some `?i=` or `&i=` is followed
      by a digit, and is then the digit run after the first of them. */
  lemma ParseEpisodeId(url: string)
    requires ParseApplePodcastsUrl(url).Some?
    ensures var r := ParseApplePodcastsUrl(url).value;
      && (r.episodeId.Some? <==> exists i: nat :: MatchesAt(EpisodeParam, url, i))
      && (r.episodeId.Some? ==>
            exists i: nat :: LeftmostMatch(EpisodeParam, url, i) && DigitRunAt(url, i + 3, r.episodeId.value))
  {
    var episode := FindMatch(EpisodeParam, url, 0);
    EpisodeField(url);
    if episode.Some? {
      var i := episode.value;
      LeftmostFound(EpisodeParam, url);
      DigitRunFound(url, i + 3);
    }
  }

  /** The episode field of a successful parse, in terms of the leftmost match. */
  lemma EpisodeField(url: string)
    requires ParseApplePodcastsUrl(url).Some?
    ensures var episode := FindMatch(EpisodeParam, url, 0);
      ParseApplePodcastsUrl(url).value.episodeId
        == if episode.Some? then Some(DigitRun(url, episode.value + 3)) else None
  {
  }

  /** A match found from the start is the leftmost one. */
  lemma LeftmostFound(p: Pattern, s: string)
    requires FindMatch(p, s, 0).Some?
    ensures LeftmostMatch(p, s, FindMatch(p, s, 0).value)
  {
  }

  /** The digit run at a digit is a whole, non-empty run. */
  lemma DigitRunFound(s: string, k: nat)
    requires k < |s| && IsDigit(s[k])
    ensures DigitRunAt(s, k, DigitRun(s, k))
  {
    assert s[k] == DigitRun(s, k)[0];
  }

  /** The title hint is the title made from the slug after the leftmost
      `/podcast/` segment, and empty when the path does not match; it never
      has whitespace at either end or any character other than ASCII letters,
      digits and whitespace. */
  lemma ParseTitleHint(url: string)
    requires ParseApplePodcastsUrl(url).Some?
    ensures var t := ParseApplePodcastsUrl(url).value.titleHint;
      && (forall i: nat :: LeftmostMatch(PodcastPath, url, i) ==> t == TitleFromSlug(SlugAt(url, i)))
      && ((forall i: nat :: !MatchesAt(PodcastPath, url, i)) ==> t == "")
      && (t == [] || (!IsJsWhitespace(t[0]) && !IsJsWhitespace(t[|t| - 1])))
      && (forall i :: 0 <= i < |t| ==> IsTitleChar(t[i]))
  {
    var path := FindMatch(PodcastPath, url, 0);
    if path.Some? {
      LeftmostFound(PodcastPath, url);
      forall i: nat | LeftmostMatch(PodcastPath, url, i) ensures i == path.value {
        LeftmostUnique(PodcastPath, url, i, path.value);
      }
      TitleFromSlugShape(SlugAt(url, path.value));
    }
  }

  /** There is only one leftmost match. */
  lemma LeftmostUnique(p: Pattern, s: string, i: nat, j: nat)
    requires LeftmostMatch(p, s, i) && LeftmostMatch(p, s, j)
    ensures i == j
  {
  }

  lemma TitleFromSlugShape(slug: string)
    ensures var t := TitleFromSlug(slug);
      && (t == [] || (!IsJsWhitespace(t[0]) && !IsJsWhitespace(t[|t| - 1])))
      && (forall i :: 0 <= i < |t| ==> IsTitleChar(t[i]))
  {
    TrimKeepsTitleChars(KeepTitleChars(HyphensToSpaces(slug)));
  }

  /** `.replace(/[^a-zA-Z0-9\s]/g, '')` works character by character: it
      distributes over concatenation ... */
  lemma {:induction false} KeepTitleCharsAppend(a: string, b: string)
    ensures KeepTitleChars(a + b) == KeepTitleChars(a) + KeepTitleChars(b)
  {
    if a == [] {
      assert a + b == b;
    } else {
      var head := if IsTitleChar(a[0]) then [a[0]] else [];
      assert (a + b)[0] == a[0] && (a + b)[1..] == a[1..] + b;
      KeepTitleCharsAppend(a[1..], b);
    }
  }

  /** ... and keeps one character exactly when it is a letter, a digit or
      whitespace. */
  lemma KeepTitleCharsOne(c: char)
    ensures KeepTitleChars([c]) == if IsTitleChar(c) then [c] else []
  {
    assert [c][1..] == [];
  }

  /** The slug of the example in the handler's own comment: every word is
      kept, `the` included. */
  lemma TitleFromSlugExample(slug: string)
    requires slug == "holiday-magic-the-traditions"
    ensures TitleFromSlug(slug) == "holiday magic the traditions"
  {
    ExampleSlugIsPlain(slug);
    TitleFromPlainSlug(slug);
    ExampleSlugSpaced(slug);
  }

  lemma ExampleSlugIsPlain(slug: string)
    requires slug == "holiday-magic-the-traditions"
    ensures slug != [] && IsAsciiAlnum(slug[0]) && IsAsciiAlnum(slug[|slug| - 1])
    ensures forall i :: 0 <= i < |slug| ==> IsAsciiAlnum(slug[i]) || slug[i] == '-'
  {
  }

  lemma ExampleSlugSpaced(slug: string)
    requires slug == "holiday-magic-the-traditions"
    ensures HyphensToSpaces(slug) == "holiday magic the traditions"
  {
  }

  /** Trimming a string of title characters leaves title characters. */
  lemma TrimKeepsTitleChars(kept: string)
    requires forall i :: 0 <= i < |kept| ==> IsTitleChar(kept[i])
    ensures forall i :: 0 <= i < |Trim(kept)| ==> IsTitleChar(Trim(kept)[i])
  {
    var k := TrimIsWhitespaceFramed(kept);
    var t := Trim(kept);
    forall i | 0 <= i < |t| ensures IsTitleChar(t[i]) {
      assert t[i] == kept[k + i];
    }
  }

  /** A slug of letters, digits and hyphens becomes title characters only,
      so nothing of it is removed. */
  lemma AllTitleChars(slug: string)
    requires forall i :: 0 <= i < |slug| ==> IsAsciiAlnum(slug[i]) || slug[i] == '-'
    ensures KeepTitleChars(HyphensToSpaces(slug)) == HyphensToSpaces(slug)
  {
    var spaced := HyphensToSpaces(slug);
    forall i | 0 <= i < |spaced| ensures IsTitleChar(spaced[i]) {
      assert spaced[i] == ' ' || spaced[i] == slug[i];
    }
  }

  /** Letters and digits at the ends of a slug stay where they are. */
  lemma SpacedEnds(slug: string)
    requires slug != [] && IsAsciiAlnum(slug[0]) && IsAsciiAlnum(slug[|slug| - 1])
    ensures var spaced := HyphensToSpaces(slug);
      spaced != [] && IsAsciiAlnum(spaced[0]) && IsAsciiAlnum(spaced[|spaced| - 1])
  {
  }

  /** A slug of letters and digits separated by single hyphens becomes the
      same words separated by spaces. */
  lemma TitleFromPlainSlug(slug: string)
    requires slug != [] && IsAsciiAlnum(slug[0]) && IsAsciiAlnum(slug[|slug| - 1])
    requires forall i :: 0 <= i < |slug| ==> IsAsciiAlnum(slug[i]) || slug[i] == '-'
    ensures TitleFromSlug(slug) == HyphensToSpaces(slug)
  {
    AllTitleChars(slug);
    SpacedEnds(slug);
    TrimKeepsUnpadded(HyphensToSpaces(slug));
  }

  // ---------------------------------------------------------------------------
  // The handler
  // ---------------------------------------------------------------------------

  /** The fields of `EpisodeMetadata` the handler looks at; the rest is
      forwarded as is. */
  datatype EpisodeMetadata = EpisodeMetadata(
    episodeUrl: string,
    episodeTitle: string,
    podcastTitle: string,
    publishDate: string,
    audioUrl: string,
    audioDuration: Option<nat>)

  datatype ResolveResponse =
    | InvalidUrlParameter
    | NotApplePodcasts
    | InvalidFormat
    | NoTitleInUrl
    | EpisodeNotFound
    | Resolved(metadata: EpisodeMetadata)
  {
    function Status(): nat
    {
      match this
      case Resolved(_) => 200
      case EpisodeNotFound => 404
      case _ => 400
    }
  }

  /** The host names the handler accepts. */
  predicate IsApplePodcastsUrl(url: string)
  {
    Contains(url, "podcasts.apple.com") || Contains(url, "itunes.apple.com")
  }

  /** The handler for a POST body whose `url` field is `field`; `search` is
      `searchEpisodeInPodcast(podcastId, titleHint)`. */
  function HandleResolve(field: Option<Json>, search: (string, string) -> Option<EpisodeMetadata>): (r: ResolveResponse)
    ensures r.Resolved? ==>
      && r.metadata.audioUrl != ""
      && field.Some? && field.value.JString? && IsApplePodcastsUrl(field.value.s)
      && ParseApplePodcastsUrl(field.value.s).Some?
  {
    if Falsy(field) || !field.value.JString? then InvalidUrlParameter
    else
      var url := field.value.s;
      if !IsApplePodcastsUrl(url) then NotApplePodcasts
      else match ParseApplePodcastsUrl(url)
        case None => InvalidFormat
        case Some(parsed) =>
          if parsed.titleHint == "" then NoTitleInUrl
          else match search(parsed.podcastId, parsed.titleHint)
            case None => EpisodeNotFound
            case Some(metadata) =>
              if metadata.audioUrl == "" then EpisodeNotFound else Resolved(metadata)
  }

  /** Every 400 is decided before the search: the answer is the same whatever
      the search would return. A URL on another host is refused before it is
      parsed. */
  lemma RejectedBeforeSearch(field: Option<Json>, search1: (string, string) -> Option<EpisodeMetadata>,
                             search2: (string, string) -> Option<EpisodeMetadata>)
    requires HandleResolve(field, search1).Status() == 400
    ensures HandleResolve(field, search2) == HandleResolve(field, search1)
    ensures !Falsy(field) && field.value.JString? && !IsApplePodcastsUrl(field.value.s) ==>
              HandleResolve(field, search1) == NotApplePodcasts
  {
  }

  /** A 200 carries the search result for the parsed podcast id and title
      hint, and its audio URL is not empty; a 404 means the search found
      nothing or nothing playable. */
  lemma ResolvedMeansPlayable(url: string, search: (string, string) -> Option<EpisodeMetadata>)
    requires url != ""
    ensures var r := HandleResolve(Some(JString(url)), search);
      && (r.Resolved? ==>
            && IsApplePodcastsUrl(url)
            && ParseApplePodcastsUrl(url).Some?
            && var p := ParseApplePodcastsUrl(url).value;
               p.titleHint != "" && search(p.podcastId, p.titleHint) == Some(r.metadata) && r.metadata.audioUrl != "")
      && (r.EpisodeNotFound? ==>
            var p := ParseApplePodcastsUrl(url).value;
            search(p.podcastId, p.titleHint).None? || search(p.podcastId, p.titleHint).value.audioUrl == "")
  {
  }
}
