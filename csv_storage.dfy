/** The CSV export of collected tweets (api/x-scraper/storage.ts): a header
    line, then one line per tweet whose free-text columns are quoted as in
    section 2 of RFC 4180. A reader for one record of that format is defined
    here too, as the reference the export is checked against. */
module CsvStorage {
  import opened Common
  import opened ScraperTypes

  // ---------------------------------------------------------------------------
  // escapeCsvField
  // ---------------------------------------------------------------------------

  /** The field holds a delimiter, a quote or a line break. */
  predicate NeedsQuoting(field: string)
  {
    ',' in field || '"' in field || '\n' in field
  }

  /** `field.replace(/"/g, '""')` */
  function DoubleQuotes(field: string): (r: string)
    ensures |r| >= |field|
    ensures '"' !in field ==> r == field
  {
    if field == [] then []
    else (if field[0] == '"' then "\"\"" else [field[0]]) + DoubleQuotes(field[1..])
  }

  /** `escapeCsvField(field)` */
  function EscapeCsvField(field: string): (r: string)
    ensures |r| >= |field|
    ensures !NeedsQuoting(field) ==> r == field
  {
    if NeedsQuoting(field) then "\"" + DoubleQuotes(field) + "\"" else field
  }

  /** The escaped field is quoted exactly when the field needs it, and an
      unquoted field is passed through unchanged. */
  lemma EscapeQuotesIff(field: string)
    ensures var e := EscapeCsvField(field);
      && (NeedsQuoting(field) <==> (e != [] && e[0] == '"'))
      && (!NeedsQuoting(field) ==> e == field)
  {
  }

  // ---------------------------------------------------------------------------
  // Reading one record (section 2 of RFC 4180)
  // ---------------------------------------------------------------------------

  /** The rest of a quoted field after its opening quote: `""` stands for one
      quote and a lone `"` closes the field. Returns the field and what follows
      the closing quote. */
  function ReadQuoted(s: string): (r: (string, string))
    ensures |r.1| <= |s|
    decreases |s|
  {
    if s == [] then ([], [])
    else if s[0] == '"' then
      if |s| >= 2 && s[1] == '"' then var (f, rest) := ReadQuoted(s[2..]); (['"'] + f, rest)
      else ([], s[1..])
    else var (f, rest) := ReadQuoted(s[1..]); ([s[0]] + f, rest)
  }

  /** An unquoted field: everything up to the next `,`. */
  function ReadPlain(s: string): (r: (string, string))
    ensures |r.1| <= |s|
    decreases |s|
  {
    if s == [] || s[0] == ',' then ([], s)
    else var (f, rest) := ReadPlain(s[1..]); ([s[0]] + f, rest)
  }

  /** One field, quoted or not, and the text after it. */
  function ReadField(s: string): (r: (string, string))
    ensures |r.1| <= |s|
  {
    if s != [] && s[0] == '"' then ReadQuoted(s[1..]) else ReadPlain(s)
  }

  /** The fields of one record. */
  function ReadRecord(s: string): (r: seq<string>)
    ensures |r| >= 1
    decreases |s|
  {
    var (f, rest) := ReadField(s);
    if rest != [] && rest[0] == ',' then [f] + ReadRecord(rest[1..]) else [f]
  }

  lemma {:induction false} ReadQuotedRoundTrip(field: string, tail: string)
    requires tail == [] || tail[0] != '"'
    ensures ReadQuoted(DoubleQuotes(field) + "\"" + tail) == (field, tail)
  {
    var s := DoubleQuotes(field) + "\"" + tail;
    if field == [] {
      assert s == "\"" + tail;
    } else {
      var rest := DoubleQuotes(field[1..]) + "\"" + tail;
      ReadQuotedRoundTrip(field[1..], tail);
      if field[0] == '"' {
        assert s == "\"\"" + rest;
        assert s[2..] == rest;
      } else {
        assert s == [field[0]] + rest;
        assert s[1..] == rest;
      }
      assert field == [field[0]] + field[1..];
    }
  }

  lemma {:induction false} ReadPlainRoundTrip(field: string, tail: string)
    requires ',' !in field
    requires tail == [] || tail[0] == ','
    ensures ReadPlain(field + tail) == (field, tail)
  {
    if field == [] {
      assert field + tail == tail;
    } else {
      assert (field + tail)[0] == field[0] && (field + tail)[1..] == field[1..] + tail;
      ReadPlainRoundTrip(field[1..], tail);
      assert field == [field[0]] + field[1..];
    }
  }

  /** Reading an escaped field back gives the field: removing the outer
      quotes and un-doubling the inner ones recovers the original. */
  lemma FieldRoundTrip(field: string, tail: string)
    requires tail == [] || tail[0] == ','
    ensures ReadField(EscapeCsvField(field) + tail) == (field, tail)
  {
    if NeedsQuoting(field) {
      QuotedFieldRoundTrip(field, tail);
    } else {
      PlainFieldRoundTrip(field, tail);
    }
  }

  lemma QuotedFieldRoundTrip(field: string, tail: string)
    requires tail == [] || tail[0] == ','
    ensures ReadField("\"" + DoubleQuotes(field) + "\"" + tail) == (field, tail)
  {
    var inner := DoubleQuotes(field) + "\"" + tail;
    var s := "\"" + DoubleQuotes(field) + "\"" + tail;
    assert s == "\"" + inner;
    assert s[0] == '"' && s[1..] == inner;
    ReadQuotedRoundTrip(field, tail);
  }

  lemma PlainFieldRoundTrip(field: string, tail: string)
    requires tail == [] || tail[0] == ','
    requires !NeedsQuoting(field)
    ensures ReadField(field + tail) == (field, tail)
  {
    ReadPlainRoundTrip(field, tail);
    if field != [] {
      assert (field + tail)[0] == field[0];
    }
  }

  /** Each field escaped. */
  function EscapeAll(fields: seq<string>): (r: seq<string>)
    ensures |r| == |fields| && forall i :: 0 <= i < |fields| ==> r[i] == EscapeCsvField(fields[i])
  {
    if fields == [] then [] else [EscapeCsvField(fields[0])] + EscapeAll(fields[1..])
  }

  /** Escaped fields joined by `,` read back as the same fields. */
  lemma {:induction false} RecordRoundTrip(fields: seq<string>)
    requires |fields| >= 1
    ensures ReadRecord(Join(EscapeAll(fields), ",")) == fields
  {
    var escaped := EscapeAll(fields);
    if |fields| == 1 {
      FieldRoundTrip(fields[0], []);
      assert EscapeCsvField(fields[0]) + [] == EscapeCsvField(fields[0]);
    } else {
      var restText := Join(escaped[1..], ",");
      assert escaped[1..] == EscapeAll(fields[1..]);
      assert Join(escaped, ",") == EscapeCsvField(fields[0]) + ("," + restText);
      FieldRoundTrip(fields[0], "," + restText);
      assert ("," + restText)[1..] == restText;
      RecordRoundTrip(fields[1..]);
      assert fields == [fields[0]] + fields[1..];
    }
  }

  // ---------------------------------------------------------------------------
  // convertTweetsToCSV
  // ---------------------------------------------------------------------------

  const ColumnNames: seq<string> := ["run_date", "source_query", "twitter_handle", "tweet_url", "tweet_text",
                                    "tweet_created_at", "urls_in_tweet", "apple_podcast_url"]

  /** The header line, without its line break. */
  const Header: string := Join(ColumnNames, ",")

  /** The eight values of a tweet's row, before escaping. */
  function RowValues(t: Tweet): (r: seq<string>)
    ensures |r| == |ColumnNames|
  {
    [t.runDate, t.sourceQuery, t.twitterHandle, t.tweetUrl, t.tweetText, t.tweetCreatedAt,
     Join(t.urlsInTweet, "; "), OrElse(t.applePodcastUrl, "")]
  }

  /** The cells as written: only the query, the text and the URL list are
      escaped. */
  function RowCells(t: Tweet): seq<string>
  {
    [t.runDate, EscapeCsvField(t.sourceQuery), t.twitterHandle, t.tweetUrl, EscapeCsvField(t.tweetText),
     t.tweetCreatedAt, EscapeCsvField(Join(t.urlsInTweet, "; ")), OrElse(t.applePodcastUrl, "")]
  }

  function Row(t: Tweet): string
  {
    Join(RowCells(t), ",")
  }

  /** The rows of `tweets`, in order. */
  function Rows(tweets: seq<Tweet>): (r: seq<string>)
    ensures |r| == |tweets| && forall i :: 0 <= i < |tweets| ==> r[i] == Row(tweets[i])
  {
    if tweets == [] then [] else Rows(tweets[..|tweets| - 1]) + [Row(tweets[|tweets| - 1])]
  }

  /** `convertTweetsToCSV(tweets)` */
  function ConvertTweetsToCsv(tweets: seq<Tweet>): (r: string)
    ensures StartsWith(r, Header + "\n")
  {
    if |tweets| == 0 then Header + "\n" else Header + "\n" + Join(Rows(tweets), "\n")
  }

  /** A cell written raw needs no quoting. */
  predicate PlainCell(s: string)
  {
    !NeedsQuoting(s)
  }

  /** A row reads back as the tweet's eight values when the five raw cells
      hold no delimiter, quote or line break. */
  lemma RowRoundTrip(t: Tweet)
    requires PlainCell(t.runDate) && PlainCell(t.twitterHandle) && PlainCell(t.tweetUrl)
    requires PlainCell(t.tweetCreatedAt) && PlainCell(OrElse(t.applePodcastUrl, ""))
    ensures ReadRecord(Row(t)) == RowValues(t)
  {
    assert RowCells(t) == EscapeAll(RowValues(t));
    RecordRoundTrip(RowValues(t));
  }

  /** The header reads back as the eight column names. */
  lemma HeaderRoundTrip()
    ensures ReadRecord(Header) == ColumnNames
  {
    assert forall i :: 0 <= i < |ColumnNames| ==> !NeedsQuoting(ColumnNames[i]);
    assert EscapeAll(ColumnNames) == ColumnNames;
    RecordRoundTrip(ColumnNames);
  }

  lemma {:induction false} JoinAppend(parts: seq<string>, last: string, sep: string)
    requires parts != []
    ensures Join(parts + [last], sep) == Join(parts, sep) + sep + last
  {
    if |parts| == 1 {
      assert parts + [last] == [parts[0], last];
      assert [parts[0], last][1..] == [last];
    } else {
      assert (parts + [last])[1..] == parts[1..] + [last];
      JoinAppend(parts[1..], last, sep);
    }
  }

  /** No tweets give the header line alone, with its line break; one tweet
      gives the header line and its row. */
  lemma CsvFirstLines(t: Tweet)
    ensures ConvertTweetsToCsv([]) == Header + "\n"
    ensures ConvertTweetsToCsv([t]) == Header + "\n" + Row(t)
  {
    assert Rows([t]) == [Row(t)];
  }

  /** Each further tweet appends a line break and its row, so rows follow the
      input order and the text has no trailing line break. */
  lemma CsvAppendsRow(tweets: seq<Tweet>, t: Tweet)
    requires tweets != []
    ensures ConvertTweetsToCsv(tweets + [t]) == ConvertTweetsToCsv(tweets) + "\n" + Row(t)
  {
    assert (tweets + [t])[..|tweets|] == tweets;
    assert Rows(tweets + [t]) == Rows(tweets) + [Row(t)];
    LinesAppend(Header, Rows(tweets), Row(t));
  }

  /** A header line followed by lines, with one more line appended. */
  lemma LinesAppend(header: string, lines: seq<string>, line: string)
    requires lines != []
    ensures header + "\n" + Join(lines + [line], "\n") == header + "\n" + Join(lines, "\n") + "\n" + line
  {
    JoinAppend(lines, line, "\n");
  }
}
