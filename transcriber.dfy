/** Chunked transcription (api/transcribe/groqTranscriber.ts): each chunk
    file of a directory is transcribed (with retries), its segment times are
    shifted by the chunk's position, and the segments are stitched into one
    timestamped text. The directory listing and the speech-to-text service's
    answers are inputs; segment times are whole seconds. */
module Transcriber {
  import opened Common
  import AudioChunker

  /** A transcribed segment, times in seconds. */
  datatype Segment = Segment(start: nat, end: nat, text: string)

  /** The transcript of one chunk. */
  datatype ChunkTranscript = ChunkTranscript(text: string, segments: seq<Segment>)

  datatype TranscriptionResult = TranscriptionResult(
    fullText: string,
    segments: seq<Segment>,
    duration: nat,
    chunkCount: nat)

  const DefaultChunkSeconds: nat := 600

  /** The offset step of the stitcher is the chunker's default chunk length,
      so chunk `i` of a default run starts `i * DefaultChunkSeconds` in. */
  lemma OffsetStepIsDefaultChunk()
    ensures AudioChunker.ChunkSeconds(None) == DefaultChunkSeconds
  {
    AudioChunker.DefaultChunkIsTenMinutes();
  }
  const DefaultMaxRetries: nat := 3
  const RateLimitStatus: int := 429

  // ---------------------------------------------------------------------------
  // formatTimestamp
  // ---------------------------------------------------------------------------

  /** `n.toString().padStart(2, '0')` */
  function TwoDigits(n: nat): string
  {
    PadStart(NatToString(n), 2, '0')
  }

  /** The template `${HH}:${MM}:${SS}` of `formatTimestamp`. */
  function Clock(hours: nat, mins: nat, secs: nat): string
  {
    TwoDigits(hours) + ":" + TwoDigits(mins) + ":" + TwoDigits(secs)
  }

  /** `formatTimestamp(seconds)`: `HH:MM:SS`, the hours at least two digits.
      The text has at least eight characters and reads back as `seconds`. */
  function FormatTimestamp(seconds: nat): (r: string)
    ensures |r| >= 8 && TimestampValue(r) == Some(seconds)
  {
    SplitSeconds(seconds);
    ClockReadsBack(seconds / 3600, seconds % 3600 / 60, seconds % 60, seconds);
    Clock(seconds / 3600, seconds % 3600 / 60, seconds % 60)
  }

  /** Reads `H…H:MM:SS` back: at least two hour digits, two digits each for
      minutes and seconds below 60. */
  function TimestampValue(t: string): Option<nat>
  {
    if |t| < 8 || t[|t| - 3] != ':' || t[|t| - 6] != ':' then None
    else FieldsValue(t[..|t| - 6], t[|t| - 5..|t| - 3], t[|t| - 2..])
  }

  /** The seconds the hour, minute and second fields stand for, when all
      three are digit strings and minutes and seconds are below 60. */
  function FieldsValue(h: string, m: string, s: string): Option<nat>
  {
    if !AllDigits(h) || !AllDigits(m) || !AllDigits(s) then None
    else if DigitsValue(m) >= 60 || DigitsValue(s) >= 60 then None
    else Some(DigitsValue(h) * 3600 + DigitsValue(m) * 60 + DigitsValue(s))
  }

  lemma TwoDigitsValue(n: nat)
    ensures var t := TwoDigits(n);
      |t| >= 2 && AllDigits(t) && DigitsValue(t) == n
      && (n < 100 ==> |t| == 2)
  {
    var d := NatToString(n);
    var t := TwoDigits(n);
    NatToStringRoundTrip(n);
    if n >= 10 {
      assert NatToString(n / 10) == [DigitChar(n / 10)] <== n < 100;
    }
    var z := t[..|t| - |d|];
    assert t == z + d;
    LeadingZerosValue(z, d);
  }

  lemma SplitSeconds(n: nat)
    ensures n % 3600 / 60 < 60 && n % 60 < 60
    ensures n / 3600 * 3600 + n % 3600 / 60 * 60 + n % 60 == n
  {
    var h, rest := n / 3600, n % 3600;
    assert n == h * 3600 + rest;
    var m, s := rest / 60, rest % 60;
    assert rest == m * 60 + s;
    assert n % 60 == s by {
      assert n == (h * 60 + m) * 60 + s;
    }
  }

  /** Hours, minutes below 60 and seconds below 60, each padded to two
      digits and joined by colons, read back as their total in seconds. */
  lemma ClockReadsBack(hours: nat, mins: nat, secs: nat, total: nat)
    requires mins < 60 && secs < 60 && total == hours * 3600 + mins * 60 + secs
    ensures |Clock(hours, mins, secs)| >= 8 && TimestampValue(Clock(hours, mins, secs)) == Some(total)
  {
    TwoDigitsValue(hours);
    TwoDigitsValue(mins);
    TwoDigitsValue(secs);
    FieldsReadBack(TwoDigits(hours), TwoDigits(mins), TwoDigits(secs));
  }

  /** Fields joined by colons, the last two of two characters, are split
      back into the same three fields. */
  lemma FieldsReadBack(h: string, m: string, s: string)
    requires |h| >= 2 && |m| == 2 && |s| == 2
    ensures |h + ":" + m + ":" + s| >= 8 && TimestampValue(h + ":" + m + ":" + s) == FieldsValue(h, m, s)
  {
    var t := h + ":" + m + ":" + s;
    assert t[|t| - 3] == ':' && t[|t| - 6] == ':';
    assert t[..|t| - 6] == h;
    assert t[|t| - 5..|t| - 3] == m;
    assert t[|t| - 2..] == s;
  }

  /** Distinct seconds give distinct timestamps, as each reads back as its
      own seconds. */
  lemma FormatTimestampInjective(a: nat, b: nat)
    requires FormatTimestamp(a) == FormatTimestamp(b)
    ensures a == b
  {
  }

  /** The documented example: 3665 seconds is `01:01:05`. */
  lemma FormatTimestampExample()
    ensures FormatTimestamp(3665) == "01:01:05"
  {
    assert 3665 / 3600 == 1 && 3665 % 3600 / 60 == 1 && 3665 % 60 == 5;
    assert NatToString(1) == "1" && NatToString(5) == "5";
    assert TwoDigits(1) == "01" by { assert Repeat('0', 1) == "0"; }
    assert TwoDigits(5) == "05" by { assert Repeat('0', 1) == "0"; }
  }

  // ---------------------------------------------------------------------------
  // normalizeTimestamps
  // ---------------------------------------------------------------------------

  function ShiftSegment(seg: Segment, offset: nat): Segment
  {
    seg.(start := seg.start + offset, end := seg.end + offset)
  }

  /** `normalizeTimestamps(transcript, chunkIndex, chunkSeconds)` */
  function Normalize(t: ChunkTranscript, chunkIndex: nat, chunkSeconds: nat): (r: ChunkTranscript)
    ensures r.text == t.text && |r.segments| == |t.segments|
    ensures chunkIndex == 0 ==> r == t
  {
    var offset := chunkIndex * chunkSeconds;
    t.(segments := seq(|t.segments|, i requires 0 <= i < |t.segments| => ShiftSegment(t.segments[i], offset)))
  }

  /** Moving segments back by `offset`, for segments that start at least there. */
  function Unshift(t: ChunkTranscript, offset: nat): ChunkTranscript
    requires forall i :: 0 <= i < |t.segments| ==> t.segments[i].start >= offset && t.segments[i].end >= offset
  {
    t.(segments := seq(|t.segments|, i requires 0 <= i < |t.segments| =>
      t.segments[i].(start := t.segments[i].start - offset, end := t.segments[i].end - offset)))
  }

  /** Normalizing keeps the chunk's text, the number, order and text of its
      segments and each segment's length, and moves every start and end by
      `chunkIndex * chunkSeconds`; moving back undoes it. */
  lemma NormalizeShifts(t: ChunkTranscript, chunkIndex: nat, chunkSeconds: nat)
    ensures var n := Normalize(t, chunkIndex, chunkSeconds);
      var offset := chunkIndex * chunkSeconds;
      && n.text == t.text
      && |n.segments| == |t.segments|
      && (forall i :: 0 <= i < |n.segments| ==>
            && n.segments[i].text == t.segments[i].text
            && n.segments[i].start == t.segments[i].start + offset
            && n.segments[i].end == t.segments[i].end + offset
            && n.segments[i].end - n.segments[i].start == t.segments[i].end - t.segments[i].start)
      && Unshift(n, offset) == t
  {
    var n := Normalize(t, chunkIndex, chunkSeconds);
    var offset := chunkIndex * chunkSeconds;
    assert Unshift(n, offset).segments == t.segments;
  }

  // ---------------------------------------------------------------------------
  // Chunk files: the .mp3 names, in numeric order
  // ---------------------------------------------------------------------------

  predicate IsMp3(name: string)
  {
    EndsWith(name, ".mp3")
  }

  function Mp3Files(listing: seq<string>): (r: seq<string>)
    ensures forall f :: f in r <==> f in listing && IsMp3(f)
    ensures forall i :: 0 <= i < |r| ==> IsMp3(r[i])
  {
    if listing == [] then []
    else
      var rest := Mp3Files(listing[..|listing| - 1]);
      var last := listing[|listing| - 1];
      assert listing == listing[..|listing| - 1] + [last];
      if IsMp3(last) then rest + [last] else rest
  }

  /** The leading digits of `s`. */
  function DigitPrefix(s: string): (r: string)
    ensures AllDigits(r) && |r| <= |s| && r == s[..|r|]
  {
    if s == [] || !IsDigit(s[0]) then [] else [s[0]] + DigitPrefix(s[1..])
  }

  /** `s.match(/\d+/)?.[0]`, or the empty string when there is no digit. */
  function FirstDigitRun(s: string): (r: string)
    ensures AllDigits(r)
  {
    if s == [] then []
    else if IsDigit(s[0]) then DigitPrefix(s)
    else FirstDigitRun(s[1..])
  }

  /** `parseInt(name.match(/\d+/)?.[0] || '0')` */
  function ChunkKey(name: string): nat
  {
    var run := FirstDigitRun(name);
    if run == [] then 0 else DigitsValue(run)
  }

  /** `names` is in ascending order of `key`. */
  ghost predicate SortedBy(key: string -> nat, names: seq<string>)
  {
    forall i, j :: 0 <= i < j < |names| ==> key(names[i]) <= key(names[j])
  }

  ghost predicate SortedByKey(names: seq<string>)
  {
    SortedBy(ChunkKey, names)
  }

  /** Where a stable insertion puts `name`: after the trailing run of entries
      whose key is larger has been passed over from the end. */
  function InsertPosition(key: string -> nat, name: string, sorted: seq<string>): (p: nat)
    ensures p <= |sorted|
    ensures forall i :: p <= i < |sorted| ==> key(sorted[i]) > key(name)
    ensures p > 0 ==> key(sorted[p - 1]) <= key(name)
  {
    if sorted == [] then 0
    else if key(sorted[|sorted| - 1]) <= key(name) then |sorted|
    else InsertPosition(key, name, sorted[..|sorted| - 1])
  }

  /** Places `name` after every entry whose key is not larger, as a stable
      sort does. */
  function InsertBy(key: string -> nat, name: string, sorted: seq<string>): (r: seq<string>)
    ensures multiset(r) == multiset(sorted) + multiset{name}
  {
    var p := InsertPosition(key, name, sorted);
    assert sorted == sorted[..p] + sorted[p..];
    sorted[..p] + [name] + sorted[p..]
  }

  /** Entry `k` after the insertion: the old entries before the insertion
      point, `name` at it, and the old entries shifted by one after it. */
  lemma InsertedAt(key: string -> nat, name: string, sorted: seq<string>, k: nat)
    requires k <= |sorted|
    ensures var p := InsertPosition(key, name, sorted);
      var r := InsertBy(key, name, sorted);
      |r| == |sorted| + 1
      && r[k] == if k < p then sorted[k] else if k == p then name else sorted[k - 1]
  {
  }

  lemma InsertKeepsSorted(key: string -> nat, name: string, sorted: seq<string>)
    requires SortedBy(key, sorted)
    ensures SortedBy(key, InsertBy(key, name, sorted))
  {
    var p := InsertPosition(key, name, sorted);
    var r := InsertBy(key, name, sorted);
    forall i, j | 0 <= i < j < |r| ensures key(r[i]) <= key(r[j]) {
      InsertedAt(key, name, sorted, i);
      InsertedAt(key, name, sorted, j);
      if j == p && i < p {
        assert key(sorted[i]) <= key(sorted[p - 1]);
      }
    }
  }

  /** `names.sort((a, b) => key(a) - key(b))`, a stable sort. */
  function SortBy(key: string -> nat, names: seq<string>): (r: seq<string>)
    ensures multiset(r) == multiset(names)
    ensures SortedBy(key, r)
  {
    if names == [] then []
    else
      assert names == names[..|names| - 1] + [names[|names| - 1]];
      var sorted := SortBy(key, names[..|names| - 1]);
      InsertKeepsSorted(key, names[|names| - 1], sorted);
      InsertBy(key, names[|names| - 1], sorted)
  }

  /** The entries of `names` whose key is `k`, in their order. */
  function WithKey(key: string -> nat, k: nat, names: seq<string>): seq<string>
  {
    if names == [] then []
    else
      var last := names[|names| - 1];
      WithKey(key, k, names[..|names| - 1]) + (if key(last) == k then [last] else [])
  }

  lemma {:induction false} WithKeyAppend(key: string -> nat, k: nat, a: seq<string>, b: seq<string>)
    ensures WithKey(key, k, a + b) == WithKey(key, k, a) + WithKey(key, k, b)
  {
    if b != [] {
      var last := b[|b| - 1];
      var tail := if key(last) == k then [last] else [];
      assert (a + b)[..|a + b| - 1] == a + b[..|b| - 1];
      assert (a + b)[|a + b| - 1] == last;
      WithKeyAppend(key, k, a, b[..|b| - 1]);
      assert WithKey(key, k, a + b) == (WithKey(key, k, a) + WithKey(key, k, b[..|b| - 1])) + tail;
      assert WithKey(key, k, b) == WithKey(key, k, b[..|b| - 1]) + tail;
    } else {
      assert a + b == a;
    }
  }

  lemma {:induction false} WithKeyAbsent(key: string -> nat, k: nat, names: seq<string>)
    requires forall i :: 0 <= i < |names| ==> key(names[i]) != k
    ensures WithKey(key, k, names) == []
  {
    if names != [] {
      WithKeyAbsent(key, k, names[..|names| - 1]);
    }
  }

  lemma WithKeyOne(key: string -> nat, k: nat, name: string)
    ensures WithKey(key, k, [name]) == if key(name) == k then [name] else []
  {
    assert [name][..0] == [];
  }

  /** Filtering around a cut: the entries of `front`, then `name` if it has
      the key, then those of `back`. */
  lemma WithKeySplit(key: string -> nat, k: nat, front: seq<string>, name: string, back: seq<string>)
    ensures WithKey(key, k, front + [name] + back)
         == WithKey(key, k, front) + (if key(name) == k then [name] else []) + WithKey(key, k, back)
  {
    WithKeyAppend(key, k, front + [name], back);
    WithKeyAppend(key, k, front, [name]);
    WithKeyOne(key, k, name);
  }

  /** The insertion puts `name` after every entry with its key. */
  lemma InsertIsStable(key: string -> nat, k: nat, name: string, sorted: seq<string>)
    ensures WithKey(key, k, InsertBy(key, name, sorted))
         == WithKey(key, k, sorted) + (if key(name) == k then [name] else [])
  {
    var p := InsertPosition(key, name, sorted);
    var front, back := sorted[..p], sorted[p..];
    assert sorted == front + back;
    WithKeyAppend(key, k, front, back);
    WithKeySplit(key, k, front, name, back);
    if key(name) == k {
      forall i | 0 <= i < |back| ensures key(back[i]) != k {
        assert back[i] == sorted[p + i];
      }
      WithKeyAbsent(key, k, back);
      assert WithKey(key, k, front) + WithKey(key, k, back) == WithKey(key, k, front);
    } else {
      assert WithKey(key, k, front) + [] + WithKey(key, k, back) == WithKey(key, k, sorted);
    }
  }

  /** `Array.prototype.sort` is stable: entries with equal keys keep their
      order in the input. */
  lemma {:induction false} SortIsStable(key: string -> nat, k: nat, names: seq<string>)
    ensures WithKey(key, k, SortBy(key, names)) == WithKey(key, k, names)
  {
    if names != [] {
      var init, last := names[..|names| - 1], names[|names| - 1];
      SortIsStable(key, k, init);
      InsertIsStable(key, k, last, SortBy(key, init));
    }
  }

  /** The chunk files the transcriber works on, in order. */
  function ChunkFiles(listing: seq<string>): (r: seq<string>)
    ensures multiset(r) == multiset(Mp3Files(listing))
    ensures SortedByKey(r)
  {
    SortBy(ChunkKey, Mp3Files(listing))
  }

  /** Only `.mp3` names are used, every one of them once per listing entry,
      in non-decreasing numeric order. */
  lemma ChunkFilesContract(listing: seq<string>)
    ensures var files := ChunkFiles(listing);
      && multiset(files) == multiset(Mp3Files(listing))
      && (forall f :: f in files <==> f in listing && IsMp3(f))
      && SortedByKey(files)
  {
    var files := ChunkFiles(listing);
    forall f ensures f in files <==> f in Mp3Files(listing) {
      assert f in files <==> f in multiset(files);
    }
  }

  // ---------------------------------------------------------------------------
  // transcribeChunkWithRetry
  // ---------------------------------------------------------------------------

  /** The verbose JSON answer of the speech-to-text call; absent fields are
      `None`. */
  datatype RawTranscription = RawTranscription(text: Option<string>, segments: Option<seq<Segment>>)

  /** One call of the service: an answer, or an error with its HTTP status. */
  datatype Attempt = Answered(raw: RawTranscription) | Rejected(status: Option<int>, message: string)

  /** `{ text: data.text || '', segments: (data.segments || []).map(…) }` */
  function ChunkOf(raw: RawTranscription): ChunkTranscript
  {
    ChunkTranscript(OrElse(raw.text, ""), if raw.segments.Some? then raw.segments.value else [])
  }

  /** The outcome of the retries, the attempts made and the waits (in ms)
      between them. */
  datatype RetryRun = RetryRun(outcome: Result<ChunkTranscript, string>, attempts: nat, waits: seq<int>)

  function Pow2(k: nat): (r: nat)
    ensures r >= 1
  {
    if k == 0 then 1 else 2 * Pow2(k - 1)
  }

  function ChunkLabel(chunkIndex: nat): string
  {
    NatToString(chunkIndex + 1)
  }

  /** The error thrown when no attempt is allowed. */
  function ExhaustedMessage(chunkIndex: nat, maxRetries: nat): string
  {
    "Failed to transcribe chunk " + ChunkLabel(chunkIndex) + " after " + NatToString(maxRetries) + " attempts"
  }

  /** The error thrown when the last attempt fails with `message`. */
  function FailedMessage(chunkIndex: nat, message: string): string
  {
    "Chunk " + ChunkLabel(chunkIndex) + " transcription failed: " + message
  }

  /** The attempts from number `attempt` on, when `respond(k)` is what the
      `k`-th call returns. */
  function RetryFrom(respond: nat -> Attempt, maxRetries: nat, chunkIndex: nat, attempt: nat): RetryRun
    decreases maxRetries - attempt
  {
    if attempt >= maxRetries then
      RetryRun(Err(ExhaustedMessage(chunkIndex, maxRetries)), 0, [])
    else
      match respond(attempt)
      case Answered(raw) => RetryRun(Ok(ChunkOf(raw)), 1, [])
      case Rejected(status, message) =>
        if attempt == maxRetries - 1 then
          RetryRun(Err(FailedMessage(chunkIndex, message)), 1, [])
        else
          var rest := RetryFrom(respond, maxRetries, chunkIndex, attempt + 1);
          RetryRun(rest.outcome, rest.attempts + 1, RateWait(status, attempt) + rest.waits)
  }

  /** `transcribeChunkWithRetry(chunkPath, chunkIndex, maxRetries)`; `waits`
      are the `setTimeout` delays. */
  method TranscribeChunkWithRetry(respond: nat -> Attempt, chunkIndex: nat, maxRetries: nat)
    returns (outcome: Result<ChunkTranscript, string>, attempts: nat, waits: seq<int>)
    ensures RetryRun(outcome, attempts, waits) == RetryFrom(respond, maxRetries, chunkIndex, 0)
  {
    ghost var total := RetryFrom(respond, maxRetries, chunkIndex, 0);
    attempts := 0;
    waits := [];
    var attempt := 0;
    ResumeStart(total);
    while attempt < maxRetries
      invariant attempt == attempts <= maxRetries
      invariant Resume(attempt, waits, RetryFrom(respond, maxRetries, chunkIndex, attempt)) == total
      decreases maxRetries - attempt
    {
      ResumeAfter(respond, maxRetries, chunkIndex, attempt, waits);
      attempts := attempts + 1;
      var response := respond(attempt);
      if response.Answered? {
        outcome := Ok(ChunkOf(response.raw));
        return;
      }
      var isLastAttempt := attempt == maxRetries - 1;
      if response.status == Some(RateLimitStatus) {
        var waitTime := Pow2(attempt) * 1000;
        if !isLastAttempt {
          waits := waits + [waitTime];
          attempt := attempt + 1;
          continue;
        }
      }
      if isLastAttempt {
        outcome := Err(FailedMessage(chunkIndex, response.message));
        return;
      }
      attempt := attempt + 1;
    }
    ResumeEnd(attempt, waits, RetryFrom(respond, maxRetries, chunkIndex, attempt));
    outcome := Err(ExhaustedMessage(chunkIndex, maxRetries));
  }

  /** What call number `attempt` leaves of the run: the answer, the last
      failure, or the delay and the rest of the calls. */
  lemma ResumeAfter(respond: nat -> Attempt, maxRetries: nat, chunkIndex: nat, attempt: nat, waits: seq<int>)
    requires attempt < maxRetries
    ensures var r := Resume(attempt, waits, RetryFrom(respond, maxRetries, chunkIndex, attempt));
      var rest := RetryFrom(respond, maxRetries, chunkIndex, attempt + 1);
      && (respond(attempt).Answered? ==> r == RetryRun(Ok(ChunkOf(respond(attempt).raw)), attempt + 1, waits))
      && (respond(attempt).Rejected? && attempt == maxRetries - 1 ==>
            r == RetryRun(Err(FailedMessage(chunkIndex, respond(attempt).message)), attempt + 1, waits))
      && (respond(attempt).Rejected? && attempt < maxRetries - 1 ==>
            if respond(attempt).status == Some(RateLimitStatus)
            then r == Resume(attempt + 1, waits + [Pow2(attempt) * 1000], rest)
            else r == Resume(attempt + 1, waits, rest))
  {
    var r := RetryFrom(respond, maxRetries, chunkIndex, attempt);
    if respond(attempt).Answered? || attempt == maxRetries - 1 {
      RetryStops(respond, maxRetries, chunkIndex, attempt);
      ResumeEnd(attempt, waits, r);
    } else {
      RetryRejectedStep(respond, maxRetries, chunkIndex, attempt);
      ResumeStep(attempt, waits, r, RetryFrom(respond, maxRetries, chunkIndex, attempt + 1),
                 RateWait(respond(attempt).status, attempt));
    }
  }

  /** The delay after a rejected call that is not the last: `2^attempt`
      seconds on a rate limit, none otherwise. */
  function RateWait(status: Option<int>, attempt: nat): seq<int>
  {
    if status == Some(RateLimitStatus) then [Pow2(attempt) * 1000] else []
  }

  /** The whole run, given the attempts made and the waits so far and the run
      of the attempts still to come. */
  function Resume(attempts: nat, waits: seq<int>, rest: RetryRun): RetryRun
  {
    RetryRun(rest.outcome, attempts + rest.attempts, waits + rest.waits)
  }

  lemma ResumeStart(r: RetryRun)
    ensures Resume(0, [], r) == r
  {
    assert [] + r.waits == r.waits;
  }

  /** A run that makes `r.attempts` more calls and no more waits. */
  lemma ResumeEnd(attempts: nat, waits: seq<int>, r: RetryRun)
    requires r.waits == []
    ensures Resume(attempts, waits, r) == RetryRun(r.outcome, attempts + r.attempts, waits)
  {
    assert waits + [] == waits;
  }

  /** One more call and its delay move from the rest of the run to what is
      done. */
  lemma ResumeStep(attempts: nat, waits: seq<int>, r: RetryRun, rest: RetryRun, wait: seq<int>)
    requires r.outcome == rest.outcome && r.attempts == rest.attempts + 1 && r.waits == wait + rest.waits
    ensures Resume(attempts, waits, r) == Resume(attempts + 1, waits + wait, rest)
    ensures wait == [] ==> Resume(attempts, waits, r) == Resume(attempts + 1, waits, rest)
  {
    assert waits + (wait + rest.waits) == (waits + wait) + rest.waits;
    if wait == [] {
      assert waits + wait == waits;
    }
  }

  /** An answered call, or the last one, ends the attempts. */
  lemma RetryStops(respond: nat -> Attempt, maxRetries: nat, chunkIndex: nat, attempt: nat)
    requires attempt < maxRetries && (respond(attempt).Answered? || attempt == maxRetries - 1)
    ensures var r := RetryFrom(respond, maxRetries, chunkIndex, attempt);
      && r.attempts == 1 && r.waits == []
      && (respond(attempt).Answered? ==> r.outcome == Ok(ChunkOf(respond(attempt).raw)))
      && (respond(attempt).Rejected? ==>
            r.outcome == Err(FailedMessage(chunkIndex, respond(attempt).message)))
  {
  }

  /** A rejected call that is not the last one: the rest of the attempts
      follow, after a wait when the rejection was a rate limit. */
  lemma RetryRejectedStep(respond: nat -> Attempt, maxRetries: nat, chunkIndex: nat, attempt: nat)
    requires attempt + 1 < maxRetries && respond(attempt).Rejected?
    ensures var rest := RetryFrom(respond, maxRetries, chunkIndex, attempt + 1);
      var r := RetryFrom(respond, maxRetries, chunkIndex, attempt);
      && r.outcome == rest.outcome && r.attempts == rest.attempts + 1
      && r.waits == RateWait(respond(attempt).status, attempt) + rest.waits
      && (respond(attempt).status == Some(RateLimitStatus) ==> r.waits == [Pow2(attempt) * 1000] + rest.waits)
      && (respond(attempt).status != Some(RateLimitStatus) ==> r.waits == rest.waits)
  {
  }

  /** The index of the first answered call from `attempt` on, before
      `maxRetries`. */
  function FirstAnswer(respond: nat -> Attempt, maxRetries: nat, attempt: nat): (k: Option<nat>)
    ensures k.Some? ==> attempt <= k.value < maxRetries && respond(k.value).Answered?
                        && forall j :: attempt <= j < k.value ==> respond(j).Rejected?
    ensures k.None? ==> forall j :: attempt <= j < maxRetries ==> respond(j).Rejected?
    decreases maxRetries - attempt
  {
    if attempt >= maxRetries then None
    else if respond(attempt).Answered? then Some(attempt)
    else FirstAnswer(respond, maxRetries, attempt + 1)
  }

  /** The retries succeed exactly when one of the first `maxRetries` calls is
      answered; they stop at the first answer, which is the result, and they
      make every allowed call otherwise. */
  lemma {:induction false} RetryOutcome(respond: nat -> Attempt, maxRetries: nat, chunkIndex: nat, attempt: nat)
    requires attempt <= maxRetries
    ensures var r := RetryFrom(respond, maxRetries, chunkIndex, attempt);
      var k := FirstAnswer(respond, maxRetries, attempt);
      && (r.outcome.Ok? <==> k.Some?)
      && (k.Some? ==> r.outcome.value == ChunkOf(respond(k.value).raw) && r.attempts == k.value - attempt + 1)
      && (k.None? ==> r.attempts == maxRetries - attempt)
    decreases maxRetries - attempt
  {
    if attempt < maxRetries && respond(attempt).Rejected? && attempt != maxRetries - 1 {
      RetryOutcome(respond, maxRetries, chunkIndex, attempt + 1);
    }
  }

  /** There is one delay per rate-limited call that is not the last, so
      there are fewer delays than calls. */
  lemma {:induction false} RetryWaitCount(respond: nat -> Attempt, maxRetries: nat, chunkIndex: nat, attempt: nat)
    requires attempt <= maxRetries
    ensures var r := RetryFrom(respond, maxRetries, chunkIndex, attempt);
      && (r.attempts == 0 ==> |r.waits| == 0)
      && (r.attempts > 0 ==> |r.waits| < r.attempts)
    decreases maxRetries - attempt
  {
    if attempt < maxRetries && respond(attempt).Rejected? && attempt != maxRetries - 1 {
      RetryWaitCount(respond, maxRetries, chunkIndex, attempt + 1);
      RetryRejectedStep(respond, maxRetries, chunkIndex, attempt);
    }
  }

  /** The delay after the `k`-th call is `2^k` seconds, so none is shorter
      than the one the first call would get. */
  lemma {:induction false} RetryWaitsFloor(respond: nat -> Attempt, maxRetries: nat, chunkIndex: nat, attempt: nat)
    requires attempt <= maxRetries
    ensures var w := RetryFrom(respond, maxRetries, chunkIndex, attempt).waits;
      forall i :: 0 <= i < |w| ==> w[i] >= Pow2(attempt) * 1000
    decreases maxRetries - attempt
  {
    if attempt < maxRetries && respond(attempt).Rejected? && attempt != maxRetries - 1 {
      RetryWaitsFloor(respond, maxRetries, chunkIndex, attempt + 1);
      RetryRejectedStep(respond, maxRetries, chunkIndex, attempt);
      assert Pow2(attempt + 1) * 1000 >= Pow2(attempt) * 1000;
      if respond(attempt).status == Some(RateLimitStatus) {
        FloorPrepend(Pow2(attempt) * 1000, RetryFrom(respond, maxRetries, chunkIndex, attempt + 1).waits);
      }
    }
  }

  /** Prepending the floor keeps every entry at or above it. */
  lemma FloorPrepend(first: nat, rest: seq<int>)
    requires forall i :: 0 <= i < |rest| ==> rest[i] >= first
    ensures var w := [first] + rest;
      forall i :: 0 <= i < |w| ==> w[i] >= first
  {
    var w := [first] + rest;
    forall i | 0 <= i < |w| ensures w[i] >= first {
      if i > 0 {
        assert w[i] == rest[i - 1];
      }
    }
  }

  /** Each delay is at least twice the one before. */
  lemma {:induction false} RetryWaits(respond: nat -> Attempt, maxRetries: nat, chunkIndex: nat, attempt: nat)
    requires attempt <= maxRetries
    ensures var w := RetryFrom(respond, maxRetries, chunkIndex, attempt).waits;
      forall i :: 0 <= i < |w| - 1 ==> w[i + 1] >= 2 * w[i]
    decreases maxRetries - attempt
  {
    if attempt < maxRetries && respond(attempt).Rejected? && attempt != maxRetries - 1 {
      RetryWaits(respond, maxRetries, chunkIndex, attempt + 1);
      RetryRejectedStep(respond, maxRetries, chunkIndex, attempt);
      if respond(attempt).status == Some(RateLimitStatus) {
        var first := Pow2(attempt) * 1000;
        RetryWaitsFloor(respond, maxRetries, chunkIndex, attempt + 1);
        assert Pow2(attempt + 1) * 1000 == 2 * first;
        WaitsPrepend(first, RetryFrom(respond, maxRetries, chunkIndex, attempt + 1).waits);
      }
    }
  }

  /** Prepending a delay no longer than half of every later one keeps each
      delay at least twice the one before. */
  lemma WaitsPrepend(first: nat, rest: seq<int>)
    requires forall i :: 0 <= i < |rest| ==> rest[i] >= 2 * first
    requires forall i :: 0 <= i < |rest| - 1 ==> rest[i + 1] >= 2 * rest[i]
    ensures var w := [first] + rest;
      forall i :: 0 <= i < |w| - 1 ==> w[i + 1] >= 2 * w[i]
  {
    var w := [first] + rest;
    forall i | 0 <= i < |w| - 1 ensures w[i + 1] >= 2 * w[i] {
      assert w[i + 1] == rest[i];
      if i > 0 {
        assert w[i] == rest[i - 1];
      }
    }
  }

  /** With no rate limiting there is no waiting. */
  lemma {:induction false} NoRateLimitNoWait(respond: nat -> Attempt, maxRetries: nat, chunkIndex: nat, attempt: nat)
    requires forall k :: respond(k).Rejected? ==> respond(k).status != Some(RateLimitStatus)
    ensures RetryFrom(respond, maxRetries, chunkIndex, attempt).waits == []
    decreases maxRetries - attempt
  {
    if attempt < maxRetries && respond(attempt).Rejected? && attempt != maxRetries - 1 {
      NoRateLimitNoWait(respond, maxRetries, chunkIndex, attempt + 1);
    }
  }

  /** The "after N attempts" error is only reachable with no attempt allowed:
      otherwise the last attempt's failure is reported. */
  lemma {:induction false} LastFailureReported(respond: nat -> Attempt, maxRetries: nat, chunkIndex: nat, attempt: nat)
    requires attempt < maxRetries
    requires FirstAnswer(respond, maxRetries, attempt).None?
    ensures RetryFrom(respond, maxRetries, chunkIndex, attempt).outcome
         == Err(FailedMessage(chunkIndex, respond(maxRetries - 1).message))
    decreases maxRetries - attempt
  {
    if attempt != maxRetries - 1 {
      LastFailureReported(respond, maxRetries, chunkIndex, attempt + 1);
    }
  }

  // ---------------------------------------------------------------------------
  // transcribeAudioChunks: stitching
  // ---------------------------------------------------------------------------

  /** `normalizedTranscripts.flatMap(t => t.segments)` over the chunks in
      order, chunk `i` shifted by `i * 600`. */
  function Stitch(chunks: seq<ChunkTranscript>): seq<Segment>
  {
    if chunks == [] then []
    else Stitch(chunks[..|chunks| - 1]) + Normalize(chunks[|chunks| - 1], |chunks| - 1, DefaultChunkSeconds).segments
  }

  /** The number of segments of the first `k` chunks. */
  function SegmentsBefore(chunks: seq<ChunkTranscript>, k: nat): nat
    requires k <= |chunks|
  {
    if k == 0 then 0 else SegmentsBefore(chunks, k - 1) + |chunks[k - 1].segments|
  }

  lemma {:induction false} SegmentsBeforePrefix(chunks: seq<ChunkTranscript>, n: nat, k: nat)
    requires k <= n <= |chunks|
    ensures SegmentsBefore(chunks[..n], k) == SegmentsBefore(chunks, k)
  {
    if k > 0 {
      SegmentsBeforePrefix(chunks, n, k - 1);
    }
  }

  lemma {:induction false} StitchLength(chunks: seq<ChunkTranscript>)
    ensures |Stitch(chunks)| == SegmentsBefore(chunks, |chunks|)
  {
    if chunks != [] {
      var n := |chunks|;
      StitchLength(chunks[..n - 1]);
      SegmentsBeforePrefix(chunks, n - 1, n - 1);
    }
  }

  /** The stitched segments are the chunks' normalized segments one chunk
      after the other: segment `j` of chunk `k`, normalized, sits at position
      `SegmentsBefore(chunks, k) + j`, after the segments of the chunks before. */
  lemma {:induction false} StitchAt(chunks: seq<ChunkTranscript>, k: nat, j: nat)
    requires k < |chunks| && j < |chunks[k].segments|
    ensures SegmentsBefore(chunks, k) + j < |Stitch(chunks)|
    ensures Stitch(chunks)[SegmentsBefore(chunks, k) + j] == Normalize(chunks[k], k, DefaultChunkSeconds).segments[j]
  {
    var n := |chunks|;
    var init := chunks[..n - 1];
    var last := Normalize(chunks[n - 1], n - 1, DefaultChunkSeconds).segments;
    assert Stitch(chunks) == Stitch(init) + last;
    StitchLength(init);
    SegmentsBeforePrefix(chunks, n - 1, k);
    if k < n - 1 {
      assert init[k] == chunks[k];
      StitchAt(init, k, j);
    } else {
      SegmentsBeforePrefix(chunks, n - 1, n - 1);
    }
  }

  ghost predicate StartsOrdered(segs: seq<Segment>)
  {
    forall i, j :: 0 <= i < j < |segs| ==> segs[i].start <= segs[j].start
  }

  /** Every segment of the chunk starts within its first `chunkSeconds`. */
  ghost predicate WithinChunk(t: ChunkTranscript, chunkSeconds: nat)
  {
    forall i :: 0 <= i < |t.segments| ==> t.segments[i].start < chunkSeconds
  }

  /** Times become cumulative: when each chunk's segments are in order and
      start within the chunk's ten minutes, the stitched segments are in order
      and each starts before the end of the chunks so far. */
  lemma {:induction false} StitchOrdered(chunks: seq<ChunkTranscript>)
    requires forall k :: 0 <= k < |chunks| ==> StartsOrdered(chunks[k].segments) && WithinChunk(chunks[k], DefaultChunkSeconds)
    ensures StartsOrdered(Stitch(chunks))
    ensures forall i :: 0 <= i < |Stitch(chunks)| ==> Stitch(chunks)[i].start < |chunks| * DefaultChunkSeconds
  {
    if chunks != [] {
      var n := |chunks|;
      var init := chunks[..n - 1];
      StitchOrdered(init);
      var last := Normalize(chunks[n - 1], n - 1, DefaultChunkSeconds).segments;
      NormalizeShifts(chunks[n - 1], n - 1, DefaultChunkSeconds);
      assert Stitch(chunks) == Stitch(init) + last;
      OrderedConcat(Stitch(init), last, (n - 1) * DefaultChunkSeconds, n * DefaultChunkSeconds);
    }
  }

  /** Ordered segments all before `bound`, then ordered segments from `bound`
      on and before `limit`, are ordered and all before `limit`. */
  lemma OrderedConcat(before: seq<Segment>, after: seq<Segment>, bound: nat, limit: nat)
    requires StartsOrdered(before) && StartsOrdered(after) && bound <= limit
    requires forall i :: 0 <= i < |before| ==> before[i].start < bound
    requires forall i :: 0 <= i < |after| ==> bound <= after[i].start < limit
    ensures StartsOrdered(before + after)
    ensures forall i :: 0 <= i < |before + after| ==> (before + after)[i].start < limit
  {
    var all := before + after;
    forall i, j | 0 <= i < j < |all| ensures all[i].start <= all[j].start {
      if i >= |before| {
        assert all[i] == after[i - |before|] && all[j] == after[j - |before|];
      } else if j >= |before| {
        assert all[i] == before[i] && all[j] == after[j - |before|];
      } else {
        assert all[i] == before[i] && all[j] == before[j];
      }
    }
  }

  /** One line of `fullText`: `[HH:MM:SS] text`, the text trimmed. */
  function Line(seg: Segment): string
  {
    "[" + FormatTimestamp(seg.start) + "] " + Trim(seg.text)
  }

  function Lines(segs: seq<Segment>): (r: seq<string>)
    ensures |r| == |segs|
    ensures forall i :: 0 <= i < |segs| ==> r[i] == Line(segs[i])
  {
    seq(|segs|, i requires 0 <= i < |segs| => Line(segs[i]))
  }

  lemma BracketShape(stamp: string, text: string)
    ensures var line := "[" + stamp + "] " + text;
      && line[0] == '[' && line[|stamp| + 1] == ']'
      && line[1..|stamp| + 1] == stamp
      && line[|stamp| + 3..] == text
  {
  }

  /** The bracketed timestamp of each line reads back as the segment's start,
      and the rest of the line is the trimmed text. */
  lemma LineReadsBack(seg: Segment)
    ensures var line := Line(seg);
      var stamp := FormatTimestamp(seg.start);
      && line[0] == '[' && line[|stamp| + 1] == ']'
      && TimestampValue(line[1..|stamp| + 1]) == Some(seg.start)
      && line[|stamp| + 3..] == Trim(seg.text)
  {
    BracketShape(FormatTimestamp(seg.start), Trim(seg.text));
  }

  /** `allSegments.length > 0 ? last.end : 0` */
  function Duration(segs: seq<Segment>): nat
  {
    if segs == [] then 0 else segs[|segs| - 1].end
  }

  /** The first chunk whose transcription failed, in chunk order. */
  function FirstRejection(outcomes: seq<Result<ChunkTranscript, string>>): (k: Option<nat>)
    ensures k.Some? ==> k.value < |outcomes| && outcomes[k.value].Err?
    ensures k.None? ==> forall i :: 0 <= i < |outcomes| ==> outcomes[i].Ok?
  {
    if outcomes == [] then None
    else
      var k := FirstRejection(outcomes[..|outcomes| - 1]);
      if k.Some? then k else if outcomes[|outcomes| - 1].Err? then Some(|outcomes| - 1) else None
  }

  /** `chunkFiles.map((file, index) => transcribeChunkWithRetry(…, index))`,
      settled. */
  function Outcomes(files: seq<string>, transcribe: (nat, string) -> Result<ChunkTranscript, string>)
    : (r: seq<Result<ChunkTranscript, string>>)
    ensures |r| == |files| && forall i :: 0 <= i < |files| ==> r[i] == transcribe(i, files[i])
  {
    seq(|files|, i requires 0 <= i < |files| => transcribe(i, files[i]))
  }

  /** The transcripts of outcomes that all succeeded. */
  function Transcripts(outcomes: seq<Result<ChunkTranscript, string>>): (r: seq<ChunkTranscript>)
    requires forall i :: 0 <= i < |outcomes| ==> outcomes[i].Ok?
    ensures |r| == |outcomes| && forall i :: 0 <= i < |outcomes| ==> r[i] == outcomes[i].value
  {
    seq(|outcomes|, i requires 0 <= i < |outcomes| => outcomes[i].value)
  }

  /** `transcribeAudioChunks(dir)`, with `readdir` what `fs.readdirSync(dir)`
      gives (the names in `dir`, or the message it throws) and
      `transcribe(i, name)` the outcome of the retries for the `i`-th file.
      A directory that cannot be read fails the run before any file is
      looked at. */
  function TranscribeAudioChunks(directory: string, readdir: Result<seq<string>, string>,
                                 transcribe: (nat, string) -> Result<ChunkTranscript, string>)
    : (r: Result<TranscriptionResult, string>)
    ensures readdir.Err? ==> r == Err(readdir.error)
    ensures r.Ok? ==> readdir.Ok? && r.value.chunkCount == |ChunkFiles(readdir.value)| > 0
  {
    if readdir.Err? then Err(readdir.error)
    else
      var files := ChunkFiles(readdir.value);
      if |files| == 0 then Err("No audio chunks found in " + directory)
      else
        var outcomes := Outcomes(files, transcribe);
        match FirstRejection(outcomes)
        case Some(k) => Err(outcomes[k].error)
        case None =>
          var segments := Stitch(Transcripts(outcomes));
          Ok(TranscriptionResult(Join(Lines(segments), "\n"), segments, Duration(segments), |files|))
  }

  /** The run fails exactly when there is no `.mp3` file or some chunk's
      transcription failed, and then with that chunk's message. */
  lemma TranscribeFailure(directory: string, listing: seq<string>,
                          transcribe: (nat, string) -> Result<ChunkTranscript, string>)
    ensures var files := ChunkFiles(listing);
      var r := TranscribeAudioChunks(directory, Ok(listing), transcribe);
      && (r.Err? <==> |files| == 0 || exists i :: 0 <= i < |files| && transcribe(i, files[i]).Err?)
      && (|files| == 0 ==> r == Err("No audio chunks found in " + directory))
      && (|files| > 0 && r.Err? ==> exists i :: 0 <= i < |files| && transcribe(i, files[i]) == Err(r.error))
  {
    var files := ChunkFiles(listing);
    if |files| > 0 {
      var outcomes := Outcomes(files, transcribe);
      if FirstRejection(outcomes).Some? {
        var k := FirstRejection(outcomes).value;
        assert transcribe(k, files[k]).Err?;
      }
    }
  }

  /** The per-file outcome of `transcribeAudioChunks`: file `i` goes through
      `transcribeChunkWithRetry` with the default three attempts, the service
      answering attempt `a` on file `f` with `responses(i, f)(a)`. */
  function RetriedTranscribe(responses: (nat, string) -> (nat -> Attempt)): (nat, string) -> Result<ChunkTranscript, string>
  {
    (i: nat, f: string) => RetryFrom(responses(i, f), DefaultMaxRetries, i, 0).outcome
  }

  /** With the retries in place, a run over some files fails only when every
      attempt on some file `i` was rejected, and then with the message of the
      last attempt on that file, labelled with `i`. */
  lemma TranscribeFailureWithRetries(directory: string, listing: seq<string>,
                                     responses: (nat, string) -> (nat -> Attempt))
    ensures var files := ChunkFiles(listing);
      var r := TranscribeAudioChunks(directory, Ok(listing), RetriedTranscribe(responses));
      |files| > 0 && r.Err? ==>
        exists i :: && 0 <= i < |files|
                    && FirstAnswer(responses(i, files[i]), DefaultMaxRetries, 0).None?
                    && r.error == FailedMessage(i, responses(i, files[i])(DefaultMaxRetries - 1).message)
  {
    var files := ChunkFiles(listing);
    var transcribe := RetriedTranscribe(responses);
    var r := TranscribeAudioChunks(directory, Ok(listing), transcribe);
    TranscribeFailure(directory, listing, transcribe);
    if |files| > 0 && r.Err? {
      var i :| 0 <= i < |files| && transcribe(i, files[i]) == Err(r.error);
      var respond := responses(i, files[i]);
      assert transcribe(i, files[i]) == RetryFrom(respond, DefaultMaxRetries, i, 0).outcome;
      RetryOutcome(respond, DefaultMaxRetries, i, 0);
      LastFailureReported(respond, DefaultMaxRetries, i, 0);
    }
  }

  /** A successful run reports one chunk per file, the stitched segments of
      the transcripts in file order, the last segment's end (or 0) as the
      duration and one timestamped line per segment. */
  lemma TranscribeSuccess(directory: string, listing: seq<string>,
                          transcribe: (nat, string) -> Result<ChunkTranscript, string>)
    requires TranscribeAudioChunks(directory, Ok(listing), transcribe).Ok?
    ensures var files := ChunkFiles(listing);
      var r := TranscribeAudioChunks(directory, Ok(listing), transcribe).value;
      var outcomes := Outcomes(files, transcribe);
      && (forall i :: 0 <= i < |files| ==> outcomes[i].Ok?)
      && r.chunkCount == |files| > 0
      && r.segments == Stitch(Transcripts(outcomes))
      && (r.segments == [] ==> r.duration == 0)
      && (r.segments != [] ==> r.duration == r.segments[|r.segments| - 1].end)
      && r.fullText == Join(Lines(r.segments), "\n")
  {
  }

  // ---------------------------------------------------------------------------
  // The chunker's files
  // ---------------------------------------------------------------------------

  lemma {:induction false} DigitPrefixStops(d: string, q: string)
    requires AllDigits(d)
    requires q == [] || !IsDigit(q[0])
    ensures DigitPrefix(d + q) == d
  {
    if d == [] {
      assert d + q == q;
    } else {
      assert (d + q)[0] == d[0] && (d + q)[1..] == d[1..] + q;
      DigitPrefixStops(d[1..], q);
    }
  }

  lemma {:induction false} FirstRunAfter(p: string, d: string, q: string)
    requires forall i :: 0 <= i < |p| ==> !IsDigit(p[i])
    requires d != [] && AllDigits(d)
    requires q == [] || !IsDigit(q[0])
    ensures FirstDigitRun(p + d + q) == d
  {
    if p == [] {
      assert p + d + q == d + q;
      assert (d + q)[0] == d[0];
      DigitPrefixStops(d, q);
    } else {
      assert (p + d + q)[0] == p[0] && (p + d + q)[1..] == p[1..] + d + q;
      FirstRunAfter(p[1..], d, q);
    }
  }

  /** The transcriber reads each chunker file name back as its index, so the
      chunk at index `i` is shifted by `i * 600`, its start in the chunker's
      plan with the default length. */
  lemma ChunkKeyOfChunkName(i: nat)
    ensures ChunkKey(AudioChunker.ChunkName(i)) == i
    ensures IsMp3(AudioChunker.ChunkName(i))
  {
    var digits := NatToString(i);
    var padded := PadStart(digits, 3, '0');
    var z := padded[..|padded| - |digits|];
    assert padded == z + digits;
    LeadingZerosValue(z, digits);
    NatToStringRoundTrip(i);
    var name := AudioChunker.ChunkName(i);
    assert name == "chunk_" + padded + ".mp3";
    assert !IsDigit('c') && !IsDigit('h') && !IsDigit('u') && !IsDigit('n') && !IsDigit('k') && !IsDigit('_');
    FirstRunAfter("chunk_", padded, ".mp3");
    assert name[|name| - 4..] == ".mp3";
  }

  function ChunkNames(n: nat): (r: seq<string>)
    ensures |r| == n && forall i :: 0 <= i < n ==> r[i] == AudioChunker.ChunkName(i)
  {
    seq(n, i requires 0 <= i < n => AudioChunker.ChunkName(i))
  }

  /** `f` is the chunker's name for an index below `n`, namely its key. */
  predicate IsChunkFile(f: string, n: nat)
  {
    ChunkKey(f) < n && f == AudioChunker.ChunkName(ChunkKey(f))
  }

  ghost predicate Distinct(s: seq<string>)
  {
    forall i, j :: 0 <= i < j < |s| ==> s[i] != s[j]
  }

  lemma NamesAreChunkFiles(n: nat)
    ensures forall f :: f in ChunkNames(n) ==> IsChunkFile(f, n) && IsMp3(f)
    ensures Distinct(ChunkNames(n))
  {
    var names := ChunkNames(n);
    forall i | 0 <= i < n ensures IsChunkFile(names[i], n) && IsMp3(names[i]) {
      ChunkKeyOfChunkName(i);
    }
    forall i, j | 0 <= i < j < n ensures names[i] != names[j] {
      ChunkKeyOfChunkName(i);
      ChunkKeyOfChunkName(j);
    }
  }

  lemma {:induction false} CountInDistinct(t: seq<string>, x: string)
    requires Distinct(t)
    ensures multiset(t)[x] <= 1
  {
    if t != [] {
      var init := t[..|t| - 1];
      assert t == init + [t[|t| - 1]];
      CountInDistinct(init, x);
      if t[|t| - 1] == x {
        assert x !in init;
      }
    }
  }

  lemma RepeatCountsTwice(s: seq<string>, i: nat, j: nat)
    requires i < j < |s| && s[i] == s[j]
    ensures multiset(s)[s[i]] >= 2
  {
    assert s == s[..j] + [s[j]] + s[j + 1..];
    assert s[i] in multiset(s[..j]) by { assert s[..j][i] == s[i]; }
  }

  lemma DistinctFromMultiset(s: seq<string>, t: seq<string>)
    requires multiset(s) == multiset(t) && Distinct(t)
    ensures Distinct(s)
  {
    forall i, j | 0 <= i < j < |s| ensures s[i] != s[j] {
      if s[i] == s[j] {
        RepeatCountsTwice(s, i, j);
        CountInDistinct(t, s[i]);
      }
    }
  }

  lemma {:induction false} StrictKeysAreIndices(files: seq<string>, n: nat)
    requires |files| == n
    requires forall i :: 0 <= i < n ==> ChunkKey(files[i]) < n
    requires forall i, j :: 0 <= i < j < n ==> ChunkKey(files[i]) < ChunkKey(files[j])
    ensures forall i :: 0 <= i < n ==> ChunkKey(files[i]) == i
  {
    forall i | 0 <= i < n ensures ChunkKey(files[i]) == i {
      KeyAtLeastIndex(files, n, i);
      KeyAtMostIndex(files, n, i);
    }
  }

  lemma {:induction false} KeyAtLeastIndex(files: seq<string>, n: nat, i: nat)
    requires |files| == n && i < n
    requires forall i, j :: 0 <= i < j < n ==> ChunkKey(files[i]) < ChunkKey(files[j])
    ensures ChunkKey(files[i]) >= i
  {
    if i > 0 {
      KeyAtLeastIndex(files, n, i - 1);
    }
  }

  lemma {:induction false} KeyAtMostIndex(files: seq<string>, n: nat, i: nat)
    requires |files| == n && i < n
    requires forall i :: 0 <= i < n ==> ChunkKey(files[i]) < n
    requires forall i, j :: 0 <= i < j < n ==> ChunkKey(files[i]) < ChunkKey(files[j])
    ensures ChunkKey(files[i]) + (n - 1 - i) <= n - 1
    decreases n - i
  {
    if i < n - 1 {
      KeyAtMostIndex(files, n, i + 1);
    }
  }

  lemma {:induction false} Mp3OnlyKeepsAll(listing: seq<string>)
    requires forall f :: f in listing ==> IsMp3(f)
    ensures Mp3Files(listing) == listing
  {
    if listing != [] {
      assert listing == listing[..|listing| - 1] + [listing[|listing| - 1]];
      Mp3OnlyKeepsAll(listing[..|listing| - 1]);
    }
  }

  /** A key-sorted arrangement of the chunker's first `n` names is the
      names in index order. */
  lemma SortedChunkNames(files: seq<string>, n: nat)
    requires multiset(files) == multiset(ChunkNames(n)) && SortedByKey(files)
    ensures files == ChunkNames(n)
  {
    RearrangedChunkNames(files, n);
    SortedDistinctKeysIncrease(files, n);
    StrictKeysAreIndices(files, n);
  }

  /** A rearrangement of the chunker's first `n` names has `n` distinct
      entries, each a chunk file below `n`. */
  lemma RearrangedChunkNames(files: seq<string>, n: nat)
    requires multiset(files) == multiset(ChunkNames(n))
    ensures |files| == n && Distinct(files)
    ensures forall i :: 0 <= i < n ==> IsChunkFile(files[i], n)
  {
    var names := ChunkNames(n);
    NamesAreChunkFiles(n);
    assert |files| == n by {
      assert |multiset(files)| == |multiset(names)|;
    }
    DistinctFromMultiset(files, names);
    forall i | 0 <= i < n ensures IsChunkFile(files[i], n) {
      assert files[i] in multiset(names);
    }
  }

  /** Distinct chunk files sorted by key have strictly increasing keys, as
      a chunk file's key determines its name. */
  lemma SortedDistinctKeysIncrease(files: seq<string>, n: nat)
    requires |files| == n && Distinct(files) && SortedByKey(files)
    requires forall i :: 0 <= i < n ==> IsChunkFile(files[i], n)
    ensures forall i, j :: 0 <= i < j < n ==> ChunkKey(files[i]) < ChunkKey(files[j])
  {
    forall i, j | 0 <= i < j < n ensures ChunkKey(files[i]) < ChunkKey(files[j]) {
      assert ChunkKey(files[i]) <= ChunkKey(files[j]);
    }
  }

  /** Whatever order the directory lists them in, the chunker's files are
      transcribed in index order, so chunk `i` gets the offset `i * 600`. */
  lemma ChunkerFilesInIndexOrder(listing: seq<string>, n: nat)
    requires multiset(listing) == multiset(ChunkNames(n))
    ensures ChunkFiles(listing) == ChunkNames(n)
  {
    NamesAreChunkFiles(n);
    forall f | f in listing ensures IsMp3(f) {
      assert f in multiset(ChunkNames(n));
    }
    Mp3OnlyKeepsAll(listing);
    ChunkFilesContract(listing);
    SortedChunkNames(ChunkFiles(listing), n);
  }
}
