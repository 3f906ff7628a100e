/** Audio chunk planning (api/chunking/audioChunker.ts): an episode of
    `duration` seconds is cut into consecutive pieces of `minutes * 60`
    seconds, the last one shorter, written as `chunks/chunk_%03d.mp3`.
    The probe of the file's duration and each ffmpeg encoding are inputs:
    the probe's answer and, for each chunk index, the error the encoder
    reported, if any. Durations are whole seconds. */
module AudioChunker {
  import opened Common

  const DefaultChunkMinutes: nat := 10
  const ChunkDirName: string := "chunks"

  /** What `getAudioDuration` obtained from ffprobe. */
  datatype Probe = Probed(duration: nat) | ProbeFailed(message: string)

  /** One entry of the `chunks` array. */
  datatype ChunkResult = ChunkResult(chunkPath: string, index: nat, duration: nat)

  /** One `createChunk(inputPath, chunkPath, startTime, duration)` call. */
  datatype EncodeCall = EncodeCall(outputPath: string, startTime: nat, duration: nat)

  /** `path.join(dir, name)` for a plain file name. */
  function PathJoin(dir: string, name: string): string
  {
    if dir == "" || dir == "." then name
    else if EndsWith(dir, "/") then dir + name
    else dir + "/" + name
  }

  /** `` `chunk_${String(i).padStart(3, '0')}.mp3` `` */
  function ChunkName(i: nat): (r: string)
    ensures StartsWith(r, "chunk_") && EndsWith(r, ".mp3") && |r| >= 13
  {
    "chunk_" + PadStart(NatToString(i), 3, '0') + ".mp3"
  }

  /** Where chunk `i` starts: `i` full chunks in. */
  function Start(i: nat, chunkSeconds: nat): nat
  {
    if i == 0 then 0 else Start(i - 1, chunkSeconds) + chunkSeconds
  }

  lemma {:induction false} StartIsProduct(i: nat, chunkSeconds: nat)
    ensures Start(i, chunkSeconds) == i * chunkSeconds
  {
    if i > 0 {
      StartIsProduct(i - 1, chunkSeconds);
      assert (i - 1) * chunkSeconds + chunkSeconds == i * chunkSeconds;
    }
  }

  lemma {:induction false} StartMonotone(i: nat, j: nat, chunkSeconds: nat)
    requires i <= j
    ensures Start(i, chunkSeconds) <= Start(j, chunkSeconds)
    ensures i < j ==> Start(i, chunkSeconds) + chunkSeconds <= Start(j, chunkSeconds)
  {
    if i < j {
      StartMonotone(i, j - 1, chunkSeconds);
    }
  }

  /** The number of chunks: the least `n` whose `n` full chunks reach
      `duration`. */
  function ChunkCount(duration: nat, chunkSeconds: nat): (n: nat)
    requires chunkSeconds > 0
    ensures duration == 0 <==> n == 0
    ensures n > 0 ==> Start(n - 1, chunkSeconds) < duration <= Start(n - 1, chunkSeconds) + chunkSeconds
    decreases duration
  {
    if duration == 0 then 0
    else if duration <= chunkSeconds then 1
    else
      var n := 1 + ChunkCount(duration - chunkSeconds, chunkSeconds);
      ShiftStart(n - 2, chunkSeconds);
      n
  }

  lemma {:induction false} ShiftStart(i: nat, chunkSeconds: nat)
    ensures Start(i + 1, chunkSeconds) == Start(i, chunkSeconds) + chunkSeconds
  {
  }

  /** The count is `Math.ceil(duration / chunkSeconds)`. */
  lemma CountIsCeiling(duration: nat, chunkSeconds: nat)
    requires chunkSeconds > 0
    ensures ChunkCount(duration, chunkSeconds) == (duration + chunkSeconds - 1) / chunkSeconds
  {
    var n := ChunkCount(duration, chunkSeconds);
    if n > 0 {
      StartIsProduct(n - 1, chunkSeconds);
      CeilingBounds(n - 1, chunkSeconds, duration);
      DivisionPins(duration + chunkSeconds - 1, chunkSeconds, n);
    }
  }

  /** The last chunk starts at `m * c` and ends at or past `duration`, so
      `m + 1` full chunks bound `duration + c - 1` from below. */
  lemma CeilingBounds(m: nat, c: nat, duration: nat)
    requires c > 0 && m * c < duration <= m * c + c
    ensures (m + 1) * c <= duration + c - 1 < (m + 1) * c + c
  {
    MulSucc(m, c);
  }

  lemma DivisionPins(x: nat, c: nat, n: nat)
    requires c > 0 && n * c <= x < n * c + c
    ensures x / c == n
  {
    var q, r := x / c, x % c;
    assert x == q * c + r && 0 <= r < c;
    MulSucc(q, c);
    MulSucc(n, c);
    if q + 1 <= n {
      MulLeq(q + 1, n, c);
    }
    if n + 1 <= q {
      MulLeq(n + 1, q, c);
    }
  }

  lemma MulSucc(a: nat, c: nat)
    ensures (a + 1) * c == a * c + c
  {
  }

  /** `Math.min(chunkSeconds, duration - startTime)` for chunk `i`. */
  function ChunkLength(duration: nat, chunkSeconds: nat, i: nat): (len: nat)
    requires chunkSeconds > 0 && i < ChunkCount(duration, chunkSeconds)
    ensures 0 < len <= chunkSeconds
  {
    var start := Start(i, chunkSeconds);
    assert start < duration by {
      StartMonotone(i, ChunkCount(duration, chunkSeconds) - 1, chunkSeconds);
    }
    if chunkSeconds <= duration - start then chunkSeconds else duration - start
  }

  lemma MulLeq(a: nat, b: nat, c: nat)
    requires a <= b
    ensures a * c <= b * c
  {
  }

  /** The `chunks` array of a run that encodes every chunk. */
  function PlannedChunks(outputDir: string, duration: nat, chunkSeconds: nat): (plan: seq<ChunkResult>)
    requires chunkSeconds > 0
    ensures |plan| == ChunkCount(duration, chunkSeconds)
  {
    seq(ChunkCount(duration, chunkSeconds), i requires 0 <= i < ChunkCount(duration, chunkSeconds) =>
      ChunkResult(PathJoin(outputDir, ChunkName(i)), i, ChunkLength(duration, chunkSeconds, i)))
  }

  /** The encoder calls of the chunks in `plan`: each from the chunk's start,
      for the full chunk length (ffmpeg stops at the end of the input). */
  function EncodeCalls(plan: seq<ChunkResult>, chunkSeconds: nat): (calls: seq<EncodeCall>)
    ensures |calls| == |plan|
  {
    seq(|plan|, i requires 0 <= i < |plan| => EncodeCall(plan[i].chunkPath, Start(plan[i].index, chunkSeconds), chunkSeconds))
  }

  /** The first chunk index below `n` whose encoding failed. */
  function FirstFault(encodeFault: nat -> Option<string>, n: nat): (k: Option<nat>)
    ensures k.None? ==> forall i :: 0 <= i < n ==> encodeFault(i).None?
    ensures k.Some? ==> k.value < n && encodeFault(k.value).Some? && forall i :: 0 <= i < k.value ==> encodeFault(i).None?
  {
    if n == 0 then None
    else
      var k := FirstFault(encodeFault, n - 1);
      if k.Some? then k else if encodeFault(n - 1).Some? then Some(n - 1) else None
  }

  lemma FirstFaultIs(encodeFault: nat -> Option<string>, n: nat, k: nat)
    requires k < n && encodeFault(k).Some? && forall i :: 0 <= i < k ==> encodeFault(i).None?
    ensures FirstFault(encodeFault, n) == Some(k)
  {
  }

  lemma NoFirstFault(encodeFault: nat -> Option<string>, n: nat)
    requires forall i :: 0 <= i < n ==> encodeFault(i).None?
    ensures FirstFault(encodeFault, n) == None
  {
  }

  /** Chunk `i` of the plan and its encoder call. */
  lemma PlannedAt(outputDir: string, duration: nat, chunkSeconds: nat, i: nat)
    requires chunkSeconds > 0 && i < ChunkCount(duration, chunkSeconds)
    ensures PlannedChunks(outputDir, duration, chunkSeconds)[i]
         == ChunkResult(PathJoin(outputDir, ChunkName(i)), i, ChunkLength(duration, chunkSeconds, i))
    ensures EncodeCalls(PlannedChunks(outputDir, duration, chunkSeconds), chunkSeconds)[i]
         == EncodeCall(PathJoin(outputDir, ChunkName(i)), i * chunkSeconds, chunkSeconds)
  {
    StartIsProduct(i, chunkSeconds);
  }

  /** A prefix one entry longer. */
  lemma PrefixSnoc<T>(s: seq<T>, i: nat)
    requires i < |s|
    ensures s[..i + 1] == s[..i] + [s[i]]
  {
  }

  /** A run of `chunkAudioFile`: its outcome (the output directory, or the
      thrown message), the chunks it recorded and the encoder calls it made. */
  datatype ChunkRun = ChunkRun(outcome: Result<string, string>, chunks: seq<ChunkResult>, calls: seq<EncodeCall>)

  function ChunkSeconds(chunkMinutes: Option<nat>): nat
  {
    (if chunkMinutes.Some? then chunkMinutes.value else DefaultChunkMinutes) * 60
  }

  /** What `chunkAudioFile(inputPath, chunkMinutes)` does, with `inputDir`
      the directory of `inputPath`; `mkdirFault` is the rejection of
      `fs.mkdir(outputDir, { recursive: true })`, if any. */
  function ChunkAudio(inputDir: string, chunkMinutes: Option<nat>, mkdirFault: Option<string>, probe: Probe,
                      encodeFault: nat -> Option<string>): (r: ChunkRun)
    requires chunkMinutes != Some(0)
    ensures |r.chunks| <= |r.calls| <= |r.chunks| + 1
    ensures r.outcome.Ok? ==> r.outcome.value == PathJoin(inputDir, ChunkDirName) && 0 < |r.chunks| == |r.calls|
  {
    var chunkSeconds := ChunkSeconds(chunkMinutes);
    var outputDir := PathJoin(inputDir, ChunkDirName);
    if mkdirFault.Some? then ChunkRun(Err(mkdirFault.value), [], [])
    else match probe
    case ProbeFailed(message) => ChunkRun(Err("Failed to probe audio file: " + message), [], [])
    case Probed(duration) =>
      if duration == 0 then ChunkRun(Err("Could not determine audio duration"), [], [])
      else EncodeRun(outputDir, duration, chunkSeconds, encodeFault)
  }

  /** The encoding loop of `chunkAudioFile`: the planned chunks are encoded
      in order and the first failing encoder call ends the run. */
  function EncodeRun(outputDir: string, duration: nat, chunkSeconds: nat, encodeFault: nat -> Option<string>): (r: ChunkRun)
    requires duration > 0 && chunkSeconds > 0
    ensures |r.chunks| <= |r.calls| <= |r.chunks| + 1
    ensures r.outcome.Ok? ==> r.outcome.value == outputDir && 0 < |r.chunks| == |r.calls|
  {
    var plan := PlannedChunks(outputDir, duration, chunkSeconds);
    var calls := EncodeCalls(plan, chunkSeconds);
    match FirstFault(encodeFault, |plan|)
    case None => ChunkRun(Ok(outputDir), plan, calls)
    case Some(k) => ChunkRun(Err("Failed to create chunk: " + encodeFault(k).value), plan[..k], calls[..k + 1])
  }

  /** `chunkAudioFile(inputPath, chunkDurationMinutes)` */
  method ChunkAudioFile(inputDir: string, chunkMinutes: Option<nat>, mkdirFault: Option<string>, probe: Probe,
                        encodeFault: nat -> Option<string>)
    returns (outcome: Result<string, string>, chunks: seq<ChunkResult>, calls: seq<EncodeCall>)
    requires chunkMinutes != Some(0)
    ensures ChunkRun(outcome, chunks, calls) == ChunkAudio(inputDir, chunkMinutes, mkdirFault, probe, encodeFault)
  {
    var chunkSeconds := ChunkSeconds(chunkMinutes);
    var outputDir := PathJoin(inputDir, ChunkDirName);
    chunks := [];
    calls := [];
    if mkdirFault.Some? {
      outcome := Err(mkdirFault.value);
      return;
    }
    if probe.ProbeFailed? {
      outcome := Err("Failed to probe audio file: " + probe.message);
      return;
    }
    var duration := probe.duration;
    if duration == 0 {
      outcome := Err("Could not determine audio duration");
      return;
    }
    outcome, chunks, calls := EncodeChunks(outputDir, duration, chunkSeconds, encodeFault);
  }

  /** The `for` loop of `chunkAudioFile` over the planned chunks. */
  method EncodeChunks(outputDir: string, duration: nat, chunkSeconds: nat, encodeFault: nat -> Option<string>)
    returns (outcome: Result<string, string>, chunks: seq<ChunkResult>, calls: seq<EncodeCall>)
    requires duration > 0 && chunkSeconds > 0
    ensures ChunkRun(outcome, chunks, calls) == EncodeRun(outputDir, duration, chunkSeconds, encodeFault)
  {
    chunks := [];
    calls := [];
    var totalChunks := ChunkCount(duration, chunkSeconds);
    ghost var plan := PlannedChunks(outputDir, duration, chunkSeconds);
    ghost var allCalls := EncodeCalls(plan, chunkSeconds);
    for i := 0 to totalChunks
      invariant chunks == plan[..i]
      invariant calls == allCalls[..i]
      invariant forall k :: 0 <= k < i ==> encodeFault(k).None?
    {
      var startTime := i * chunkSeconds;
      var chunkPath := PathJoin(outputDir, ChunkName(i));
      NextChunk(outputDir, duration, chunkSeconds, i);
      calls := calls + [EncodeCall(chunkPath, startTime, chunkSeconds)];
      var fault := encodeFault(i);
      if fault.Some? {
        outcome := Err("Failed to create chunk: " + fault.value);
        StoppedAt(outputDir, duration, chunkSeconds, encodeFault, i);
        return;
      }
      var chunkDuration := ChunkLength(duration, chunkSeconds, i);
      chunks := chunks + [ChunkResult(chunkPath, i, chunkDuration)];
    }
    RanThrough(outputDir, duration, chunkSeconds, encodeFault);
    outcome := Ok(outputDir);
  }

  /** One step of the loop: chunk `i` and its encoder call extend the
      prefixes of the plan. */
  lemma NextChunk(outputDir: string, duration: nat, chunkSeconds: nat, i: nat)
    requires chunkSeconds > 0 && i < ChunkCount(duration, chunkSeconds)
    ensures var plan := PlannedChunks(outputDir, duration, chunkSeconds);
      var path := PathJoin(outputDir, ChunkName(i));
      && plan[..i + 1] == plan[..i] + [ChunkResult(path, i, ChunkLength(duration, chunkSeconds, i))]
      && EncodeCalls(plan, chunkSeconds)[..i + 1] == EncodeCalls(plan, chunkSeconds)[..i] + [EncodeCall(path, i * chunkSeconds, chunkSeconds)]
  {
    var plan := PlannedChunks(outputDir, duration, chunkSeconds);
    PlannedAt(outputDir, duration, chunkSeconds, i);
    PrefixSnoc(plan, i);
    PrefixSnoc(EncodeCalls(plan, chunkSeconds), i);
  }

  /** The first failing encoder call, at chunk `i`, ends the run. */
  lemma StoppedAt(outputDir: string, duration: nat, chunkSeconds: nat, encodeFault: nat -> Option<string>, i: nat)
    requires duration > 0 && chunkSeconds > 0 && i < ChunkCount(duration, chunkSeconds)
    requires encodeFault(i).Some? && forall k :: 0 <= k < i ==> encodeFault(k).None?
    ensures var plan := PlannedChunks(outputDir, duration, chunkSeconds);
      EncodeRun(outputDir, duration, chunkSeconds, encodeFault)
        == ChunkRun(Err("Failed to create chunk: " + encodeFault(i).value), plan[..i], EncodeCalls(plan, chunkSeconds)[..i + 1])
  {
    FirstFaultIs(encodeFault, |PlannedChunks(outputDir, duration, chunkSeconds)|, i);
  }

  /** With no failing encoder call the run answers the output directory. */
  lemma RanThrough(outputDir: string, duration: nat, chunkSeconds: nat, encodeFault: nat -> Option<string>)
    requires duration > 0 && chunkSeconds > 0
    requires forall k :: 0 <= k < ChunkCount(duration, chunkSeconds) ==> encodeFault(k).None?
    ensures var plan := PlannedChunks(outputDir, duration, chunkSeconds);
      EncodeRun(outputDir, duration, chunkSeconds, encodeFault) == ChunkRun(Ok(outputDir), plan, EncodeCalls(plan, chunkSeconds))
  {
    NoFirstFault(encodeFault, |PlannedChunks(outputDir, duration, chunkSeconds)|);
  }

  // ---------------------------------------------------------------------------
  // Properties of the plan
  // ---------------------------------------------------------------------------

  /** The sum of the chunk lengths. */
  function TotalLength(chunks: seq<ChunkResult>): nat
  {
    if chunks == [] then 0 else TotalLength(chunks[..|chunks| - 1]) + chunks[|chunks| - 1].duration
  }

  /** Chunk `i` starts `i` full chunks in (at `i * chunkSeconds`, by
      `StartIsProduct`); every chunk but the last is full; the last is
      positive, at most a full chunk, and ends exactly at `duration`; each
      chunk ends where the next starts. */
  lemma PlanTiles(outputDir: string, duration: nat, chunkSeconds: nat)
    requires chunkSeconds > 0 && duration > 0
    ensures var plan := PlannedChunks(outputDir, duration, chunkSeconds);
      var n := |plan|;
      && n > 0
      && (forall i :: 0 <= i < n ==> plan[i].index == i && plan[i].chunkPath == PathJoin(outputDir, ChunkName(i)))
      && (forall i :: 0 <= i < n - 1 ==> plan[i].duration == chunkSeconds)
      && (forall i :: 0 <= i < n - 1 ==> Start(i, chunkSeconds) + plan[i].duration == Start(i + 1, chunkSeconds))
      && 0 < plan[n - 1].duration <= chunkSeconds
      && Start(n - 1, chunkSeconds) + plan[n - 1].duration == duration
  {
    var plan := PlannedChunks(outputDir, duration, chunkSeconds);
    var n := |plan|;
    forall i | 0 <= i < n - 1
      ensures plan[i].duration == chunkSeconds
      ensures Start(i, chunkSeconds) + plan[i].duration == Start(i + 1, chunkSeconds)
    {
      FullChunk(duration, chunkSeconds, i);
    }
  }

  /** A chunk before the last is a full chunk, ending where the next starts. */
  lemma FullChunk(duration: nat, chunkSeconds: nat, i: nat)
    requires chunkSeconds > 0 && i + 1 < ChunkCount(duration, chunkSeconds)
    ensures ChunkLength(duration, chunkSeconds, i) == chunkSeconds
    ensures Start(i, chunkSeconds) + chunkSeconds == Start(i + 1, chunkSeconds)
  {
    StartMonotone(i + 1, ChunkCount(duration, chunkSeconds) - 1, chunkSeconds);
    ShiftStart(i, chunkSeconds);
  }

  lemma {:induction false} FullPrefixLength(outputDir: string, duration: nat, chunkSeconds: nat, k: nat)
    requires chunkSeconds > 0 && duration > 0
    requires k < ChunkCount(duration, chunkSeconds)
    ensures TotalLength(PlannedChunks(outputDir, duration, chunkSeconds)[..k]) == Start(k, chunkSeconds)
  {
    var plan := PlannedChunks(outputDir, duration, chunkSeconds);
    if k > 0 {
      FullPrefixLength(outputDir, duration, chunkSeconds, k - 1);
      PrefixSnoc(plan, k - 1);
      TotalLengthSnoc(plan[..k - 1], plan[k - 1]);
      PlannedLength(outputDir, duration, chunkSeconds, k - 1);
      FullChunk(duration, chunkSeconds, k - 1);
    }
  }

  lemma PlannedLength(outputDir: string, duration: nat, chunkSeconds: nat, i: nat)
    requires chunkSeconds > 0 && i < ChunkCount(duration, chunkSeconds)
    ensures PlannedChunks(outputDir, duration, chunkSeconds)[i].duration == ChunkLength(duration, chunkSeconds, i)
  {
  }

  lemma TotalLengthSnoc(chunks: seq<ChunkResult>, c: ChunkResult)
    ensures TotalLength(chunks + [c]) == TotalLength(chunks) + c.duration
  {
    assert (chunks + [c])[..|chunks|] == chunks;
  }

  /** The chunk lengths add up to the episode's duration. */
  lemma PlanCoversDuration(outputDir: string, duration: nat, chunkSeconds: nat)
    requires chunkSeconds > 0
    ensures TotalLength(PlannedChunks(outputDir, duration, chunkSeconds)) == duration
  {
    var plan := PlannedChunks(outputDir, duration, chunkSeconds);
    if duration > 0 {
      var n := |plan|;
      FullPrefixLength(outputDir, duration, chunkSeconds, n - 1);
      PlanTiles(outputDir, duration, chunkSeconds);
      assert plan[..n][..n - 1] == plan[..n - 1] && plan[..n] == plan;
    }
  }

  /** A run either fails before any encoding (the directory cannot be
      made, or a bad probe), or encodes the chunks in order up to the first
      failure; it answers the output directory exactly when every planned
      chunk was encoded. */
  lemma RunOutcome(inputDir: string, chunkMinutes: Option<nat>, mkdirFault: Option<string>, probe: Probe,
                   encodeFault: nat -> Option<string>)
    requires chunkMinutes != Some(0)
    ensures var r := ChunkAudio(inputDir, chunkMinutes, mkdirFault, probe, encodeFault);
      && (mkdirFault.Some? ==> r == ChunkRun(Err(mkdirFault.value), [], []))
      && (r.outcome.Ok? <==>
            mkdirFault.None? && probe.Probed? && probe.duration > 0
            && forall i :: 0 <= i < ChunkCount(probe.duration, ChunkSeconds(chunkMinutes)) ==> encodeFault(i).None?)
      && (r.outcome.Ok? ==> r.outcome.value == PathJoin(inputDir, ChunkDirName)
                            && r.chunks == PlannedChunks(r.outcome.value, probe.duration, ChunkSeconds(chunkMinutes)))
      && |r.calls| <= |r.chunks| + 1
      && (forall i :: 0 <= i < |r.chunks| ==> r.chunks[i].index == i && r.calls[i].outputPath == r.chunks[i].chunkPath)
  {
  }

  /** With the default length every chunk holds 600 seconds, the step the
      transcriber adds per chunk index. */
  lemma DefaultChunkIsTenMinutes()
    ensures ChunkSeconds(None) == 600
  {
  }

  // ---------------------------------------------------------------------------
  // Chunk names
  // ---------------------------------------------------------------------------

  /** JavaScript's `<` on strings: lexicographic on characters. */
  predicate LexLess(a: string, b: string)
  {
    if a == [] then b != []
    else b != [] && (a[0] < b[0] || (a[0] == b[0] && LexLess(a[1..], b[1..])))
  }

  lemma {:induction false} LexLessCommonPrefix(p: string, a: string, b: string)
    requires LexLess(a, b)
    ensures LexLess(p + a, p + b)
  {
    if p == [] {
      assert p + a == a && p + b == b;
    } else {
      var x, y := p + a, p + b;
      assert x[0] == p[0] == y[0];
      assert x[1..] == p[1..] + a && y[1..] == p[1..] + b;
      LexLessCommonPrefix(p[1..], a, b);
      assert LexLess(x[1..], y[1..]);
    }
  }

  /** Three decimal digits. */
  function Digits3(a: nat, b: nat, e: nat): string
    requires a < 10 && b < 10 && e < 10
  {
    [DigitChar(a), DigitChar(b), DigitChar(e)]
  }

  lemma DivMod10(x: nat)
    ensures x == 10 * (x / 10) + x % 10 && x % 10 < 10
  {
  }

  lemma PadToThree(s: string)
    requires 1 <= |s| <= 3
    ensures |s| == 1 ==> PadStart(s, 3, '0') == ['0', '0'] + s
    ensures |s| == 2 ==> PadStart(s, 3, '0') == ['0'] + s
    ensures |s| == 3 ==> PadStart(s, 3, '0') == s
  {
    if |s| == 1 {
      assert Repeat('0', 2) == ['0', '0'];
    } else if |s| == 2 {
      assert Repeat('0', 1) == ['0'];
    }
  }

  lemma TwoDigitString(i: nat)
    requires 10 <= i < 100
    ensures NatToString(i) == [DigitChar(i / 10), DigitChar(i % 10)]
  {
    assert NatToString(i / 10) == [DigitChar(i / 10)];
  }

  lemma ThreeDigitString(i: nat)
    requires 100 <= i < 1000
    ensures NatToString(i) == [DigitChar(i / 10 / 10), DigitChar(i / 10 % 10), DigitChar(i % 10)]
  {
    TwoDigitString(i / 10);
  }

  lemma PaddedIndex(i: nat)
    requires i < 1000
    ensures i / 10 / 10 < 10 && i / 10 % 10 < 10
    ensures i == 100 * (i / 10 / 10) + 10 * (i / 10 % 10) + i % 10
    ensures PadStart(NatToString(i), 3, '0') == Digits3(i / 10 / 10, i / 10 % 10, i % 10)
  {
    DivMod10(i);
    DivMod10(i / 10);
    if i < 10 {
      PadToThree(NatToString(i));
    } else if i < 100 {
      TwoDigitString(i);
      PadToThree(NatToString(i));
    } else {
      ThreeDigitString(i);
      PadToThree(NatToString(i));
    }
  }

  lemma DigitCharOrder(a: nat, b: nat)
    requires a < b < 10
    ensures DigitChar(a) < DigitChar(b)
  {
  }

  lemma Digits3Order(a: nat, b: nat, e: nat, a2: nat, b2: nat, e2: nat)
    requires a < 10 && b < 10 && e < 10 && a2 < 10 && b2 < 10 && e2 < 10
    requires 100 * a + 10 * b + e < 100 * a2 + 10 * b2 + e2
    ensures LexLess(Digits3(a, b, e) + ".mp3", Digits3(a2, b2, e2) + ".mp3")
  {
    var x, y := Digits3(a, b, e) + ".mp3", Digits3(a2, b2, e2) + ".mp3";
    if a < a2 {
      DigitCharOrder(a, a2);
    } else if b < b2 {
      assert a == a2;
      assert x[1..][0] == DigitChar(b) && y[1..][0] == DigitChar(b2);
      DigitCharOrder(b, b2);
    } else {
      assert a == a2 && b == b2 && e < e2;
      assert x[1..][1..][0] == DigitChar(e) && y[1..][1..][0] == DigitChar(e2);
      DigitCharOrder(e, e2);
    }
  }

  /** Below 1000 the names sort as strings in index order. */
  lemma ChunkNamesSortInIndexOrder(i: nat, j: nat)
    requires i < j < 1000
    ensures LexLess(ChunkName(i), ChunkName(j))
  {
    PaddedIndex(i);
    PaddedIndex(j);
    var x := Digits3(i / 10 / 10, i / 10 % 10, i % 10) + ".mp3";
    var y := Digits3(j / 10 / 10, j / 10 % 10, j % 10) + ".mp3";
    Digits3Order(i / 10 / 10, i / 10 % 10, i % 10, j / 10 / 10, j / 10 % 10, j % 10);
    LexLessCommonPrefix("chunk_", x, y);
    assert ChunkName(i) == "chunk_" + x;
    assert ChunkName(j) == "chunk_" + y;
  }
}
