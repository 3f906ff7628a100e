/** The direct-transcript endpoint (api/process-transcript.ts): a chain of
    admission checks on the request's `transcript` field, then the growth plan
    of the five agents and the report record stored under `reports/{id}.json`.
    Clock readings, the random id suffix and the agents' settled outcomes are
    parameters. */
module ProcessTranscript {
  import opened Common
  import opened SharedTypes
  import opened AgentRunner
  import opened Orchestrator

  const MaxTranscriptLength: nat := 100000
  const RecommendedMinimumLength: nat := 1000
  const UploadSource: string := "direct_transcript_upload"

  /** The clock readings and the random text the handler consumes. */
  datatype Environment = Environment(
    planMs: nat,          // `Date.now()` when the orchestrator picks its default episode id
    agentsTime: nat,      // the agents' wall-clock time in ms
    planIso: string,      // the orchestrator's ISO timestamp
    timestampMs: nat,     // `Date.now()` for the report id
    totalTime: nat,       // ms since the request arrived
    createdAt: string,    // `new Date().toISOString()`
    randomText: string)   // `Math.random().toString(36)`

  /** The handler's answers. */
  datatype TranscriptResponse =
    | Missing
    | NotAString(receivedType: string)
    | TooLong(received: nat)
    | InvalidFormat
    | Stored(key: string, report: StoredReport)
    | ProcessingFailed(details: string)
  {
    function Status(): nat
    {
      match this
      case Stored(_, _) => 200
      case ProcessingFailed(_) => 500
      case _ => 400
    }
  }

  /** `typeof v` for the values that are not strings. */
  function TypeOf(v: Json): string
  {
    match v
    case JNull => "object"
    case JBool(_) => "boolean"
    case JNumber(_) => "number"
    case JString(_) => "string"
    case JArray(_) => "object"
    case JObject(_) => "object"
  }

  /** `(s.match(/[a-zA-Z0-9]/g) || []).length` */
  function AlnumCount(s: string): (r: nat)
    ensures r <= |s|
  {
    if s == [] then 0 else (if IsAsciiAlnum(s[0]) then 1 else 0) + AlnumCount(s[1..])
  }

  /** `alphaNumericCount / transcriptLength < 0.5` on integers. When the
      trimmed length is 0 the quotient is NaN (or Infinity) and the check
      does not fire. */
  predicate MostlySymbols(transcript: string)
  {
    var len := |Trim(transcript)|;
    len > 0 && 2 * AlnumCount(transcript) < len
  }

  /** The validation chain: the string to process, or the 400 answer. */
  function Admit(field: Option<Json>): (r: Result<string, TranscriptResponse>)
    ensures r.Err? ==> r.error.Status() == 400
  {
    if Falsy(field) then Err(Missing)
    else if !field.value.JString? then Err(NotAString(TypeOf(field.value)))
    else
      var transcript := field.value.s;
      if |Trim(transcript)| > MaxTranscriptLength then Err(TooLong(|Trim(transcript)|))
      else if MostlySymbols(transcript) then Err(InvalidFormat)
      else Ok(transcript)
  }

  /** `` `rprt_${timestamp}_${random.substring(2, 11)}` `` */
  function ReportId(timestampMs: nat, randomText: string): string
  {
    "rprt_" + NatToString(timestampMs) + "_" + Substring(randomText, 2, 11)
  }

  /** The `reportData` literal. */
  function BuildReport(transcript: string, plan: GrowthPlan, env: Environment): (r: StoredReport)
    ensures StartsWith(r.id, "rprt_") && r.episodeId != ""
    ensures r.transcript.Some? && r.transcriptLength == |r.transcript.value| <= |transcript|
    ensures r.growthPlan == plan && r.source == Some(UploadSource)
  {
    var trimmed := Trim(transcript);
    StoredReport(
      ReportId(env.timestampMs, env.randomText),
      env.createdAt,
      if plan.episodeId != "" then plan.episodeId else "episode-" + NatToString(env.timestampMs),
      |trimmed|,
      env.totalTime,
      Some(trimmed),
      plan,
      Some(UploadSource))
  }

  /** The handler from the request body on. The agents run on the untrimmed
      transcript with no episode id; `putFault` is a write that threw. */
  function HandleTranscript(field: Option<Json>, outcomes: seq<Settled>, env: Environment,
                            putFault: Option<Thrown>): (r: TranscriptResponse)
    requires |outcomes| == AgentCount
    ensures Admit(field).Err? ==> r == Admit(field).error
    ensures r.Stored? ==> Admit(field).Ok? && putFault.None? && r.key == ReportKey(r.report.id)
    ensures r.ProcessingFailed? ==> putFault.Some?
  {
    match Admit(field)
    case Err(rejection) => rejection
    case Ok(transcript) =>
      var plan := AggregatePlan(transcript, None, env.planMs, outcomes, env.agentsTime, env.planIso);
      var report := BuildReport(transcript, plan, env);
      if putFault.Some? then ProcessingFailed(CaughtMessage(putFault.value))
      else Stored(ReportKey(report.id), report)
  }

  // ---------------------------------------------------------------------------
  // Properties
  // ---------------------------------------------------------------------------

  /** A 400 is answered exactly for a missing or falsy field, a non-string,
      a trimmed length above 100000, or mostly non-alphanumeric text; each
      case has its own answer. */
  lemma AdmissionCases(field: Option<Json>, outcomes: seq<Settled>, env: Environment, putFault: Option<Thrown>)
    requires |outcomes| == AgentCount
    ensures var r := HandleTranscript(field, outcomes, env, putFault);
      && (r.Status() == 400 <==>
            Falsy(field) || !field.value.JString?
            || |Trim(field.value.s)| > MaxTranscriptLength || MostlySymbols(field.value.s))
      && (r.Missing? <==> Falsy(field))
      && (r.NotAString? <==> !Falsy(field) && !field.value.JString?)
      && (r.TooLong? <==> !Falsy(field) && field.value.JString? && |Trim(field.value.s)| > MaxTranscriptLength)
  {
  }

  /** A rejected request answers the same whatever the agents would do: the
      checks all come before the agents run. */
  lemma RejectedBeforeAgents(field: Option<Json>, outcomes1: seq<Settled>, outcomes2: seq<Settled>,
                             env: Environment, putFault: Option<Thrown>)
    requires |outcomes1| == AgentCount && |outcomes2| == AgentCount
    requires Admit(field).Err?
    ensures HandleTranscript(field, outcomes1, env, putFault) == HandleTranscript(field, outcomes2, env, putFault)
  {
  }

  /** Short transcripts are only warned about: a string whose trimmed length
      is below 1000 is admitted unless it is mostly symbols. */
  lemma ShortTranscriptAdmitted(transcript: string)
    requires transcript != "" && |Trim(transcript)| < RecommendedMinimumLength
    requires !MostlySymbols(transcript)
    ensures Admit(Some(JString(transcript))) == Ok(transcript)
  {
  }

  lemma {:induction false} AlnumCountAppend(a: string, b: string)
    ensures AlnumCount(a + b) == AlnumCount(a) + AlnumCount(b)
  {
    if a == [] {
      assert a + b == b;
    } else {
      assert (a + b)[0] == a[0] && (a + b)[1..] == a[1..] + b;
      AlnumCountAppend(a[1..], b);
    }
  }

  lemma {:induction false} NoAlnumInWhitespace(s: string)
    requires forall i :: 0 <= i < |s| ==> IsJsWhitespace(s[i])
    ensures AlnumCount(s) == 0
  {
    if s != [] {
      NoAlnumInWhitespace(s[1..]);
    }
  }

  /** Counting on the untrimmed text counts the same characters as counting on
      the trimmed text, so the ratio lies between 0 and 1. */
  lemma AlnumCountIgnoresTrim(transcript: string)
    ensures AlnumCount(transcript) == AlnumCount(Trim(transcript)) <= |Trim(transcript)|
  {
    var k := TrimIsWhitespaceFramed(transcript);
    var t := Trim(transcript);
    var front, back := transcript[..k], transcript[k + |t|..];
    assert transcript == front + t + back;
    AlnumCountAppend(front + t, back);
    AlnumCountAppend(front, t);
    NoAlnumInWhitespace(front);
    NoAlnumInWhitespace(back);
  }

  lemma {:induction false} WhitespaceTrimsToEmpty(s: string)
    requires forall i :: 0 <= i < |s| ==> IsJsWhitespace(s[i])
    ensures Trim(s) == ""
  {
    if s != [] {
      WhitespaceTrimsToEmpty(s[1..]);
    }
  }

  /** A non-empty transcript made only of whitespace passes every check: its
      trimmed length is 0 and the ratio is NaN. */
  lemma WhitespaceOnlyAdmitted(transcript: string)
    requires transcript != "" && forall i :: 0 <= i < |transcript| ==> IsJsWhitespace(transcript[i])
    ensures Admit(Some(JString(transcript))) == Ok(transcript)
  {
    WhitespaceTrimsToEmpty(transcript);
  }

  /** The report id is `rprt_`, the decimal timestamp, `_` and at most nine
      characters of the random text (from its third character on). */
  lemma ReportIdShape(timestampMs: nat, randomText: string)
    ensures var id := ReportId(timestampMs, randomText);
      var head := "rprt_" + NatToString(timestampMs) + "_";
      && StartsWith(id, head)
      && |id| <= |head| + 9
      && (|randomText| >= 11 ==> id[|head|..] == randomText[2..11])
      && DigitsValue(id[5..5 + |NatToString(timestampMs)|]) == timestampMs
  {
    var head := "rprt_" + NatToString(timestampMs) + "_";
    var id := ReportId(timestampMs, randomText);
    assert id[..|head|] == head;
    assert id[5..5 + |NatToString(timestampMs)|] == NatToString(timestampMs);
    NatToStringRoundTrip(timestampMs);
  }

  /** An admitted transcript is stored trimmed, with its trimmed length, the
      plan of the agents, the upload source tag, under the key of its id. */
  lemma StoredRecord(field: Option<Json>, outcomes: seq<Settled>, env: Environment)
    requires |outcomes| == AgentCount
    requires Admit(field).Ok?
    ensures var t := Admit(field).value;
      var r := HandleTranscript(field, outcomes, env, None);
      && r.Stored?
      && r.key == ReportKey(r.report.id)
      && r.report.transcript == Some(Trim(t))
      && r.report.transcriptLength == |Trim(t)| <= MaxTranscriptLength
      && r.report.source == Some(UploadSource)
      && r.report.growthPlan == AggregatePlan(t, None, env.planMs, outcomes, env.agentsTime, env.planIso)
      && r.report.growthPlan.transcriptLength == |t|
  {
  }

  /** The `'episode-' + timestamp` fallback of the record never applies: the
      orchestrator always sets a non-empty default id of its own. */
  lemma EpisodeIdFromPlan(field: Option<Json>, outcomes: seq<Settled>, env: Environment)
    requires |outcomes| == AgentCount
    requires Admit(field).Ok?
    ensures var r := HandleTranscript(field, outcomes, env, None);
      r.Stored? && r.report.episodeId == r.report.growthPlan.episodeId == DefaultEpisodeId(env.planMs)
  {
    assert StartsWith(DefaultEpisodeId(env.planMs), "episode-");
  }

  /** A write that throws is a 500 with the thrown message and nothing stored. */
  lemma WriteFailure(field: Option<Json>, outcomes: seq<Settled>, env: Environment, t: Thrown)
    requires |outcomes| == AgentCount
    requires Admit(field).Ok?
    ensures HandleTranscript(field, outcomes, env, Some(t)) == ProcessingFailed(CaughtMessage(t))
  {
  }
}
