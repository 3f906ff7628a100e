/** The selective re-run handler (api/agents/rerun.ts): validate the request,
    load the stored report, run one agent on the stored transcript and, only if
    it succeeded, update the loaded report in place (one slot, that agent's
    error entries, the tallies) and write it back under the same key. The blob
    store is a map from keys to reports; the agent runs through the runner of
    `AgentRunner` with the API and the parser as parameters. */
module Rerun {
  import opened Common
  import opened SharedTypes
  import opened AgentRunner

  // ---------------------------------------------------------------------------
  // The in-place update, as functions
  // ---------------------------------------------------------------------------

  /** `errors.filter(err => err.agent !== key)` */
  function FilterOutAgent(errors: seq<AgentError>, key: string): (r: seq<AgentError>)
    ensures |r| <= |errors|
    ensures forall e :: e in r <==> e in errors && e.agent != key
  {
    if errors == [] then []
    else if errors[0].agent == key then FilterOutAgent(errors[1..], key)
    else [errors[0]] + FilterOutAgent(errors[1..], key)
  }

  /** Filtering keeps the relative order: it distributes over concatenation. */
  lemma {:induction false} FilterOutAgentDistributes(a: seq<AgentError>, b: seq<AgentError>, key: string)
    ensures FilterOutAgent(a + b, key) == FilterOutAgent(a, key) + FilterOutAgent(b, key)
  {
    if a != [] {
      assert (a + b)[0] == a[0] && (a + b)[1..] == a[1..] + b;
      FilterOutAgentDistributes(a[1..], b, key);
    } else {
      assert a + b == b;
    }
  }

  /** Filtering drops nothing when no entry is for `key`. */
  lemma {:induction false} FilterOutAgentKeepsOthers(errors: seq<AgentError>, key: string)
    requires forall e :: e in errors ==> e.agent != key
    ensures FilterOutAgent(errors, key) == errors
  {
    if errors != [] {
      assert errors == [errors[0]] + errors[1..];
      FilterOutAgentKeepsOthers(errors[1..], key);
    }
  }

  /** How many of the given agents' slots are not null. */
  function CountNonNullOf(slots: Slots, names: seq<AgentName>): (r: nat)
    ensures r <= |names|
  {
    if names == [] then 0
    else CountNonNullOf(slots, names[..|names| - 1]) + (if slots.Get(names[|names| - 1]) != JNull then 1 else 0)
  }

  /** `agentsList.filter(agent => agents[agent] !== null).length` */
  function CountNonNull(slots: Slots): (r: nat)
    ensures r <= AgentCount
  {
    CountNonNullOf(slots, Registry)
  }

  /** The tallies recomputed from the slots. */
  function Recounted(slots: Slots): (s: Summary)
    ensures s.agentsSucceeded + s.agentsFailed == s.totalAgents == AgentCount
    ensures s.agentsSucceeded == CountNonNull(slots)
  {
    var succeeded := CountNonNull(slots);
    Summary(succeeded, AgentCount - succeeded, AgentCount)
  }

  /** `if (agentResult.error) errors.push(...)`: the entry pushed, if any. */
  function PushedError(n: AgentName, result: AgentResult, now: string): seq<AgentError>
  {
    if result.error.Some? && result.error.value != "" then [AgentError(n.Key(), result.error.value, now)] else []
  }

  /** The report after step 4 of the handler (slot, errors, summary). */
  function MergeRerun(report: StoredReport, n: AgentName, result: AgentResult, now: string): (r: StoredReport)
    ensures r == report.(growthPlan := r.growthPlan)
    ensures r.growthPlan.agents.Get(n) == result.data
    ensures r.growthPlan.summary.agentsSucceeded + r.growthPlan.summary.agentsFailed == r.growthPlan.summary.totalAgents
  {
    var plan := report.growthPlan;
    var agents := plan.agents.Set(n, result.data);
    report.(growthPlan := plan.(
      agents := agents,
      errors := FilterOutAgent(plan.errors, n.Key()) + PushedError(n, result, now),
      summary := Recounted(agents)))
  }

  // ---------------------------------------------------------------------------
  // The handler, as a function
  // ---------------------------------------------------------------------------

  /** The JSON responses of the handler. */
  datatype RerunResponse =
    | BadRequest(error: string)
    | ReportNotFound(reportId: string)
    | AgentFailed(agentName: string, agentError: Option<string>)
    | RerunFailed(details: string)
    | Updated(agentName: string, result: Json, tokensUsed: Option<TokenUsage>)
  {
    function Status(): nat
    {
      match this
      case BadRequest(_) => 400
      case ReportNotFound(_) => 404
      case AgentFailed(_, _) => 500
      case RerunFailed(_) => 500
      case Updated(_, _, _) => 200
    }
  }

  const MissingFields: string := "Missing required fields"
  const InvalidAgentName: string := "Invalid agent name"
  const NoTranscript: string := "Report does not contain transcript"

  /** What a re-run does to the store `reports` and what it answers.
      `fetchFault` is a fetch that threw or answered with a status other than
      200 and 404; `putFault` is a write that threw. */
  function RerunSpec(reports: map<string, StoredReport>, reportId: Option<string>, agentName: Option<string>,
                     fetchFault: Option<Thrown>, putFault: Option<Thrown>, prompts: AgentName -> string,
                     call: string -> CallOutcome, parse: string -> Result<Json, string>,
                     elapsed: nat, now: string): (r: (map<string, StoredReport>, RerunResponse))
    ensures !r.1.Updated? ==> r.0 == reports
    ensures r.1.Updated? ==> reportId.Some? && ReportKey(reportId.value) in reports && r.0.Keys == reports.Keys
  {
    if !Truthy(reportId) || !Truthy(agentName) then (reports, BadRequest(MissingFields))
    else if ParseAgentName(agentName.value).None? then (reports, BadRequest(InvalidAgentName))
    else if fetchFault.Some? then (reports, RerunFailed(CaughtMessage(fetchFault.value)))
    else if ReportKey(reportId.value) !in reports then (reports, ReportNotFound(reportId.value))
    else
      var n := ParseAgentName(agentName.value).value;
      var report := reports[ReportKey(reportId.value)];
      if !Truthy(report.transcript) then (reports, BadRequest(NoTranscript))
      else
        var result := RunNamedAgent(n, report.transcript.value, prompts(n), call, parse, elapsed);
        if !result.success then (reports, AgentFailed(n.Key(), result.error))
        else if putFault.Some? then (reports, RerunFailed(CaughtMessage(putFault.value)))
        else
          (reports[ReportKey(reportId.value) := MergeRerun(report, n, result, now)],
           Updated(n.Key(), result.data, result.tokensUsed))
  }

  // ---------------------------------------------------------------------------
  // The handler, imperatively
  // ---------------------------------------------------------------------------

  /** The report object the handler parses from the fetched JSON and then
      updates field by field before writing it back. */
  class LoadedReport {
    /** The fields the handler reads but never writes. */
    const original: StoredReport
    var agents: Slots
    var errors: seq<AgentError>
    var summary: Summary

    /** The report as it would be serialised now. */
    function Snapshot(): StoredReport
      reads this
    {
      original.(growthPlan := original.growthPlan.(agents := agents, errors := errors, summary := summary))
    }

    constructor (r: StoredReport)
      ensures Snapshot() == r
    {
      original := r;
      agents := r.growthPlan.agents;
      errors := r.growthPlan.errors;
      summary := r.growthPlan.summary;
    }

    /** `growthPlan.agents[n] = v` */
    method SetSlot(n: AgentName, v: Json)
      modifies this
      ensures agents == old(agents).Set(n, v)
      ensures errors == old(errors) && summary == old(summary)
    {
      agents := agents.Set(n, v);
    }

    /** `growthPlan.errors = growthPlan.errors.filter(err => err.agent !== key)` */
    method DropErrorsOf(key: string)
      modifies this
      ensures errors == FilterOutAgent(old(errors), key)
      ensures agents == old(agents) && summary == old(summary)
    {
      errors := FilterOutAgent(errors, key);
    }

    /** `growthPlan.errors.push(e)` */
    method PushError(e: AgentError)
      modifies this
      ensures errors == old(errors) + [e]
      ensures agents == old(agents) && summary == old(summary)
    {
      errors := errors + [e];
    }

    /** Overwrites the summary with the tallies counted from the slots. */
    method Recount()
      modifies this
      ensures summary == Recounted(agents)
      ensures agents == old(agents) && errors == old(errors)
    {
      var agentsList := Registry;
      var succeededCount := 0;
      var i := 0;
      while i < |agentsList|
        invariant 0 <= i <= |agentsList|
        invariant succeededCount == CountNonNullOf(agents, agentsList[..i])
      {
        assert agentsList[..i + 1][..i] == agentsList[..i];
        if agents.Get(agentsList[i]) != JNull {
          succeededCount := succeededCount + 1;
        }
        i := i + 1;
      }
      assert agentsList[..i] == Registry;
      summary := Summary(succeededCount, 5 - succeededCount, 5);
    }

    /** Step 4 of the handler, for a result of agent `n`. */
    method ApplyRerun(n: AgentName, result: AgentResult, now: string)
      modifies this
      ensures Snapshot() == MergeRerun(old(Snapshot()), n, result, now)
    {
      SetSlot(n, result.data);
      DropErrorsOf(n.Key());
      if result.error.Some? && result.error.value != "" {
        PushError(AgentError(n.Key(), result.error.value, now));
      }
      Recount();
    }
  }

  /** The blob store holding the reports, keyed by `reports/{id}.json`. */
  class ReportStore {
    var reports: map<string, StoredReport>

    constructor (initial: map<string, StoredReport>)
      ensures reports == initial
    {
      reports := initial;
    }

    /** The handler, from the request body on. */
    method HandleRerun(reportId: Option<string>, agentName: Option<string>,
                 fetchFault: Option<Thrown>, putFault: Option<Thrown>, prompts: AgentName -> string,
                 call: string -> CallOutcome, parse: string -> Result<Json, string>,
                 elapsed: nat, now: string) returns (response: RerunResponse)
      modifies this
      ensures (reports, response)
        == RerunSpec(old(reports), reportId, agentName, fetchFault, putFault, prompts, call, parse, elapsed, now)
    {
      if !Truthy(reportId) || !Truthy(agentName) {
        return BadRequest(MissingFields);
      }
      var parsed := ParseAgentName(agentName.value);
      if parsed.None? {
        return BadRequest(InvalidAgentName);
      }
      var n := parsed.value;
      if fetchFault.Some? {
        return RerunFailed(CaughtMessage(fetchFault.value));
      }
      var key := ReportKey(reportId.value);
      if key !in reports {
        return ReportNotFound(reportId.value);
      }
      var report := new LoadedReport(reports[key]);
      var transcript := report.original.transcript;
      if !Truthy(transcript) {
        return BadRequest(NoTranscript);
      }
      var agentResult := RunNamedAgent(n, transcript.value, prompts(n), call, parse, elapsed);
      if !agentResult.success {
        return AgentFailed(n.Key(), agentResult.error);
      }
      report.ApplyRerun(n, agentResult, now);
      if putFault.Some? {
        return RerunFailed(CaughtMessage(putFault.value));
      }
      reports := reports[key := report.Snapshot()];
      response := Updated(n.Key(), agentResult.data, agentResult.tokensUsed);
    }
  }

  // ---------------------------------------------------------------------------
  // Properties
  // ---------------------------------------------------------------------------

  /** Every answer other than 200 leaves the store exactly as it was. */
  lemma OnlySuccessWrites(reports: map<string, StoredReport>, reportId: Option<string>, agentName: Option<string>,
                          fetchFault: Option<Thrown>, putFault: Option<Thrown>, prompts: AgentName -> string,
                          call: string -> CallOutcome, parse: string -> Result<Json, string>, elapsed: nat, now: string)
    ensures var (after, response) := RerunSpec(reports, reportId, agentName, fetchFault, putFault, prompts, call, parse, elapsed, now);
      response.Status() != 200 ==> after == reports
  {
  }

  /** A missing field or an unknown agent name is a 400, decided before the
      store is read and whatever the agent would have answered. */
  lemma InvalidRequestRejected(reports: map<string, StoredReport>, reportId: Option<string>, agentName: Option<string>,
                               fetchFault: Option<Thrown>, putFault: Option<Thrown>, prompts: AgentName -> string,
                               call: string -> CallOutcome, parse: string -> Result<Json, string>, elapsed: nat, now: string)
    requires !Truthy(reportId) || !Truthy(agentName) || forall n: AgentName :: n.Key() != agentName.value
    ensures RerunSpec(reports, reportId, agentName, fetchFault, putFault, prompts, call, parse, elapsed, now).0 == reports
    ensures RerunSpec(reports, reportId, agentName, fetchFault, putFault, prompts, call, parse, elapsed, now).1.Status() == 400
  {
  }

  /** A stored report without a transcript is a 400 and the agent is not run:
      the answer is the same whatever the API would do. */
  lemma NoTranscriptNoRun(reports: map<string, StoredReport>, id: string, agentName: string,
                          putFault: Option<Thrown>, prompts: AgentName -> string,
                          call1: string -> CallOutcome, call2: string -> CallOutcome,
                          parse: string -> Result<Json, string>, elapsed: nat, now: string)
    requires id != "" && ParseAgentName(agentName).Some?
    requires ReportKey(id) in reports && !Truthy(reports[ReportKey(id)].transcript)
    ensures RerunSpec(reports, Some(id), Some(agentName), None, putFault, prompts, call1, parse, elapsed, now)
         == (reports, BadRequest(NoTranscript))
         == RerunSpec(reports, Some(id), Some(agentName), None, putFault, prompts, call2, parse, elapsed, now)
  {
  }

  /** A successful re-run writes exactly one entry: the key it read. */
  lemma SuccessWritesSameKey(reports: map<string, StoredReport>, reportId: Option<string>, agentName: Option<string>,
                             fetchFault: Option<Thrown>, putFault: Option<Thrown>, prompts: AgentName -> string,
                             call: string -> CallOutcome, parse: string -> Result<Json, string>, elapsed: nat, now: string)
    ensures var (after, response) := RerunSpec(reports, reportId, agentName, fetchFault, putFault, prompts, call, parse, elapsed, now);
      response.Status() == 200 ==>
        && Truthy(reportId)
        && ReportKey(reportId.value) in reports
        && after.Keys == reports.Keys
        && (forall k :: k in reports && k != ReportKey(reportId.value) ==> after[k] == reports[k])
  {
  }

  /** The merge changes only the re-run agent's slot, which receives the new
      data; every other field of the report and of the plan is kept. */
  lemma MergeChangesOneSlot(report: StoredReport, n: AgentName, result: AgentResult, now: string)
    ensures var merged := MergeRerun(report, n, result, now);
      && merged.growthPlan.agents.Get(n) == result.data
      && (forall m: AgentName :: m != n ==> merged.growthPlan.agents.Get(m) == report.growthPlan.agents.Get(m))
      && merged.(growthPlan := report.growthPlan) == report
      && merged.growthPlan.(agents := report.growthPlan.agents, errors := report.growthPlan.errors,
                            summary := report.growthPlan.summary) == report.growthPlan
  {
  }

  /** After a successful merge no error entry of the re-run agent remains, and
      the other agents' entries are kept in their original order. */
  lemma MergeErrors(report: StoredReport, n: AgentName, result: AgentResult, now: string)
    requires result.success && result.error.None?
    ensures var merged := MergeRerun(report, n, result, now);
      && (forall e :: e in merged.growthPlan.errors ==> e.agent != n.Key())
      && (forall e :: e in report.growthPlan.errors && e.agent != n.Key() ==> e in merged.growthPlan.errors)
      && merged.growthPlan.errors == FilterOutAgent(report.growthPlan.errors, n.Key())
  {
  }

  /** The tallies after a merge count the non-null slots and add up to 5. */
  lemma MergeRecounts(report: StoredReport, n: AgentName, result: AgentResult, now: string)
    ensures var s := MergeRerun(report, n, result, now).growthPlan.summary;
      && s.agentsSucceeded == CountNonNull(MergeRerun(report, n, result, now).growthPlan.agents)
      && s.agentsSucceeded + s.agentsFailed == s.totalAgents == 5
  {
  }

  /** Runners report an error only on failure, so on the success path the
      handler's defensive push never fires. */
  lemma NoPushAfterSuccess(n: AgentName, transcript: string, prompt: string, call: string -> CallOutcome,
                           parse: string -> Result<Json, string>, elapsed: nat, now: string)
    ensures var result := RunNamedAgent(n, transcript, prompt, call, parse, elapsed);
      result.success ==> PushedError(n, result, now) == []
  {
  }

  /** Re-running an agent that succeeds with a non-null value makes its slot
      count as a success: the recount is at least the number of other non-null
      slots plus one. */
  lemma {:induction false} CountNonNullOfSet(slots: Slots, names: seq<AgentName>, n: AgentName, v: Json)
    requires forall i, j :: 0 <= i < j < |names| ==> names[i] != names[j]
    ensures CountNonNullOf(slots.Set(n, v), names)
         == CountNonNullOf(slots, names)
            - (if n in names && slots.Get(n) != JNull then 1 else 0)
            + (if n in names && v != JNull then 1 else 0)
  {
    if names != [] {
      var init := names[..|names| - 1];
      CountNonNullOfSet(slots, init, n, v);
      assert n in names <==> n in init || n == names[|names| - 1];
      if n == names[|names| - 1] {
        assert n !in init;
      }
    }
  }

  /** A re-run that succeeds with a non-null value fills the slot: if the slot
      was null before, the success tally goes up by one. */
  lemma RerunFillsEmptySlot(report: StoredReport, n: AgentName, result: AgentResult, now: string)
    requires report.growthPlan.agents.Get(n) == JNull && result.data != JNull
    ensures MergeRerun(report, n, result, now).growthPlan.summary.agentsSucceeded
         == CountNonNull(report.growthPlan.agents) + 1
  {
    RegistryCoversEveryAgentOnce();
    CountNonNullOfSet(report.growthPlan.agents, Registry, n, result.data);
  }
}
