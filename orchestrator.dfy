/** `runAllAgents` (api/agents/orchestrator.ts): the five runners are settled
    together and their outcomes folded, in registry order, into one growth
    plan: one slot per agent, an error entry per agent that did not succeed, and
    the success and failure tallies. The settled outcomes, the clock readings
    and the elapsed time are parameters. */
module Orchestrator {
  import opened Common
  import opened SharedTypes

  /** One entry of `Promise.allSettled`'s result. A rejection carries the
      reason's `message`, absent when the reason has none. */
  datatype Settled = Fulfilled(value: AgentResult) | Rejected(reasonMessage: Option<string>)

  /** The agent's promise was fulfilled with `success === true`. */
  predicate Succeeded(o: Settled)
  {
    o.Fulfilled? && o.value.success
  }

  /** The value the agent's slot receives: its data on success, else null. */
  function SlotValue(o: Settled): Json
  {
    if Succeeded(o) then o.value.data else JNull
  }

  /** The error entry written for an agent that did not succeed. */
  function ErrorEntry(n: AgentName, o: Settled, now: string): AgentError
  {
    match o
    case Fulfilled(r) => AgentError(n.Key(), OrElse(r.error, "Unknown error"), now)
    case Rejected(m) => AgentError(n.Key(), OrElse(m, "Promise rejected"), now)
  }

  /** The slots after the first `k` outcomes. */
  function SlotsUpTo(outcomes: seq<Settled>, k: nat): Slots
    requires k <= |outcomes| && k <= AgentCount
  {
    if k == 0 then EmptySlots
    else
      var prev := SlotsUpTo(outcomes, k - 1);
      if Succeeded(outcomes[k - 1]) then prev.Set(Registry[k - 1], outcomes[k - 1].value.data) else prev
  }

  /** The error list after the first `k` outcomes. */
  function ErrorsUpTo(outcomes: seq<Settled>, k: nat, now: string): seq<AgentError>
    requires k <= |outcomes| && k <= AgentCount
  {
    if k == 0 then []
    else if Succeeded(outcomes[k - 1]) then ErrorsUpTo(outcomes, k - 1, now)
    else ErrorsUpTo(outcomes, k - 1, now) + [ErrorEntry(Registry[k - 1], outcomes[k - 1], now)]
  }

  /** How many of the first `k` outcomes succeeded. */
  function SuccessesUpTo(outcomes: seq<Settled>, k: nat): (r: nat)
    requires k <= |outcomes|
    ensures r <= k
  {
    if k == 0 then 0 else SuccessesUpTo(outcomes, k - 1) + (if Succeeded(outcomes[k - 1]) then 1 else 0)
  }

  /** The default `episodeId`: `'episode-' + Date.now()`. */
  function DefaultEpisodeId(nowMs: nat): string
  {
    "episode-" + NatToString(nowMs)
  }

  /** The plan `runAllAgents` returns for the five settled `outcomes`. */
  function AggregatePlan(transcript: string, episodeId: Option<string>, nowMs: nat,
                         outcomes: seq<Settled>, totalTime: nat, now: string): (r: GrowthPlan)
    requires |outcomes| == AgentCount
    ensures r.summary.agentsSucceeded + r.summary.agentsFailed == r.summary.totalAgents == AgentCount
    ensures r.transcriptLength == |transcript|
  {
    var succeeded := SuccessesUpTo(outcomes, AgentCount);
    GrowthPlan(
      if episodeId.Some? then episodeId.value else DefaultEpisodeId(nowMs),
      |transcript|,
      totalTime,
      now,
      SlotsUpTo(outcomes, AgentCount),
      ErrorsUpTo(outcomes, AgentCount, now),
      Summary(succeeded, AgentCount - succeeded, |Registry|))
  }

  /** `runAllAgents(transcript, episodeId)`, from the settled outcomes on: the
      `forEach` over the results, then the plan literal. `episodeId` is `None`
      when the caller passed no id; `nowMs` is `Date.now()` at the call,
      `totalTime` the time the agents took and `now` the ISO clock reading. */
  method RunAllAgents(transcript: string, episodeId: Option<string>, nowMs: nat,
                      outcomes: seq<Settled>, totalTime: nat, now: string) returns (plan: GrowthPlan)
    requires |outcomes| == AgentCount
    ensures plan == AggregatePlan(transcript, episodeId, nowMs, outcomes, totalTime, now)
  {
    var agentNames := Registry;
    var errors: seq<AgentError> := [];
    var successCount := 0;
    var failureCount := 0;
    var agentData := EmptySlots;
    var index := 0;
    while index < |outcomes|
      invariant 0 <= index <= |outcomes|
      invariant agentData == SlotsUpTo(outcomes, index)
      invariant errors == ErrorsUpTo(outcomes, index, now)
      invariant successCount == SuccessesUpTo(outcomes, index)
      invariant successCount + failureCount == index
    {
      var agentName := agentNames[index];
      match outcomes[index] {
        case Fulfilled(agentResult) =>
          if agentResult.success {
            agentData := agentData.Set(agentName, agentResult.data);
            successCount := successCount + 1;
          } else {
            failureCount := failureCount + 1;
            errors := errors + [AgentError(agentName.Key(), OrElse(agentResult.error, "Unknown error"), now)];
          }
        case Rejected(reason) =>
          failureCount := failureCount + 1;
          errors := errors + [AgentError(agentName.Key(), OrElse(reason, "Promise rejected"), now)];
      }
      index := index + 1;
    }
    plan := GrowthPlan(
      if episodeId.Some? then episodeId.value else DefaultEpisodeId(nowMs),
      |transcript|,
      totalTime,
      now,
      agentData,
      errors,
      Summary(successCount, failureCount, |agentNames|));
  }

  // ---------------------------------------------------------------------------
  // Properties of the aggregated plan
  // ---------------------------------------------------------------------------

  /** `agents_succeeded + agents_failed == total_agents == 5`, whatever happened. */
  lemma TalliesAddUp(transcript: string, episodeId: Option<string>, nowMs: nat,
                     outcomes: seq<Settled>, totalTime: nat, now: string)
    requires |outcomes| == AgentCount
    ensures var s := AggregatePlan(transcript, episodeId, nowMs, outcomes, totalTime, now).summary;
      s.agentsSucceeded + s.agentsFailed == s.totalAgents == 5
  {
  }

  /** Slot `Registry[i]` after `k` outcomes: set from outcome `i` if `i < k`,
      still null otherwise. */
  lemma {:induction false} SlotsUpToSpec(outcomes: seq<Settled>, k: nat, i: nat)
    requires k <= |outcomes| && k <= AgentCount && i < AgentCount
    ensures SlotsUpTo(outcomes, k).Get(Registry[i]) == if i < k then SlotValue(outcomes[i]) else JNull
  {
    RegistryCoversEveryAgentOnce();
    if k > 0 {
      SlotsUpToSpec(outcomes, k - 1, i);
    }
  }

  /** Each slot depends on its own agent's outcome only: it holds that agent's
      data exactly when the agent was fulfilled with success, and null
      otherwise. */
  lemma SlotIsOwnOutcome(transcript: string, episodeId: Option<string>, nowMs: nat,
                         outcomes: seq<Settled>, totalTime: nat, now: string, n: AgentName)
    requires |outcomes| == AgentCount
    ensures var slot := AggregatePlan(transcript, episodeId, nowMs, outcomes, totalTime, now).agents.Get(n);
      (Succeeded(outcomes[IndexOf(n)]) ==> slot == outcomes[IndexOf(n)].value.data)
      && (!Succeeded(outcomes[IndexOf(n)]) ==> slot == JNull)
  {
    SlotsUpToSpec(outcomes, AgentCount, IndexOf(n));
  }

  /** Changing one agent's outcome leaves every other agent's slot as it was. */
  lemma SlotsIsolated(outcomes: seq<Settled>, j: nat, o: Settled, n: AgentName)
    requires |outcomes| == AgentCount && j < AgentCount && IndexOf(n) != j
    ensures SlotsUpTo(outcomes[j := o], AgentCount).Get(n) == SlotsUpTo(outcomes, AgentCount).Get(n)
  {
    SlotsUpToSpec(outcomes, AgentCount, IndexOf(n));
    SlotsUpToSpec(outcomes[j := o], AgentCount, IndexOf(n));
  }

  /** The `agent` fields of an error list, in order. */
  function AgentsOf(errors: seq<AgentError>): (r: seq<string>)
    ensures |r| == |errors| && forall t :: 0 <= t < |errors| ==> r[t] == errors[t].agent
  {
    if errors == [] then [] else AgentsOf(errors[..|errors| - 1]) + [errors[|errors| - 1].agent]
  }

  /** The keys, in registry order, of the first `k` agents that did not succeed. */
  function FailedKeysUpTo(outcomes: seq<Settled>, k: nat): seq<string>
    requires k <= |outcomes| && k <= AgentCount
  {
    if k == 0 then []
    else if Succeeded(outcomes[k - 1]) then FailedKeysUpTo(outcomes, k - 1)
    else FailedKeysUpTo(outcomes, k - 1) + [Registry[k - 1].Key()]
  }

  /** The error list names exactly the agents that did not succeed, in order. */
  lemma {:induction false} ErrorAgentsAreFailedKeys(outcomes: seq<Settled>, k: nat, now: string)
    requires k <= |outcomes| && k <= AgentCount
    ensures AgentsOf(ErrorsUpTo(outcomes, k, now)) == FailedKeysUpTo(outcomes, k)
  {
    if k > 0 {
      ErrorAgentsAreFailedKeys(outcomes, k - 1, now);
      var prev := ErrorsUpTo(outcomes, k - 1, now);
      if Succeeded(outcomes[k - 1]) {
        assert ErrorsUpTo(outcomes, k, now) == prev;
      } else {
        var e := ErrorEntry(Registry[k - 1], outcomes[k - 1], now);
        assert ErrorsUpTo(outcomes, k, now) == prev + [e];
        AgentsOfSnoc(prev, e);
      }
    }
  }

  lemma AgentsOfSnoc(errors: seq<AgentError>, e: AgentError)
    ensures AgentsOf(errors + [e]) == AgentsOf(errors) + [e.agent]
  {
    assert (errors + [e])[..|errors|] == errors;
  }

  /** One error entry per failure. */
  lemma {:induction false} ErrorCountIsFailures(outcomes: seq<Settled>, k: nat, now: string)
    requires k <= |outcomes| && k <= AgentCount
    ensures |ErrorsUpTo(outcomes, k, now)| == k - SuccessesUpTo(outcomes, k)
  {
    if k > 0 {
      ErrorCountIsFailures(outcomes, k - 1, now);
    }
  }

  /** Each error entry is the one its agent's outcome calls for. */
  lemma {:induction false} ErrorEntriesFromOutcomes(outcomes: seq<Settled>, k: nat, now: string)
    requires k <= |outcomes| && k <= AgentCount
    ensures forall e :: e in ErrorsUpTo(outcomes, k, now) ==>
      && IndexOfKey(e.agent) < k && !Succeeded(outcomes[IndexOfKey(e.agent)])
      && e == ErrorEntry(Registry[IndexOfKey(e.agent)], outcomes[IndexOfKey(e.agent)], now)
  {
    if k > 0 {
      ErrorEntriesFromOutcomes(outcomes, k - 1, now);
      assert IndexOfKey(Registry[k - 1].Key()) == k - 1;
    }
  }

  /** An agent's key is among the failed keys exactly when it failed. */
  lemma {:induction false} FailedKeysMembership(outcomes: seq<Settled>, k: nat, n: AgentName)
    requires k <= |outcomes| && k <= AgentCount
    ensures n.Key() in FailedKeysUpTo(outcomes, k) <==> IndexOf(n) < k && !Succeeded(outcomes[IndexOf(n)])
  {
    if k > 0 {
      FailedKeysMembership(outcomes, k - 1, n);
      KeyIdentifiesAgent(Registry[k - 1], n);
    }
  }

  /** The failed keys come in strictly increasing registry order. */
  lemma {:induction false} FailedKeysOrdered(outcomes: seq<Settled>, k: nat)
    requires k <= |outcomes| && k <= AgentCount
    ensures forall t :: 0 <= t < |FailedKeysUpTo(outcomes, k)| ==> IndexOfKey(FailedKeysUpTo(outcomes, k)[t]) < k
    ensures forall s, t :: 0 <= s < t < |FailedKeysUpTo(outcomes, k)| ==>
      IndexOfKey(FailedKeysUpTo(outcomes, k)[s]) < IndexOfKey(FailedKeysUpTo(outcomes, k)[t])
  {
    if k > 0 {
      FailedKeysOrdered(outcomes, k - 1);
      var prev := FailedKeysUpTo(outcomes, k - 1);
      if !Succeeded(outcomes[k - 1]) {
        var keys := prev + [Registry[k - 1].Key()];
        assert IndexOfKey(Registry[k - 1].Key()) == k - 1;
        forall t | 0 <= t < |keys| ensures IndexOfKey(keys[t]) < k {
          if t < |prev| {
            assert keys[t] == prev[t];
          }
        }
        forall s, t | 0 <= s < t < |keys| ensures IndexOfKey(keys[s]) < IndexOfKey(keys[t]) {
          assert keys[s] == prev[s];
          if t < |prev| {
            assert keys[t] == prev[t];
          }
        }
      }
    }
  }

  /** `errors` has as many entries as the failure tally. */
  lemma ErrorCountMatchesTally(transcript: string, episodeId: Option<string>, nowMs: nat,
                               outcomes: seq<Settled>, totalTime: nat, now: string)
    requires |outcomes| == AgentCount
    ensures var plan := AggregatePlan(transcript, episodeId, nowMs, outcomes, totalTime, now);
      |plan.errors| == plan.summary.agentsFailed
  {
    ErrorCountIsFailures(outcomes, AgentCount, now);
  }

  /** `errors` has an entry for each agent that did not succeed and none for
      those that did. */
  lemma ErrorsMatchFailures(transcript: string, episodeId: Option<string>, nowMs: nat,
                            outcomes: seq<Settled>, totalTime: nat, now: string)
    requires |outcomes| == AgentCount
    ensures var errors := AggregatePlan(transcript, episodeId, nowMs, outcomes, totalTime, now).errors;
      forall n: AgentName :: n.Key() in AgentsOf(errors) <==> !Succeeded(outcomes[IndexOf(n)])
  {
    ErrorAgentsAreFailedKeys(outcomes, AgentCount, now);
    forall n: AgentName
      ensures n.Key() in FailedKeysUpTo(outcomes, AgentCount) <==> !Succeeded(outcomes[IndexOf(n)])
    {
      FailedKeysMembership(outcomes, AgentCount, n);
    }
  }

  /** The entries of `errors` come in registry order. */
  lemma ErrorsInRegistryOrder(transcript: string, episodeId: Option<string>, nowMs: nat,
                              outcomes: seq<Settled>, totalTime: nat, now: string)
    requires |outcomes| == AgentCount
    ensures var errors := AggregatePlan(transcript, episodeId, nowMs, outcomes, totalTime, now).errors;
      forall s, t :: 0 <= s < t < |errors| ==> IndexOfKey(errors[s].agent) < IndexOfKey(errors[t].agent)
  {
    ErrorAgentsAreFailedKeys(outcomes, AgentCount, now);
    FailedKeysOrdered(outcomes, AgentCount);
    var errors := ErrorsUpTo(outcomes, AgentCount, now);
    forall s, t | 0 <= s < t < |errors| ensures IndexOfKey(errors[s].agent) < IndexOfKey(errors[t].agent) {
      assert errors[s].agent == AgentsOf(errors)[s] && errors[t].agent == AgentsOf(errors)[t];
    }
  }

  /** Every error entry belongs to an agent that did not succeed and carries
      the message its outcome calls for: a fulfilled failure its `error` or
      'Unknown error', a rejection its reason's message or 'Promise rejected'. */
  lemma ErrorMessages(transcript: string, episodeId: Option<string>, nowMs: nat,
                      outcomes: seq<Settled>, totalTime: nat, now: string, e: AgentError)
    requires |outcomes| == AgentCount
    requires e in AggregatePlan(transcript, episodeId, nowMs, outcomes, totalTime, now).errors
    ensures var i := IndexOfKey(e.agent);
      && i < AgentCount && !Succeeded(outcomes[i])
      && e.timestamp == now
      && (outcomes[i].Fulfilled? ==> e.error == OrElse(outcomes[i].value.error, "Unknown error"))
      && (outcomes[i].Rejected? ==> e.error == OrElse(outcomes[i].reasonMessage, "Promise rejected"))
  {
    ErrorEntriesFromOutcomes(outcomes, AgentCount, now);
    var i := IndexOfKey(e.agent);
  }

  /** When all five agents fail, the plan is still complete: every slot null,
      no successes, five failures and five error entries. */
  lemma AllFailedPlan(transcript: string, episodeId: Option<string>, nowMs: nat,
                      outcomes: seq<Settled>, totalTime: nat, now: string)
    requires |outcomes| == AgentCount
    requires forall i :: 0 <= i < AgentCount ==> !Succeeded(outcomes[i])
    ensures var plan := AggregatePlan(transcript, episodeId, nowMs, outcomes, totalTime, now);
      && plan.agents == EmptySlots
      && plan.summary == Summary(0, 5, 5)
      && |plan.errors| == 5
  {
    var plan := AggregatePlan(transcript, episodeId, nowMs, outcomes, totalTime, now);
    assert SuccessesUpTo(outcomes, 1) == 0;
    assert SuccessesUpTo(outcomes, 2) == 0;
    assert SuccessesUpTo(outcomes, 3) == 0;
    assert SuccessesUpTo(outcomes, 4) == 0;
    ErrorCountIsFailures(outcomes, AgentCount, now);
    SlotsUpToSpec(outcomes, AgentCount, 0);
    SlotsUpToSpec(outcomes, AgentCount, 1);
    SlotsUpToSpec(outcomes, AgentCount, 2);
    SlotsUpToSpec(outcomes, AgentCount, 3);
    SlotsUpToSpec(outcomes, AgentCount, 4);
  }

  /** The plan records the transcript's length, and the given episode id or,
      when none was passed, `'episode-' + Date.now()`. */
  lemma PlanHeader(transcript: string, episodeId: Option<string>, nowMs: nat,
                   outcomes: seq<Settled>, totalTime: nat, now: string)
    requires |outcomes| == AgentCount
    ensures var plan := AggregatePlan(transcript, episodeId, nowMs, outcomes, totalTime, now);
      && plan.transcriptLength == |transcript|
      && (episodeId.Some? ==> plan.episodeId == episodeId.value)
      && (episodeId.None? ==> StartsWith(plan.episodeId, "episode-")
                              && DigitsValue(plan.episodeId[8..]) == nowMs)
  {
    var id := DefaultEpisodeId(nowMs);
    assert id[8..] == NatToString(nowMs);
    NatToStringRoundTrip(nowMs);
  }
}
