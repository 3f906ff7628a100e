/** The records the agents, the orchestrator and the re-run handler exchange
    (api/agents/shared/types.ts), the fixed agent registry, and the stored
    report layout written by api/process-transcript.ts and read back by
    api/agents/rerun.ts. */
module SharedTypes {
  import opened Common

  /** A parsed JSON value. Agent payloads are stored and forwarded, never
      inspected. `JNull` is JavaScript's `null`, which is also what an empty
      slot of the plan holds. */
  datatype Json =
    | JNull
    | JBool(b: bool)
    | JNumber(n: int)
    | JString(s: string)
    | JArray(items: seq<Json>)
    | JObject(members: seq<(string, Json)>)

  /** `!v` for a field of a JSON request body (`None` when the field is absent). */
  predicate Falsy(v: Option<Json>)
  {
    match v
    case None => true
    case Some(j) => j == JNull || j == JBool(false) || j == JNumber(0) || j == JString("")
  }

  /** The five agents, in registry order. */
  datatype AgentName = Insight | Hook | Spotlight | Amplify | Pulse
  {
    /** The key of the agent's slot in `GrowthPlan.agents` and in error entries. */
    function Key(): (k: string)
      ensures |k| > 0
    {
      match this
      case Insight => "insight"
      case Hook => "hook"
      case Spotlight => "spotlight"
      case Amplify => "amplify"
      case Pulse => "pulse"
    }

    /** The label a runner writes into `AgentResult.agent` and passes to
        `buildSystemPrompt`. */
    function Label(): string
    {
      match this
      case Insight => "Insight"
      case Hook => "Hook"
      case Spotlight => "Spotlight"
      case Amplify => "Amplify"
      case Pulse => "Pulse"
    }
  }

  /** `agentNames` / `validAgents`: the registry order. */
  const Registry: seq<AgentName> := [Insight, Hook, Spotlight, Amplify, Pulse]

  const AgentCount: nat := 5

  function IndexOf(n: AgentName): (i: nat)
    ensures i < AgentCount && i < |Registry| && Registry[i] == n
  {
    match n
    case Insight => 0
    case Hook => 1
    case Spotlight => 2
    case Amplify => 3
    case Pulse => 4
  }

  lemma RegistryCoversEveryAgentOnce()
    ensures |Registry| == AgentCount
    ensures forall n: AgentName :: n in Registry
    ensures forall i, j :: 0 <= i < j < |Registry| ==> Registry[i] != Registry[j]
    ensures forall i, j :: 0 <= i < j < |Registry| ==> Registry[i].Key() != Registry[j].Key()
  {
    forall n: AgentName ensures n in Registry { var _ := IndexOf(n); }
  }

  /** Distinct agents have distinct keys. */
  lemma KeyIdentifiesAgent(m: AgentName, n: AgentName)
    ensures m.Key() == n.Key() <==> m == n
  {
  }

  /** The registry position of the agent whose key is `k`; `AgentCount` when
      no agent has that key. */
  function IndexOfKey(k: string): (i: nat)
    ensures i <= AgentCount
    ensures i < AgentCount ==> Registry[i].Key() == k
    ensures i == AgentCount ==> forall n: AgentName :: n.Key() != k
  {
    if k == "insight" then 0
    else if k == "hook" then 1
    else if k == "spotlight" then 2
    else if k == "amplify" then 3
    else if k == "pulse" then 4
    else AgentCount
  }

  /** `validAgents.includes(name)`, returning the matching agent. */
  function ParseAgentName(s: string): (r: Option<AgentName>)
    ensures r.Some? ==> r.value.Key() == s
    ensures r.None? ==> forall n: AgentName :: n.Key() != s
  {
    if s == "insight" then Some(Insight)
    else if s == "hook" then Some(Hook)
    else if s == "spotlight" then Some(Spotlight)
    else if s == "amplify" then Some(Amplify)
    else if s == "pulse" then Some(Pulse)
    else None
  }

  datatype TokenUsage = TokenUsage(input: nat, output: nat)

  /** `AgentResult`; `error` is `None` for JavaScript `null`, `tokensUsed` is
      `None` when the field is absent. */
  datatype AgentResult = AgentResult(
    agent: string,
    success: bool,
    data: Json,
    error: Option<string>,
    processingTime: nat,
    tokensUsed: Option<TokenUsage>)

  /** The `agents` record of a growth plan: exactly one slot per agent. */
  datatype Slots = Slots(insight: Json, hook: Json, spotlight: Json, amplify: Json, pulse: Json)
  {
    function Get(n: AgentName): Json
    {
      match n
      case Insight => insight
      case Hook => hook
      case Spotlight => spotlight
      case Amplify => amplify
      case Pulse => pulse
    }

    /** `agents[n] = v` */
    function Set(n: AgentName, v: Json): (r: Slots)
      ensures r.Get(n) == v
      ensures forall m: AgentName :: m != n ==> r.Get(m) == Get(m)
    {
      match n
      case Insight => this.(insight := v)
      case Hook => this.(hook := v)
      case Spotlight => this.(spotlight := v)
      case Amplify => this.(amplify := v)
      case Pulse => this.(pulse := v)
    }
  }

  /** `{ insight: null, hook: null, spotlight: null, amplify: null, pulse: null }` */
  const EmptySlots: Slots := Slots(JNull, JNull, JNull, JNull, JNull)

  datatype AgentError = AgentError(agent: string, error: string, timestamp: string)

  datatype Summary = Summary(agentsSucceeded: nat, agentsFailed: nat, totalAgents: nat)

  datatype GrowthPlan = GrowthPlan(
    episodeId: string,
    transcriptLength: nat,
    processingTime: nat,
    timestamp: string,
    agents: Slots,
    errors: seq<AgentError>,
    summary: Summary)

  /** The JSON document stored at `reports/{id}.json`. `transcript` is absent in
      reports written before transcripts were retained. */
  datatype StoredReport = StoredReport(
    id: string,
    createdAt: string,
    episodeId: string,
    transcriptLength: nat,
    processingTime: nat,
    transcript: Option<string>,
    growthPlan: GrowthPlan,
    source: Option<string>)

  /** The store key of a report: `reports/{id}.json`. */
  function ReportKey(id: string): (k: string)
    ensures StartsWith(k, "reports/") && EndsWith(k, ".json")
  {
    "reports/" + id + ".json"
  }

  /** Distinct report ids never share a storage key. */
  lemma ReportKeyInjective(a: string, b: string)
    requires ReportKey(a) == ReportKey(b)
    ensures a == b
  {
    var ka, kb := ReportKey(a), ReportKey(b);
    assert |a| == |b|;
    assert a == ka[8..8 + |a|];
    assert b == kb[8..8 + |b|];
  }
}
