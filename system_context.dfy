/** Prompt assembly shared by the five runners
    (api/agents/shared/system-context.ts): a fixed system context, an agent
    header, the agent's own prompt and the transcript, concatenated verbatim. */
module SystemContext {
  import opened Common

  /** The horizontal rule: 80 box-drawing characters. */
  const Rule: string := "════════════════════════════════════════════════════════════════════════════════"

  /** The number of lines of `SYSTEM_CONTEXT`. */
  const SystemContextLineCount: nat := 35

  /** Line `i` of `SYSTEM_CONTEXT`. The template starts and ends with a newline,
      hence the empty first and last lines. */
  function SystemContextLine(i: nat): string
    requires i < SystemContextLineCount
  {
    match i
    case 0 => ""
    case 1 => Rule
    case 2 => "SYSTEM CONTEXT"
    case 3 => Rule
    case 4 => ""
    case 5 => "You are one of 5 specialized agents in the Podcast Growth Agent system."
    case 6 => "Your role is to provide ONE specific piece of the overall Growth Plan."
    case 7 => ""
    case 8 => "TARGET USER:"
    case 9 => "Beginner podcasters (< 20 episodes) who need actionable marketing guidance "
    case 10 => "but lack marketing knowledge and resources."
    case 11 => ""
    case 12 => "TONE & STYLE:"
    case 13 => "- Warm and encouraging (like ConvertKit's brand)"
    case 14 => "- Clear and actionable (no marketing jargon)"
    case 15 => "- Honest about limitations (no false promises)"
    case 16 => "- Celebration-oriented (positive and supportive)"
    case 17 => ""
    case 18 => "OUTPUT QUALITY STANDARDS:"
    case 19 => "✅ Be specific (long-tail > generic)"
    case 20 => "✅ Be authentic (quote what was actually said)"
    case 21 => "✅ Be actionable (real URLs, copy/paste ready)"
    case 22 => "✅ Be honest (only suggest when highly confident)"
    case 23 => ""
    case 24 => "YOUR OUTPUT WILL BE COMBINED WITH:"
    case 25 => "- Insight: Episode summary + keywords (semantic intelligence)"
    case 26 => "- Hook: 3 title options (personality-driven styles)"
    case 27 => "- Spotlight: Shareable quotes + ready-to-post caption"
    case 28 => "- Amplify: Podcast match + niche communities (real URLs)"
    case 29 => "- Pulse: Trend connections (durable + viral, nullable)"
    case 30 => ""
    case 31 => "Focus on YOUR specific task. The orchestrator will ensure overall cohesion."
    case 32 => ""
    case 33 => Rule
    case _ => ""
  }

  /** The first `n` lines of `SYSTEM_CONTEXT`, each followed by a newline except the last. */
  function SystemContextPrefix(n: nat): string
    requires 0 < n <= SystemContextLineCount
  {
    if n == 1 then SystemContextLine(0) else SystemContextPrefix(n - 1) + "\n" + SystemContextLine(n - 1)
  }

  /** `SYSTEM_CONTEXT`: all its lines joined with newlines. */
  const SystemContextText: string := SystemContextPrefix(SystemContextLineCount)

  /** The rule line that opens the agent header. */
  const RuleLine: string := "\n\n" + Rule + "\n"

  /** The fixed text between the agent name and the agent prompt. */
  const PromptHeader: string := "\n" + Rule + "\n\n"

  /** The fixed text between the agent prompt and the transcript. */
  const TranscriptHeader: string := "\n\n" + Rule + "\nTRANSCRIPT\n" + Rule + "\n\n"

  /** Number of characters `buildSystemPrompt` adds around its three arguments. */
  const PromptOverhead: nat := |SystemContextText| + |RuleLine| + |"AGENT: "| + |PromptHeader| + |TranscriptHeader| + 1

  /** `buildSystemPrompt(agentName, agentPrompt, transcript)`. Nothing is
      substituted: the name is upper-cased (ASCII letters), and the prompt and
      the transcript are inserted verbatim. */
  function BuildSystemPrompt(agentName: string, agentPrompt: string, transcript: string): (r: string)
    // the system context comes first, unchanged
    ensures StartsWith(r, SystemContextText)
    // a fixed overhead plus the three arguments
    ensures |r| == PromptOverhead + |agentName| + |agentPrompt| + |transcript|
    // and the prompt ends with, in this order: "AGENT: " and the upper-cased
    // name, the agent prompt, the transcript, and a newline
    ensures EndsWith(r, "AGENT: " + Upper(agentName) + PromptHeader + agentPrompt + TranscriptHeader + transcript + "\n")
  {
    var tail := "AGENT: " + Upper(agentName) + PromptHeader + agentPrompt + TranscriptHeader + transcript + "\n";
    EndsWithAppend(SystemContextText + RuleLine, tail);
    SystemContextText + RuleLine + tail
  }

  /** The agent is named in capitals after "AGENT: ". */
  lemma AgentNamedInPrompt(agentName: string, agentPrompt: string, transcript: string)
    ensures Contains(BuildSystemPrompt(agentName, agentPrompt, transcript), "AGENT: " + Upper(agentName))
  {
    var named := "AGENT: " + Upper(agentName);
    ContainsSelf(named);
    ContainsInPrefix(named, PromptHeader, named);
    ContainsInPrefix(named + PromptHeader, agentPrompt, named);
    ContainsInPrefix(named + PromptHeader + agentPrompt, TranscriptHeader, named);
    ContainsInPrefix(named + PromptHeader + agentPrompt + TranscriptHeader, transcript, named);
    ContainsInPrefix(named + PromptHeader + agentPrompt + TranscriptHeader + transcript, "\n", named);
    ContainsInSuffixOf(BuildSystemPrompt(agentName, agentPrompt, transcript),
      named + PromptHeader + agentPrompt + TranscriptHeader + transcript + "\n", named);
  }

  /** No placeholder substitution happens: whatever marker the agent prompt
      contains (the Hook prompt writes `{transcript}`) is still in the output. */
  lemma {:induction false} MarkerInPromptSurvives(agentName: string, agentPrompt: string, transcript: string, marker: string)
    requires Contains(agentPrompt, marker)
    ensures Contains(BuildSystemPrompt(agentName, agentPrompt, transcript), marker)
  {
    var r := BuildSystemPrompt(agentName, agentPrompt, transcript);
    var front := "AGENT: " + Upper(agentName) + PromptHeader;
    ContainsSelf(agentPrompt);
    ContainsInSuffix(front, agentPrompt, agentPrompt);
    ContainsInPrefix(front + agentPrompt, TranscriptHeader, agentPrompt);
    ContainsInPrefix(front + agentPrompt + TranscriptHeader, transcript, agentPrompt);
    ContainsInPrefix(front + agentPrompt + TranscriptHeader + transcript, "\n", agentPrompt);
    ContainsInSuffixOf(r, front + agentPrompt + TranscriptHeader + transcript + "\n", agentPrompt);
    ContainsTransitive(r, agentPrompt, marker);
  }

  /** The assembled prompt determines its transcript: two prompts for the same
      agent and agent prompt are equal only if the transcripts are. */
  lemma TranscriptRecoverable(agentName: string, agentPrompt: string, t1: string, t2: string)
    requires BuildSystemPrompt(agentName, agentPrompt, t1) == BuildSystemPrompt(agentName, agentPrompt, t2)
    ensures t1 == t2
  {
    var r := BuildSystemPrompt(agentName, agentPrompt, t1);
    var front := "AGENT: " + Upper(agentName) + PromptHeader + agentPrompt + TranscriptHeader;
    SameLengthSuffixes(r, front + t1 + "\n", front + t2 + "\n");
    assert t1 == (front + t1 + "\n")[|front|..|front| + |t1|];
  }
}
