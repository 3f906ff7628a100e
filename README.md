# Podcast Growth Agent: a verified model of its core

This Dafny project models the core of the Podcast Growth Agent back end. The
service takes a podcast episode's transcript and runs five LLM "agents" on it:
Insight, Hook, Spotlight, Amplify and Pulse. It folds their five outcomes into
one growth plan, stores that plan as a report, and can later re-run a single
agent on a stored report. Around this core sit:

- an Apple Podcasts URL resolver;
- a Whisper transcriber that splits the audio into chunks and stitches the chunk transcripts back together;
- an X (Twitter) search scraper with a CSV export.

One Dafny module models each core source file:

| module | file | what it holds |
|---|---|---|
| `SharedTypes` | `shared_types.dfy` | The records from `api/agents/shared/types.ts`: the five-agent registry, the growth-plan slots and the stored report. |
| `Common` | `common.dfy` | Option/Result and the JavaScript string helpers the source relies on: `trim`, `toLowerCase`, `toUpperCase`, `includes`, `join`, `substring`, `padStart` and decimal rendering. |
| `SystemContext` | `system_context.dfy` | `buildSystemPrompt`: the shared system context, then the agent header, the agent prompt and the transcript. |
| `AgentRunner` | `agent_runner.dfy` | The five runners. The OpenAI call and `JSON.parse` are parameters. Every runner packages its result by the same rules (`WellPackaged`) under its own label. |
| `Orchestrator` | `orchestrator.dfy` | `runAllAgents`. A loop over the five settled outcomes fills the slots, the tallies and the error list. It is proved equal to a specification function, and the aggregation properties are lemmas about that function. |
| `Rerun` | `rerun.dfy` | The re-run handler. `ReportStore` is the blob store, a map from key to report. `LoadedReport` is the report object the handler mutates in place: it sets the slot, filters the errors, may push an error and recounts the summary. The handler method is proved equal to `RerunSpec`. |
| `ProcessUrl` | `process_url.dfy` | `getBaseUrl` and `sanitizeFilename`. |
| `ResolveSource` | `resolve_source.dfy` | `parseApplePodcastsURL`, with its regular expressions written as leftmost-match scans. Also the resolve handler's guards; the episode search is a parameter. |
| `ProcessTranscript` | `process_transcript.dfy` | The transcript admission chain, the stored report record and the write. |
| `ScraperTypes`, `Scraper` | `scraper_types.dfy`, `scraper.dfy` | Tweet extraction and its skip rule, and `findApplePodcastUrl`. Also the `Map` keyed by tweet URL, a `TweetMap` class over its insertion order and values, and the scroll loop of `scrapeXSearch` with its metrics. |
| `CsvStorage` | `csv_storage.dfy` | `convertTweetsToCSV` and `escapeCsvField`. They are checked against a reader for one record in the format of section 2 of RFC 4180. |
| `Transcriber` | `transcriber.dfy` | `formatTimestamp`, `normalizeTimestamps`, the ordering of chunk files, stitching, and the attempt schedule of `transcribeChunkWithRetry`: a loop proved equal to a recursive schedule. |
| `AudioChunker` | `audio_chunker.dfy` | `chunkAudioFile`: a loop over the chunk indices proved equal to a plan. The chunk count, starts, lengths and names are all proved about that plan. |

Conventions used throughout:

- Foreign calls (OpenAI, Groq, ffprobe/ffmpeg, Playwright, the blob store) are parameters.
- The clock and `Math.random` are parameters too.
- `Promise.allSettled` and `Promise.all` are modelled as the sequence of already-settled outcomes, in input order.
- Seconds are whole numbers.
- A JavaScript string is a `seq<char>`.

A failed re-run answers 500 before touching the stored report
(`api/agents/rerun.ts:140-148`); `Rerun.OnlySuccessWrites` states it.

One behaviour of the code is worth knowing. The orchestrator counts an agent as
succeeded on `success === true`. The re-run recount counts it on a slot that is
not `null`. So a successful agent whose parsed payload is JSON `null` is counted
differently by the two. The model reproduces both rules as written
(`Orchestrator.SlotIsOwnOutcome`, `Rerun.MergeRecounts`).

The comment in `api/resolve-source.ts:37` says the slug
`holiday-magic-the-traditions` becomes `holiday magic traditions`. The code
removes no words: it turns hyphens into spaces, drops other punctuation and
trims. So the title is `holiday magic the traditions`, as
`ResolveSource.TitleFromSlugExample` states.

## Model

| member | source | states |
|---|---|---|
| SharedTypes.IndexOf | api/agents/orchestrator.ts:38 | every agent has a position in the registry `['insight','hook','spotlight','amplify','pulse']`, and the registry holds that agent at that position |
| SharedTypes.RegistryCoversEveryAgentOnce | api/agents/orchestrator.ts:38 | the registry has five entries; each agent appears exactly once, and no two entries share a key |
| SharedTypes.AgentName.Key | api/agents/shared/types.ts:16-22 | each agent's slot key is a non-empty string |
| SharedTypes.KeyIdentifiesAgent | api/agents/shared/types.ts:16-22 | two agents have the same slot key if and only if they are the same agent |
| SharedTypes.IndexOfKey | api/agents/rerun.ts:173-176 | looking a key up in the registry finds the agent with that key, or reports that no agent has it |
| SharedTypes.ParseAgentName | api/agents/rerun.ts:62-63 | a request's agent name is accepted exactly when it is one of the five keys, and it then names the agent with that key |
| SharedTypes.Slots.Set | api/agents/rerun.ts:156 | `agents[name] = v` changes that slot to `v` and leaves every other slot as it was |
| SharedTypes.ReportKey | api/process-transcript.ts:115 | a report is stored under `reports/` + id + `.json` |
| SharedTypes.ReportKeyInjective | api/agents/rerun.ts:77 | two different report ids never share a storage key |
| SystemContext.BuildSystemPrompt | api/agents/shared/system-context.ts:43-57 | the prompt starts with the system context verbatim. Its length is a fixed overhead plus the lengths of the name, the agent prompt and the transcript. It ends with `AGENT: `, the upper-cased name, the agent prompt, the transcript and a newline, in that order |
| SystemContext.AgentNamedInPrompt | api/agents/shared/system-context.ts:47 | the prompt contains `AGENT: ` followed by the upper-cased agent name |
| SystemContext.MarkerInPromptSurvives | api/agents/shared/system-context.ts:50 | anything in the agent prompt, such as a literal `{transcript}`, is still in the prompt: there is no placeholder substitution |
| SystemContext.TranscriptRecoverable | api/agents/shared/system-context.ts:56 | for a fixed name and agent prompt, two prompts are equal only if the transcripts are, so the transcript is carried through whole |
| AgentRunner.OrZero | api/agents/insight/index.ts:65-68 | a missing token count becomes 0, and a present count is kept |
| AgentRunner.Package | api/agents/insight/index.ts:17-81 | the result carries the label and the elapsed time. `success` holds exactly when the API answered with non-empty content that parsed. `error` is null exactly on success. Success carries the parsed data and default-0 token counts. Failure carries null data, no token counts, and one of three messages: the caught message, `No content returned from OpenAI`, or the parse error |
| AgentRunner.WellPackagedDeterminesResult | api/agents/insight/index.ts:17-81 | the packaging rules pin down the result completely: two results that both follow them for the same call are equal |
| AgentRunner.RunAgent | api/agents/insight/index.ts:20-47 | a runner sends the prompt built by `buildSystemPrompt` with its label and packages the API outcome by the rules above, so it never throws |
| AgentRunner.RunInsightAgent | api/agents/insight/index.ts:17-81 | `runInsightAgent` packages its outcome by those rules with the label `Insight` |
| AgentRunner.RunHookAgent | api/agents/hook/index.ts:16-67 | `runHookAgent` does the same with the label `Hook` |
| AgentRunner.RunSpotlightAgent | api/agents/spotlight/index.ts:16-67 | `runSpotlightAgent` does the same with the label `Spotlight` |
| AgentRunner.RunAmplifyAgent | api/agents/amplify/index.ts:16-67 | `runAmplifyAgent` does the same with the label `Amplify` |
| AgentRunner.RunPulseAgent | api/agents/pulse/index.ts:16-67 | `runPulseAgent` does the same with the label `Pulse` |
| AgentRunner.RunNamedAgent | api/agents/rerun.ts:118-134 | the re-run's `switch` runs the runner of the named agent, labelled with that agent's label |
| Orchestrator.SuccessesUpTo | api/agents/orchestrator.ts:58-60 | the number of successes among the first k outcomes is at most k |
| Orchestrator.RunAllAgents | api/agents/orchestrator.ts:37-98 | the loop over the five settled outcomes builds exactly the plan of the aggregation specification |
| Orchestrator.AggregatePlan | api/agents/orchestrator.ts:13-98 | the plan's tallies add up to the five agents and `transcript_length` is the transcript's length. Slots: `SlotsUpToSpec`; errors: `ErrorsMatchFailures`, `ErrorMessages` |
| Orchestrator.TalliesAddUp | api/agents/orchestrator.ts:40-97 | `agents_succeeded + agents_failed == total_agents == 5` for every combination of outcomes |
| Orchestrator.SlotsUpToSpec | api/agents/orchestrator.ts:44-60 | after k outcomes, slot i holds outcome i's data if i < k and that agent succeeded, and null otherwise: every slot starts null |
| Orchestrator.SlotIsOwnOutcome | api/agents/orchestrator.ts:52-60 | an agent's slot is its own outcome's `data` when that outcome is fulfilled with `success`, and null otherwise |
| Orchestrator.SlotsIsolated | api/agents/orchestrator.ts:52-53 | changing one agent's outcome changes no other agent's slot, so results are attributed by position and not by completion order |
| Orchestrator.ErrorAgentsAreFailedKeys | api/agents/orchestrator.ts:62-80 | the agents of the error entries are the keys of the failed agents, in registry order |
| Orchestrator.ErrorCountIsFailures | api/agents/orchestrator.ts:62-80 | after k outcomes there are exactly k minus the number of successes error entries |
| Orchestrator.ErrorEntriesFromOutcomes | api/agents/orchestrator.ts:62-80 | every error entry names a failed agent among those seen so far and is the entry built from that agent's outcome |
| Orchestrator.FailedKeysMembership | api/agents/orchestrator.ts:62-80 | an agent's key is among the failed keys if and only if it has been seen and did not succeed |
| Orchestrator.FailedKeysOrdered | api/agents/orchestrator.ts:52-53 | the failed keys appear in strictly increasing registry position |
| Orchestrator.ErrorCountMatchesTally | api/agents/orchestrator.ts:63-95 | the plan has exactly `agents_failed` error entries |
| Orchestrator.ErrorsMatchFailures | api/agents/orchestrator.ts:58-80 | an agent has an error entry if and only if it did not succeed |
| Orchestrator.ErrorsInRegistryOrder | api/agents/orchestrator.ts:52-75 | error entries follow the registry order |
| Orchestrator.ErrorMessages | api/agents/orchestrator.ts:65-79 | each entry carries the clock reading `now` and a message: the agent's `error`, or `Unknown error`, for a fulfilled failure; the rejection's message, or `Promise rejected`, for a rejection |
| Orchestrator.AllFailedPlan | api/agents/orchestrator.ts:44-98 | when all five fail, the plan still has five null slots, summary 0/5/5 and five error entries |
| Orchestrator.PlanHeader | api/agents/orchestrator.ts:15-88 | `transcript_length` is the transcript's length. The episode id is the given one, or else `episode-` followed by the clock's milliseconds |
| Rerun.FilterOutAgent | api/agents/rerun.ts:159-161 | the filter keeps exactly the entries whose agent differs from the key |
| Rerun.FilterOutAgentDistributes | api/agents/rerun.ts:159-161 | filtering a concatenation filters each part, so the kept entries stay in their original order |
| Rerun.FilterOutAgentKeepsOthers | api/agents/rerun.ts:159-161 | a list with no entry for the key is left unchanged |
| Rerun.CountNonNullOf | api/agents/rerun.ts:173-176 | the count of non-null slots among some agents is at most their number |
| Rerun.CountNonNull | api/agents/rerun.ts:173-176 | at most five slots are non-null |
| Rerun.Recounted | api/agents/rerun.ts:173-182 | the new summary counts the non-null slots as succeeded and the rest as failed, out of 5 |
| Rerun.LoadedReport.constructor | api/agents/rerun.ts:92 | the loaded report object holds the stored report |
| Rerun.LoadedReport.SetSlot | api/agents/rerun.ts:156 | only the named slot changes; errors and summary are untouched |
| Rerun.LoadedReport.DropErrorsOf | api/agents/rerun.ts:159-161 | `errors` becomes the filtered list; slots and summary are untouched |
| Rerun.LoadedReport.PushError | api/agents/rerun.ts:164-170 | one entry is appended to `errors`; nothing else changes |
| Rerun.LoadedReport.Recount | api/agents/rerun.ts:173-182 | `summary` becomes the recount of the current slots; nothing else changes |
| Rerun.LoadedReport.ApplyRerun | api/agents/rerun.ts:155-182 | the in-place update turns the report into the merged report of the specification |
| Rerun.ReportStore.constructor | api/agents/rerun.ts:77-92 | the store starts with the given reports |
| Rerun.ReportStore.HandleRerun | api/agents/rerun.ts:50-228 | the handler's response and the store afterwards are exactly those of the re-run specification: 400 guards, 404, the transcript check, the agent run, 500 on failure, the merge and the write |
| Rerun.OnlySuccessWrites | api/agents/rerun.ts:54-228 | every non-200 answer leaves the store unchanged, including a failed agent run (500) and a failed write |
| Rerun.InvalidRequestRejected | api/agents/rerun.ts:54-69 | a missing report id, a missing agent name, or a name outside the five gives 400 and no change |
| Rerun.NoTranscriptNoRun | api/agents/rerun.ts:98-106 | a report without a transcript gives 400. The answer does not depend on the agent call, so no agent runs |
| Rerun.SuccessWritesSameKey | api/agents/rerun.ts:77-197 | a 200 answer means the report was found under `reports/{id}.json` and written back under that same key; no other key changes |
| Rerun.MergeChangesOneSlot | api/agents/rerun.ts:156 | the merge sets the re-run agent's slot to the new data; every other slot and every field outside agents, errors and summary keeps its value |
| Rerun.MergeErrors | api/agents/rerun.ts:159-170 | after a successful run no error entry for the agent remains, and the other agents' entries are kept in order |
| Rerun.MergeRecounts | api/agents/rerun.ts:173-182 | `agents_succeeded` is the number of non-null slots and the counts sum to 5 |
| Rerun.NoPushAfterSuccess | api/agents/rerun.ts:140-170 | a successful runner result has no error, so the push of a new entry never fires |
| Rerun.CountNonNullOfSet | api/agents/rerun.ts:156-176 | setting one slot changes the non-null count by at most one, according to the old and new values |
| Rerun.RerunFillsEmptySlot | api/agents/rerun.ts:156-182 | re-running an agent whose slot was null with non-null data raises `agents_succeeded` by one |
| Rerun.MergeRerun | api/agents/rerun.ts:155-182 | the merge changes only the growth plan, gives the re-run agent its new data, and keeps the tallies adding up. Details: `MergeChangesOneSlot`, `MergeErrors`, `MergeRecounts` |
| Rerun.RerunSpec | api/agents/rerun.ts:28-228 | every answer other than the update leaves the store as it was; an update needs the report to be stored and keeps the set of keys |
| ProcessUrl.BaseUrlScheme | api/process-url.ts:239-243 | the base URL ends with the host and uses `http://` exactly when the host contains `localhost`, otherwise `https://` |
| ProcessUrl.BaseUrlDefault | api/process-url.ts:240 | without a host header the base URL is `http://localhost:3000` |
| ProcessUrl.BaseUrl | api/process-url.ts:239-243 | the base URL ends with the Host header, or with `localhost:3000` when there is none. The scheme: `BaseUrlScheme` |
| ProcessUrl.CollapseRuns | api/process-url.ts:248 | replacing each run of non-`[a-z0-9]` characters by one `-` gives only `[a-z0-9-]`, never two `-` in a row, and keeps the letters and digits in order |
| ProcessUrl.CollapseRunsAppend | api/process-url.ts:248 | the replacement works left to right: `a + b` collapses to the collapse of `a` followed by that of `b`, with the run state `a` leaves |
| ProcessUrl.CollapseSeparatorRun | api/process-url.ts:248 | a whole run of non-`[a-z0-9]` characters becomes one `-`, or nothing when it continues a run already replaced |
| ProcessUrl.SeparatorBecomesOneHyphen | api/process-url.ts:248 | between a letter or digit and the next one, a maximal run of other characters becomes exactly one `-` |
| ProcessUrl.CollapseAlnum | api/process-url.ts:248 | a text of letters and digits is left as it is |
| ProcessUrl.SlugOfTwoWords | api/process-url.ts:246-249 | a title whose lower-cased text is a word of `[a-z0-9]`, a run of other characters and another such word gives the slug `word-word` |
| ProcessUrl.SlugKeeps | api/process-url.ts:246-249 | the slug keeps exactly the lower-cased letters and digits of the title, in order |
| ProcessUrl.SlugShape | api/process-url.ts:247-249 | the slug holds only `[a-z0-9-]`, has no `--`, and neither starts nor ends with `-` |
| ProcessUrl.CutSlug | api/process-url.ts:250 | cutting at 50 keeps the character class, no `--` and no leading `-`; a slug of at most 50 is unchanged, and the cut keeps a prefix of its letters and digits |
| ProcessUrl.SanitizeFilenameContract | api/process-url.ts:245-251 | the filename is at most 50 characters of `[a-z0-9-]`, with no `--` and no leading `-`. Its letters and digits are a prefix of the title's lower-cased ones, and all of them when the slug fits. A trailing `-` can only come from the cut |
| ProcessUrl.SymbolsOnlyGiveEmpty | api/process-url.ts:246-250 | a title with no ASCII letter or digit gives the empty filename |
| ProcessUrl.SanitizeFilename | api/process-url.ts:245-251 | the filename has at most 50 characters. Its characters, shape and kept letters: `SanitizeFilenameContract` |
| ResolveSource.FindMatch | api/resolve-source.ts:18-32 | a regular-expression search returns the leftmost match from the start position, or none when nothing matches |
| ResolveSource.DigitRun | api/resolve-source.ts:18-26 | the captured `\d+` is the maximal run of digits at that position |
| ResolveSource.ParseFailsWithoutId | api/resolve-source.ts:18-22 | parsing fails exactly when the URL has no `id` immediately followed by a digit |
| ResolveSource.ParsePodcastId | api/resolve-source.ts:18-54 | `podcastId` is the digit run after the leftmost such `id`, even inside the slug, and `originalUrl` is the input |
| ResolveSource.ParseEpisodeId | api/resolve-source.ts:26-27 | `episodeId` is present exactly when `?i=` or `&i=` followed by a digit occurs, and is then the digit run after the leftmost one |
| ResolveSource.ParseTitleHint | api/resolve-source.ts:32-42 | the title hint is the title made from the slug of the leftmost `/podcast/<slug>/id<digits>` match, and empty when there is no such match. It holds only ASCII letters, digits and whitespace, and has no whitespace at either end |
| ResolveSource.TitleFromSlugShape | api/resolve-source.ts:38-41 | the title made from any slug holds only letters, digits and whitespace and is trimmed; its content is fixed by `HyphensToSpaces`, `KeepTitleCharsAppend`, `KeepTitleCharsOne` and `Common.TrimIsWhitespaceFramed` |
| ResolveSource.HyphensToSpaces | api/resolve-source.ts:39 | every `-` becomes a space and every other character stays, at the same position |
| ResolveSource.KeepTitleChars | api/resolve-source.ts:40 | the kept text has only letters, digits and whitespace, and a text made only of those is kept whole |
| ResolveSource.KeepTitleCharsAppend | api/resolve-source.ts:40 | removing the other characters works character by character: it distributes over concatenation |
| ResolveSource.KeepTitleCharsOne | api/resolve-source.ts:40 | one character is kept exactly when it is an ASCII letter, a digit or whitespace |
| ResolveSource.TitleFromSlugExample | api/resolve-source.ts:30-41 | the slug `holiday-magic-the-traditions` gives `holiday magic the traditions`, with every word kept |
| ResolveSource.LeftmostUnique | api/resolve-source.ts:32 | a pattern has at most one leftmost match, so the captured slug is determined |
| ResolveSource.ParseApplePodcastsUrl | api/resolve-source.ts:15-54 | a successful parse keeps the original URL and has a non-empty, all-digit podcast id. The fields in full: `ParsePodcastId`, `ParseEpisodeId`, `ParseTitleHint`; failure: `ParseFailsWithoutId` |
| ResolveSource.HandleResolve | api/resolve-source.ts:149-227 | a resolved answer has a non-empty audio URL and comes from a string URL on an Apple host that parses. The 400 answers: `RejectedBeforeSearch`; the resolved case: `ResolvedMeansPlayable` |
| ResolveSource.TitleFromPlainSlug | api/resolve-source.ts:38-41 | a slug of letters, digits and hyphens that starts and ends with a letter or digit becomes the slug with hyphens turned into spaces |
| ResolveSource.RejectedBeforeSearch | api/resolve-source.ts:171-208 | every 400 answer is decided before the episode search, whatever the search would return. A URL from neither `podcasts.apple.com` nor `itunes.apple.com` gives the not-Apple answer |
| ResolveSource.ResolvedMeansPlayable | api/resolve-source.ts:182-227 | a resolved answer comes from an Apple URL that parses, with a non-empty title hint, and metadata with a non-empty `audioUrl` found by the search. A not-found answer means the search found nothing or no audio |
| ProcessTranscript.AlnumCount | api/process-transcript.ts:69 | the number of `[a-zA-Z0-9]` characters is at most the length |
| ProcessTranscript.Admit | api/process-transcript.ts:32-78 | every rejection of the admission chain is a 400 |
| ProcessTranscript.AdmissionCases | api/process-transcript.ts:32-78 | the handler answers 400 exactly when the transcript is missing or empty, or is not a string, or trims to more than 100000 characters, or fewer than half of its trimmed length is alphanumeric. Each of the first three answers exactly matches its condition |
| ProcessTranscript.RejectedBeforeAgents | api/process-transcript.ts:32-86 | a rejected transcript gets the same answer whatever the agents would return, so no agent runs |
| ProcessTranscript.ShortTranscriptAdmitted | api/process-transcript.ts:63-72 | a non-empty transcript whose trimmed length is below 1000 is only warned about: it is admitted unless its alphanumeric characters are fewer than half of its trimmed length |
| ProcessTranscript.AlnumCountIgnoresTrim | api/process-transcript.ts:47-70 | counting alphanumerics in the raw or the trimmed transcript gives the same number, at most the trimmed length |
| ProcessTranscript.WhitespaceOnlyAdmitted | api/process-transcript.ts:69-72 | a non-empty whitespace-only transcript is admitted: its ratio is 0/0 = NaN, and NaN < 0.5 is false |
| ProcessTranscript.ReportIdShape | api/process-transcript.ts:100 | the report id is `rprt_`, the timestamp's digits, `_`, then at most 9 characters; these are characters 2 to 10 of the random text when it is long enough |
| ProcessTranscript.StoredRecord | api/process-transcript.ts:86-119 | an admitted transcript is stored under `reports/{id}.json`. The record holds the trimmed transcript, its length (at most 100000), the upload source, and the plan aggregated from the untrimmed transcript |
| ProcessTranscript.EpisodeIdFromPlan | api/process-transcript.ts:106 | the record's episode id is the plan's, which is `episode-` and the timestamp |
| ProcessTranscript.WriteFailure | api/process-transcript.ts:149-159 | a failed write answers 500 with the caught message |
| ProcessTranscript.BuildReport | api/process-transcript.ts:94-112 | the report id starts with `rprt_`, the episode id is never empty, the stored transcript is the trimmed one and `transcriptLength` is its length, and the plan and source are kept |
| ProcessTranscript.HandleTranscript | api/process-transcript.ts:9-159 | a rejected transcript gets the rejection's answer; a stored answer needs an admitted transcript and a successful write under `reports/{id}.json`; a 500 needs a failed write. The 400 cases: `AdmissionCases` |
| CsvStorage.EscapeQuotesIff | api/x-scraper/storage.ts:69-74 | a field is quoted exactly when it contains `,`, `"` or a line break; otherwise it passes through unchanged |
| CsvStorage.FieldRoundTrip | api/x-scraper/storage.ts:69-74 | reading an escaped field back removes the outer quotes and un-doubles the inner ones, recovering the original field |
| CsvStorage.RecordRoundTrip | api/x-scraper/storage.ts:76-85 | escaped fields joined by `,` read back as the same fields |
| CsvStorage.RowRoundTrip | api/x-scraper/storage.ts:76-85 | a row reads back as the tweet's eight values (URLs joined by `; `, a null Apple URL as empty) when the five raw cells hold no `,`, `"` or line break |
| CsvStorage.HeaderRoundTrip | api/x-scraper/storage.ts:66 | the header reads back as the eight column names |
| CsvStorage.CsvFirstLines | api/x-scraper/storage.ts:62-88 | no tweets give exactly the header line with its line break; one tweet gives the header line and its row |
| CsvStorage.CsvAppendsRow | api/x-scraper/storage.ts:68-88 | each further tweet adds a line break and its row, so rows keep the input order and there is no trailing line break |
| CsvStorage.EscapeCsvField | api/x-scraper/storage.ts:69-74 | escaping never shortens a field, and a field without `,`, `"` or a line break is written as is. Quoting: `EscapeQuotesIff`, `FieldRoundTrip` |
| CsvStorage.ConvertTweetsToCsv | api/x-scraper/storage.ts:61-89 | the CSV text starts with the header line and its line break. Rows: `CsvFirstLines`, `CsvAppendsRow`, `RecordRoundTrip` |
| Scraper.FindApplePodcastUrl | api/x-scraper/scraper.ts:198-206 | the result is the first URL, in its original case, whose lower-cased form contains `podcasts.apple.com` or `itunes.apple.com`; it is null exactly when there is none |
| Scraper.ElementTweets | api/x-scraper/scraper.ts:120-186 | elements are kept in page order only with a username and a tweet URL. Each kept tweet carries the run date, the query and the first Apple link of its URLs |
| Scraper.ElementTweetsOne | api/x-scraper/scraper.ts:120-186 | one element yields its tweet exactly when it was read and has a username and a tweet URL, and nothing otherwise |
| Scraper.ElementTweetsAppend | api/x-scraper/scraper.ts:120-186 | elements are read independently and in page order: the tweets of `a + b` are those of `a` followed by those of `b` |
| Scraper.ExtractTweetsFromPage | api/x-scraper/scraper.ts:107-193 | the loop over the elements returns the tweets of the usable elements, or none when the page lookup threw |
| Scraper.InsertAllKeepsWellKeyed | api/x-scraper/scraper.ts:14-59 | setting tweets into the map keeps each key listed once in insertion order, with every tweet stored under its own URL |
| Scraper.LastWriterWins | api/x-scraper/scraper.ts:57-59 | a URL is in the map exactly when some tweet had it, and it then maps to the last such tweet |
| Scraper.DistinctUrls | api/x-scraper/scraper.ts:86 | the values of the map have pairwise distinct tweet URLs |
| Scraper.TweetMap.constructor | api/x-scraper/scraper.ts:14 | the map starts empty |
| Scraper.TweetMap.Set | api/x-scraper/scraper.ts:58 | `set` appends a new key, or replaces the value of an existing key in place |
| Scraper.TweetMap.SetAll | api/x-scraper/scraper.ts:57-59 | setting a page of tweets keeps the map's invariant and equals setting them one by one |
| Scraper.TweetMap.Values | api/x-scraper/scraper.ts:86 | `Array.from(values())` lists the values in key insertion order |
| Scraper.ScrollsRun | api/x-scraper/scraper.ts:10-50 | at most `max_scrolls` (default 5) scrolls run, and no more than the session offered |
| Scraper.GatherPages | api/x-scraper/scraper.ts:50-71 | after the scroll loop the map holds exactly the tweets of the pages that were scrolled, inserted page by page so that a later tweet with the same URL replaces the earlier one |
| Scraper.ScrapeXSearch | api/x-scraper/scraper.ts:50-101 | the scroll loop with its map and error list gives exactly the result of the specification: the tweets gathered over the scrolls that ran, and the message of the exception if one ended the session. A rejection of `browser.close()` is left out |
| Scraper.HandlesBound | api/x-scraper/scraper.ts:89 | there are no more distinct handles than tweets |
| Scraper.ResultMetrics | api/x-scraper/scraper.ts:75-101 | `tweets_collected` is the number of tweets, and unique handles and Apple links are at most that number. `success` holds exactly when there is no error and at least one tweet. There is at most one error, present exactly when the session threw |
| Scraper.ResultTweets | api/x-scraper/scraper.ts:57-86 | returned tweets have distinct URLs, and each was extracted during a scroll that ran; conversely every tweet extracted during a scroll that ran has its URL returned, holding the last tweet extracted with that URL (later scrolls overwrite earlier ones in the URL map) |
| Scraper.CrashKeepsGathered | api/x-scraper/scraper.ts:75-86 | an exception keeps the tweets gathered before it and adds exactly its message as the one error |
| Scraper.ScrapeResult | api/x-scraper/scraper.ts:7-101 | success means no error and at least one tweet; `tweets_collected` is the number of tweets; there is one error exactly when the scrape threw |
| Transcriber.FormatTimestampInjective | api/transcribe/groqTranscriber.ts:33-39 | different whole seconds give different timestamps |
| Transcriber.FormatTimestampExample | api/transcribe/groqTranscriber.ts:31 | 3665 seconds format as `01:01:05` |
| Transcriber.ClockReadsBack | api/transcribe/groqTranscriber.ts:34-38 | padded hours, minutes and seconds read back as the total they stand for |
| Transcriber.FormatTimestamp | api/transcribe/groqTranscriber.ts:33-39 | the `HH:MM:SS` text has at least 8 characters and reads back as `h*3600 + m*60 + s` = the input seconds, with minutes and seconds below 60 |
| Transcriber.NormalizeShifts | api/transcribe/groqTranscriber.ts:49-64 | normalising shifts every segment's start and end by `chunkIndex * chunkSeconds`. The count, order, texts and each segment's length are unchanged, and shifting back gives the input |
| Transcriber.Normalize | api/transcribe/groqTranscriber.ts:49-64 | normalising keeps the text and the number of segments, and leaves the first chunk unchanged. The shift: `NormalizeShifts` |
| Transcriber.Mp3Files | api/transcribe/groqTranscriber.ts:137-138 | exactly the listed names ending in `.mp3` are kept |
| Transcriber.SortBy | api/transcribe/groqTranscriber.ts:139-143 | sorting by a numeric key gives a permutation ordered by that key |
| Transcriber.InsertKeepsSorted | api/transcribe/groqTranscriber.ts:139-143 | inserting a name into a sorted list keeps it sorted |
| Transcriber.InsertIsStable | api/transcribe/groqTranscriber.ts:139-143 | inserting a name puts it after every entry with its key |
| Transcriber.SortIsStable | api/transcribe/groqTranscriber.ts:139-143 | the sort is stable: for every key, the names with that key keep their input order |
| Transcriber.ChunkFilesContract | api/transcribe/groqTranscriber.ts:137-143 | the chunk files are a permutation of the `.mp3` names, ordered by the number in each name's first digit run (0 when there is none) |
| Transcriber.ChunkFiles | api/transcribe/groqTranscriber.ts:137-143 | the chunk files are a permutation of the `.mp3` names, ordered by their number |
| Transcriber.TranscribeChunkWithRetry | api/transcribe/groqTranscriber.ts:70-123 | the attempt loop yields exactly the outcome, attempt count and waits of the recursive retry schedule |
| Transcriber.ResumeAfter | api/transcribe/groqTranscriber.ts:101-119 | one attempt of the schedule: an answer returns it. A failure on the last attempt throws `Chunk n transcription failed`. A 429 before the last attempt waits `2^attempt * 1000` ms, and other errors retry at once |
| Transcriber.RetryOutcome | api/transcribe/groqTranscriber.ts:75-99 | the outcome is the first answered attempt's transcript, after that many attempts, or a failure after all `maxRetries` attempts |
| Transcriber.RetryWaitCount | api/transcribe/groqTranscriber.ts:104-112 | there are fewer waits than attempts: the last attempt never waits |
| Transcriber.RetryWaitsFloor | api/transcribe/groqTranscriber.ts:106 | every wait is at least `2^attempt * 1000` ms for the attempt the schedule starts from, so waits are positive |
| Transcriber.RetryWaits | api/transcribe/groqTranscriber.ts:106 | each wait is at least double the one before, as exponential backoff requires |
| Transcriber.NoRateLimitNoWait | api/transcribe/groqTranscriber.ts:104-118 | without a 429 there is no wait at all |
| Transcriber.LastFailureReported | api/transcribe/groqTranscriber.ts:115-118 | when no attempt is answered, the error reports the last attempt's message |
| Transcriber.StitchLength | api/transcribe/groqTranscriber.ts:169 | the stitched list has as many segments as all chunks together |
| Transcriber.StitchAt | api/transcribe/groqTranscriber.ts:164-169 | segment j of chunk k sits after the segments of the chunks before it, normalised by k's offset |
| Transcriber.StitchOrdered | api/transcribe/groqTranscriber.ts:164-169 | when each chunk's segments start in order inside its ten minutes, the stitched starts are in order across chunks |
| Transcriber.LineReadsBack | api/transcribe/groqTranscriber.ts:172-174 | each line is `[` timestamp `] ` trimmed text, and the bracketed timestamp reads back as the segment's start |
| Transcriber.TranscribeFailure | api/transcribe/groqTranscriber.ts:147-197 | the transcription fails exactly when there is no chunk file (`No audio chunks found in` the directory) or some chunk fails, and then with a failing chunk's error |
| Transcriber.TranscribeSuccess | api/transcribe/groqTranscriber.ts:151-192 | on success every chunk was transcribed and `chunkCount` is the number of files. The segments are the stitched chunk transcripts. `duration` is the last segment's end, or 0 without segments. `fullText` is the lines joined by line breaks |
| Transcriber.TranscribeFailureWithRetries | api/transcribe/groqTranscriber.ts:70-198 | with every file going through the three-attempt retry, a run over some files fails only when all attempts on some file `i` were rejected, and then with the message of the last attempt on that file, labelled with `i` |
| Transcriber.TranscribeAudioChunks | api/transcribe/groqTranscriber.ts:129-198 | a directory that `readdirSync` cannot read fails the run with its error, before the `.mp3` check and before any chunk is transcribed; a successful run reports one chunk per `.mp3` file, and there is at least one. Failure over a readable directory: `TranscribeFailure`; success: `TranscribeSuccess` |
| Transcriber.ChunkKeyOfChunkName | api/transcribe/groqTranscriber.ts:140-141 | the sort key of `chunk_%03d.mp3` is the chunk's index, and the name ends in `.mp3` |
| Transcriber.ChunkerFilesInIndexOrder | api/transcribe/groqTranscriber.ts:137-143 | whatever order the directory lists the chunker's files in, the transcriber takes them in chunk index order |
| AudioChunker.ChunkCount | api/chunking/audioChunker.ts:41 | there are no chunks exactly for an empty file, and the last chunk starts before the end and covers it |
| AudioChunker.CountIsCeiling | api/chunking/audioChunker.ts:33-41 | the number of chunks is `ceil(duration / (minutes*60))` |
| AudioChunker.StartIsProduct | api/chunking/audioChunker.ts:50 | chunk i starts at `i * chunkSeconds` |
| AudioChunker.ChunkName | api/chunking/audioChunker.ts:51 | a chunk name starts with `chunk_`, ends with `.mp3` and has at least 13 characters: the index takes at least three places. Order: `ChunkNamesSortInIndexOrder`; the index read back: `Transcriber.ChunkKeyOfChunkName` |
| AudioChunker.ChunkLength | api/chunking/audioChunker.ts:56 | every chunk's length is positive and at most `chunkSeconds` |
| AudioChunker.ChunkAudioFile | api/chunking/audioChunker.ts:28-69 | the loop yields exactly the run of the plan. A rejected `fs.mkdir` stops it before the probe, with the rejection's message. The probe's failure or an empty file stops it before any encoding. The chunks are encoded in index order up to the first encoder error. On success it answers the output directory, not the chunk list |
| AudioChunker.PlanTiles | api/chunking/audioChunker.ts:48-65 | chunk i has index i and path `chunks/chunk_%03d.mp3`. All chunks but the last are full, each ends where the next starts, and the last is positive, at most full, and ends at the duration |
| AudioChunker.FullChunk | api/chunking/audioChunker.ts:48-65 | a chunk before the last is a full chunk and ends where the next starts |
| AudioChunker.PlanCoversDuration | api/chunking/audioChunker.ts:48-65 | the chunk lengths add up to the duration |
| AudioChunker.EncodeChunks | api/chunking/audioChunker.ts:46-65 | the `for` loop records exactly the chunks and encoder calls of `EncodeRun`. Chunk `i` is written to `chunk_NNN.mp3` from `i * chunkSeconds` on. The first encoder error stops the loop with that chunk's call made and the chunk not recorded |
| AudioChunker.EncodeRun | api/chunking/audioChunker.ts:46-68 | the loop makes one encoder call per recorded chunk, plus the one that failed; a loop that runs through answers the output directory with at least one chunk and as many calls as chunks |
| AudioChunker.RunOutcome | api/chunking/audioChunker.ts:28-69 | a rejected `fs.mkdir` ends the run with its message, with no probe result used and no encoder call; the run answers `dirname(input)/chunks` exactly when the directory was made, the probe gave a positive duration and every planned chunk was encoded. The chunks are then the plan. Every encoder call writes its chunk's path, with at most one call beyond the recorded chunks |
| AudioChunker.ChunkAudio | api/chunking/audioChunker.ts:28-69 | a run makes one encoder call per recorded chunk, plus the one that failed; a successful run answers `dirname(input)/chunks` with at least one chunk. In full: `RunOutcome`, `PlanTiles` |
| AudioChunker.DefaultChunkIsTenMinutes | api/chunking/audioChunker.ts:30 | by default a chunk is 600 seconds, the step `normalizeTimestamps` adds per chunk index |
| Transcriber.OffsetStepIsDefaultChunk | api/transcribe/groqTranscriber.ts:52-54 | the per-chunk offset step `chunkDurationSeconds` (600 by default) equals the chunker's default chunk length in seconds, so the offsets line up with the chunks cut by a default run |
| AudioChunker.ChunkNamesSortInIndexOrder | api/chunking/audioChunker.ts:51 | for indices below 1000, chunk names sort lexicographically in index order |

## Left out

- Network and foreign services are parameters of the model, not modelled behaviour: OpenAI, Groq Whisper, ffprobe/ffmpeg, Playwright/Chromium, the blob store's `put` and `fetch`, and the ListenNotes episode search. The model takes what each returned (or the error it threw) as input.
- `Date.now`, `new Date().toISOString()` and `Math.random` are parameters. Elapsed times are given naturals.
- Concurrency: `Promise.allSettled` in the orchestrator and `Promise.all` in the transcriber are the sequence of settled outcomes in input order. Scheduling and completion order are not modelled; `Orchestrator.SlotsIsolated` states that the result depends only on the outcome sequence.
- Floating point: Whisper segment times, the ffprobe duration and the chunk lengths are whole seconds. `Math.floor` in `formatTimestamp` is then the identity on the input. The alphanumeric ratio is compared in integers (`2*count < length`, with 0/0 never rejected). `toFixed` formatting of timings is not modelled.
- Prompt texts, brand voice, JSON schemas and agent configurations are not modelled. The system context is its text line by line. `PromptOverhead` is stated as a sum of lengths, not as a number.
- String lengths count Dafny characters, not UTF-16 code units. Case mapping covers ASCII letters only. `JSON.stringify` of the stored report is not modelled: the store holds report values.
- `parseInt` on a very long digit run loses precision in JavaScript; the model reads it exactly.
- HTTP glue is not modelled: CORS, method checks, response bodies beyond their status and kind, `process.ts`, `fetch-to-blob.ts`, `upload.ts`, `get-upload-url.ts`, `x-scraper-run.ts`, `saveTweetsToBlob`, `appendTweetsToSheet`, and the pipeline chaining in `process-url.ts`.
- `generateGrowthPlan`, imported by `process-transcript.ts`, is not exported by `orchestrator.ts`. The model uses `runAllAgents` in its place.
- Timeouts declared in the agent configurations are never read by the runners, so there is nothing to model.
- Concurrent re-runs racing on one stored report are not modelled.
- Orchestrator.AggregatePlan: the source reads the clock separately for each error entry (`api/agents/orchestrator.ts:68`, `:78`) and for the plan (`:90`). The model takes these readings as one value `now`, so it does not capture that the timestamps can differ.
- AudioChunker.PathJoin: `path.join` and `path.dirname` are simplified to joining with `/`. The input is given by its directory.
- AudioChunker.ChunkAudioFile: requires a chunk length other than 0 minutes. The source would divide by zero, giving `Infinity` chunks.
- AudioChunker.ChunkNamesSortInIndexOrder: holds for indices below 1000 only. From 1000 on, `%03d` names stop sorting lexicographically. The transcriber sorts by number, so `Transcriber.ChunkerFilesInIndexOrder` holds for any count.
- CsvStorage.RowRoundTrip: requires the five raw cells to hold no delimiter, quote or line break. A comma in a raw column shifts the columns of the written row.
- Transcriber.TranscribeChunkWithRetry: the waits are returned as a list of integers. That they are positive is `Transcriber.RetryWaitsFloor`. The sleep itself is not modelled.
- Transcriber.StitchOrdered: assumes each chunk's segments lie within its ten minutes. Whisper's timing is an input.
- Scraper.ScrapeXSearch: `await browser.close()` in the `finally` block (`api/x-scraper/scraper.ts:80-82`) can reject, and `scrapeXSearch` then rejects instead of returning a result. The session abstraction does not record whether the browser was launched, so the model does not capture this path: it always returns the result built from the gathered tweets and the caught error.
- Scraper.ScrapeXSearch: a `Session` with no crash may hold fewer page views than the scroll count, and the model then runs fewer scrolls without an error. A real browser reads one view per scroll until it throws, so the model admits more sessions than a browser produces; every lemma about the result holds for all of them.
- Scraper.ExtractTweetsFromPage: the in-page DOM script is abstracted to what it returned for each element (the username, text, URL, time and links, or an exception).
