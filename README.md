# Prism research worker — a Dafny model of the `/process-research` job run

The worker receives a job id, acknowledges the request at once, and then runs
the job in the background. It fetches the job from the job store. It asks the
research service twice, once for behavioural research and once for demographic
research. It merges the citations of both phases and writes a combined
markdown report back to the store. Optionally, it asks a summariser to turn
the report into JSON. Along the way it reports progress to the store, and it
ends with one `completed` or `failed` update.

This project models that run. Every network call becomes an outcome passed
in as data (`Http.Reply`: a response with a status, text and body, or a
thrown error):

- the job fetch;
- the two research calls;
- the summariser call;
- `JSON.parse` (an oracle, `None` meaning it threw);
- the store's answer to each update (`storeOk`).

The handler is the method `Jobs.ProcessResearch`. It builds the trace of
effects the run issues, in order: the acknowledgement, the fetch, every job
update with its fields, and every call to the research service and the
summariser. The method is proved equal to the specification function
`Jobs.Run`. The order of the updates and of the calls to the research
service and the summariser, the progress values, the routing of thrown
errors and the best-effort summary are proved as lemmas about `Run` in
`RunProperties`.

The helpers inside the handler are modelled as functions, each with its own
lemmas:

- prompt building (`Prompts`);
- the order-preserving citation merge (`Citations`);
- the report and its numbered citation listing (`Report`);
- the reading of a research reply (`Research`);
- the search for the JSON text in the summariser's reply (`JsonSpan`).

Modules:

| file | module | contents |
|---|---|---|
| wrappers.dfy | `Wrappers` | `Option`, `Result` |
| http.dfy | `Http` | outcome of an HTTP call, ok statuses |
| strings.dfy | `Strings` | substring search, literal replace-all, decimal rendering, splitting |
| prompts.dfy | `Prompts` | `[PRODUCT]`/`[NICHE]` substitution and the description paragraph |
| citations.dfy | `Citations` | `[...new Set([...a, ...b])]` |
| report.dfy | `Report` | the combined research report |
| research.dfy | `Research` | `callPerplexity` and its reply normalisation |
| json_span.dfy | `JsonSpan` | fenced-block / brace-span extraction, `total_citations`, the summarisation policy |
| jobs.dfy | `Jobs` | jobs, updates, effects; `getJob`, `updateJob`; the handler |
| run_properties.dfy | `RunProperties` | trace properties of the handler |

## Model

| member | source | states |
|---|---|---|
| Jobs.ProcessResearch | index.js:196-445 | The handler's trace is exactly `Run`: the acknowledgement, then the `try` block's effects, then one `failed` update carrying the thrown message if a step threw |
| Jobs.RunAttempt | index.js:204-435 | The step-by-step `try` block issues the fetch, the updates and the calls of `Attempt` in order, and stops at the first step that throws with that step's message |
| Jobs.SummariseStep | index.js:338-419 | The optional summarisation calls the summariser only when its key is set, and leaves `parsedResearch` equal to the `Summarise` policy |
| Jobs.SendUpdate | index.js:151-165 | An update is appended to the trace with the store's answer, which is only recorded; the update count goes up by one and the run goes on either way |
| Jobs.GetJob | index.js:132-148 | The fetch throws exactly when the call is rejected (with its own message) or the status is not 2xx, and then the message is exactly "Failed to get job: <status>"; otherwise the result is the body's `job`, possibly null |
| Jobs.Run | index.js:196-445 | Every run begins with the acknowledgement and then the fetch: the caller is answered before any work |
| Research.CallResearch | index.js:168-193 | A rejected call throws its own error; a non-ok status throws an error starting with "Perplexity error <status>: "; an ok reply yields its normalised content and citations |
| Research.ContentOf | index.js:190 | The content is non-empty exactly when the first choice has a message with non-empty content, and then it is that content; otherwise it is "" |
| Research.Normalise | index.js:188-192 | The findings hold `ContentOf` of the body, and the body's citations or `[]` when absent |
| Research.NormaliseReadsReply | index.js:188-192 | Normalising a reply that carries some content and citations gives back exactly that content and those citations |
| Research.ResearchErrorNamesStatus | index.js:183-186 | The digits after "Perplexity error " in a research error are the decimal form of the HTTP status and read back to it |
| Prompts.NicheText | index.js:234 | The niche text is the job's niche when that is non-empty, and "this market" otherwise |
| Prompts.PromptFillsTemplate | index.js:232-241 | For a template whose text holds no `[` outside its slots and a product name without `[`, every `[PRODUCT]` slot holds the product name and every `[NICHE]` slot the niche (any text) or "this market", followed by "\n\nProduct description: " and the description exactly when the description is non-empty |
| Prompts.ProductPassRunsFirst | index.js:232-234 | The `[PRODUCT]` pass runs before the `[NICHE]` pass, so a `[NICHE]` inside the product name is itself replaced by the niche text |
| Citations.Dedupe | index.js:293 | The spread of a `Set` has no duplicates, the same elements as its input, and is no longer |
| Citations.Merge | index.js:293 | The merged citations have no duplicates, contain exactly the URLs of either phase, and number at most the sum of both lists |
| Citations.DedupeKeepsFirstAppearanceOrder | index.js:293 | Merged URLs appear in the order of their first appearance in phase 1 followed by phase 2 |
| Citations.MergeStartsWithPhase1 | index.js:293 | The merged list starts with phase 1's deduplicated citations, in their own order |
| Citations.DedupeOfDistinct | index.js:293 | A list without repeats comes out of the merge unchanged |
| Citations.DedupeIdempotent | index.js:293 | Merging an already merged list changes nothing |
| Strings.NatToString | index.js:301 | A count is rendered as a non-empty string of decimal digits without a leading zero |
| Strings.NatToStringRoundTrip | index.js:301 | The rendered digits read back to the number they render |
| Report.ListingLines | index.js:319-321 | The listing of no URLs is empty; otherwise it splits at "\n" into one line per URL, line i reading "i. url" numbered from 1 |
| Report.ReportCountsMergedCitations | index.js:295-322 | The "Total Sources Analyzed" line giving the merged list's length sits right after the title, product and niche lines, and the report ends with the "All Citations (n sources)" heading for that length followed by the numbered listing and a line break |
| JsonSpan.FencedMatchShape | index.js:408 | The match is the leftmost one (no "```json" before it); it reads "```json", a line break exactly when the reply has one there, the group, an optional line break, and "```"; no "```" starts inside it before the closing fence, and a group ending in a line break has given it to the closing `\n?` |
| JsonSpan.FencedMatchExists | index.js:408 | The fenced pattern matches exactly when some "```json" is followed, not overlapping, by a "```" |
| JsonSpan.MatchBraces | index.js:409 | The brace pattern matches exactly when some `{` comes before some `}`; the match runs from the first `{` to the last `}` |
| JsonSpan.ExtractJsonSpan | index.js:408-411 | Without a fenced block, a span is found exactly when some `{` comes before some `}`, and it is the text from the first `{` to the last `}` |
| JsonSpan.FenceIsPreferred | index.js:408-411 | When a fenced block exists, its inner text is used, or the whole fenced match when that text is empty, whatever braces the reply holds |
| JsonSpan.NoSpanWhenNeitherMatches | index.js:408-410 | No span is extracted exactly when neither the fenced pattern nor the brace pattern matches |
| JsonSpan.SetTotalCitations | index.js:411-412 | Setting `total_citations` on an object overwrites that field with the count; on null it throws; on any other value it changes nothing |
| JsonSpan.Summarise | index.js:338-419 | Parsed research is null without the key, on a rejected or non-ok summariser reply, or when no span is found; with the key, an ok reply and a span that parses to a non-null value, it is that value with `total_citations` set to the merged count; any non-null result came from that path |
| RunProperties.UpdatesWhenFetchFails | index.js:142-144 | A fetch that throws leads to exactly one update: `failed` with the thrown message |
| RunProperties.UpdatesWhenPhase1Fails | index.js:216-246 | A first research call that throws leads to `running`/5, progress 10, then `failed` with its message |
| RunProperties.UpdatesWhenPhase2Fails | index.js:251-279 | A second research call that throws leads to the phase-1 updates, progress 45 and 50, then `failed` with its message |
| RunProperties.UpdatesWhenSucceeds | index.js:216-431 | A run in which nothing throws sends `running`/5, progress 10, 45, 50, 85, the report and merged citations at 95, then `completed`/100 with the count and the parsed research |
| RunProperties.SilentWhenJobMissing | index.js:206-211 | No update is sent exactly when the store has no such job, and then the run stops after the fetch |
| RunProperties.ExactlyOneTerminalUpdate | index.js:425-443 | When the job exists or its fetch throws, the last effect is the one terminal update and no earlier update is terminal |
| RunProperties.TerminalWhenFailed | index.js:436-443 | A run with a fatal error ends with its only terminal update, `failed` with that error's message |
| RunProperties.TerminalWhenSucceeds | index.js:425-431 | A run without a fatal error ends with its only terminal update, `completed`/100 with the merged count and the parsed research |
| RunProperties.FailureRouting | index.js:436-443 | The run ends `failed` with message m exactly when m is its first fatal error, and `completed` exactly when the job exists and nothing fatal happens |
| RunProperties.ProgressFollowsSchedule | index.js:216-431 | Reported progress is the schedule 5, 10, 45, 50, 85, 95, 100 cut where the run stops; it strictly increases, and it is the whole schedule exactly on success |
| RunProperties.ResearchPersistedBeforeSummary | index.js:327-340 | In a successful run the report and merged citations are written at 95 before any call to the summariser |
| RunProperties.CompletionCountsMergedCitations | index.js:295-431 | The completion message gives the merged list's length; the persisted report's totals line giving it follows the title, product and niche lines, and the report ends with the citation heading for that length and the numbered listing |
| RunProperties.SummaryIsBestEffort | index.js:338-431 | Whatever the summariser does, a successful run ends `completed`/100; without the key or on a failed reply the parsed research is null; an object carries the merged count |
| RunProperties.CallsWhenNoJob | index.js:204-211 | A run whose fetch throws or whose job is missing makes no call to the research service or the summariser |
| RunProperties.CallsWhenPhase1Fails | index.js:232-246 | A first research call that throws is the run's only call: phase 1's prompt once, no retry, no second phase, no summary |
| RunProperties.CallsWhenPhase2Fails | index.js:246-279 | A second research call that throws ends the calls: phase 1's prompt, then phase 2's, each once, and no summary |
| RunProperties.CallsWhenSucceeds | index.js:246-390 | A successful run asks phase 1's prompt, then phase 2's, each once, then the summariser once on the persisted report exactly when its key is set |
| RunProperties.RequestsWhenFetchFails | index.js:202-443 | A fetch that throws: the worker sends the acknowledgement, the fetch and only the `failed` update |
| RunProperties.RequestsWhenPhase1Fails | index.js:202-443 | A first research call that throws: the acknowledgement, the fetch, `running`/5, progress 10, the call, then `failed` with its message right after it |
| RunProperties.RequestsWhenPhase2Fails | index.js:202-443 | A second research call that throws: the phase-1 requests, progress 45 and 50, the second call, then `failed` with its message right after it |
| RunProperties.RequestsWhenSucceeds | index.js:196-431 | A successful run sends, in order: the acknowledgement, the fetch, `running`/5, progress 10, phase 1's call, progress 45 and 50, phase 2's call, progress 85, the persist at 95, the summariser call exactly when its key is set, and `completed`/100 |
| RunProperties.AttemptIgnoresAnswers | index.js:161-164 | The store's answers to the updates change neither the requests of the `try` block nor whether it throws |
| RunProperties.StoreAnswersOnlyLogged | index.js:161-164 | Whatever the store answers, the run sends the same requests in the same order: a non-ok answer never aborts the run |

## Left out

- Express routing, `app.listen`, and the `/health` and `/` endpoints (index.js:447-470): server plumbing with constant answers.
- Real HTTP calls to the job store, the research service and the summariser gateway: each call is an outcome given as input (`Http.Reply`). Request headers, URLs, the model names and the secrets read from the environment are not modelled.
- The decoding of a response body. On an ok status, a body that is not valid JSON makes `response.json()` reject; the model gives that call the outcome `Thrown` with the rejection's message, and otherwise passes the already decoded body.
- `JSON.parse` of the extracted span: an oracle `jsonParse` that yields a value or fails. JSON arrays, strings, booleans and non-integral numbers are folded into `JOther`, because the worker only looks for null and objects.
- General regular-expression semantics: the two patterns at index.js:408-409 are hand-coded as scans.
- Prompts.PromptFillsTemplate: proved for a template whose text has no `[` outside its slots, and for a product name without `[` (a `[NICHE]` inside the product name is replaced too, as `Prompts.ProductPassRunsFirst` states). Outside those cases `BuildPrompt` still defines the result, as two literal replace-all passes.
- The `$` replacement patterns of JavaScript's `String.prototype.replace`: replacement is modelled as literal text. The slot patterns have no capture group, so `$1` stays literal in the source too, but a product name or niche containing `$$` (which becomes `$`), `$&` (the matched slot), `` $` `` (the text before it) or `$'` (the text after it) would be expanded by the source.
- A `product_name` that is absent or not a string (the source would insert "undefined"): every job text field is a string, and "" stands for every falsy value.
- A `citations` property that is present but not an array, and a body that is `null`: the decoded body always has the modelled shape.
- Report.ListingLines: the line-by-line reading of the listing is stated for URLs without a line break. The listing itself is defined for all URLs.
- Timestamps (`started_at`, `completed_at`) are recorded only as present or absent. Elapsed-time arithmetic with `Date` and `toFixed` is not modelled.
- Console logging, including the store's error text on a non-ok update.
- The fire-and-forget detachment of the handler's work from the HTTP response. Only the order "acknowledge before any work" is kept.
- The literal prompt texts (index.js:13-128, 344-388): the two research templates are opaque configuration strings. The summariser prompt is represented by the report it embeds.
- `updateJob` is taken never to throw. A network-level rejection inside it, which the source does not catch there, would escape to the outer `catch`, or, from the `catch` block itself, escape the handler. That could put a `failed` update after a `completed` one.
- The single-phase variant of the worker, `index (1).js`, is not part of this model.
