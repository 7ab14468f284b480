# SparkForge core in Dafny

This project models the logic at the centre of SparkForge, a toolkit that
runs structured debates between language models and turns Markdown into
PDF. It proves properties of that model. Five source files are modelled:

- **`llm/client.py`**: the multi-provider chat client `LLMClient`. The model covers:
  - choosing the default provider;
  - the one-step sticky override;
  - the fallback chain cut from `deepseek, dashscope, siliconflow, gemini, openai`;
  - fatal and transient errors, and exponential backoff;
  - which caller overrides reach which candidate;
  - API-key resolution and the client cache;
  - the native-Gemini prompt flattening and reply assembly;
  - the persisted per-context override file;
  - the retry loops of `chat` and `achat`.

  `LLMClient` is a class whose fields are updated in place: `clients`, `overrides`, the state file, and a ghost log of attempts and of requested waits. Provider SDKs are oracles, i.e. functions passed in as parameters. `chat` and `achat` are proved to make exactly the attempts described by the functions `ChainSteps` and `ProviderSteps`. The lemmas about those functions state what the loops guarantee.
- **`scripts/grounding_verifier.py`**: checking line, quote and section citations against the target document; the tally of verified, weak and hallucinated citations; the report's score, rate and markdown.
- **`scripts/pdf_tool/converter.py`**:
  - anchor ids;
  - link and image resolution against the file registry;
  - collecting the input files with no duplicates;
  - clamping bookmark pages;
  - the default output name;
  - the body classes.
- **`scripts/dialecta_debate.py`**:
  - line numbering of the target document;
  - the token-usage line;
  - the report path;
  - which old execution logs are deleted.
- **`scripts/oracle_scanner.py`**:
  - the project-isolated path rule, which the debate's report path shares;
  - which request files feed the running summary;
  - the truncation of prompts.

Paths are sequences of components. `os.path.normpath` is modelled lexically, resolving `.` and `..`. A directory listing is a sequence of names. Reading a file, an unlink succeeding, and the file system seen by the converter are parameters.

Some behaviours of the code as written are stated as lemmas:
- Override lookup is a single step, never followed further.
- The re-check at `llm/client.py:143` can never be true.
- A native-Gemini "404" is re-raised with a text that has no fatal marker. It is therefore retried, unless the model name carries a marker.
- The one-off client built for a caller's key or base URL has no `<PROVIDER>_API_KEY` fallback.
- `achat` on native Gemini always fails with a non-fatal error, because the client it gets has no `chat` attribute.
- With `max_retries <= 0`, `chat` raises `None` (a `TypeError`) on a one-provider chain. On a longer chain it raises `UnboundLocalError`, because the fallback message uses `sys`, which is imported only inside the `except` branch. `achat` returns `None`.
- A negative `retry_delay` makes `chat` raise `time.sleep`'s ValueError at the first wait, even when a later attempt would have answered.
- Documents with the same file name in different directories get the same anchor id.
- `docs/x/a.md` and `x/a.md` share one isolated directory, and so do `external/a.md` and any `a.md` outside the root.

Files:
- `wrappers.dfy`: `Option`.
- `text.dfy`: ASCII case mapping, decimal rendering, split and join, lexicographic order and sorting.
- `paths.dfy`: component paths, `normpath`, basenames, stems and glob matching.
- `llm_routing.dfy`, `llm_retry.dfy` and `llm_client.dfy`: `llm/client.py`.
- `grounding.dfy`, `converter.dfy`, `debate.dfy` and `oracle_scanner.dfy`: the four scripts.

## Model

| member | source | states |
|---|---|---|
| LlmRouting.RequestedProvider | llm/client.py:127 | a truthy provider argument is used as given; otherwise (None or "") the configuration's `provider.default` when it has one, "openai" when it does not |
| LlmRouting.MissingConfigDefaultsToOpenai | llm/client.py:64-76 | with no configuration file, or one that is not valid JSON, a request naming no provider goes to "openai" |
| LlmRouting.EffectiveProvider | llm/client.py:135-137 | the provider tried first is `overrides[requested]` when that key exists, else the requested one |
| LlmRouting.OverrideIsOneStep | llm/client.py:136-137 | lookup is not transitive: with a→b and b→c, a goes to b |
| LlmRouting.BuildChain | llm/client.py:131-146 | the chain starts with the provider; it is the fixed list's tail from the provider's index when listed, else the provider followed by the whole list |
| LlmRouting.ChainDistinct | llm/client.py:139-146 | the chain never repeats a provider (so the re-check at line 143 never fires) and has at most six entries |
| LlmRouting.FatalAnywhere | llm/client.py:174-181 | a message holding any fatal marker, in any ASCII case, at any position, is fatal |
| LlmRouting.NoMarkerCharNotFatal | llm/client.py:174-181 | a message without '4', '_', 'h' or 'H' holds no fatal marker |
| LlmRouting.BackoffDoubles | llm/client.py:186 | the first wait is the base delay and each later wait doubles the one before |
| LlmRouting.CallFor | llm/client.py:154-163 | the caller's model and key reach a candidate only when it is the requested provider and no override applied, else both are None; the base URL reaches every candidate |
| LlmRouting.ResolveKey | llm/client.py:84-94 | a `${NAME}` key reads `NAME` from the environment, any other text is the key itself, and an empty result falls back to `<PROVIDER>_API_KEY` |
| LlmRouting.ExpandVars | llm/client.py:281 | text without '$' is left unchanged by variable expansion |
| LlmRouting.OneOffKeyLacksEnvFallback | llm/client.py:278-287 | with no key configured the one-off client gets an empty key while `_get_client` reads `<PROVIDER>_API_KEY` |
| LlmRouting.PlaceholderKeysAgree | llm/client.py:281-284 | on a `${NAME}` placeholder the one-off path reads the same variable as `_get_client` |
| LlmRouting.FlattenForGemini | llm/client.py:216-235 | the prompt is the conversation's turn lines in order, and the system instruction is the last system message's content, sent only when not empty |
| LlmRouting.TranscriptAppend | llm/client.py:219-227 | the prompt of a concatenated conversation is the concatenation of the prompts |
| LlmRouting.TranscriptSingle | llm/client.py:224-227 | each message adds its own "User: c\n" or "Model: c\n" line at the end |
| LlmRouting.OtherRolesDropped | llm/client.py:219-227 | a message of any role other than user or assistant contributes nothing to the prompt |
| LlmRouting.LastSystemIsLast | llm/client.py:222-223 | the system instruction is c exactly when some system message has content c and no later message is a system message |
| LlmRouting.PartsTextAppend | llm/client.py:255-260 | the reply text of concatenated parts is the concatenation of their texts |
| LlmRouting.NonTextPartDropped | llm/client.py:257-260 | a part without text contributes nothing to the reply |
| LlmRouting.OnlyFirstCandidate | llm/client.py:256-260 | the reply text depends only on the first candidate |
| LlmRouting.GeminiNotFoundFatalIff | llm/client.py:272-273 | the re-raised "not found" message is fatal exactly when the model name carries a fatal marker |
| LlmRouting.Native404Reclassified | llm/client.py:270-274 | a "404" from the native SDK is fatal as raised, but its rewrapped message is fatal only through the model name |
| LlmRouting.Contains404Fatal | llm/client.py:180 | any message holding "404" is fatal |
| LlmRetry.ProviderStepsShape | llm/client.py:152-186 | one provider's attempts are numbered consecutively, at least one and at most `max_retries`, each a retryable failure except the last, which is a reply, a fatal error or the last allowed attempt |
| LlmRetry.ProviderStepsLength | llm/client.py:152-184 | no attempt is made exactly when none is allowed |
| LlmRetry.NoAttemptsNoSteps | llm/client.py:151-152 | with `max_retries <= 0` no provider is called |
| LlmRetry.ChainStepsCalls | llm/client.py:151-163 | every attempt is made on a provider of the chain with the call built for it |
| LlmRetry.ChainStepsStopAtSuccess | llm/client.py:163-170 | the first reply ends the call: every earlier attempt failed |
| LlmRetry.ChainStepsAtMost | llm/client.py:151-152 | at most `len(chain) * max_retries` attempts are made |
| LlmRetry.ExhaustedRaisesLast | llm/client.py:171-194 | when every provider fails, `chat` re-raises the last attempt's exception, made on the last provider of the chain |
| LlmRetry.NextAttempt | llm/client.py:180-186 | a retryable failure is followed by the next attempt on the same provider; anything else by attempt 0 of a different provider |
| LlmRetry.ProviderSleeps | llm/client.py:183-186 | on one provider the waits are `delay * 2**k` for every attempt k but the last |
| LlmRetry.ScenarioChain | llm/client.py:151-194 | chain A, B, C with two attempts: A fails twice transiently, B once with 404, C answers |
| LlmRetry.ScenarioSleeps | llm/client.py:183-186 | in that run the only wait is the base delay, between A's attempts |
| LlmRetry.FallbackScenario | llm/client.py:151-194 | in that run there are four attempts, one wait, and C's reply is returned |
| LlmRetry.Fatal404 | llm/client.py:180 | "404" is fatal |
| LlmRetry.ProviderStepsRetryFirst | llm/client.py:152-186 | a provider's attempts ask for a wait exactly when there are two or more of them, and then the first attempt does |
| LlmRetry.ChainLoopSleepRaised | llm/client.py:183-186 | with a negative `retry_delay`, the first wait on any provider raises `time.sleep`'s ValueError out of `chat`: the attempts so far and that one are logged, no wait, no winner |
| LlmClient.CacheKeyRoundTrip | llm/client.py:110 | the cache key gives back its provider and mode |
| LlmClient.CacheKeyInjective | llm/client.py:110-112 | different providers or modes never share a cache entry |
| LlmClient.CacheValidInsert | llm/client.py:114-117 | caching the client built for a key keeps every cached client the one built for its key |
| LlmClient.CacheValidLookup | llm/client.py:110-112 | a cached client is the one built from its provider's key and base URL |
| LlmClient.CacheGrowsInsert | llm/client.py:117 | caching keeps every other entry and adds one of the call's mode |
| LlmClient.Native404IsRetried | llm/client.py:270-274 | a native-Gemini 404 comes back as the "not found" message, fatal only through the model name |
| LlmClient.BaseUrlOverrideDropsEnvKey | llm/client.py:278-287 | a caller's base URL with no configured key builds a client with an empty key, while the cached client reads `<PROVIDER>_API_KEY` |
| LlmClient.AChatNativeGeminiFails | llm/client.py:349-383 | `achat` on native Gemini always fails, with a non-fatal error |
| LlmClient.NoChatAttributeNotFatal | llm/client.py:340 | that error holds no fatal marker |
| LlmClient.SaveEffectSpec | llm/client.py:43-62 | without a context or on an I/O failure nothing changes; otherwise exactly this context's `original` entry is set to `stable`, other contexts and keys are kept, the overrides become this context's entry, and a later load sends `original` to `stable` |
| LlmClient.ChatRoute | llm/client.py:127-137 | the route keeps the requested provider, the override-applied one and the keyword arguments, which `_chat_internal` receives unchanged |
| LlmClient.RetryRecovers | llm/client.py:151-186 | when the SDK times out on a provider's first attempt and answers its second, `chat` makes exactly those two attempts on the first provider of the chain, waits the base delay once, and returns that answer |
| LlmClient.ARetryRecovers | llm/client.py:333-347 | the same recovery for `achat`: two attempts, the first a timeout, and the second attempt's answer returned |
| LlmClient.NegativeDelayRaises | llm/client.py:183-186 | in the same run with a negative `retry_delay`, `chat` raises the sleep's ValueError after the one timed-out attempt, with no wait and no winner |
| LlmClient.RecoveryRun | llm/client.py:151-186 | a first provider timing out once and then answering gives two attempts and one wait of the base delay |
| LlmClient.SavesOfTwoContexts | llm/client.py:43-62 | two clients of different contexts saving in turn on one file, each re-reading it first, both find their own override after a reload |
| LlmClient.LLMClient.constructor | llm/client.py:22-41 | config loaded, context id hashed when given, empty cache, overrides loaded for the context |
| LlmClient.LLMClient.SaveState | llm/client.py:43-62 | the file and overrides become `SaveEffect` of the file as re-read at save time (another client may have written it since) and of the client's overrides |
| LlmClient.LLMClient.GetClient | llm/client.py:81-118 | native Gemini: a fresh google-genai client built with the resolved key, never cached (or the ImportError when it is missing); otherwise the cached client for provider and mode, built and cached on first use (or the ImportError without the openai SDK) |
| LlmClient.LLMClient.ApiKeyFor | llm/client.py:84-94 | the key `_get_client` resolves |
| LlmClient.LLMClient.CachedClient | llm/client.py:106-118 | the cached client for the key, inserted on a miss, every other entry kept |
| LlmClient.LLMClient.BuildCached | llm/client.py:114-117 | a new client from the provider's key and base URL, cached under its key |
| LlmClient.LLMClient.Invoke | llm/client.py:196-321 | one synchronous attempt gives `ChatAttempt`'s outcome, the SDK answering for this request and attempt number; the cache only grows, and is untouched when the call carries a key or base URL |
| LlmClient.LLMClient.InvokeNative | llm/client.py:211-274 | the native path's outcome for this attempt, with no keyword argument forwarded, the cache untouched |
| LlmClient.LLMClient.InvokeCached | llm/client.py:288-321 | a completion through the cached client, the keyword arguments (`max_retries`, `retry_delay`) forwarded in the request |
| LlmClient.LLMClient.AInvoke | llm/client.py:349-401 | one asynchronous attempt gives `AChatAttempt`'s outcome, caching only async clients |
| LlmClient.LLMClient.AttemptOnce | llm/client.py:153-186 | one attempt is logged; a retryable failure logs the backoff wait, except that a synchronous wait of negative length raises instead |
| LlmClient.LLMClient.TryProvider | llm/client.py:152-186 | the attempts and waits on one provider are exactly `ProviderSteps` and their backoffs; when a synchronous negative wait raises, only the first attempt is logged and no wait |
| LlmClient.LLMClient.Walk | llm/client.py:148-194 | the attempts along the chain are exactly `ChainSteps`, the result is the reply, the last exception, `raise None`, the unbound `sys` or the sleep's ValueError, and the winner is the answering provider, none when the sleep raised |
| LlmClient.LLMClient.Chat | llm/client.py:119-194 | `chat` makes exactly the chain's attempts and waits with `max_retries` and `retry_delay` from the keyword arguments (3 and 2 by default), raising at the first wait when the delay is negative; a reply from a provider other than the requested one is merged into the state file as read at save time, otherwise file and overrides are unchanged |
| LlmClient.LLMClient.SaveIfMoved | llm/client.py:167-168 | the override is saved exactly when the answering provider differs from the requested one |
| LlmClient.LLMClient.AChat | llm/client.py:323-401 | `achat` makes exactly the requested provider's attempts with the keyword arguments' retry settings, each answered for its attempt number, with no chain and no override; `asyncio.sleep` of a negative length does not raise |
| Paths.NormpathIdempotent | scripts/pdf_tool/converter.py:32-34 | a normalised path has no ".", "" or misplaced ".." components, and normalising again changes nothing |
| Paths.RenderParseRoundTrip | scripts/pdf_tool/converter.py:30-36 | rendering a normal absolute path and parsing it back gives the same path |
| Paths.BasenameRender | scripts/pdf_tool/converter.py:20 | the basename of a rendered path is its last component |
| Paths.StemsDisagreeOnTrailingDot | scripts/oracle_scanner.py:73 | `pathlib`'s stem and `os.path.splitext` differ on "a." |
| Paths.Glob | scripts/dialecta_debate.py:80 | the glob yields exactly the listing's names that match |
| Paths.GlobNoDuplicates | scripts/oracle_scanner.py:78 | globbing a listing without repeats yields no repeats |
| Paths.NormPartsAppend | scripts/pdf_tool/converter.py:32-34 | normalising a concatenation is normalising the second part on top of the first part's result |
| Text.SortSorted | scripts/dialecta_debate.py:80 | sorting gives an ordered permutation |
| Text.DistinctCount | scripts/pdf_tool/converter.py:160 | a sequence without repeats has as many distinct elements as entries |
| Text.NoDuplicatesPermutation | scripts/oracle_scanner.py:78 | a permutation of a sequence without repeats has none |
| Text.GreaterAreAfter | scripts/oracle_scanner.py:78-85 | in a sorted sequence without repeats, exactly the entries after position i are greater than entry i |
| Text.LastAreGreatest | scripts/oracle_scanner.py:78-85 | in a sorted sequence without repeats, x is among the last n exactly when it is present and fewer than n entries are greater |
| Grounding.FirstLineWith | scripts/grounding_verifier.py:213-220 | the first line containing the quote, or none contains it |
| Grounding.BestMatchIsFirstBest | scripts/grounding_verifier.py:229-239 | the fuzzy search keeps the first line of strictly greatest similarity, 0 and no line when none is positive |
| Grounding.LineVerdict | scripts/grounding_verifier.py:183-206 | beyond the end: invalid, 0.0, reason containing "exceeds"; below 1: invalid, 0.0; otherwise valid, 1.0, the line's first 100 characters |
| Grounding.QuoteVerdict | scripts/grounding_verifier.py:209-262 | an exact substring is valid at 1.0 with no error, matched as "Found at Line k: " and the first 100 characters of the first line holding it, or "Exact match found in document" when no single line holds it; otherwise the confidence is the best similarity and the quote is valid exactly when it is at least 0.5 |
| Grounding.SectionVerdict | scripts/grounding_verifier.py:265-279 | valid at 0.9 exactly when the lowered reference occurs in the lowered document, else invalid at 0.0 |
| Grounding.Verdict | scripts/grounding_verifier.py:175-287 | line number first, then quote, then section reference; none of them: valid at 0.5 |
| Grounding.VerdictConfidence | scripts/grounding_verifier.py:175-287 | with similarities in [0, 1] every confidence is in [0, 1] and an invalid verdict is below 0.5 |
| Grounding.Tally | scripts/grounding_verifier.py:314-324 | verified + weak + hallucinated equals the number of verdicts |
| Grounding.TallySnoc | scripts/grounding_verifier.py:318-324 | one more verdict increments exactly the counter its validity and confidence select |
| Grounding.InvalidsExactly | scripts/grounding_verifier.py:71-81 | the invalid verdicts listed are exactly the invalid ones, as many as the hallucination count |
| Grounding.GroundingVerifier.constructor | scripts/grounding_verifier.py:100-110 | the given lines, or the content's lines when none or empty are given |
| Grounding.GroundingVerifier.FindLine | scripts/grounding_verifier.py:213-220 | the loop finds `FirstLineWith` |
| Grounding.GroundingVerifier.FuzzyBest | scripts/grounding_verifier.py:229-239 | the loop finds `BestMatch` |
| Grounding.GroundingVerifier.VerifyCitation | scripts/grounding_verifier.py:175-287 | the verdict is `Verdict` of the citation |
| Grounding.GroundingVerifier.VerifyDebateOutputs | scripts/grounding_verifier.py:289-326 | a fresh report with one verdict per citation, affirmative first, in order, total equal to the count, and the three counters equal to the tally |
| Grounding.GroundingReport.Record | scripts/grounding_verifier.py:315-324 | a verdict is appended and the counters still equal the tally |
| Grounding.GroundingReport.constructor | scripts/grounding_verifier.py:34-41 | an empty report |
| Grounding.GroundingReport.GroundingScore | scripts/grounding_verifier.py:43-48 | 100 with no citations; otherwise in [0, 100], and 100 exactly when every citation is verified |
| Grounding.GroundingReport.HallucinationRate | scripts/grounding_verifier.py:50-55 | 0 with no citations; otherwise in [0, 100], and 0 exactly when nothing is hallucinated |
| Grounding.ScoreAndRate | scripts/grounding_verifier.py:43-55 | score and rate together never exceed 100 |
| Grounding.GroundingReport.ToMarkdown | scripts/grounding_verifier.py:57-83 | the markdown is `Markdown` of the report's counters and verdicts |
| Grounding.AppendDetails | scripts/grounding_verifier.py:71-81 | the loop appends the detail line of each invalid verdict |
| Grounding.DetailsOfInvalids | scripts/grounding_verifier.py:71-81 | the details are the detail lines of exactly the invalid verdicts, in order |
| Grounding.MarkdownStatus | scripts/grounding_verifier.py:59-83 | the status mark is the check mark exactly when nothing is hallucinated, and the details appear only then not |
| PdfConverter.AnchorId | scripts/pdf_tool/converter.py:18-21 | "doc-" then the stem, same length, each character lowered if an ASCII letter or digit and '-' otherwise |
| PdfConverter.AnchorIdsCollide | scripts/pdf_tool/converter.py:18-21 | two paths with the same file name in different directories share an anchor |
| PdfConverter.ResolveLink | scripts/pdf_tool/converter.py:23-39 | external and fragment links are unchanged; a link whose resolved absolute path (`LinkKey`) is registered becomes "#" and that file's anchor, any other link is unchanged |
| PdfConverter.ParentLinkResolves | scripts/pdf_tool/converter.py:30-37 | a `../d/name` link from `pre/up/current` to a collected `pre/d/name` becomes that document's anchor |
| PdfConverter.ParentLinkKey | scripts/pdf_tool/converter.py:30-36 | the resolved key of `../d/name` from `pre/up/current` is `pre/d/name` |
| PdfConverter.NormUp | scripts/pdf_tool/converter.py:32-34 | normalising `pre/up/../d/name` gives `pre/d/name` |
| PdfConverter.SiblingLinkResolves | scripts/pdf_tool/converter.py:30-37 | a bare-name link to a collected document beside the current one becomes that document's anchor |
| PdfConverter.RegistryOfCollection | scripts/pdf_tool/converter.py:160 | the registry has exactly the collected files as keys, one per file, each mapped to its anchor |
| PdfConverter.ResolveImagePath | scripts/pdf_tool/converter.py:41-51 | remote, data and absolute sources are returned unchanged (absolute ones not normalised); every result is absolute or the source |
| PdfConverter.ResolveImagePathIdempotent | scripts/pdf_tool/converter.py:41-51 | resolving a resolved source changes nothing |
| PdfConverter.RelativeImageIsNormal | scripts/pdf_tool/converter.py:46-51 | a relative source becomes the normalised join with the current file's directory |
| PdfConverter.GatherNoDuplicates | scripts/pdf_tool/converter.py:137-153 | the collected files never repeat |
| PdfConverter.GatherFiles | scripts/pdf_tool/converter.py:139-153 | a file is collected exactly when some input yields it |
| PdfConverter.GatherSpecs | scripts/pdf_tool/converter.py:143-153 | a file is a spec exactly when its first occurrence came from a specs directory |
| PdfConverter.GatherSpecsAreFiles | scripts/pdf_tool/converter.py:137-153 | every spec is a collected file |
| PdfConverter.GatherOrder | scripts/pdf_tool/converter.py:139-153 | the collected files keep the order of their first occurrence among the inputs |
| PdfConverter.AddCandidate | scripts/pdf_tool/converter.py:146-153 | one candidate is added unless already collected |
| PdfConverter.AddFound | scripts/pdf_tool/converter.py:142-148 | a directory's sorted matches are added in order |
| PdfConverter.AddInput | scripts/pdf_tool/converter.py:139-153 | one input's files are added |
| PdfConverter.CollectFiles | scripts/pdf_tool/converter.py:136-153 | the loop collects `Gather` of every input's candidates |
| PdfConverter.ClampPage | scripts/pdf_tool/converter.py:263-265 | with at least one page the index lies in [0, pages - 1], a valid page is kept, below 0 gives 0, past the end gives the last page; with no page it is -1 |
| PdfConverter.OutlineFacts | scripts/pdf_tool/converter.py:259-275 | with at least one page every bookmark is kept in order on an existing page (its own when valid); with none, no bookmark is |
| PdfConverter.InjectBookmarks | scripts/pdf_tool/converter.py:259-275 | the loop builds `Outline` |
| PdfConverter.PageMark | scripts/pdf_tool/converter.py:209-211 | "_A4" exactly when A4; "_A3" exactly when A3 and not A4; "_poster" exactly when neither and the width is "210mm" |
| PdfConverter.OutputSuffix | scripts/pdf_tool/converter.py:206-211 | "_glass" when asked for, then the page mark |
| PdfConverter.GlassMark | scripts/pdf_tool/converter.py:207-211 | the suffix shows whether glass cards were asked for |
| PdfConverter.SuffixDecodes | scripts/pdf_tool/converter.py:206-211 | the suffix determines the glass flag and the page mark |
| PdfConverter.FinalPdfPath | scripts/pdf_tool/converter.py:199-218 | without `--output`: `<root>/docs/output/<stem of the first file><suffix>.pdf` |
| PdfConverter.BodyClasses | scripts/pdf_tool/converter.py:189-193 | each class is present exactly when its flag asks for it, each once |
| Debate.Numbered | scripts/dialecta_debate.py:120-121 | one output line per input line, line i being its number, " \| " and the line |
| Debate.NumberPrefix | scripts/dialecta_debate.py:120-121 | every number fits its width, padded with spaces on the left |
| Debate.NumberedLineShape | scripts/dialecta_debate.py:120-121 | every output line has width + 3 characters before the input line, which dropping them gives back |
| Debate.NumberedNoNewline | scripts/dialecta_debate.py:121 | no output line holds a newline |
| Debate.PrependLineNumbersLines | scripts/dialecta_debate.py:118-121 | empty text gives ""; otherwise splitting the output at newlines gives the numbered lines, one per input line |
| Debate.FormatUsage | scripts/dialecta_debate.py:123-126 | "N/A" exactly without usage |
| Debate.FormatUsageInjective | scripts/dialecta_debate.py:123-126 | different usages print differently |
| Debate.ReportPath | scripts/dialecta_debate.py:317-331 | the report is `ProjectIsolatedPath(root, target, "reports")` / `debate_<timestamp>.md` |
| Debate.ExecLogs | scripts/dialecta_debate.py:80 | the matching logs, sorted |
| Debate.Unlinked | scripts/dialecta_debate.py:82-86 | a log is removed exactly when it is selected and its unlink succeeds |
| Debate.PruneLogs | scripts/dialecta_debate.py:80-86 | the loop removes `Unlinked` of the selected logs, ignoring failures |
| Debate.DoomedAndKept | scripts/dialecta_debate.py:80-82 | selected and kept logs split the sorted logs, at most 20 are kept, none is selected with 20 or fewer |
| Debate.DoomedAreOldest | scripts/dialecta_debate.py:80-82 | every selected log sorts before every kept one |
| Debate.DoomedAreLogs | scripts/dialecta_debate.py:80-82 | only `debate_exec_*.log` files of the directory are selected |
| OracleScanner.DropLeadingDocs | scripts/oracle_scanner.py:66-69 | one leading 'docs' is dropped, anything else kept |
| OracleScanner.ProjectIsolatedPath | scripts/oracle_scanner.py:62-73 | every result starts with root/docs/base and ends with the target's stem; outside the root it is root/docs/base/external/stem |
| OracleScanner.IsolatedUnderRoot | scripts/oracle_scanner.py:64-73 | under the root without a leading 'docs', the whole relative directory is kept |
| OracleScanner.IsolatedDropsOneDocs | scripts/oracle_scanner.py:67-69 | only the first 'docs' is dropped, deeper ones stay |
| OracleScanner.IsolatedExternal | scripts/oracle_scanner.py:70-73 | outside the root the directory is 'external' |
| OracleScanner.DocsCollision | scripts/oracle_scanner.py:62-73 | `docs/x/a.md` and `x/a.md` share a directory |
| OracleScanner.ExternalCollision | scripts/oracle_scanner.py:62-73 | `external/a.md` under the root shares its directory with every `a.md` outside it |
| OracleScanner.RequestNameMatches | scripts/oracle_scanner.py:142-143 | the saved request file matches `request_*.md` |
| OracleScanner.Latest | scripts/oracle_scanner.py:78-85 | the summarised files number five, or all request files when there are fewer |
| OracleScanner.SortedRequests | scripts/oracle_scanner.py:78 | the sorted request files have no repeats, are in order, and are exactly the request files |
| OracleScanner.LatestAreNewest | scripts/oracle_scanner.py:78-85 | a file is summarised exactly when it is a request file and fewer than five request files sort after it |
| OracleScanner.Summary | scripts/oracle_scanner.py:76-96 | nothing without request files; otherwise the texts of the `Latest` files joined by the separator, cut to its first 8000 characters, and the full count of request files |
| OracleScanner.UpdateSummary | scripts/oracle_scanner.py:76-96 | the loop reads the `Latest` files in order and builds `Summary` |
| OracleScanner.SavedRequestCounted | scripts/oracle_scanner.py:138-148 | after a scan the summary exists and counts the new request file |
| OracleScanner.NewestRequestSummarised | scripts/oracle_scanner.py:142-148 | when older request names sort before the new one, the new answer is the last text summarised |
| OracleScanner.ScanExcerpt | scripts/oracle_scanner.py:123 | the scan prompt gets the first 10000 characters |

## Left out

- Provider SDK calls (OpenAI, AsyncOpenAI, google-genai) are oracles: `Sdk` says which SDKs import and what each request returns on each attempt number, so a request can fail on one attempt and succeed on the next. The create request carries the model, the messages and the keyword arguments `max_retries` and `retry_delay` (forwarded by `_chat_internal` and `_achat_internal`; the native Gemini path forwards none). Temperature, max_tokens, usage metadata and other keyword arguments (including `model` in `achat`) are not modelled, since they only pass through.
- `max_retries` and `retry_delay` are integers: a fractional delay, and the TypeError of a non-numeric one, are not represented. A negative delay is modelled: `time.sleep` raises its ValueError out of `chat`, and `asyncio.sleep` returns at once.
- `time.sleep` and `asyncio.sleep` are recorded in a ghost log of requested waits; time and suspension are not modelled.
- SHA-256 of the context id is a function parameter of the constructor.
- JSON reading and writing, `os.makedirs`, `load_dotenv` and `os.environ`. The configuration and the state file are datatypes. The environment is a map. Every I/O failure in `_save_state` is one boolean, and a failed write is taken to leave the file unchanged (a partially written file is not modelled). `_save_state` re-reads the file, so the file as it is at save time is a parameter of `SaveState` and `Chat`: other clients, such as the two of `oracle_scanner.py`, may write it in between.
- Floating point: `SequenceMatcher.ratio` is a function parameter, and percentage and one-decimal formatting are function parameters. Real numbers stand for floats.
- Logging, stderr and stdout output, the spinner and the thread pool of the debate CLI, and the 240 s wait and cancel. Their point is I/O and threading.
- Citation extraction by regular expressions (`extract_citations`), `extract_one_liner`, and the link, image and mermaid rewriting of `process_file_content`. These are regex-driven text processing.
- Markdown, Jinja, pikepdf, Puppeteer, the glass-card wrap, the theme fallback and the merging of file contents. These are foreign libraries.
- `run_grounding_check`, and the rest of `run_debate` and `scan_for_questions` beyond the rules modelled. These are model calls and I/O.
- Python's `lower`, `upper`, `capitalize` and `splitlines` are modelled on ASCII and on '\n' only.
- `os.path.normpath` keeps a leading "//" on POSIX; the model treats it as "/".
- `glob` can match directories as well as files; the model's listing is taken to hold files only.
- The debate's new log file is created after the old ones are selected, so it is not part of the listing `PruneLogs` sees.
- PdfConverter.ResolveImagePath: requires an absolute working directory, as `os.getcwd()` always returns.
- LlmClient.LLMClient.TryProvider: states cache validity, not that the cache only grows; `AttemptOnce` states the growth per attempt.
- LlmClient.LLMClient.Walk: states cache validity, not that the cache only grows.
- LlmClient.LLMClient.Chat: states cache validity, not that the cache only grows.
