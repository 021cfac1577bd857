# A Dafny model of the new-api relay engine

new-api is an API gateway that relays OpenAI-style requests to upstream
channels (OpenAI, Azure, 360, Moonshot and others). It meters them against a
quota ledger held per user and per token. This project models the
sequential decision logic of the relay path and proves properties of it:

- **Sensitive-word redaction** (module `Sensitive`, file `sensitive.dfy`).
  The phrase dictionary is built from the configured words. The
  Aho-Corasick matcher is specified by the hits it may report. The splice
  loop is modelled exactly as written: it puts `*###*` over each hit at
  the offset the matcher reported against the original text.
- **The OpenAI channel adaptor** (module `OpenaiAdaptor`, `adaptor.dfy`).
  Covers the upstream path, with Azure's deployment-name rules, and the
  authentication headers. `Init` stores the channel type, and the model
  list follows from it. Also covers request conversion and the dispatch to
  the stream or non-stream handler.
- **Response processing** (module `OpenaiRelay`, `relay_openai.dfy`).
  - Stream side: the newline splitter, the producer's per-line filter,
    redaction, role rewrite and stop rule, the aggregation of the streamed
    text, and the consumer's frame trimming. The producer goroutine and
    the consumer are modelled as one sequential pass.
  - Non-stream side: the usage recount, the sensitive-word scan with
    de-duplication, and the error short-circuits.
- **Request orchestration and the quota ledger** (module `RelayText`,
  `relay_text.dfy`).
  - Request side: validation, the one-step model mapping, and prompt
    tokens by mode.
  - Quota side: the pre-consume estimate, the reservation with its 100x
    trust rule, and the settlement charge.
  - The `QuotaStore` class holds the cached user quota and the token quota
    of the request, plus a log of every ledger call. With that log it can
    be stated which paths return a reservation and which settle it.
- **The relay controller** (module `Controller`, `controller.dfy`). Chooses
  the helper for a mode, counts down the retry parameter, and picks
  between a retry redirect and a JSON error. It also makes the
  channel-disable decision, the Midjourney error answer, and the fixed 404
  and 501 answers.

`Strings` (`strings.dfy`) models the Go string functions the core uses:

- `strings.ToLower` (ASCII only), `bytes.TrimSpace`, `strings.Split(...)[0]`
- `strings.Replace` with `-1`, `TrimPrefix`/`TrimSuffix`, `strings.Join`
- `strconv.Atoi` with its error ignored (including ParseUint's stop at an overflowing digit), and `%d`

`Dto` (`dto.dfy`) holds the shared records and `Wrappers` (`wrappers.dfy`)
holds `Option` and `Result`.

Calls into code that is not part of this model become parameters:

- the Aho-Corasick matcher's hits;
- the tokenizer;
- the JSON decoders;
- the price lookups;
- the cache and database replies;
- `RelayErrorHandler`, `MessageWithRequestId` and `ShouldDisableChannel`;
- what an adaptor's `DoResponse` returns to `TextHelper`.

A panic in the request's own goroutine is modelled as an outcome of its
own (`RequestPanicked`, `HelperPanicked`), because gin's recovery answers it
with 500. A panic in the stream producer goroutine ends the process
(`ProcessCrashed`, `Crashed`). A stream handler that never returns is an
outcome too (`StreamHung`, `RequestHung`, `Hung`): the request gets no
further answer, and nothing is settled or returned.

Some properties of the code as written, stated and proved below:

- **Stale splice offsets.** The splice loop reuses the matcher's offsets
  after earlier splices have changed the text's length.
  - A second hit is then masked at the wrong place
    (`OffsetsAreNotRecomputed`).
  - A later hit can also fall past the end of the shortened text. That is
    a slice-bounds panic (`StaleOffsetCanPanic`).
  - The offsets stay valid only when every word has exactly the mask's
    length (`MaskLengthWordsAreRedacted`).
- **`"role":null` survives the rewrite.** The rewrite is a single
  left-to-right pass, so an occurrence can survive it
  (`RoleNullCanReappear`).
- **A bare `[DONE]` line breaks the JSON.** The line yields an empty
  payload. The aggregated JSON array then holds an empty element
  (`BareDoneLineIsAggregated`), which does not decode.
- **A failed stream decode hangs the request.** When the aggregated JSON
  does not decode, the producer returns without sending the stop signal.
  Once the frames are drained, the step function waits on two channels
  that never deliver. gin checks for a departed client only between steps,
  so `OpenaiStreamHandler`, `DoResponse` and `TextHelper` never return. The
  usage is never settled, and the reservation stays consumed
  (`OpenaiStreamHandler`, `DoResponse`, `Forward`).
- **Redaction is lost in the non-stream handler.** The redacted text is
  written to a copy of each choice, so the response forwarded to the
  client keeps the original text (the last ensures of
  `OpenaiHandler`).
- **Missing prompts pass validation.** A completions request with no
  prompt at all passes, because only the empty string is refused
  (`MissingPromptPasses`).
- **Edits cannot count their prompt.** An edits request passes validation,
  but it always fails prompt counting with "unknown relay mode"
  (`EditsHaveNoPromptCount`).
- **Some paths leak the reservation.** A missing adaptor, a request-body
  error or a `DoRequest` error returns after the reservation without
  returning it (`Forward`). A settlement of a usage with no tokens commits
  nothing, so the reservation stays consumed (`SettlementReconciles`).
- **The cache is decremented by the full estimate, even for a trusted
  request** (`QuotaStore.PreConsumeQuota`).

## Model

| member | source | states |
|---|---|---|
| Sensitive.ReadRunes | service/sensitive.go:66-76 | One dictionary entry per configured word, in order, each the word lower-cased and space-trimmed; all entries are lower case |
| Sensitive.NormalizedWordShape | service/sensitive.go:70-71 | A dictionary entry is lower case and neither starts nor ends with white space |
| Strings.TrimSpaceIsCore | service/sensitive.go:71 | TrimSpace removes exactly the leading and trailing white space; what it keeps is a contiguous slice of the input |
| Strings.LowerIsLower | service/sensitive.go:16 | Lower-casing yields lower-case text and is idempotent |
| Strings.BeforeFirst | relay/channel/openai/adaptor.go:30 | `strings.Split(p, "?")[0]`: the longest prefix without `?`, followed in the input by `?` when it is shorter |
| Strings.TrimPrefix | relay/channel/openai/adaptor.go:32 | With the prefix present the result is what follows it; without it the input unchanged |
| Strings.TrimSuffix | relay/channel/openai/adaptor.go:36-38 | With the suffix present the result is what precedes it; without it the input unchanged |
| Strings.RemoveChar | relay/channel/openai/adaptor.go:33-34 | Removing every `.` leaves no dot, keeps every other character, and changes nothing in a dot-free name |
| Strings.ReplaceAllAbsent | relay/channel/openai/relay-openai.go:77 | A line without `"role":null` is left unchanged by the rewrite |
| Strings.ReplaceAllGrows | relay/channel/openai/relay-openai.go:77 | Replacing a pattern by a string at least as long never shortens the line |
| Strings.Atoi | controller/relay.go:38 | `strconv.Atoi` with its error ignored: always within the 64-bit range |
| Strings.AtoiSaturates | controller/relay.go:38 | A digit run worth more than the uint64 range gives the largest int64, whatever follows it, since the parse stops at the overflowing digit |
| Strings.AtoiSaturatesNegative | controller/relay.go:38 | After `-`, such a run gives the least int64, whatever follows it |
| Strings.AtoiRejectsTrailing | controller/relay.go:38 | A non-empty digit run within the uint64 range followed by a non-digit gives 0 |
| Strings.AtoiOfDecimal | controller/relay.go:38-43 | A count written with `%d` reads back as itself |
| Strings.NatToDecimalValue | controller/relay.go:43 | The decimal digits written for a count denote that count |
| Sensitive.OccursIgnoringCase | service/sensitive.go:16-19 | A lower-case word occurs in the lower-cased text at p exactly when the text's slice at p lower-cases to that word |
| Sensitive.HitsIffOccurrence | service/sensitive.go:19-20 | The matcher reports a hit if and only if some dictionary word occurs in the lower-cased text |
| Sensitive.SensitiveWordContains | service/sensitive.go:12-28 | With no configured words: (false, nil); otherwise found exactly when there are hits, and the words are the hits' words in hit order |
| Sensitive.HitWordsAt | service/sensitive.go:22-24 | Word i of the report is the word of hit i |
| Sensitive.SpliceAt | service/sensitive.go:48 | A splice is defined exactly when the hit's end is within the current text, and changes its length by 5 minus the word's length |
| Sensitive.SpliceAllStep | service/sensitive.go:45-50 | Each splice works on the text the previous splices produced, at the hit's original offset |
| Sensitive.SensitiveWordReplace | service/sensitive.go:36-54 | No configured words or no hits: (false, nil, original text); otherwise true, one word per hit in order, and the text after all splices, or a panic when a splice's bounds exceed the current text |
| Sensitive.SpliceHits | service/sensitive.go:44-51 | The splice loop yields the words of all hits and the text after splicing them in order |
| Sensitive.SingleHitSplice | service/sensitive.go:48 | One hit of w at pos gives text[:pos] + `*###*` + text[pos+len(w):], changing the length by 5 - len(w) |
| Sensitive.OffsetsAreNotRecomputed | service/sensitive.go:46-48 | Hits (0,"ab") and (3,"cd") in "ab cd" give "*##*###* cd": the second mask lands at the stale offset |
| Sensitive.StaleOffsetCanPanic | service/sensitive.go:46-48 | Hits (0,"abcdefgh") and (9,"xy") in "abcdefgh xy" are valid matcher output, yet the second splice is out of range |
| Sensitive.MaskLengthWordsAreRedacted | service/sensitive.go:44-51 | When every hit word has the mask's length and the hits are disjoint, every hit span is masked and every other character is kept |
| OpenaiRelay.SplitLine | relay/channel/openai/relay-openai.go:39-50 | With a newline: the token before the first one, advancing past it; without: the whole rest only at EOF and only if non-empty; tokens never hold a newline |
| OpenaiRelay.SplitIsChunkIndependent | relay/channel/openai/relay-openai.go:39-50 | Once a newline is in the buffer, more data or EOF does not change the token returned |
| OpenaiRelay.Tokens | relay/channel/openai/relay-openai.go:37-61 | The scanned lines hold no newline, and a non-empty body yields at least one |
| OpenaiRelay.TokensJoin | relay/channel/openai/relay-openai.go:39-50 | Joining the lines with newlines gives back the body minus at most one final newline; an unterminated last line is kept |
| OpenaiRelay.HandleLine | relay/channel/openai/relay-openai.go:62-87 | A line is skipped exactly when it is shorter than 6 or starts with neither `data: ` nor `[DONE]`; a kept line forwards at least one frame unless the splice panics and at most one item, never a `[DONE]` payload; a stop ends with the extra `data: [DONE]` |
| OpenaiRelay.Produce | relay/channel/openai/relay-openai.go:60-88 | Over all lines: no more items than frames, no item starts with `[DONE]`, and a stop leaves `data: [DONE]` as the last frame |
| OpenaiRelay.ProduceLine | relay/channel/openai/relay-openai.go:61-87 | One loop iteration (filter, redaction, role rewrite, item, stop) does what HandleLine specifies |
| OpenaiRelay.StreamProducer | relay/channel/openai/relay-openai.go:56-88 | The producer loop forwards the frames and collects the items Produce specifies, in input order |
| OpenaiRelay.EventLines | relay/channel/openai/relay-openai.go:62-68 | The filter keeps only event lines, never more lines than it is given |
| OpenaiRelay.FixRoleKeepsEvent | relay/channel/openai/relay-openai.go:77 | The role rewrite keeps an event line an event line with the same first 6 bytes and never shortens it |
| OpenaiRelay.ProduceWithoutChecking | relay/channel/openai/relay-openai.go:60-88 | Without checking, the frames are the kept lines with the role rewritten, in order, and the items are their payloads |
| OpenaiRelay.BareDoneLineIsAggregated | relay/channel/openai/relay-openai.go:66-89 | A bare `[DONE]` line contributes an empty item, making the aggregated JSON `[{},]` |
| OpenaiRelay.RoleNullCanReappear | relay/channel/openai/relay-openai.go:77 | After the single-pass rewrite, `"role":null` can still occur in a forwarded line |
| OpenaiRelay.ConcatChoicesAppend | relay/channel/openai/relay-openai.go:99-103 | The text of the choices of two frame lists is the concatenation of their texts |
| OpenaiRelay.FlattenAppend | relay/channel/openai/relay-openai.go:99-116 | Aggregating two runs of frames gives the concatenation of their aggregates |
| OpenaiRelay.AggregateStream | relay/channel/openai/relay-openai.go:89-122 | The stop signal is sent exactly when the mode is not aggregated or the JSON array of items decodes; the text is every choice's delta content or text, in frame and choice order |
| OpenaiRelay.AggregatesDeltas | relay/channel/openai/relay-openai.go:99-103 | Two frames with deltas "Hi" and " there" aggregate to "Hi there" |
| OpenaiRelay.RenderFrame | relay/channel/openai/relay-openai.go:128-132 | A `data: [DONE]` frame is cut to `data: [DONE]`; any other frame loses exactly one trailing carriage return, if it has one |
| OpenaiRelay.StreamConsumer | relay/channel/openai/relay-openai.go:125-138 | The consumer renders every forwarded frame, in order |
| OpenaiRelay.OpenaiStreamHandler | relay/channel/openai/relay-openai.go:33-145 | The client sees the rendered frames; a producer panic is reported as such; the handler hangs exactly when an aggregated mode's items do not decode, before the body is closed; otherwise a close error returns that error and empty text, and without one there is no error and the text is the aggregate of the decoded frames (empty for other modes) |
| OpenaiRelay.OpenaiHandler | relay/channel/openai/relay-openai.go:147-228 | Read, close and decode errors return 500 with no usage; an upstream error object returns with the upstream status; otherwise the usage is recounted when total is 0 or checking is on, the body is forwarded unless stop-on-sensitive, and flagged words are reported de-duplicated with 400; the result is the one HandlerResponse gives for the body |
| OpenaiRelay.CountAndScan | relay/channel/openai/relay-openai.go:173-189 | The loop counts the completion tokens of all choices and, with checking on, yields the scan of all choices (flagged or not, words in choice order); a splice panic on any choice ends it |
| OpenaiRelay.ScanPanicPersists | relay/channel/openai/relay-openai.go:175-189 | A splice panic on any choice ends the scan of all choices |
| OpenaiRelay.CompletionTokensAppend | relay/channel/openai/relay-openai.go:175-178 | The completion-token count of two runs of choices is the sum of their counts |
| OpenaiRelay.Distinct | relay/channel/openai/relay-openai.go:222 | De-duplication leaves no duplicate, keeps exactly the same words, and is never longer |
| OpenaiRelay.DistinctOfDistinct | relay/channel/openai/relay-openai.go:222 | De-duplicating a list without duplicates returns it unchanged |
| OpenaiRelay.RemoveDuplicate | relay/channel/openai/relay-openai.go:222 | The loop with a seen-set computes the de-duplicated list |
| OpenaiAdaptor.Adaptor.Init | relay/channel/openai/adaptor.go:23-25 | Init stores the request's channel type |
| OpenaiAdaptor.Adaptor.GetModelList | relay/channel/openai/adaptor.go:99-108 | The 360 list exactly for 360, the Moonshot list exactly for Moonshot, the default list for every other type |
| OpenaiAdaptor.AzureDeployment | relay/channel/openai/adaptor.go:33-38 | The deployment name has no dot, and is the dot-free model name minus exactly the dates found: `-0301` when the name ends with it, then `-0314` when it ends what is left, then `-0613` likewise |
| OpenaiAdaptor.DeploymentDropsDate | relay/channel/openai/adaptor.go:33-38 | Any dot-free name without a date suffix, with one of the three dates appended, deploys as the name alone |
| OpenaiAdaptor.DeploymentOfPlainName | relay/channel/openai/adaptor.go:33-38 | A dot-free name without a date suffix is its own deployment name |
| OpenaiAdaptor.DeploymentExamples | relay/channel/openai/adaptor.go:33-38 | `gpt-4-32k-0613` deploys as `gpt-4-32k` and `gpt-3.5-turbo-0301` as `gpt-35-turbo` |
| OpenaiAdaptor.DottedDeploymentExample | relay/channel/openai/adaptor.go:33-38 | `gpt-3.5-turbo-0301` deploys as `gpt-35-turbo` |
| OpenaiAdaptor.DotRemovalExample | relay/channel/openai/adaptor.go:33-34 | Removing dots turns `gpt-3.5-turbo-0301` into `gpt-35-turbo-0301` |
| OpenaiAdaptor.DeploymentTrimOrder | relay/channel/openai/adaptor.go:36-38 | The suffixes are trimmed in a fixed order, once each: `gpt-4-0314-0613` keeps `-0314`, `gpt-4-0613-0314` loses both |
| OpenaiAdaptor.AzureRoute | relay/channel/openai/adaptor.go:30-32 | The Azure route holds no `?`: the client's query is dropped |
| OpenaiAdaptor.GetRequestURL | relay/channel/openai/adaptor.go:27-44 | Azure: `/openai/deployments/<deployment>/<route>?api-version=<version>`, the route being the path before its first `?` without a leading `/v1/`; any other channel: the request path unchanged |
| OpenaiAdaptor.TrimPrefixOfQueried | relay/channel/openai/adaptor.go:31-32 | Removing `/v1/` after appending the api-version query is the same as removing it before |
| OpenaiAdaptor.AzureURLExample | relay/channel/openai/adaptor.go:28-41 | `/v1/chat/completions?x=1` for `gpt-4-32k-0613`, version 2023-05-15, becomes `/openai/deployments/gpt-4-32k/chat/completions?api-version=2023-05-15` |
| OpenaiAdaptor.AuthHeaders | relay/channel/openai/adaptor.go:48-55 | Azure sets only `api-key`; every other channel sets `Authorization: Bearer <key>`, plus `OpenAI-Organization` exactly when the type is OpenAI and the organization is non-empty |
| OpenaiAdaptor.SetupRequestHeader | relay/channel/openai/adaptor.go:46-61 | The header holds the shared headers overlaid with the authentication headers, and nothing else changes |
| OpenaiAdaptor.ConvertRequest | relay/channel/openai/adaptor.go:63-68 | An error "request is nil" exactly for a nil request; any other request is returned unchanged |
| OpenaiAdaptor.DoResponse | relay/channel/openai/adaptor.go:85-97 | A stream goes to the stream handler: a producer panic ends the process, an undecodable aggregate hangs, a close error gives that error with the usage of empty text, and otherwise the usage of the aggregated text with no error and no sensitive report; any other request gives exactly the non-stream handler's usage, error and report, or its panic |
| RelayText.DefaultedModel | relay/relay-text.go:38-43 | An empty model becomes `text-moderation-latest` for moderations and the path parameter for embeddings; any other model is kept |
| RelayText.ValidateTextRequest | relay/relay-text.go:29-79 | A decode error is returned; otherwise the request passes exactly when max_tokens is in [0, MaxInt32/2], the defaulted model is non-empty and the mode's required field is present; max_tokens is reported first, then the model; the result carries the defaulted model |
| RelayText.MissingPromptPasses | relay/relay-text.go:56-59 | A completions request whose prompt is absent or not a string passes validation |
| RelayText.MaxTokensCheckedFirst | relay/relay-text.go:46-52 | A bad max_tokens is reported even when the model and messages are missing too |
| RelayText.MapModel | relay/relay-text.go:100-114 | `""` and `{}` map nothing; a mapping that does not decode is a 500; otherwise the model is mapped exactly when its entry exists and is non-empty, to that entry, in one lookup |
| RelayText.MappingIsOneStep | relay/relay-text.go:108-109 | With `a -> b` and `b -> c`, `a` maps to `b` |
| RelayText.GetPromptTokens | relay/relay-text.go:226-253 | Chat counts the messages and completions the prompt; moderations and embeddings count the input; every other mode is "unknown relay mode" with 0 tokens |
| RelayText.EditsHaveNoPromptCount | relay/relay-text.go:232-249 | Edits always fail prompt counting |
| RelayText.PromptTokenError | relay/relay-text.go:126-131 | A prompt-count error is 400 when a sensitive word triggered it and 500 otherwise, with its message kept |
| RelayText.Trunc | relay/relay-text.go:141 | Go's float-to-int conversion truncates toward zero: within 1 of the value, on the zero side |
| RelayText.TruncMonotone | relay/relay-text.go:141 | Truncation of non-negative values is monotone |
| RelayText.PreConsumeAmount | relay/relay-text.go:134-144 | A fixed price costs price x quota per unit x group ratio; by tokens, the estimate is the estimated tokens times the ratio, truncated toward zero |
| RelayText.EstimateIgnoresPromptWithoutMaxTokens | relay/relay-text.go:135-138 | With max_tokens 0 the estimate uses the configured default, whatever the prompt |
| RelayText.EstimateMonotone | relay/relay-text.go:136-141 | A larger max_tokens never lowers the estimate |
| RelayText.SettlementCharge | relay/relay-text.go:347-357 | By tokens: 0 when the ratio is 0; otherwise the weighed tokens times the ratio, truncated, when that is at least 1, and 1 when it is below 1; a fixed price otherwise |
| RelayText.WeighedMonotone | relay/relay-text.go:350 | The weighed token total grows with the prompt and completion tokens |
| RelayText.ChargeMonotone | relay/relay-text.go:348-354 | More prompt or completion tokens never cost less |
| RelayText.FixedPriceIgnoresUsage | relay/relay-text.go:355-357 | A fixed-price model costs the same for any usage |
| RelayText.PreConsume | relay/relay-text.go:266-315 | A cache read error and a decrease error are 500s; with the cache readable, the `insufficient_user_quota` 403 exactly when the user quota is not positive or below the amount; past those, an untrusted positive amount is rejected with the `pre_consume_token_quota_failed` 403 exactly when the token reservation fails; a reservation is 0 exactly when the request is trusted (or the amount is 0) and otherwise the whole amount; it carries the token reservation's user quota when something was reserved and the cached one otherwise |
| RelayText.PreConsumeCalls | relay/relay-text.go:281-311 | preConsumeQuota neither returns, commits nor logs |
| RelayText.ReturnCalls | relay/relay-text.go:323-335 | A return issues one uncommitted ledger update of minus the reservation, and nothing for a reservation of 0 |
| RelayText.LogModel | relay/relay-text.go:390-394 | Every `gpt-4-gizmo` model is logged as `gpt-4-gizmo-*` |
| RelayText.SettlementReconciles | relay/relay-text.go:367-395 | A settlement logs once and never returns; it commits `quota - reserved` over the reservation exactly when the usage has tokens |
| RelayText.QuotaStore.PreConsumeQuota | relay/relay-text.go:266-315 | The outcome PreConsume specifies; the cache is decreased by the full amount whenever the reservation succeeds, trusted or not; only the calls PreConsumeCalls lists are issued |
| RelayText.QuotaStore.ReturnPreConsumedQuota | relay/relay-text.go:323-335 | Appends exactly the return calls; the quotas are unchanged |
| RelayText.QuotaStore.PostConsumeQuota | relay/relay-text.go:337-400 | Appends exactly the settlement calls for the charge; the cache is refreshed only when the usage has tokens |
| RelayText.Prepare | relay/relay-text.go:88-150 | A validation error is 400 and a mapping or prompt-count error is returned, each with no ledger call; past those, a rejected reservation returns PreConsume's error and an accepted one gives the mapped request, the relay information with the final model, stream flag and prompt tokens, the ratio and the reservation |
| RelayText.SendFailure | relay/relay-text.go:153-187 | A missing adaptor is 400 `invalid api type: <n>`; the marshal error of a mapped OpenAI request, and the convert and then JSON errors of any other API, are 500s with their codes; the send error is a 500 once the body was built; there is no failure exactly when the adaptor exists, the body was built and the send succeeded |
| RelayText.Forward | relay/relay-text.go:153-213 | Send failures issue no ledger call (the reservation leaks); non-200 and handler errors without a report return the reservation; a reported or successful response settles it, returning the error only with stop-on-sensitive; a nil usage panics; a hung handler issues no ledger call |
| RelayText.TextHelper | relay/relay-text.go:88-214 | A request returns or settles its reservation at most once and never both, and commits only inside a settlement; an invalid request is 400 with no ledger call |
| Controller.RelayDispatch | controller/relay.go:21-34 | Image generation goes to the image helper, the three audio modes to the audio helper, and every other mode to TextHelper |
| Controller.RetryTimes | controller/relay.go:37-41 | The configured count when there is no `retry` parameter, else its Atoi value |
| Controller.NonNumericRetryIsZero | controller/relay.go:38 | A `retry` value without digits means 0 retries |
| Controller.OverflowingRetrySaturates | controller/relay.go:37-41 | A `retry` value starting with a digit run beyond the uint64 range means the largest int64 of retries, whatever follows the run |
| Controller.RelayDecision | controller/relay.go:35-60 | With retries left: a 307 to the path with one retry fewer and the error untouched; otherwise the error, its message with the request id, as JSON with its status; the channel is disabled exactly when auto-ban is on and ShouldDisableChannel holds for the error as it then stands |
| Controller.RetryCountsDown | controller/relay.go:37-43 | The redirect's `retry` value reads back as one less than the current count, so a retry chain ends |
| Controller.DisableSeesReplyError | controller/relay.go:42-60 | The disable decision sees the original message after a redirect and the request-id message after a JSON reply; without auto-ban nothing is disabled |
| Controller.MidjourneyDispatch | controller/relay.go:68-81 | Notify, the two task fetches, image seed and swap face go to their handlers; every other mode is a submission |
| Controller.MidjourneyErrorReply | controller/relay.go:82-96 | No answer on success; code 30 answers 429 with the result replaced by the saturation notice; any other code answers 400 with description and result |
| Controller.RelayNotImplemented | controller/relay.go:102-112 | 501 with "API not implemented", type new_api_error, code api_not_implemented |
| Controller.RelayNotFound | controller/relay.go:117-127 | 404 with "Invalid URL (<method> <path>)", type invalid_request_error, empty code |

## Left out

- Aho-Corasick internals (`initAc`, `MultiPatternSearch`): the matcher is a foreign library. Its hits are a parameter constrained to be sound, complete for non-empty words, and at most one when it returns immediately. The order in which the matcher reports hits is not constrained.
- Sensitive.SensitiveWordReplace: a Go string slice counts bytes and the matcher counts runes. The model indexes characters, so it is exact for ASCII text only.
- Strings.Lower: folds ASCII letters only; Go's `strings.ToLower` also folds other Unicode letters.
- Concurrency in `OpenaiStreamHandler`: the goroutine, the channels, the 2-second drain sleep, `WaitGroup` and `c.Stream`. The producer and consumer run as one sequential pass, so a race between the stop signal and undelivered frames is not modelled. A client that leaves during the stream is not modelled: gin notices it only between steps, and never during the endless wait after a failed decode.
- RelayText.QuotaStore.ReturnPreConsumedQuota: Go returns the reservation in a goroutine it starts, so the database update may happen after `TextHelper` has returned. The model records the call at the point the goroutine is started, and does not model its timing or its order relative to later calls.
- The `bufio.Scanner` 64 KiB token limit: the model's scanner accepts lines of any length.
- JSON encoding and decoding of requests, stream frames and responses: decoders are parameters, and parsed values are structured records.
- Floating point: prices and ratios are reals and `int(...)` is truncation toward zero. IEEE rounding, and the result of converting an out-of-range float, are not modelled.
- The tokenizer (`CountTokenMessages`, `CountTokenInput`, `CountTokenText`, `ResponseText2Usage`), the price lookups and the group ratio are parameters.
- The cache and database functions in `model.*` are recorded as ledger calls. Their replies are inputs (`StoreReplies`), and their effect on the database is not modelled.
- `common.RemoveDuplicate` is not part of this model; the model assumes it keeps first occurrences in order.
- `MessageWithRequestId`, `ShouldDisableChannel`, `DisableChannel`, `RelayErrorHandler`, `SetupApiRequestHeader`, `GetFullRequestURL` and `Path2RelayMode` are not part of this model. They are parameters or the outcome's arguments.
- OpenaiAdaptor.SetupRequestHeader: header-name canonicalisation by `http.Header.Set`, and multi-valued headers, are not modelled; the header is a map from name to one value.
- `DoRequest` is a foreign call (`DoApiRequest`); its error is an input of `Forward`. `GetChannelName` returns a constant and is not modelled.
- RelayText.Forward: the adaptor's `Init`, `ConvertRequest` and `DoResponse` are reached through the adaptor interface for any API type. Their outcomes are inputs; for the OpenAI adaptor they are modelled in `OpenaiAdaptor`.
- RelayText.TextHelper: the parts of relay information it does not touch come from `GenRelayInfo` (not part of this model) and are an input.
- Log messages, `RecordConsumeLog` formatting, and the use-time measurement are left out; the log call itself is recorded with its counts, model and quota.
- The numeric codes of channel types and relay modes are left out; they are datatypes here.
- `RelayImageHelper`, `AudioHelper` and the Midjourney relay functions are not part of this model; only the choice of handler is.
