# Sensor datasheet review pipeline, in Dafny

This project models the core of a pipeline that has large language models write sensor datasheets and then
has other models review them against the official datasheet. The review side is modelled here:

- **Response extraction** (`ResponseExtractor`, `src/utils.py`): `extract_json_from_llm_response` never
  raises and turns a model's free-form reply into `(scores, justifications, error)`.
  - It short-circuits on empty input and on text that looks like an API error.
  - It tries, in order, ```` ```json ```` fences, generic fences, balanced brace spans of nesting depth at
    most 3, and the whole stripped text.
  - It normalises the keys `p1_score`, `P1`, `p1`, `overall_score`, `pN_justification` and
    `overall_justification` to `P1`..`P16` and `Overall`.
  - The imperative methods `ExtractJsonFromLlmResponse`, `LocateJson`, `ParseFirst` and `NormaliseInPlace`
    (with its two loops `NormaliseMembersInPlace` and `ScanListInPlace`) follow the code step by step.
    Each is proved equal to a function (`Extract`, `Cascade`, `Chosen`, `NormaliseValue`), and the
    properties are proved about those functions.
- **Request pacing** (`RateLimiting`, `src/rate_limiter.py`): the class `RateLimiter` holds three maps
  (provider limits, model limits, last request times) and a clock field.
  - `wait_if_needed` picks the model limit before the provider limit, sleeps out what is left of 60/rpm
    seconds, and records the time after the sleep.
  - Sleeping advances the clock. Each method is tied to the pure transition function `Request`, and the
    pacing guarantee is proved about that function.
- **Review records** (`ReviewModels`, `src/review_models.py`): the three chunk schemas and the complete
  review, each a map from field name to the kind of value it admits. Validation is a function from decoded
  JSON to an optional record.
- **The OpenRouter client** (`ApiClient`, `src/api_client.py`): the request built for a prompt, and how the
  reply becomes `{text, input_tokens, output_tokens}` or the wrapped "API request failed" error. The HTTP
  exchange is a function parameter.
- **The chunked reviewer** (`ChunkedReview`, `src/chunked_reviewer.py`):
  - its own JSON slicer and per-chunk validation;
  - the merge of the three chunks, which is validated again;
  - the prompt built from the template, the search for the official datasheet, and the all-or-nothing
    three-chunk run with a 30-second pause after each of the first two chunks.
  - Files are a map from path to contents. The review client, `str(response)` and `json.loads` are
    function parameters.
- **The score logger** (`ReviewLogging`, `src/review_logger.py`): the average of P1..P16, the 43-column CSV
  row and its header, the file name, and the class `ReviewScoreLogger`. Its `LogReview` appends the row to a
  file map, writing the header first only into a file that did not exist.

`Wrappers`, `JsonValue` and `Text` are helper modules. They hold `Option`/`Result`, the values `json.loads`
returns, and the Python string operations the code uses (`find`, `strip`, `lower`, `replace`, `split`,
`isdigit`, `os.path.join`).

Behaviour the code does not have, which the model therefore does not have either:

- There is no `"provider:" + name` timing key: provider-level timings are kept under `"provider_" + name`.
- A bare `"Overall"` key is not recognised by the extractor (`ResponseExtractor.BareOverallIgnored`).
- The extractor has no fallback that scans for key/value pairs outside JSON.
- `send_request` makes one attempt and does not retry.

## Model

| member | source | states |
|---|---|---|
| ResponseExtractor.ExtractJsonFromLlmResponse | src/utils.py:14-148 | The step-by-step extractor returns exactly what the function `Extract` gives, for every text and every parser. |
| ResponseExtractor.LocateJson | src/utils.py:42-94 | The three attempts, with `json_str` and `error_msg` reassigned as in the code, end in the state the cascade function gives. |
| ResponseExtractor.ParseFirst | src/utils.py:58-82 | The loop over candidates keeps the first one `json.loads` accepts, with its value, or nothing when none parses. |
| ResponseExtractor.NormaliseInPlace | src/utils.py:100-135 | The loop that inserts normalised keys into the two dicts yields the normalisation function's result. For a list or a scalar it yields the exception the loop raises. |
| ResponseExtractor.NormaliseMembersInPlace | src/utils.py:105-135 | The loop over a dict's keys fills the two dicts exactly as the normalisation function over the key list does. |
| ResponseExtractor.ScanListInPlace | src/utils.py:105-135 | The loop over a list stops with the exception of its first item that is not a string or whose key is recognised, and finishes only when there is none. |
| ResponseExtractor.FirstParsing | src/utils.py:59-65 | The candidate chosen parses and every earlier one fails. None is chosen only when no candidate parses. |
| ResponseExtractor.FencedBlocks | src/utils.py:50-56 | The lazy fenced pattern stops at the first closing fence, so no block contains one. |
| ResponseExtractor.NextBlock | src/utils.py:49-55 | The next match starts after the opener found from the search position and ends at the first closing fence after it. |
| ResponseExtractor.SpanEnd | src/utils.py:72 | A brace match that closes ends, within the text, at a `}`. |
| ResponseExtractor.SpanEndBalances | src/utils.py:72 | From nesting depth d, the text up to the closing position holds d more `}` than `{`. |
| ResponseExtractor.BraceSpansBalanced | src/utils.py:72-73 | Every brace candidate opens with `{`, closes with `}` and has as many of one as of the other. |
| ResponseExtractor.WholeAttempt | src/utils.py:87-94 | A message is left only when no text was accepted, and it starts "Could not find valid JSON in response: ". With no message, some text was accepted (or the parser accepts the empty text). |
| ResponseExtractor.CriterionKey | src/utils.py:116-118 | A recognised number part becomes a canonical key: "P" and digits, or "Overall". |
| ResponseExtractor.ClassifyLowered | src/utils.py:109-135 | Every key the branches recognise is mapped to a canonical key. |
| ResponseExtractor.Classify | src/utils.py:105-135 | The same, after lower-casing the key. |
| ResponseExtractor.ConcludeMessage | src/utils.py:96-144 | After the cascade the message is absent, or says no JSON was found, no scores were found, or the parsed JSON could not be processed. |
| ResponseExtractor.ExtractMessages | src/utils.py:29-148 | Empty text gives empty maps and "Empty response received". API-error text gives empty maps and "API error: " + the first 200 characters + "...". Anything else leaves one of the later messages or none. |
| ResponseExtractor.ApiErrorIff | src/utils.py:36-40 | The message starts "API error: " exactly when the text is non-empty and, lower-cased, contains "error" and one of "rate limit", "api error", "status code". The maps are then empty whatever the parser would say. |
| ResponseExtractor.RateLimitWithoutErrorWordIsParsed | src/utils.py:36-38 | "rate limit exceeded" lacks "error" and is not short-circuited. |
| ResponseExtractor.NoWarningEver | src/utils.py:137-139 | The "Warning: ... but managed to extract some data" message is never produced: a message is pending only when no JSON text was accepted. |
| ResponseExtractor.NoMessageIffScores | src/utils.py:137-141 | With a parser that rejects the empty text, as `json.loads` does, there is no message exactly when some score was extracted. |
| ResponseExtractor.ExtractStep | src/utils.py:42-148 | Past the two short-circuits, the result is the conclusion drawn from the cascade. |
| ResponseExtractor.BraceStep | src/utils.py:69-82 | When the fences gave nothing usable, a brace span that parses is taken. |
| ResponseExtractor.WholeStep | src/utils.py:87-91 | Once a text was accepted, the whole-text attempt changes nothing. |
| ResponseExtractor.TaggedFenceFirst | src/utils.py:47-65 | If a ```` ```json ```` block parses, the result comes from the first such block, whatever the other candidates hold. |
| ResponseExtractor.PlainFenceOnlyWithoutTagged | src/utils.py:53-65 | With no ```` ```json ```` block and some generic block that parses, the first generic block that parses is the result. |
| ResponseExtractor.TaggedFenceHidesPlain | src/utils.py:46-56 | Once there is a ```` ```json ```` block, only ```` ```json ```` blocks are tried; generic fences are never looked at. |
| ResponseExtractor.UnparsableTaggedSkipsPlain | src/utils.py:46-70 | When no ```` ```json ```` block parses, extraction goes on to brace spans and the whole text, never to generic fences. |
| ResponseExtractor.BracesAfterFences | src/utils.py:69-82 | Brace spans are tried only when no fenced candidate was accepted, and then the first that parses wins. |
| ResponseExtractor.WholeTextLast | src/utils.py:87-91 | The whole stripped text is used only when no fence and no brace span was accepted. |
| ResponseExtractor.NothingParses | src/utils.py:87-98 | If no candidate parses, both maps are empty and the message is "Could not find valid JSON in response: " + the parser's error. |
| ResponseExtractor.NormaliseMembersCanonical | src/utils.py:105-135 | The key loop keeps every key of both maps canonical. |
| ResponseExtractor.CanonicalKeys | src/utils.py:105-135 | Every key in the returned scores and justifications is "P" followed by digits, or "Overall". |
| ResponseExtractor.ConcludeCanonical | src/utils.py:96-144 | The same for the closing step, whatever value was parsed. |
| ResponseExtractor.NormaliseMembersLastWins | src/utils.py:105-135 | Each canonical key holds the value of the last source key mapped to it, copied unchanged with no range check, or else its earlier value. |
| ResponseExtractor.LastScoreFound | src/utils.py:105-119 | A score held under a canonical key comes from a source key that normalises to it. |
| ResponseExtractor.ObjectWithoutScores | src/utils.py:138-141 | A parsed object with no recognised score key gives no scores and "Could not extract any scores from the response". |
| ResponseExtractor.ScoreSpelling | src/utils.py:109-119 | `pN_score` is the score of `PN`. |
| ResponseExtractor.BareNumberSpellings | src/utils.py:109-119 | `PN` and `pN` are the score of `PN`. |
| ResponseExtractor.JustificationSpelling | src/utils.py:122-129 | `pN_justification` is the justification of `PN`. |
| ResponseExtractor.OverallSpellings | src/utils.py:131-135 | `overall_score` and `overall_justification` go to "Overall". |
| ResponseExtractor.BareOverallIgnored | src/utils.py:105-135 | A bare "Overall" or "overall" key is not recognised. |
| ResponseExtractor.OneCharacterKeysIgnored | src/utils.py:105-135 | No one-character key is recognised, so iterating over a parsed string extracts nothing. |
| RateLimiting.CollectProviderLimits | src/rate_limiter.py:28-31 | The provider loop records exactly the providers with a `rate_limit` section, each with its `requests_per_minute` or 5. |
| RateLimiting.ProviderLimitsExtend | src/rate_limiter.py:28-31 | One more provider adds its limit exactly when it has a `rate_limit` section. |
| RateLimiting.CollectModelLimits | src/rate_limiter.py:34-36 | The model loop copies every model limit and seeds each model's time one minute before the start. |
| RateLimiting.SeedTimes | src/rate_limiter.py:36 | The seeded times cover exactly the configured models, each one minute back. |
| RateLimiting.RateLimiter.constructor | src/rate_limiter.py:14-36 | The limiter starts with the configured provider and model limits, exactly the configured models have a time, each a minute before the start, and every time is in the past. |
| RateLimiting.RateLimiter.CalculateWaitTime | src/rate_limiter.py:84-108 | The wait is 0 for a key never seen; otherwise 60/rpm minus the time since the key's last request when that is shorter, else 0. A zero limit fails with the division error. |
| RateLimiting.RateLimiter.Sleep | src/rate_limiter.py:58 | Sleeping advances the clock by exactly the time slept and changes nothing else. |
| RateLimiting.RateLimiter.WaitIfNeeded | src/rate_limiter.py:38-82 | The new limits, times and clock, and the seconds returned, are those of the transition `Request`. Every recorded time stays in the past. |
| RateLimiting.RateLimiter.UpdateRateLimit | src/rate_limiter.py:110-121 | Only the model's limit changes; times, provider limits and the clock stay as they were. |
| RateLimiting.WaitNonNegative | src/rate_limiter.py:95-108 | A wait is never negative. |
| RateLimiting.WaitFailsIff | src/rate_limiter.py:95-99 | Computing a wait fails exactly when the key has a recorded time and the limit is 0. |
| RateLimiting.WaitEndsAtSpacing | src/rate_limiter.py:99-106 | With a positive limit, waiting ends exactly at the later of now and the last request + 60/rpm. |
| RateLimiting.RequestKeepsConsistent | src/rate_limiter.py:50-82 | A request keeps every recorded time at or before the clock, and the clock never goes back. |
| RateLimiting.RequestFrame | src/rate_limiter.py:50-82 | A request never changes the limits. The clock moves by exactly the seconds returned. No time other than the applied key's changes. |
| RateLimiting.ModelLimitTakesPrecedence | src/rate_limiter.py:52-65 | With a model limit, the request is timed under the model, and the provider's recorded time is untouched. |
| RateLimiting.UnlimitedRequest | src/rate_limiter.py:50-82 | With neither a model nor a provider limit, nothing changes and the wait is 0. |
| RateLimiting.FirstProviderCallDoesNotWait | src/rate_limiter.py:67-80 | A provider key's first use (rpm >= 1) seeds it a minute back, does not wait, and records now. |
| RateLimiting.NewModelDoesNotWait | src/rate_limiter.py:95-96 | A model limit added later has no recorded time, so its first request records now and waits 0, whatever the limit. |
| RateLimiting.RequestSpacing | src/rate_limiter.py:54-80 | After a limited request, the key's recorded time is at least 60/rpm after the previous one, and equals the later of that and the time of the call. |
| RateLimiting.BurstIsPaced | src/rate_limiter.py:52-62 | n back-to-back requests under one model limit move its recorded time on by at least n * 60/rpm. |
| ReviewModels.Validate | src/review_models.py:4-49 | A record is produced exactly when every schema field is present and of its kind. The record has exactly the schema's fields, holding the accepted values. |
| ReviewModels.AcceptKeepsValue | src/review_models.py:7-47 | A value a field accepts is kept unchanged. |
| ReviewModels.ValidateGivesRecord | src/review_models.py:4-49 | A validated record is a record of its schema. |
| ReviewModels.ScoreKindAcceptsExactly | src/review_models.py:7-45 | A Pn score field in a chunk accepts exactly any integer or the literal "N/A". |
| ReviewModels.CheckedScoreKindAcceptsExactly | src/review_models.py:90-96 | A complete review's Pn score accepts exactly an integer in 1..5 or "N/A". |
| ReviewModels.LikertKindAcceptsExactly | src/review_models.py:47 | Chunk 3's overall score accepts exactly an integer in 1..5; "N/A" is refused. |
| ReviewModels.CriteriaHas | src/review_models.py:7-45 | A block of criteria has exactly the score and justification fields of its numbers. |
| ReviewModels.FieldNamesDistinct | src/review_models.py:4-88 | Score and justification field names are distinct across numbers and kinds, and none is a named field. |
| ReviewModels.CriteriaKinds | src/review_models.py:7-45 | Within a block, each score field has the block's kind and each justification is text. |
| ReviewModels.ChunkFields | src/review_models.py:4-49 | Each chunk has exactly its criteria plus `sensor_evaluated`; chunk 3 adds overall score, overall justification and confirmation. |
| ReviewModels.CompleteFields | src/review_models.py:51-88 | The complete review has P1..P16 plus the four named fields. |
| ReviewModels.ChunksDisjoint | src/review_models.py:4-49 | Two chunk schemas share `sensor_evaluated` and nothing else. |
| ReviewModels.CompleteIsUnion | src/review_models.py:4-88 | The complete review's fields are exactly the union of the three chunks'. |
| ReviewModels.CompleteKinds | src/review_models.py:51-96 | Each chunk field keeps its kind in the complete review, except that Pn scores gain the 1..5 check and the overall score loses it. |
| ReviewModels.ChunkScoresUnchecked | src/review_models.py:7-45 | Every chunk's Pn score accepts any integer. |
| ReviewModels.CompleteScoresChecked | src/review_models.py:90-96 | Every complete Pn score refuses an integer outside 1..5 and accepts "N/A". |
| ReviewModels.OverallScoreKinds | src/review_models.py:47-86 | The overall score is 1..5 in chunk 3 and any integer in the complete review. |
| ReviewModels.MissingFieldRejected | src/review_models.py:4-88 | Every field is required: one missing fails validation. |
| ReviewModels.ExtraFieldIgnored | src/review_models.py:4-88 | A key the schema does not name makes no difference to validation. |
| ApiClient.ShapeRoundTrip | src/api_client.py:66-70 | A reply's message content comes back as the text and its usage counts as the token counts. A missing usage section gives 0 and 0, a count missing from it gives 0, and a usage entry that is not a dict (such as `null`) fails. |
| ApiClient.CountsFound | src/api_client.py:68-69 | Each usage count is read from the usage dict, with 0 when that count is absent. |
| ApiClient.ShapeUsageNotDict | src/api_client.py:68-69 | A "usage" entry that is present but not a dict makes the reply fail to shape. |
| ApiClient.Shape | src/api_client.py:66-70 | A reply without `choices[0].message.content` fails to shape. A shaped result's text is that content, and shaping never yields the wrapped request failure. |
| ApiClient.BuildRequest | src/api_client.py:41-60 | The request goes to the base URL followed by "/chat/completions", carries the prompt's payload and uses the client's timeout. |
| ApiClient.StatusError | src/api_client.py:62 | `raise_for_status` objects exactly to statuses 400..599, with a message that starts with the status and ends with the URL. |
| ApiClient.SendRequest | src/api_client.py:41-78 | A transport failure is a wrapped request failure. A result is returned only for a response with no error status whose body decodes, and it is that body's shaped reply. |
| ApiClient.NewClient | src/api_client.py:10-21 | A client built without a timeout keeps its key and base URL and has the 120-second timeout. |
| ApiClient.DefaultClientRequest | src/api_client.py:10-60 | Such a client posts to base URL + "/chat/completions" with its bearer token and a 120-second timeout. |
| ApiClient.PayloadCarriesPrompt | src/api_client.py:43-52 | The payload names the model, carries the prompt verbatim in one user message, and does not stream. |
| ApiClient.RequestShape | src/api_client.py:22-60 | The request goes to base URL + "/chat/completions" with the bearer token, the JSON content type and the client's timeout. |
| ApiClient.FailureMessages | src/api_client.py:74-78 | Every wrapped failure starts "API request failed: ". An error status's failure ends " Response: " + the response text. |
| ApiClient.SuccessIsShaped | src/api_client.py:62-72 | A successful exchange hands the decoded reply unchanged to the shaping step. |
| ChunkedReview.ExtractJsonFromResponse | src/chunked_reviewer.py:163-190 | A response text that is not a string gives nothing. A value is returned only when the candidate the code computes decodes to it. |
| ChunkedReview.ExtractClosedFence | src/chunked_reviewer.py:163-190 | A reply opening with a closed ```` ```json ```` fence is decoded from the fenced body alone, whatever follows. |
| ChunkedReview.ExtractUnclosedFence | src/chunked_reviewer.py:163-190 | A reply whose ```` ```json ```` fence is never closed decodes exactly when the body without its last character does. |
| ChunkedReview.CandidatesAgreeUnlessUnclosed | src/chunked_reviewer.py:167-184 | The as-written and the intended candidates agree unless a ```` ```json ```` fence is never closed. |
| ChunkedReview.FenceStart | src/chunked_reviewer.py:167-168 | The slice starts right after the first ```` ```json ````. |
| ChunkedReview.FenceRoundTrip | src/chunked_reviewer.py:167-170 | A fenced body without backquotes, closed by ```` ``` ````, is cut out exactly, as written and as intended. |
| ChunkedReview.ClosingFence | src/chunked_reviewer.py:168-169 | The closing fence found is the one right after such a body. |
| ChunkedReview.UnclosedFence | src/chunked_reviewer.py:168-170 | With no closing fence, the intended slice runs to the end, while the code as written drops the last character. |
| ChunkedReview.UnclosedFenceExample | src/chunked_reviewer.py:168-170 | "```json{}" gives "{" as written and "{}" as intended. |
| ChunkedReview.ProseAroundObject | src/chunked_reviewer.py:172-184 | Prose before the first `{` and after the last `}` is cut off, and nothing else. |
| ChunkedReview.BraceTrimIsSlice | src/chunked_reviewer.py:172-184 | The trimmed candidate is always one contiguous piece of the stripped text. |
| ChunkedReview.ResponseText | src/chunked_reviewer.py:201-204 | The response's "text" entry when it has one, otherwise the printed response. |
| ChunkedReview.ProcessReviewChunk | src/chunked_reviewer.py:192-224 | A result is produced only for chunks 1..3 and is a record of that chunk's schema. |
| ChunkedReview.ProcessReviewChunkIff | src/chunked_reviewer.py:192-224 | A chunk is accepted exactly when the client answers and the reply decodes to a dict that passes the chunk schema. Each field then holds the decoded value. |
| ChunkedReview.AcceptChunk | src/chunked_reviewer.py:205-217 | A decoded value is accepted only for chunks 1..3, and then as a record of that chunk's schema. |
| ChunkedReview.AcceptChunkIff | src/chunked_reviewer.py:205-217 | A decoded value is accepted exactly when it is a dict that passes the chunk's schema. Each field of the record then holds the decoded value. |
| ChunkedReview.Combined | src/chunked_reviewer.py:228-268 | The merged data has exactly the complete review's fields. |
| ChunkedReview.CombineChunks | src/chunked_reviewer.py:226-270 | A merged review, when validation lets it through, has exactly the complete review's fields. |
| ChunkedReview.Home | src/chunked_reviewer.py:226-268 | Each complete-review field is taken from a chunk that has it; `sensor_evaluated` from chunk 1. |
| ChunkedReview.MergedAccepts | src/chunked_reviewer.py:226-270 | A chunk value passes the complete review's check, unchanged, unless it is an out-of-range Pn score. |
| ChunkedReview.ScoreKindFields | src/review_models.py:7-45 | Only the numbered Pn score fields have the unchecked score kind. |
| ChunkedReview.ScoreFieldKind | src/chunked_reviewer.py:231-263 | Each Pn score is copied from the chunk that holds it, where it is unchecked. |
| ChunkedReview.CombineSucceedsIff | src/chunked_reviewer.py:226-270 | The merge fails exactly when some P1..P16 score is an integer outside 1..5. |
| ChunkedReview.CombineKeepsValues | src/chunked_reviewer.py:228-268 | The merged review holds each chunk's values unchanged; the sensor name comes from chunk 1. |
| ChunkedReview.NewReviewer | src/chunked_reviewer.py:12-20 | The template path is unset exactly when the configuration has no `review_prompt_template_path`, and is that entry otherwise. The reviews directory defaults to "results/reviews/". The chunk instructions are the code's own texts. |
| ChunkedReview.UnconfiguredTemplateGivesNoPrompt | src/chunked_reviewer.py:41-71 | A reviewer configured without a template path builds no prompt for any chunk. |
| ChunkedReview.ConfiguredReviewerInstructions | src/chunked_reviewer.py:41-71 | With the template file present, a configured reviewer's prompt for chunk 1, 2 or 3 ends with that chunk's instructions. |
| ChunkedReview.PromptEndsWithInstructions | src/chunked_reviewer.py:54-60 | The chunk's instructions come last in its prompt. |
| ChunkedReview.CreateChunkPrompt | src/chunked_reviewer.py:41-71 | No prompt exactly when the template path is unset or names no file; otherwise the prompt built from that file's template. |
| ChunkedReview.ReplacementOrder | src/chunked_reviewer.py:49-52 | Replacements run in order over each other's output: a brand spelling the model placeholder is replaced by the model, while a model spelling the brand placeholder stays. |
| ChunkedReview.WholePlaceholder | src/chunked_reviewer.py:49-52 | A text that is exactly a placeholder becomes exactly its replacement. |
| ChunkedReview.UnknownChunkGetsNoInstructions | src/chunked_reviewer.py:54-60 | A chunk number other than 1, 2 or 3 gets the filled template with no instructions added. |
| ChunkedReview.BraceFreeHasNoPlaceholder | src/chunked_reviewer.py:49-52 | Text without `{` contains no placeholder. |
| ChunkedReview.ReplaceSingle | src/chunked_reviewer.py:49-52 | One placeholder between brace-free texts is replaced and nothing else changes. |
| ChunkedReview.PlainTemplate | src/chunked_reviewer.py:41-63 | A template without braces is sent unchanged, followed by the chunk's instructions. |
| ChunkedReview.BrandFilledIn | src/chunked_reviewer.py:49-52 | The brand lands where its placeholder stood. |
| ChunkedReview.DatasheetCandidates | src/chunked_reviewer.py:286-305 | Eight paths are tried: .md then .txt in each of the four directories. |
| ChunkedReview.CandidatesOf | src/chunked_reviewer.py:288-299 | Directory i's candidates sit at places 2i and 2i+1. |
| ChunkedReview.FirstPresent | src/chunked_reviewer.py:286-305 | The candidate found exists and no earlier one does; none is found only when none exists. |
| ChunkedReview.LocateOfficialDatasheet | src/chunked_reviewer.py:282-314 | The search loop returns what `OfficialDatasheet` gives: the first existing candidate's path and contents, or nothing. |
| ChunkedReview.OfficialDatasheetIsFirst | src/chunked_reviewer.py:286-305 | If any candidate exists, a datasheet is found, and it is the first existing candidate. |
| ChunkedReview.MarkdownFirst | src/chunked_reviewer.py:287-296 | With the .md file in the first directory, that file is read. |
| ChunkedReview.ChunkStep | src/chunked_reviewer.py:326-339 | A chunk step's result is a record of that chunk's schema. |
| ChunkedReview.Outcomes | src/chunked_reviewer.py:325-335 | The three outcomes are those of chunks 1, 2 and 3. |
| ChunkedReview.RunChunks | src/chunked_reviewer.py:324-342 | The run has records for the first k chunks exactly when none of them failed, and holds those records in order. |
| ChunkedReview.DatasheetsRead | src/chunked_reviewer.py:274-316 | When the generated file exists and an official datasheet is found, the two texts the review works from are those files' contents. |
| ChunkedReview.ReadDatasheets | src/chunked_reviewer.py:275-321 | The reading step gives the generated file's contents and the first official datasheet found, or nothing when either is missing. |
| ChunkedReview.RunChunk | src/chunked_reviewer.py:326-335 | One pass builds chunk n's prompt and processes it. The result is that chunk's outcome, with a failure as nothing. |
| ChunkedReview.RunAllChunks | src/chunked_reviewer.py:323-350 | The loop stops at the first failed chunk. It returns the chunk records in order, the chunks started and the pauses taken, as the run over the three outcomes defines them. |
| ChunkedReview.ReviewSensor | src/chunked_reviewer.py:272-377 | The loop returns the review, pauses and attempted chunks that `SensorReview`, `Pauses` and `Attempted` give. The review is reported as saved to `{model with "/" made "_"}_{brand}_{model}_review.json` exactly when it exists. |
| ChunkedReview.SensorReview | src/chunked_reviewer.py:272-377 | A review is returned only when both datasheets were read, and it has exactly the complete review's fields. |
| ChunkedReview.OutputPath | src/chunked_reviewer.py:360-363 | The review is written to a file whose name ends in "_review.json". |
| ChunkedReview.ReviewSucceedsIff | src/chunked_reviewer.py:272-377 | A review is returned exactly when both datasheets are read, all three chunks pass, and every P1..P16 score is "N/A" or in 1..5. |
| ChunkedReview.AttemptsInOrder | src/chunked_reviewer.py:324-339 | At most three chunks are started, in the order 1, 2, 3. None is started exactly when the datasheets could not be read. |
| ChunkedReview.AttemptsStopAtFirstFailure | src/chunked_reviewer.py:325-339 | Every chunk before the last one started succeeded, and a run that stopped early stopped at a failure. A returned review started all three chunks. |
| ChunkedReview.ReviewScoresInRange | src/chunked_reviewer.py:355-372 | Every score of a returned review is "N/A" or an integer in 1..5. |
| ChunkedReview.CombinedScoresInRange | src/chunked_reviewer.py:226-270 | The same for any successful merge. |
| ChunkedReview.CheckedScoreValues | src/review_models.py:90-96 | A checked score holds "N/A" or an integer in 1..5. |
| ChunkedReview.PausesBetweenChunks | src/chunked_reviewer.py:344-348 | A complete review slept exactly twice, 30 s each; no run sleeps more than twice. |
| ReviewLogging.CalculateAverageScore | src/review_logger.py:150-167 | The loop over P1..P16 returns `Average`: the mean of the counted scores, or "N/A". |
| ReviewLogging.SumBounds | src/review_logger.py:166 | A sum of n values within [lo, hi] lies within n*lo and n*hi. |
| ReviewLogging.ValidScoresFrom | src/review_logger.py:159-163 | Every valid score is the value of a counted P1..P16 key. |
| ReviewLogging.ValidScoresHave | src/review_logger.py:159-163 | Every counted key's value is among the valid scores. |
| ReviewLogging.ValidScoresEmpty | src/review_logger.py:159-163 | No counted key means no valid score. |
| ReviewLogging.AverageBetween | src/review_logger.py:159-167 | The average lies between any bounds of the counted scores. |
| ReviewLogging.AverageMissingIff | src/review_logger.py:165-167 | The average is "N/A" exactly when no P1..P16 entry holds a number other than "N/A"; otherwise it is a float. |
| ReviewLogging.AverageOnlyReadsCriteria | src/review_logger.py:159-163 | Only the P1..P16 entries matter; "Overall" and other keys leave the average alone. |
| ReviewLogging.BuildRow | src/review_logger.py:115-138 | The row-building loop gives `Row`: the summary columns, then each criterion's two columns. |
| ReviewLogging.NumberedColumn | src/review_logger.py:134-135 | In `P{i}_...` the first underscore follows the number. |
| ReviewLogging.SummaryColumnsInitial | src/review_logger.py:23-67 | No summary column starts with "P". |
| ReviewLogging.ColumnShape | src/review_logger.py:134-135 | A criterion column carries its number after "P" and ends in its kind. |
| ReviewLogging.ColumnsDistinct | src/review_logger.py:131-138 | Columns of different criteria differ, and no score column is a justification column. |
| ReviewLogging.NotSummaryColumn | src/review_logger.py:115-138 | No criterion column collides with a summary column. |
| ReviewLogging.ColumnsListed | src/review_logger.py:23-67 | The header has 43 names; P`i`'s score column is at 6+i and its justification column at 24+i. |
| ReviewLogging.SummaryListed | src/review_logger.py:23-67 | The seven identity columns come first; the average and overall score sit at 23 and 24; the overall justification and the timestamp are last. |
| ReviewLogging.HeaderNameKinds | src/review_logger.py:23-67 | Every header name is a summary column or one of the criteria's columns. |
| ReviewLogging.SummaryColumnsInHeader | src/review_logger.py:23-67 | Every summary column is in the header. |
| ReviewLogging.WithCriteriaKeys | src/review_logger.py:131-138 | Adding criteria 1..k adds exactly their two columns each. |
| ReviewLogging.WithCriteriaCells | src/review_logger.py:137-138 | Criterion i's cells hold its score and justification, or "N/A" and "". |
| ReviewLogging.WithCriteriaKeeps | src/review_logger.py:115-138 | Adding criteria leaves the summary columns as they were. |
| ReviewLogging.SummaryRowKeys | src/review_logger.py:115-127 | The summary row has exactly the eleven summary columns. |
| ReviewLogging.RowKeysInHeader | src/review_logger.py:115-142 | Every key of the row is a header name. |
| ReviewLogging.HeaderInRowKeys | src/review_logger.py:115-142 | Every header name is a key of the row. |
| ReviewLogging.RowKeysAreHeader | src/review_logger.py:115-145 | The row's keys are exactly the 43 header names, so the CSV writer neither rejects nor pads it. |
| ReviewLogging.RowCriterionCells | src/review_logger.py:137-138 | Each criterion's columns hold the given score and justification, or "N/A" and "". |
| ReviewLogging.RowKeepsSummary | src/review_logger.py:115-138 | The criteria leave the summary columns as set. |
| ReviewLogging.RowSummaryCells | src/review_logger.py:123-126 | The row holds the average, the overall score (default "N/A"), the overall justification (default "") and the timestamp. |
| ReviewLogging.SensorFileNameShape | src/review_logger.py:105 | The file name has no space, ends ".csv", and is brand and type with spaces made "_", joined by "_". |
| ReviewLogging.CsvPathInReviewDirectory | src/review_logger.py:100-106 | Unless the brand starts with "/", the file lies in `{provider}_{model}` under the base path. |
| ReviewLogging.ReplaceHead | src/review_logger.py:105 | Replacing spaces changes a leading space into "_" and keeps any other first character. |
| ReviewLogging.RecordCells | src/review_logger.py:141-145 | The written record has 43 cells, with each criterion's score and justification, the average and the overall score at their header places. |
| ReviewLogging.AppendedOneRecord | src/review_logger.py:141-145 | Each review appends exactly one record. The header is written only into a new file, and a well-formed file stays well-formed. |
| ReviewLogging.ReviewScoreLogger.constructor | src/review_logger.py:69-78 | The logger keeps its base path and starts from the given files; it is valid from the start when those files are well-formed. |
| ReviewLogging.ReviewScoreLogger.LogReview | src/review_logger.py:80-148 | Returns the sensor's CSV path, and the sensor's file becomes the old file plus the record, with a header first for a new file. No other file changes, and well-formedness is kept. |

## Findings

| source | as written | input that shows it | evidently intended | confidence | as-written member | corrected member |
|---|---|---|---|---|---|---|
| src/chunked_reviewer.py:168-170 | With no closing fence after ```` ```json ````, `find` returns -1 and the slice `text[start:-1]` drops the last character of the reply | "```json{}" gives "{", which does not decode | read to the end of the text, giving "{}" | high, not executed | ChunkedReview.FencedSliceAsWritten (ChunkedReview.UnclosedFence, ChunkedReview.UnclosedFenceExample, ChunkedReview.ExtractUnclosedFence) | ChunkedReview.FencedSlice (ChunkedReview.UnclosedFence, ChunkedReview.FenceRoundTrip, ChunkedReview.CandidatesAgreeUnlessUnclosed) |

`ExtractJsonFromResponse`, and the chunk processing and review built on it, use the slice as the code takes it (`CandidateAsWritten`). The corrected slice is `FencedSlice`, with `Candidate` the corrected candidate. `CandidatesAgreeUnlessUnclosed` shows that the two differ only for a fence that is never closed.

## Left out

- File system, network, clock and sleeping are not performed. Files are maps from path to contents. The HTTP exchange, the review client, `json.loads` and `str(response)` are function parameters. The current time is a field or a parameter (the review timestamp is a string argument).
- `os.makedirs`, `os.path.exists`/`isfile` (modelled as map membership) and all logging are left out, as are the `sensor_info`/`model_info` context strings, which only feed log lines.
- The rate limiter's `threading.Lock` is left out: the model is sequential, and each call runs to completion.
- RateLimiting.RateLimiter.WaitIfNeeded: times are exact reals; float rounding and oversleeping by `time.sleep` are not modelled, and `datetime.now()` read twice in one call gives the same value.
- ReviewLogging.CalculateAverageScore: the mean is an exact real; float rounding is not modelled, and a sum that overflows to infinity or NaN scores is not represented.
- ReviewModels.Accept: pydantic's lax coercion (numeric strings, whole floats and booleans into `int`) is not modelled; only JSON integers pass integer fields and only JSON strings pass `str` fields.
- ApiClient.SendRequest: a reply of the wrong shape gives `Malformed` without the text of the KeyError/IndexError/TypeError it raises. `json.dumps` of the payload is not modelled; the payload is handed over as a value.
- JSON objects are member lists whose keys are assumed distinct, as a Python dict holds them. Duplicate-key handling by `json.loads` is not modelled.
- `Lower` folds ASCII letters only, and `IsDigits` accepts ASCII digits only. Non-ASCII case folding and Unicode digits accepted by `str.isdigit` are not modelled.
- The handlers at src/utils.py:66-67 and 83-85 cannot fire, because nothing in their `try` blocks raises in the model. `ResponseExtractor.NoWarningEver` shows that the warning at src/utils.py:138-139 is never produced.
- ReviewLogging.OrderedFieldNames is written as the expression that generates it (identity columns, score columns, average and overall, justification columns, overall justification and timestamp) rather than as the 43-string literal of src/review_logger.py:23-67. The two agree name for name by reading; that agreement is not proved.
- `get_review_summary` (src/review_logger.py:169-207) reads and concatenates CSV files with pandas. It is not modelled.
- Writing the complete review as JSON (`model_dump_json`, src/chunked_reviewer.py:366-369) is not modelled. `ReviewSensor` reports only the path it would be written to.
- Exceptions from the review client inside `review_sensor` are modelled as a failed chunk. The exception texts and tracebacks are not.
