# xiangxinai-go synchronous client, modelled in Dafny

This project models the decision logic of the Go SDK for the Xiangxin AI guardrails API. It covers:

- the synchronous `Client` in `client.go`: construction and its defaults, the public checks and the retry loop with its exponential backoff;
- the response helpers of `types.go`: the action predicates and the order-preserving, de-duplicating category merge;
- the error values of `errors.go`: `Error()`, `Unwrap` and the constructors.

The modules follow the files:

| module | models |
|---|---|
| `Errors` (`errors.dfy`) | `errors.go`. The Go types that embed `*XiangxinAIError` become a `kind` tag on one `Error` datatype. |
| `Types` (`types.dfy`) | `types.go`. `GetAllCategories` is an imperative method with the three loops, proved equal to the specification function `Dedup`. |
| `Config` (`config.dfy`) | `ClientConfig`, the constants, `NewClient` and `NewClientWithConfig`. |
| `Transport` (`transport.dfy`) | `makeRequestWithData`, `handleErrorResponse` and `calculateBackoff`. |
| `Checks` (`checks.dfy`) | `createSafeResponse`, the input validation of the public checks and the content they assemble. |
| `Text` (`text.dfy`) | The standard-library string functions the client uses: `strings.TrimSpace` with `unicode.IsSpace`, `strings.TrimSuffix`, `len` on a string (UTF-8 bytes) and `%d`. |
| `Wrappers` (`wrappers.dfy`) | `Option` and `Result`. |

The HTTP exchange is outside the model.

- Each POST is an `HttpOutcome` chosen by a *script*, a function from the attempt number to the outcome. The outcome is a transport error, or a reply with its status, raw body, decoded response (or decoder error) and optional string `detail`. The `detail` is what the branch of that reply's status reads: under 422, whatever the decoder filled in, its error ignored; under any other error status, only a body that decodes without error gives one.
- `MakeRequestWithData` is the Go loop written as a `while` loop. Its contract says that the run equals `RetryFrom`, a recursive definition of the same loop.
- The lemmas about `RetryFrom` give the attempt bound, the terminal statuses, the error on exhaustion and the `2^k + 1` second backoff schedule.
- Every public check first decides a `Plan`: either an answer with no request, or an endpoint plus a request body. `Perform` then runs the plan through the loop.
- The image encoder is a parameter `encode: string -> Result<string, GoError>`.

Modelling decisions where the Go code cannot be followed literally:

- `Message.Content` is `interface{}`, but `CheckConversationWithModel` uses it as a string: `len(msg.Content)` and `strings.TrimSpace(msg.Content)` at `client.go:242` and `client.go:246`. That does not compile. Here `Content` is `Text | Parts`, and the conversation check requires text contents (`IsTextMessages`).
- `GuardrailRequest` (`types.go:18-21`) has no `ExtraBody` field, but `client.go:275` and later lines assign to it. The user ID is modelled as the optional `userId` of the request body.
- The panic of `NewClientWithConfig` on an empty API key is the `Failure` arm of its `Result`.
- `math.Pow(2, attempt)` is the integer `Pow2(attempt)`. Delays are in whole seconds.
- A negative `maxRetries` is kept as an `int`. The loop body then never runs, and the call returns `(nil, nil)`, modelled as `NoOutcome`. `NewClientWithConfig` never stores a negative value.
- The 1,000,000 limit of the conversation check counts UTF-8 bytes, as Go's `len` does, although its message says "characters".

## Model

| member | source | states |
|---|---|---|
| Errors.ErrorText | errors.go:11-16 | With no cause, the text is exactly the message. With a cause, it is the message, `": "` and the cause's own text. |
| Errors.CauseText | errors.go:13 | The `%v` text of a cause: a foreign error's own text, or `Error()` of a nested client error. |
| Errors.ErrorTextIsMessageIffNoCause | errors.go:11-16 | The message always opens `Error()`, and `Error()` equals the message if and only if there is no cause. |
| Errors.Unwrap | errors.go:18-20 | Returns exactly the stored cause. None stands for nil. |
| Errors.NewXiangxinAIError | errors.go:23-28 | The base error keeps the given message and cause unchanged. |
| Errors.NewAuthenticationError | errors.go:36-40 | Authentication kind, nil cause, so `Error()` equals the message. |
| Errors.NewRateLimitError | errors.go:48-52 | Rate-limit kind, nil cause, so `Error()` equals the message. |
| Errors.NewValidationError | errors.go:60-64 | Validation kind, nil cause, so `Error()` equals the message. |
| Errors.NewNetworkError | errors.go:72-76 | Network kind. The cause is kept, and `Error()` appends the cause's text to the message. |
| Errors.NewServerError | errors.go:84-88 | Server kind, nil cause, so `Error()` equals the message. |
| Types.NewMessage | types.go:10-15 | The message holds the given role and the given text content. |
| Types.ActionPredicates | types.go:59-71 | `IsSafe` holds iff the action is "pass", and `IsBlocked` iff it is "reject". `HasSubstitute` holds iff it is "replace" or "reject". Blocked implies a substitute; safe excludes both. |
| Types.CategoriesOf | types.go:79-101 | The categories of one risk result, or none when that result is nil. |
| Types.GuardrailResponse.AllListed | types.go:76-102 | The concatenation compliance ++ security ++ data of the non-nil lists. It is empty when the result is nil. |
| Types.GuardrailResponse.GetAllCategories | types.go:74-106 | The three loops return exactly `Dedup` of the concatenated lists. |
| Types.AddRisk | types.go:79-86 | The nil check around one loop. Given a de-duplicated prefix and a set mirroring it, the result is the de-duplication of the prefix followed by the sub-result's list, with the set still mirroring it. |
| Types.AddNew | types.go:80-85 | One loop appends each category not yet seen. The result is the de-duplication of the longer prefix, with the set kept in step. |
| Types.Dedup | types.go:74-106 | The specification of the merge: the first occurrence of each element, in input order, each element appended only when it is not yet in the result. |
| Types.FirstIndex | types.go:74-106 | The position returned holds the element, and nothing before it does. |
| Types.FirstIndexAppend | types.go:74-106 | Appending does not move the first occurrence of an element already present. |
| Types.FirstIndexNew | types.go:74-106 | An element new to a list occurs first at the end after it is appended. |
| Types.DedupMembers | types.go:78-102 | The merge holds exactly the elements of its input. |
| Types.DedupDistinct | types.go:75-102 | The merge holds no duplicates. |
| Types.DedupOrder | types.go:79-102 | The merge lists categories in the order of their first occurrence in the input. |
| Types.DedupOrderStep | types.go:79-102 | The inductive step of that order, for one pair of positions. |
| Types.AllCategoriesProperties | types.go:74-106 | `GetAllCategories` returns no duplicates, exactly the categories of the non-nil lists, in first-occurrence order, and nothing when the result is nil. |
| Config.NewClientWithConfig | client.go:79-111 | It fails iff the API key is empty, with the panic's message. Otherwise an empty base URL becomes the default URL and one trailing "/" is removed. A timeout of 0 or less becomes 30, so the normalised timeout in seconds is positive. A negative retry count becomes 3, any other is kept, so the stored count is never negative. The headers are exactly Authorization, Content-Type and User-Agent. |
| Config.NewClient | client.go:69-76 | It fails iff the API key is empty. Otherwise it uses the default URL, 30 seconds and 3 retries. |
| Transport.IsSuccess | client.go:594 | A 2xx status is never 401, 422 or 429, so the success branch comes first without hiding any of them. |
| Transport.Pow2 | client.go:676 | `math.Pow(2, attempt)` is a positive whole number for every attempt. |
| Transport.DetailOr | client.go:609-614 | The reply's string `detail`, as its status's branch reads it, when there is one, otherwise the given fallback ("validation error" for a 422; the raw body for other statuses, where client.go:625-631 uses the detail only when the whole body decodes without error). |
| Transport.HandleErrorResponse | client.go:645-671 | Each error kind corresponds to its status (in both directions): 401 authentication, 422 validation, 429 rate limit, anything else the base error. No error has a cause. The message is fixed, or "validation error: " with the detail or its fallback, or names the status and the detail or the raw body. |
| Transport.CalculateBackoff | client.go:674-678 | The wait before a retry is `2^attempt + 1` seconds, at least 2. |
| Transport.BackoffDoubles | client.go:674-678 | The exponential part doubles from one attempt to the next. |
| Transport.BackoffIncreasing | client.go:674-678 | Later attempts wait strictly longer. |
| Transport.Backoffs | client.go:587-588 | The schedule from one attempt to another has one entry per attempt, and each entry is that attempt's backoff. |
| Transport.Retryable | client.go:585-637 | The attempts the loop retries while retries remain: a transport error, or a status that is not 2xx, 401 or 422 (so 429 and every other status outside 2xx). |
| Transport.FinalOutcome | client.go:583-639 | An attempt that ends the loop gives one of four results. A transport error gives a NetworkError carrying the cause. A 2xx gives the decoded response, or a parse error carrying the decoder's error. Any other status gives the `handleErrorResponse` mapping. |
| Transport.RetryFrom | client.go:579-639 | Past the last allowed attempt (attempt > maxRetries), no attempt is made and there is no outcome. Otherwise the run makes at least one more attempt, at most `maxRetries + 1` in all, has an outcome, and sleeps once between consecutive attempts. |
| Transport.RetryShape | client.go:576-642 | A run from an attempt makes between 1 and `maxRetries + 1 - attempt` attempts. Every attempt but the last was retryable. The last is not retryable, or no retries were left. The outcome is the last attempt's. The delays are exactly the backoffs of the attempts before the last. |
| Transport.AttemptBound | client.go:579-639 | With a non-negative budget, a run makes 1 to `maxRetries + 1` attempts, always has an outcome, and sleeps once between consecutive attempts. |
| Transport.DelaySchedule | client.go:587-588 | Delay i is `2^i + 1` seconds. Every delay is at least 2, and the delays strictly increase. |
| Transport.StopsAtFirstTerminal | client.go:594-615 | The first non-retryable attempt (2xx, 401 or 422) ends the run at once, with its outcome and no sleep after it. |
| Transport.TerminalStatuses | client.go:604-615 | A 401 ends the run with an AuthenticationError and a 422 with a ValidationError. No further attempt is made. |
| Transport.ExhaustedRetries | client.go:579-639 | When every attempt is retryable, the run makes exactly `maxRetries + 1` attempts and `maxRetries` sleeps. It returns the last attempt's error: a NetworkError after a transport error, a RateLimitError after a 429, otherwise the base error naming the status. |
| Transport.MakeRequestWithData | client.go:576-642 | The loop with `lastErr` computes exactly the run `RetryFrom` defines: the same outcome, number of attempts and list of sleeps. |
| Transport.RetryStep | client.go:587-589 | Sleeping the backoff and moving to the next attempt keeps the loop invariant. |
| Checks.CreateSafeResponse | client.go:114-131 | The default answer has id "guardrails-safe-default", level "no_risk", action "pass" and no answer. Compliance and security are "no_risk" with no categories; data is nil. It is safe, not blocked, has no substitute, and yields no categories. |
| Checks.UserId | client.go:185-187 | The user ID is sent iff one is given and it is not empty, and it is the first one. |
| Checks.PromptPlan | client.go:174-190 | Content with only white space is answered as safe without a request. Anything else sends the trimmed content, which is non-empty and already trimmed, to /guardrails/input. |
| Checks.ResponsePlan | client.go:312-329 | No request is made iff both texts are white space. Otherwise both trimmed texts go to /guardrails/output, and at least one of them is non-empty. |
| Checks.Perform | client.go:571-573 | A planned answer is returned with no attempt and nothing sent. A planned request sends exactly the planned endpoint and body, and runs the retry loop with the client's retry budget. |
| Checks.CheckPrompt | client.go:174-190 | Blank content is answered as safe with no POST and no sleep. Any other content is sent to /guardrails/input trimmed, with the user ID when one is given, and gets the retry loop's run. |
| Checks.CheckResponseCtx | client.go:312-329 | Two blank texts are answered as safe with no POST. Otherwise both trimmed texts are sent to /guardrails/output as input and output, and the check gets the retry loop's run. |
| Checks.ValidRole | client.go:238 | A role is accepted iff it is "user", "system" or "assistant". |
| Checks.Problem | client.go:234-244 | The refusal of one message, tested in the order of the code: nil first, then an unknown role, then more than 1,000,000 bytes of content; none when it passes all three. |
| Checks.FirstProblem | client.go:233-244 | A problem found is one of the three refusal messages of the scan. |
| Checks.Kept | client.go:246-256 | No more messages are sent than given. |
| Checks.KeptOne | client.go:246-255 | One message contributes at most one message to the request. |
| Checks.KeptOneIsSendable | client.go:246-255 | What one message contributes has non-empty, already trimmed text. |
| Checks.KeptOneEmptyIffBlank | client.go:246-255 | One text message contributes nothing iff it is nil or white space only. |
| Checks.KeptSplit | client.go:246-256 | Nothing is kept from a list iff nothing is kept from all but its last message and nothing from its last. |
| Checks.AllBlankSplit | client.go:246-266 | A list is all blank iff all but its last message are and its last is. |
| Checks.FirstProblemIsFirst | client.go:233-244 | No message is refused iff the scan finds no problem. A problem it finds is the problem of some message that every earlier message passes. |
| Checks.KeptAppend | client.go:233-256 | Keeping distributes over concatenation, so the order of the request is the order of the input. |
| Checks.KeptMessagesAreTrimmed | client.go:246-255 | Each message sent has non-empty, already trimmed text. |
| Checks.KeptRolesValid | client.go:238-255 | When no message is refused, every message sent has role user, system or assistant. |
| Checks.KeptEmptyIffAllBlank | client.go:246-266 | Nothing is sent iff every message is nil or white space only. |
| Checks.ConversationPlan | client.go:224-282 | An empty list is a ValidationError. Otherwise the first refused message gives its ValidationError. A list with nothing left to send is answered as safe. Otherwise exactly the kept messages go to /guardrails with the given model. |
| Checks.ConversationStep | client.go:233-256 | One accepted message keeps the prefix clean, and adds its trimmed self when it is not blank. |
| Checks.FirstProblemPrefix | client.go:233-244 | A message refused right after a clean prefix is the first problem of the whole list. |
| Checks.CheckConversationWithModel | client.go:224-282 | Empty, refused and all-blank lists make no POST; the first two fail, the last is answered as safe. Otherwise exactly the kept messages are sent to /guardrails with the given model, and the check gets the retry loop's run. |
| Checks.CheckConversation | client.go:219-221 | The same, with the default text model. |
| Checks.GoErrorText | client.go:354-357 | The text of an encoder error: `op path: reason` for an os path error, `context: inner` for a `%w` wrapper, or the plain text. |
| Checks.MissingFileError | client.go:354-357 | The error `encodeBase64FromPath` returns for a missing local file: an `open` path error marked not-exist, wrapped with "failed to read image file". |
| Checks.OsIsNotExist | client.go:489 | `os.IsNotExist` looks at the error itself only. Every error it recognises, `errors.Is(err, fs.ErrNotExist)` recognises too. |
| Checks.ErrorsIsNotExist | client.go:489 | The corrected test follows the wrapping chain. A plain text error never counts as a missing file. |
| Checks.EncodeFailureAsWritten | client.go:488-494 | As written, the error is a ValidationError iff `os.IsNotExist` holds for the encoder's error. |
| Checks.MissingImageNotReportedAsWritten | client.go:488-494 | For a missing local file, the code as written gives the base error, and the corrected test gives "image file not found". |
| Checks.EncodeFailureAsWrittenDiffers | client.go:488-494 | The as-written and the corrected mappings differ exactly when the encoder's error is a missing file that `os.IsNotExist` cannot see, i.e. one that arrives wrapped. |
| Checks.SingleEncodeFailureAsWritten | client.go:400-405 | As written, the single-image error is a ValidationError iff `os.IsNotExist` holds for the encoder's error. |
| Checks.MissingSingleImageNotReportedAsWritten | client.go:400-405 | For a missing local file given alone, the code as written gives the base error, and the corrected test gives "image file not found". |
| Checks.EncodeFailure | client.go:488-494 | The error is a ValidationError ("image file not found: " and the path) iff the file does not exist. Otherwise it is the base error carrying the encoder's error as its cause. |
| Checks.SingleEncodeFailure | client.go:400-405 | The same, with the corrected test, for a single image. |
| Checks.PromptParts | client.go:477-483 | The text part is present iff the prompt is not all white space, and it holds the trimmed prompt. |
| Checks.ImagePart | client.go:495-500 | The content part of one encoded image: an image URL `data:image/jpeg;base64,` followed by the encoding. |
| Checks.ImageRequest | client.go:503-513 | The request of an image check: the model and one user message whose content is the given parts, with the optional user ID. |
| Checks.FirstEncodeFailure | client.go:486-494 | What it reports is one of the images, together with the error its encoding gave. |
| Checks.FirstEncodeFailureIsFirst | client.go:486-494 | No image fails iff every image encodes. A reported failure is that of some image i, and every image before i encoded. |
| Checks.ImageParts | client.go:486-501 | When every image encodes, there is one image part per image, in order, carrying that image's data URL. |
| Checks.ImagesPlan | client.go:471-524 | An empty list is a ValidationError, and the first image that fails to encode ends the check with its error, mapped with the corrected not-exist test. Otherwise one user message holds the prompt part followed by the image parts, sent to /guardrails. |
| Checks.AppendImageParts | client.go:486-501 | The loop reports exactly the first image that fails to encode. When none fails, it appends every image part in order. |
| Checks.ImagePartsStep | client.go:486-501 | One more image that encodes adds its part at the end. |
| Checks.FirstEncodeFailurePrefix | client.go:486-494 | A failure right after a clean prefix is the first failure of the list. |
| Checks.ImagePlan | client.go:393-443 | An empty path is a ValidationError, and a failed encoding ends the check, mapped with the corrected not-exist test. Otherwise the content is the prompt part followed by the one image part, sent to /guardrails. |
| Checks.CheckPromptImagesWithModel | client.go:471-524 | An empty list or an image that fails to encode makes no POST; the failure is mapped with the corrected not-exist test. Otherwise the prompt part and one image part per image go to /guardrails in one user message with the given model, and the check gets the retry loop's run. |
| Checks.CheckPromptImages | client.go:466-468 | The same, with the vision model. |
| Checks.CheckPromptImageWithModel | client.go:393-443 | An empty path or a failed encoding makes no POST; the failure is mapped with the corrected not-exist test. Otherwise the prompt part and the image part go to /guardrails in one user message with the given model, and the check gets the retry loop's run. |
| Checks.CheckPromptImage | client.go:388-390 | The same, with the vision model. |
| Text.IsSpace | client.go:176 | Among ASCII characters, white space is exactly tab, newline, vertical tab, form feed, carriage return and space. No character above U+3000 is white space. |
| Text.TrimSpace | client.go:176 | Trimming never lengthens the text. |
| Text.IsBlank | client.go:176 | The client's blank test `strings.TrimSpace(x) == ""`. |
| Text.TrimLeft | client.go:176 | Trimming the left keeps a suffix that does not start with white space. |
| Text.TrimRight | client.go:176 | Trimming the right keeps a prefix that does not end with white space. |
| Text.TrimLeftDropsSpaces | client.go:176 | Everything trimmed on the left is white space. |
| Text.TrimRightDropsSpaces | client.go:176 | Everything trimmed on the right is white space. |
| Text.BlankIffAllSpace | client.go:176 | `strings.TrimSpace(s) == ""` holds iff every character of s is white space. |
| Text.TrimSpaceEnds | client.go:246 | What `TrimSpace` keeps neither starts nor ends with white space. |
| Text.TrimSpaceIdempotent | client.go:246 | Trimming twice is trimming once. |
| Text.Utf8Length | client.go:242 | `len` of a string is between one and four bytes per character. |
| Text.TrimSuffix | client.go:88 | With the suffix, the result followed by the suffix is the input. Without it, the input is unchanged. |
| Text.IntToString | client.go:632 | `%d` of an integer starts with "-" iff it is negative, and the digits after the sign read back as its magnitude. |
| Text.NatToString | client.go:632 | `%d` of a natural number is non-empty decimal digits without a leading zero. |
| Text.NatToStringRoundTrip | client.go:632 | The number can be read back from its `%d` text. |

## Left out

- `async_client.go`: the asynchronous client depends on goroutines, channels used as a semaphore, a WaitGroup and a mutex. None of that is modelled.
- The HTTP transport (resty), JSON encoding and decoding, and `encodeBase64FromPath` with `http.Get`, `os.ReadFile` and base64. An attempt's outcome and the encoder are parameters instead.
- `HealthCheck` and `GetModels`: left out as external I/O. Their error branch uses `handleErrorResponse` (client.go:537, client.go:559), which is modelled.
- `sleep` and context cancellation. A sleep is recorded as the delay it requests. The Go loop does not stop on a cancelled context, and neither does the model.
- The resty client's base URL, timeout and headers are recorded in the `Client` value, not applied to requests.
- The `Score` field (a `*float64`) is an uninterpreted `real` and nothing is stated about it.
- Config.NewClientWithConfig: the timeout is kept in whole seconds. The `time.Duration` (int64 nanoseconds) overflow of `time.Duration(timeout) * time.Second` at client.go:102 is not modelled; above 9223372036 seconds Go stores a wrapped, possibly negative, duration.
- Transport.CalculateBackoff: the result is in whole seconds and does not model the `time.Duration` (int64 nanoseconds) overflow once `2^attempt` seconds passes that range (attempt 34 and above).
- Checks.ConversationPlan: requires every message to have text content. A multimodal content list cannot reach this check as written, because it uses the content as a string.
- Checks.ImagesPlan: a failed encoding is mapped with the corrected not-exist test (`errors.Is`). For a missing local file it gives a ValidationError, where the code as written gives the base error. `Checks.EncodeFailureAsWrittenDiffers` states exactly where the two differ; `Checks.EncodeFailureAsWritten` is the mapping as written.
- Checks.CheckPromptImagesWithModel: inherits the corrected not-exist test from `Checks.ImagesPlan`.
- Checks.CheckPromptImages: inherits the corrected not-exist test from `Checks.ImagesPlan`.
- Checks.ImagePlan: a failed encoding is mapped with the corrected not-exist test. For a missing local file it gives a ValidationError, where the code as written gives the base error. `Checks.SingleEncodeFailureAsWritten` is the mapping as written.
- Checks.CheckPromptImageWithModel: inherits the corrected not-exist test from `Checks.ImagePlan`.
- Checks.CheckPromptImage: inherits the corrected not-exist test from `Checks.ImagePlan`.
- The example programs under `example/`.

## Findings

| source | as written | input that shows it | evidently intended | confidence | as-written member | corrected member |
|---|---|---|---|---|---|---|
| client.go:489-492 | The missing-file test uses `os.IsNotExist(err)`. `encodeBase64FromPath` wraps the `os.ReadFile` error with `fmt.Errorf("...: %w", err)`, and `os.IsNotExist` does not unwrap. | A local image path that does not exist, e.g. `/no/such.jpg`. The error is `failed to read image file: open /no/such.jpg: no such file or directory`. | A ValidationError "image file not found: /no/such.jpg". The code instead returns the base error "failed to encode image /no/such.jpg: ...". | medium; not executed | Checks.MissingImageNotReportedAsWritten | Checks.EncodeFailure |
| client.go:400-405 | `CheckPromptImageWithModel` makes the same `os.IsNotExist` test on the wrapped error of `encodeBase64FromPath`. | A single local image path that does not exist, e.g. `/no/such.jpg`. | A ValidationError "image file not found: /no/such.jpg". The code instead returns the base error "failed to encode image: failed to read image file: ...". | medium; not executed | Checks.MissingSingleImageNotReportedAsWritten | Checks.SingleEncodeFailure |
