/**
 * The public checks of the synchronous client: what each one validates and
 * builds before it hands a request to makeRequestWithData, and the default
 * safe response returned without any request.
 */
module Checks {
  import opened Wrappers
  import opened Text
  import opened Errors
  import opened Types
  import opened Config
  import opened Transport

  /** createSafeResponse */
  function CreateSafeResponse(): (r: GuardrailResponse)
    ensures r.id == "guardrails-safe-default"
    ensures r.overallRiskLevel == "no_risk" && r.suggestAnswer == None
    ensures r.IsSafe() && !r.IsBlocked() && !r.HasSubstitute()
    ensures r.result.Some? && r.result.value.compliance == Some(RiskResult("no_risk", []))
    ensures r.result.value.security == Some(RiskResult("no_risk", [])) && r.result.value.data == None
    ensures Dedup(r.AllListed()) == []
  {
    GuardrailResponse(
      "guardrails-safe-default",
      Some(GuardrailResult(Some(RiskResult("no_risk", [])), Some(RiskResult("no_risk", [])), None)),
      "no_risk", "pass", None, None)
  }

  /** The JSON body of a request: the input/output map, or a GuardrailRequest with its model and messages. */
  datatype RequestBody =
    | DataRequest(input: string, output: Option<string>, userId: Option<string>)
    | ChatRequest(model: string, messages: seq<Message>, userId: Option<string>)

  /** What a check decides before any request: an answer at once, or a POST to an endpoint. */
  datatype Plan = Immediate(outcome: Outcome) | Send(endpoint: string, body: RequestBody)

  /** The optional userID argument: used when one is given and it is not empty. */
  function UserId(userID: seq<string>): (u: Option<string>)
    ensures u.Some? <==> |userID| > 0 && userID[0] != ""
    ensures u.Some? ==> u.value == userID[0]
  {
    if |userID| > 0 && userID[0] != "" then Some(userID[0]) else None
  }

  /** CheckPrompt before the request: blank content is safe without asking; otherwise the trimmed content is sent. */
  function PromptPlan(content: string, userID: seq<string>): (p: Plan)
    ensures p.Immediate? <==> AllSpace(content)
    ensures p.Immediate? ==> p.outcome == Answered(CreateSafeResponse())
    ensures p.Send? ==> p.endpoint == "/guardrails/input"
    ensures p.Send? ==> p.body == DataRequest(TrimSpace(content), None, UserId(userID))
    ensures p.Send? ==> p.body.input != "" && TrimSpace(p.body.input) == p.body.input
  {
    BlankIffAllSpace(content);
    TrimSpaceIdempotent(content);
    if IsBlank(content) then Immediate(Answered(CreateSafeResponse()))
    else Send("/guardrails/input", DataRequest(TrimSpace(content), None, UserId(userID)))
  }

  /** CheckResponseCtx before the request: safe without asking only when both texts are blank. */
  function ResponsePlan(prompt: string, response: string, userID: seq<string>): (p: Plan)
    ensures p.Immediate? <==> AllSpace(prompt) && AllSpace(response)
    ensures p.Immediate? ==> p.outcome == Answered(CreateSafeResponse())
    ensures p.Send? ==> p.endpoint == "/guardrails/output"
    ensures p.Send? ==> p.body == DataRequest(TrimSpace(prompt), Some(TrimSpace(response)), UserId(userID))
    ensures p.Send? ==> p.body.input != "" || p.body.output.value != ""
  {
    BlankIffAllSpace(prompt);
    BlankIffAllSpace(response);
    if IsBlank(prompt) && IsBlank(response) then Immediate(Answered(CreateSafeResponse()))
    else Send("/guardrails/output", DataRequest(TrimSpace(prompt), Some(TrimSpace(response)), UserId(userID)))
  }

  /**
   * Sends what a check planned (makeRequest / makeRequestWithData with the
   * client's retry budget), or returns the planned answer without any request.
   */
  method Perform(client: Client, plan: Plan, script: nat -> HttpOutcome)
    returns (outcome: Outcome, attempts: nat, delays: seq<nat>, sent: Option<(string, RequestBody)>)
    ensures plan.Immediate? ==> outcome == plan.outcome && attempts == 0 && delays == [] && sent == None
    ensures plan.Send? ==> sent == Some((plan.endpoint, plan.body))
    ensures plan.Send? ==> Trace(outcome, attempts, delays) == RetryFrom(client.maxRetries, script, 0)
  {
    match plan
    case Immediate(o) =>
      outcome, attempts, delays, sent := o, 0, [], None;
    case Send(endpoint, body) =>
      sent := Some((endpoint, body));
      outcome, attempts, delays := MakeRequestWithData(client.maxRetries, script);
  }

  // ---------------------------------------------------------------------------
  // CheckConversationWithModel

  const MaxContentLength := 1000000

  predicate IsTextMessages(messages: seq<Option<Message>>) {
    forall i :: 0 <= i < |messages| ==> messages[i].Some? ==> messages[i].value.content.Text?
  }

  /** Why one message is refused, if it is: nil, an unknown role, or more than 1,000,000 bytes of content. */
  function Problem(m: Option<Message>): Option<string>
    requires m.Some? ==> m.value.content.Text?
  {
    if m.None? then Some("message cannot be nil")
    else if !ValidRole(m.value.role) then
      Some("message role must be one of: user, system, assistant")
    else if Utf8Length(m.value.content.text) > MaxContentLength then
      Some("content too long (max 1000000 characters)")
    else None
  }

  /** The problem of the first refused message, scanning in order. */
  function FirstProblem(messages: seq<Option<Message>>): (r: Option<string>)
    requires IsTextMessages(messages)
    ensures r.Some? ==> r.value in {"message cannot be nil", "message role must be one of: user, system, assistant",
                                    "content too long (max 1000000 characters)"}
  {
    if messages == [] then None
    else
      var earlier := FirstProblem(messages[..|messages| - 1]);
      if earlier.Some? then earlier else Problem(messages[|messages| - 1])
  }

  /** The messages that are sent: each non-nil message whose trimmed content is not empty, trimmed, in order. */
  function Kept(messages: seq<Option<Message>>): (kept: seq<Message>)
    requires IsTextMessages(messages)
    ensures |kept| <= |messages|
  {
    if messages == [] then []
    else Kept(messages[..|messages| - 1]) + KeptOne(messages[|messages| - 1])
  }

  /** What one message contributes: itself with trimmed content, unless it is nil or blank. */
  function KeptOne(m: Option<Message>): (kept: seq<Message>)
    ensures |kept| <= 1
  {
    if m.Some? && m.value.content.Text? && TrimSpace(m.value.content.text) != "" then
      [Message(m.value.role, Text(TrimSpace(m.value.content.text)))]
    else []
  }

  /** FirstProblem names the first refused message: none is refused iff FirstProblem is None. */
  lemma {:induction false} FirstProblemIsFirst(messages: seq<Option<Message>>)
    requires IsTextMessages(messages)
    ensures FirstProblem(messages).None? <==> forall i :: 0 <= i < |messages| ==> Problem(messages[i]).None?
    ensures FirstProblem(messages).Some? ==>
      exists i :: && 0 <= i < |messages|
                  && Problem(messages[i]) == FirstProblem(messages)
                  && forall j :: 0 <= j < i ==> Problem(messages[j]).None?
  {
    if messages != [] {
      var init := messages[..|messages| - 1];
      FirstProblemIsFirst(init);
      assert forall i :: 0 <= i < |init| ==> init[i] == messages[i];
      if FirstProblem(init).Some? {
        var i :| 0 <= i < |init| && Problem(init[i]) == FirstProblem(init)
          && forall j :: 0 <= j < i ==> Problem(init[j]).None?;
        assert Problem(messages[i]) == FirstProblem(messages);
      }
    }
  }

  /** Keeping distributes over concatenation, so the order of the input is the order of the request. */
  lemma {:induction false} KeptAppend(a: seq<Option<Message>>, b: seq<Option<Message>>)
    requires IsTextMessages(a) && IsTextMessages(b)
    ensures IsTextMessages(a + b) && Kept(a + b) == Kept(a) + Kept(b)
    decreases |b|
  {
    if b != [] {
      var b' := b[..|b| - 1];
      assert (a + b)[..|a + b| - 1] == a + b';
      KeptAppend(a, b');
    } else {
      assert a + b == a;
    }
  }

  /** A message that is sent has non-empty, already trimmed text content. */
  predicate Sendable(m: Message) {
    m.content.Text? && m.content.text != "" && TrimSpace(m.content.text) == m.content.text
  }

  /** Every message sent has non-empty, already trimmed text. */
  lemma {:induction false} KeptMessagesAreTrimmed(messages: seq<Option<Message>>)
    requires IsTextMessages(messages)
    ensures forall k :: 0 <= k < |Kept(messages)| ==> Sendable(Kept(messages)[k])
  {
    if messages != [] {
      var init, last := messages[..|messages| - 1], messages[|messages| - 1];
      KeptMessagesAreTrimmed(init);
      KeptOneIsSendable(last);
      SendableAppend(Kept(init), KeptOne(last));
    }
  }

  /** What one message contributes is sendable. */
  lemma KeptOneIsSendable(m: Option<Message>)
    ensures forall k :: 0 <= k < |KeptOne(m)| ==> Sendable(KeptOne(m)[k])
  {
    if m.Some? && m.value.content.Text? && TrimSpace(m.value.content.text) != "" {
      TrimSpaceIdempotent(m.value.content.text);
    }
  }

  lemma SendableAppend(a: seq<Message>, b: seq<Message>)
    requires forall k :: 0 <= k < |a| ==> Sendable(a[k])
    requires forall k :: 0 <= k < |b| ==> Sendable(b[k])
    ensures forall k :: 0 <= k < |a + b| ==> Sendable((a + b)[k])
  {
  }

  predicate ValidRole(role: string) {
    role == "user" || role == "system" || role == "assistant"
  }

  /** When no message is refused, every message sent has one of the three roles. */
  lemma {:induction false} KeptRolesValid(messages: seq<Option<Message>>)
    requires IsTextMessages(messages) && FirstProblem(messages).None?
    ensures forall k :: 0 <= k < |Kept(messages)| ==> ValidRole(Kept(messages)[k].role)
  {
    if messages != [] {
      var init := messages[..|messages| - 1];
      KeptRolesValid(init);
      var before, all := Kept(init), Kept(messages);
      forall k | 0 <= k < |all|
        ensures ValidRole(all[k].role)
      {
        if k < |before| {
          assert all[k] == before[k];
        }
      }
    }
  }

  /** A message that contributes nothing: nil, or with white space only. */
  predicate NilOrBlank(m: Option<Message>) {
    m.None? || (m.value.content.Text? && AllSpace(m.value.content.text))
  }

  /** Every message in `messages` is nil or blank. */
  predicate AllBlank(messages: seq<Option<Message>>) {
    forall i :: 0 <= i < |messages| ==> NilOrBlank(messages[i])
  }

  /** Nothing is sent exactly when every message is nil or blank. */
  lemma {:induction false} KeptEmptyIffAllBlank(messages: seq<Option<Message>>)
    requires IsTextMessages(messages)
    ensures Kept(messages) == [] <==> forall i :: 0 <= i < |messages| ==> NilOrBlank(messages[i])
  {
    if messages != [] {
      var init, last := messages[..|messages| - 1], messages[|messages| - 1];
      KeptSplit(messages);
      KeptEmptyIffAllBlank(init);
      KeptOneEmptyIffBlank(last);
      AllBlankSplit(messages);
      assert Kept(messages) == [] <==> AllBlank(messages);
    }
  }

  /** Nothing is kept from a list exactly when nothing is kept from all but its last message, nor from its last. */
  lemma KeptSplit(messages: seq<Option<Message>>)
    requires IsTextMessages(messages) && messages != []
    ensures IsTextMessages(messages[..|messages| - 1])
    ensures Kept(messages) == [] <==>
      Kept(messages[..|messages| - 1]) == [] && KeptOne(messages[|messages| - 1]) == []
  {
    var before, one := Kept(messages[..|messages| - 1]), KeptOne(messages[|messages| - 1]);
    assert |Kept(messages)| == |before| + |one|;
  }

  /** One message contributes nothing exactly when it is nil or blank. */
  lemma KeptOneEmptyIffBlank(m: Option<Message>)
    requires m.Some? ==> m.value.content.Text?
    ensures KeptOne(m) == [] <==> NilOrBlank(m)
  {
    if m.Some? {
      BlankIffAllSpace(m.value.content.text);
    }
  }

  /** A list is all blank exactly when all but its last message are, and its last is. */
  lemma AllBlankSplit(messages: seq<Option<Message>>)
    requires messages != []
    ensures AllBlank(messages) <==>
      AllBlank(messages[..|messages| - 1]) && NilOrBlank(messages[|messages| - 1])
  {
    var init := messages[..|messages| - 1];
    assert forall i :: 0 <= i < |init| ==> init[i] == messages[i];
  }

  /**
   * CheckConversationWithModel before the request: an empty list and the
   * first refused message are validation errors; an all-blank conversation
   * is safe without asking; otherwise the kept messages are sent to the
   * given model.
   */
  method ConversationPlan(messages: seq<Option<Message>>, model: string, userID: seq<string>) returns (plan: Plan)
    requires IsTextMessages(messages)
    ensures |messages| == 0 ==> plan == Immediate(Failed(NewValidationError("messages cannot be empty")))
    ensures |messages| > 0 && FirstProblem(messages).Some? ==>
      plan == Immediate(Failed(NewValidationError(FirstProblem(messages).value)))
    ensures |messages| > 0 && FirstProblem(messages).None? && Kept(messages) == [] ==>
      plan == Immediate(Answered(CreateSafeResponse()))
    ensures |messages| > 0 && FirstProblem(messages).None? && Kept(messages) != [] ==>
      plan == Send("/guardrails", ChatRequest(model, Kept(messages), UserId(userID)))
  {
    if |messages| == 0 {
      return Immediate(Failed(NewValidationError("messages cannot be empty")));
    }

    var validatedMessages: seq<Message> := [];
    var allEmpty := true;

    var i := 0;
    while i < |messages|
      invariant 0 <= i <= |messages|
      invariant FirstProblem(messages[..i]).None?
      invariant validatedMessages == Kept(messages[..i])
      invariant allEmpty <==> validatedMessages == []
    {
      var msg := messages[i];
      if msg.None? {
        FirstProblemPrefix(messages, i);
        return Immediate(Failed(NewValidationError("message cannot be nil")));
      }
      var m := msg.value;
      if m.role != "user" && m.role != "system" && m.role != "assistant" {
        FirstProblemPrefix(messages, i);
        return Immediate(Failed(NewValidationError("message role must be one of: user, system, assistant")));
      }
      if Utf8Length(m.content.text) > MaxContentLength {
        FirstProblemPrefix(messages, i);
        return Immediate(Failed(NewValidationError("content too long (max 1000000 characters)")));
      }
      var content := TrimSpace(m.content.text);
      ConversationStep(messages, i);
      if content != "" {
        allEmpty := false;
        validatedMessages := validatedMessages + [Message(m.role, Text(content))];
      }
      i := i + 1;
    }
    assert messages[..|messages|] == messages;

    if allEmpty {
      return Immediate(Answered(CreateSafeResponse()));
    }
    if |validatedMessages| == 0 {
      return Immediate(Answered(CreateSafeResponse()));
    }
    return Send("/guardrails", ChatRequest(model, validatedMessages, UserId(userID)));
  }

  /** A message accepted right after a clean prefix leaves the prefix clean and adds its trimmed self, if not blank. */
  lemma ConversationStep(messages: seq<Option<Message>>, i: nat)
    requires IsTextMessages(messages) && i < |messages|
    requires FirstProblem(messages[..i]).None? && Problem(messages[i]).None?
    ensures FirstProblem(messages[..i + 1]).None?
    ensures var text := messages[i].value.content.text;
      Kept(messages[..i + 1]) == Kept(messages[..i]) +
        if TrimSpace(text) != "" then [Message(messages[i].value.role, Text(TrimSpace(text)))] else []
  {
    assert messages[..i + 1][..i] == messages[..i];
  }

  /** A message refused right after a clean prefix is the first problem of the whole list. */
  lemma {:induction false} FirstProblemPrefix(messages: seq<Option<Message>>, i: nat)
    requires IsTextMessages(messages) && i < |messages|
    requires FirstProblem(messages[..i]).None? && Problem(messages[i]).Some?
    ensures FirstProblem(messages) == Problem(messages[i])
    decreases |messages| - i
  {
    assert messages[..i + 1][..i] == messages[..i];
    if i + 1 < |messages| {
      assert messages[..|messages| - 1][..i] == messages[..i];
      FirstProblemPrefix(messages[..|messages| - 1], i);
    } else {
      assert messages[..i + 1] == messages;
    }
  }

  // ---------------------------------------------------------------------------
  // CheckPromptImage(s)WithModel: content assembly, with the image encoder as a parameter

  /**
   * The errors encodeBase64FromPath can return. An os error is a PathError
   * (notExist when the file is missing); fmt.Errorf with %w wraps an error,
   * and fmt.Errorf without %w makes a plain text error.
   */
  datatype GoError =
    | PathError(op: string, path: string, reason: string, notExist: bool)
    | Wrapped(context: string, inner: GoError)
    | Plain(text: string)

  function GoErrorText(e: GoError): string {
    match e
    case PathError(op, path, reason, _) => op + " " + path + ": " + reason
    case Wrapped(context, inner) => context + ": " + GoErrorText(inner)
    case Plain(text) => text
  }

  /** os.IsNotExist: looks through a *PathError only, not through fmt's %w wrapper. */
  predicate OsIsNotExist(e: GoError)
    ensures OsIsNotExist(e) ==> ErrorsIsNotExist(e)
  {
    e.PathError? && e.notExist
  }

  /** errors.Is(err, fs.ErrNotExist): follows the whole Unwrap chain. */
  predicate ErrorsIsNotExist(e: GoError)
    ensures ErrorsIsNotExist(e) ==> !e.Plain?
  {
    match e
    case PathError(_, _, _, notExist) => notExist
    case Wrapped(_, inner) => ErrorsIsNotExist(inner)
    case Plain(_) => false
  }

  /** The error encodeBase64FromPath returns when os.ReadFile cannot find a local file. */
  function MissingFileError(path: string): GoError {
    Wrapped("failed to read image file", PathError("open", path, "no such file or directory", true))
  }

  /** The error CheckPromptImagesWithModel makes of a failed encoding, as written (with os.IsNotExist). */
  function EncodeFailureAsWritten(path: string, e: GoError): (err: Error)
    ensures err.kind == Validation <==> OsIsNotExist(e)
  {
    if OsIsNotExist(e) then NewValidationError("image file not found: " + path)
    else NewXiangxinAIError("failed to encode image " + path + ": " + GoErrorText(e), Some(Foreign(GoErrorText(e))))
  }

  /** As written, a missing local image is never reported as "image file not found". */
  lemma MissingImageNotReportedAsWritten(path: string)
    ensures EncodeFailureAsWritten(path, MissingFileError(path)).kind == Base
    ensures EncodeFailure(path, MissingFileError(path)) == NewValidationError("image file not found: " + path)
  {
    assert ErrorsIsNotExist(MissingFileError(path));
  }

  /**
   * The error CheckPromptImagesWithModel makes of a failed encoding, with the
   * not-exist test looking through the wrapper: a missing file is a
   * ValidationError, any other failure a XiangxinAIError that names the
   * image and carries the encoder's error as its cause.
   */
  function EncodeFailure(path: string, e: GoError): (err: Error)
    ensures err.kind == Validation <==> ErrorsIsNotExist(e)
    ensures err.kind == Validation ==> err.message == "image file not found: " + path
    ensures err.kind != Validation ==> err.kind == Base && Unwrap(err) == Some(Foreign(GoErrorText(e)))
  {
    if ErrorsIsNotExist(e) then NewValidationError("image file not found: " + path)
    else NewXiangxinAIError("failed to encode image " + path + ": " + GoErrorText(e), Some(Foreign(GoErrorText(e))))
  }

  /** The two mappings differ exactly on a missing file whose error arrives wrapped. */
  lemma EncodeFailureAsWrittenDiffers(path: string, e: GoError)
    ensures EncodeFailureAsWritten(path, e) != EncodeFailure(path, e) <==> !OsIsNotExist(e) && ErrorsIsNotExist(e)
  {
    if !OsIsNotExist(e) && ErrorsIsNotExist(e) {
      assert EncodeFailureAsWritten(path, e).kind != EncodeFailure(path, e).kind;
    }
  }

  /** The error CheckPromptImageWithModel makes of a failed encoding, as written (with os.IsNotExist). */
  function SingleEncodeFailureAsWritten(path: string, e: GoError): (err: Error)
    ensures err.kind == Validation <==> OsIsNotExist(e)
  {
    if OsIsNotExist(e) then NewValidationError("image file not found: " + path)
    else NewXiangxinAIError("failed to encode image: " + GoErrorText(e), Some(Foreign(GoErrorText(e))))
  }

  /** As written, a missing local image given alone is never reported as "image file not found" either. */
  lemma MissingSingleImageNotReportedAsWritten(path: string)
    ensures SingleEncodeFailureAsWritten(path, MissingFileError(path)).kind == Base
    ensures SingleEncodeFailure(path, MissingFileError(path)) == NewValidationError("image file not found: " + path)
  {
    assert ErrorsIsNotExist(MissingFileError(path));
  }

  /** The same for CheckPromptImageWithModel, whose message does not repeat the path. */
  function SingleEncodeFailure(path: string, e: GoError): (err: Error)
    ensures err.kind == Validation <==> ErrorsIsNotExist(e)
    ensures err.kind == Validation ==> err.message == "image file not found: " + path
    ensures err.kind != Validation ==> err.kind == Base && Unwrap(err) == Some(Foreign(GoErrorText(e)))
  {
    if ErrorsIsNotExist(e) then NewValidationError("image file not found: " + path)
    else NewXiangxinAIError("failed to encode image: " + GoErrorText(e), Some(Foreign(GoErrorText(e))))
  }

  /** The text part that leads the content: present only when the prompt is not blank. */
  function PromptParts(prompt: string): (parts: seq<ContentPart>)
    ensures |parts| <= 1
    ensures parts == [] <==> AllSpace(prompt)
    ensures parts != [] ==> parts[0] == TextPart(TrimSpace(prompt))
  {
    BlankIffAllSpace(prompt);
    if TrimSpace(prompt) != "" then [TextPart(TrimSpace(prompt))] else []
  }

  /** The image part for one base64-encoded image. */
  function ImagePart(base64: string): ContentPart {
    ImageUrlPart("data:image/jpeg;base64," + base64)
  }

  /** The first image whose encoding fails, with its error. */
  function FirstEncodeFailure(images: seq<string>, encode: string -> Result<string, GoError>): (r: Option<(string, GoError)>)
    ensures r.Some? ==> r.value.0 in images && encode(r.value.0) == Failure(r.value.1)
  {
    if images == [] then None
    else
      var earlier := FirstEncodeFailure(images[..|images| - 1], encode);
      var r := encode(images[|images| - 1]);
      if earlier.Some? then earlier
      else if r.Failure? then Some((images[|images| - 1], r.error))
      else None
  }

  /** The image parts, one per image and in the order given, when every encoding succeeds. */
  function ImageParts(images: seq<string>, encode: string -> Result<string, GoError>): (parts: seq<ContentPart>)
    requires FirstEncodeFailure(images, encode).None?
    ensures |parts| == |images|
    ensures forall i :: 0 <= i < |images| ==>
      encode(images[i]).Success? && parts[i] == ImagePart(encode(images[i]).value)
  {
    if images == [] then []
    else ImageParts(images[..|images| - 1], encode) + [ImagePart(encode(images[|images| - 1]).value)]
  }

  /**
   * FirstEncodeFailure names the first image that cannot be encoded: none
   * fails iff it is None, and what it names fails after every earlier image encoded.
   */
  lemma {:induction false} FirstEncodeFailureIsFirst(images: seq<string>, encode: string -> Result<string, GoError>)
    ensures FirstEncodeFailure(images, encode).None? <==> forall i :: 0 <= i < |images| ==> encode(images[i]).Success?
    ensures FirstEncodeFailure(images, encode).Some? ==>
      exists i :: && 0 <= i < |images|
                  && encode(images[i]).Failure?
                  && FirstEncodeFailure(images, encode) == Some((images[i], encode(images[i]).error))
                  && forall j :: 0 <= j < i ==> encode(images[j]).Success?
  {
    if images != [] {
      var init := images[..|images| - 1];
      FirstEncodeFailureIsFirst(init, encode);
      assert forall i :: 0 <= i < |init| ==> init[i] == images[i];
      if FirstEncodeFailure(init, encode).Some? {
        var i :| 0 <= i < |init| && encode(init[i]).Failure?
          && FirstEncodeFailure(init, encode) == Some((init[i], encode(init[i]).error)) && forall j :: 0 <= j < i ==> encode(init[j]).Success?;
        assert images[i] == init[i];
      }
    }
  }

  /** The one user message of an image check. */
  function ImageRequest(model: string, parts: seq<ContentPart>, userID: seq<string>): RequestBody {
    ChatRequest(model, [Message("user", Parts(parts))], UserId(userID))
  }

  /**
   * CheckPromptImagesWithModel before the request: an empty list is a
   * validation error, the first image that cannot be encoded ends the check,
   * and otherwise one user message holds the prompt's text part followed by
   * one image part per image.
   */
  method ImagesPlan(prompt: string, images: seq<string>, model: string, userID: seq<string>,
                    encode: string -> Result<string, GoError>)
    returns (plan: Plan)
    ensures |images| == 0 ==> plan == Immediate(Failed(NewValidationError("images list cannot be empty")))
    ensures |images| > 0 && FirstEncodeFailure(images, encode).Some? ==>
      var (path, e) := FirstEncodeFailure(images, encode).value;
      plan == Immediate(Failed(EncodeFailure(path, e)))
    ensures |images| > 0 && FirstEncodeFailure(images, encode).None? ==>
      plan == Send("/guardrails", ImageRequest(model, PromptParts(prompt) + ImageParts(images, encode), userID))
  {
    if |images| == 0 {
      return Immediate(Failed(NewValidationError("images list cannot be empty")));
    }

    var content: seq<ContentPart> := [];
    if TrimSpace(prompt) != "" {
      content := content + [TextPart(TrimSpace(prompt))];
    }
    assert content == PromptParts(prompt);

    var failure;
    content, failure := AppendImageParts(content, images, encode);
    if failure.Some? {
      var (imagePath, err) := failure.value;
      return Immediate(Failed(EncodeFailure(imagePath, err)));
    }
    return Send("/guardrails", ImageRequest(model, content, userID));
  }

  /**
   * The loop of CheckPromptImagesWithModel that encodes every image in turn
   * and appends its part, stopping at the first image that cannot be encoded.
   */
  method AppendImageParts(content: seq<ContentPart>, images: seq<string>, encode: string -> Result<string, GoError>)
    returns (content': seq<ContentPart>, failure: Option<(string, GoError)>)
    ensures failure == FirstEncodeFailure(images, encode)
    ensures failure.None? ==> content' == content + ImageParts(images, encode)
  {
    content' := content;
    var i := 0;
    while i < |images|
      invariant 0 <= i <= |images|
      invariant FirstEncodeFailure(images[..i], encode).None?
      invariant content' == content + ImageParts(images[..i], encode)
    {
      var imagePath := images[i];
      var r := encode(imagePath);
      if r.Failure? {
        FirstEncodeFailurePrefix(images, i, encode);
        return content', Some((imagePath, r.error));
      }
      ImagePartsStep(images, i, encode);
      content' := content' + [ImagePart(r.value)];
      i := i + 1;
    }
    assert images[..|images|] == images;
    failure := None;
  }

  /** One more successfully encoded image adds its part at the end. */
  lemma ImagePartsStep(images: seq<string>, i: nat, encode: string -> Result<string, GoError>)
    requires i < |images| && FirstEncodeFailure(images[..i], encode).None? && encode(images[i]).Success?
    ensures FirstEncodeFailure(images[..i + 1], encode).None?
    ensures ImageParts(images[..i + 1], encode) == ImageParts(images[..i], encode) + [ImagePart(encode(images[i]).value)]
  {
    assert images[..i + 1][..i] == images[..i];
  }

  /** A failure right after a clean prefix is the first failure of the whole list. */
  lemma {:induction false} FirstEncodeFailurePrefix(images: seq<string>, i: nat, encode: string -> Result<string, GoError>)
    requires i < |images| && FirstEncodeFailure(images[..i], encode).None? && encode(images[i]).Failure?
    ensures FirstEncodeFailure(images, encode) == Some((images[i], encode(images[i]).error))
    decreases |images| - i
  {
    assert images[..i + 1][..i] == images[..i];
    if i + 1 < |images| {
      assert images[..|images| - 1][..i] == images[..i];
      FirstEncodeFailurePrefix(images[..|images| - 1], i, encode);
    } else {
      assert images[..i + 1] == images;
    }
  }

  /**
   * CheckPromptImageWithModel before the request: an empty path is a
   * validation error, a failed encoding ends the check, and otherwise the
   * content is the prompt's text part followed by the one image part.
   */
  function ImagePlan(prompt: string, image: string, model: string, userID: seq<string>,
                     encode: string -> Result<string, GoError>): (plan: Plan)
    ensures image == "" ==> plan == Immediate(Failed(NewValidationError("image path cannot be empty")))
    ensures image != "" && encode(image).Failure? ==> plan == Immediate(Failed(SingleEncodeFailure(image, encode(image).error)))
    ensures image != "" && encode(image).Success? ==>
      plan == Send("/guardrails", ImageRequest(model, PromptParts(prompt) + ImageParts([image], encode), userID))
  {
    if image == "" then Immediate(Failed(NewValidationError("image path cannot be empty")))
    else
      match encode(image)
      case Failure(err) => Immediate(Failed(SingleEncodeFailure(image, err)))
      case Success(base64) =>
        assert [image][..0] == [];
        assert ImageParts([image], encode) == [ImagePart(base64)];
        Send("/guardrails", ImageRequest(model, PromptParts(prompt) + [ImagePart(base64)], userID))
  }

  // ---------------------------------------------------------------------------
  // The public checks: the plan, then the request loop when the plan sends

  const VisionModel := "Xiangxin-Guardrails-VL"

  /** CheckPrompt: blank content is answered as safe with no POST; anything else goes through the retry loop. */
  method CheckPrompt(client: Client, content: string, userID: seq<string>, script: nat -> HttpOutcome)
    returns (outcome: Outcome, attempts: nat, delays: seq<nat>, sent: Option<(string, RequestBody)>)
    ensures AllSpace(content) ==> outcome == Answered(CreateSafeResponse()) && attempts == 0 && delays == [] && sent == None
    ensures !AllSpace(content) ==>
      sent == Some(("/guardrails/input", DataRequest(TrimSpace(content), None, UserId(userID))))
    ensures !AllSpace(content) ==> Trace(outcome, attempts, delays) == RetryFrom(client.maxRetries, script, 0)
  {
    var plan := PromptPlan(content, userID);
    outcome, attempts, delays, sent := Perform(client, plan, script);
  }

  /** CheckResponseCtx: no POST only when both the prompt and the response are blank. */
  method CheckResponseCtx(client: Client, prompt: string, response: string, userID: seq<string>,
                          script: nat -> HttpOutcome)
    returns (outcome: Outcome, attempts: nat, delays: seq<nat>, sent: Option<(string, RequestBody)>)
    ensures AllSpace(prompt) && AllSpace(response) ==>
      outcome == Answered(CreateSafeResponse()) && attempts == 0 && delays == [] && sent == None
    ensures !(AllSpace(prompt) && AllSpace(response)) ==>
      sent == Some(("/guardrails/output", DataRequest(TrimSpace(prompt), Some(TrimSpace(response)), UserId(userID))))
    ensures !(AllSpace(prompt) && AllSpace(response)) ==>
      Trace(outcome, attempts, delays) == RetryFrom(client.maxRetries, script, 0)
  {
    var plan := ResponsePlan(prompt, response, userID);
    outcome, attempts, delays, sent := Perform(client, plan, script);
  }

  /** CheckConversationWithModel: a refused list fails with no POST, as does (successfully) an all-blank one. */
  method CheckConversationWithModel(client: Client, messages: seq<Option<Message>>, model: string,
                                    userID: seq<string>, script: nat -> HttpOutcome)
    returns (outcome: Outcome, attempts: nat, delays: seq<nat>, sent: Option<(string, RequestBody)>)
    requires IsTextMessages(messages)
    ensures |messages| == 0 ==>
      outcome == Failed(NewValidationError("messages cannot be empty")) && attempts == 0 && delays == [] && sent == None
    ensures |messages| > 0 && FirstProblem(messages).Some? ==>
      outcome == Failed(NewValidationError(FirstProblem(messages).value)) && attempts == 0 && delays == [] && sent == None
    ensures |messages| > 0 && FirstProblem(messages).None? && Kept(messages) == [] ==>
      outcome == Answered(CreateSafeResponse()) && attempts == 0 && delays == [] && sent == None
    ensures |messages| > 0 && FirstProblem(messages).None? && Kept(messages) != [] ==>
      sent == Some(("/guardrails", ChatRequest(model, Kept(messages), UserId(userID))))
    ensures |messages| > 0 && FirstProblem(messages).None? && Kept(messages) != [] ==>
      Trace(outcome, attempts, delays) == RetryFrom(client.maxRetries, script, 0)
  {
    var plan := ConversationPlan(messages, model, userID);
    outcome, attempts, delays, sent := Perform(client, plan, script);
  }

  /** CheckConversation: the same with the default text model. */
  method CheckConversation(client: Client, messages: seq<Option<Message>>, userID: seq<string>,
                           script: nat -> HttpOutcome)
    returns (outcome: Outcome, attempts: nat, delays: seq<nat>, sent: Option<(string, RequestBody)>)
    requires IsTextMessages(messages)
    ensures |messages| == 0 ==>
      outcome == Failed(NewValidationError("messages cannot be empty")) && attempts == 0 && delays == [] && sent == None
    ensures |messages| > 0 && FirstProblem(messages).Some? ==>
      outcome == Failed(NewValidationError(FirstProblem(messages).value)) && attempts == 0 && delays == [] && sent == None
    ensures |messages| > 0 && FirstProblem(messages).None? && Kept(messages) == [] ==>
      outcome == Answered(CreateSafeResponse()) && attempts == 0 && delays == [] && sent == None
    ensures |messages| > 0 && FirstProblem(messages).None? && Kept(messages) != [] ==>
      sent == Some(("/guardrails", ChatRequest(DefaultModel, Kept(messages), UserId(userID))))
    ensures |messages| > 0 && FirstProblem(messages).None? && Kept(messages) != [] ==>
      Trace(outcome, attempts, delays) == RetryFrom(client.maxRetries, script, 0)
  {
    outcome, attempts, delays, sent := CheckConversationWithModel(client, messages, DefaultModel, userID, script);
  }

  /** CheckPromptImagesWithModel: an empty list or an image that cannot be encoded fails with no POST. */
  method CheckPromptImagesWithModel(client: Client, prompt: string, images: seq<string>, model: string,
                                    userID: seq<string>, encode: string -> Result<string, GoError>,
                                    script: nat -> HttpOutcome)
    returns (outcome: Outcome, attempts: nat, delays: seq<nat>, sent: Option<(string, RequestBody)>)
    ensures |images| == 0 ==>
      outcome == Failed(NewValidationError("images list cannot be empty")) && attempts == 0 && delays == [] && sent == None
    ensures |images| > 0 && FirstEncodeFailure(images, encode).Some? ==>
      var (path, e) := FirstEncodeFailure(images, encode).value;
      outcome == Failed(EncodeFailure(path, e)) && attempts == 0 && delays == [] && sent == None
    ensures |images| > 0 && FirstEncodeFailure(images, encode).None? ==>
      sent == Some(("/guardrails", ImageRequest(model, PromptParts(prompt) + ImageParts(images, encode), userID)))
    ensures |images| > 0 && FirstEncodeFailure(images, encode).None? ==>
      Trace(outcome, attempts, delays) == RetryFrom(client.maxRetries, script, 0)
  {
    var plan := ImagesPlan(prompt, images, model, userID, encode);
    outcome, attempts, delays, sent := Perform(client, plan, script);
  }

  /** CheckPromptImages: the same with the vision model. */
  method CheckPromptImages(client: Client, prompt: string, images: seq<string>, userID: seq<string>,
                           encode: string -> Result<string, GoError>, script: nat -> HttpOutcome)
    returns (outcome: Outcome, attempts: nat, delays: seq<nat>, sent: Option<(string, RequestBody)>)
    ensures |images| == 0 ==>
      outcome == Failed(NewValidationError("images list cannot be empty")) && attempts == 0 && delays == [] && sent == None
    ensures |images| > 0 && FirstEncodeFailure(images, encode).Some? ==>
      var (path, e) := FirstEncodeFailure(images, encode).value;
      outcome == Failed(EncodeFailure(path, e)) && attempts == 0 && delays == [] && sent == None
    ensures |images| > 0 && FirstEncodeFailure(images, encode).None? ==>
      sent == Some(("/guardrails", ImageRequest(VisionModel, PromptParts(prompt) + ImageParts(images, encode), userID)))
    ensures |images| > 0 && FirstEncodeFailure(images, encode).None? ==>
      Trace(outcome, attempts, delays) == RetryFrom(client.maxRetries, script, 0)
  {
    outcome, attempts, delays, sent := CheckPromptImagesWithModel(client, prompt, images, VisionModel, userID, encode, script);
  }

  /** CheckPromptImageWithModel: an empty path or an image that cannot be encoded fails with no POST. */
  method CheckPromptImageWithModel(client: Client, prompt: string, image: string, model: string,
                                   userID: seq<string>, encode: string -> Result<string, GoError>,
                                   script: nat -> HttpOutcome)
    returns (outcome: Outcome, attempts: nat, delays: seq<nat>, sent: Option<(string, RequestBody)>)
    ensures image == "" ==>
      outcome == Failed(NewValidationError("image path cannot be empty")) && attempts == 0 && delays == [] && sent == None
    ensures image != "" && encode(image).Failure? ==>
      outcome == Failed(SingleEncodeFailure(image, encode(image).error)) && attempts == 0 && delays == [] && sent == None
    ensures image != "" && encode(image).Success? ==>
      sent == Some(("/guardrails", ImageRequest(model, PromptParts(prompt) + [ImagePart(encode(image).value)], userID)))
    ensures image != "" && encode(image).Success? ==>
      Trace(outcome, attempts, delays) == RetryFrom(client.maxRetries, script, 0)
  {
    var plan := ImagePlan(prompt, image, model, userID, encode);
    outcome, attempts, delays, sent := Perform(client, plan, script);
  }

  /** CheckPromptImage: the same with the vision model. */
  method CheckPromptImage(client: Client, prompt: string, image: string, userID: seq<string>,
                          encode: string -> Result<string, GoError>, script: nat -> HttpOutcome)
    returns (outcome: Outcome, attempts: nat, delays: seq<nat>, sent: Option<(string, RequestBody)>)
    ensures image == "" ==>
      outcome == Failed(NewValidationError("image path cannot be empty")) && attempts == 0 && delays == [] && sent == None
    ensures image != "" && encode(image).Failure? ==>
      outcome == Failed(SingleEncodeFailure(image, encode(image).error)) && attempts == 0 && delays == [] && sent == None
    ensures image != "" && encode(image).Success? ==>
      sent == Some(("/guardrails", ImageRequest(VisionModel, PromptParts(prompt) + [ImagePart(encode(image).value)], userID)))
    ensures image != "" && encode(image).Success? ==>
      Trace(outcome, attempts, delays) == RetryFrom(client.maxRetries, script, 0)
  {
    outcome, attempts, delays, sent := CheckPromptImageWithModel(client, prompt, image, VisionModel, userID, encode, script);
  }
}
