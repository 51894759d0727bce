/**
 * The error values of the client. In Go every error type embeds a
 * *XiangxinAIError, so they share its Message, Cause, Error() and Unwrap();
 * here the embedding type becomes the `kind` tag of one datatype.
 */
module Errors {
  import opened Wrappers

  /** Which Go type carries the error. */
  datatype Kind = Base | Authentication | RateLimit | Validation | Network | Server

  /**
   * The Cause field: another error of this package, or an error from outside
   * (resty, encoding/json, os, net/http) represented by the text of its Error().
   */
  datatype Cause = Foreign(text: string) | Guardrail(error: Error)

  /** XiangxinAIError and the types that embed it; a nil Cause is None. */
  datatype Error = Error(kind: Kind, message: string, cause: Option<Cause>)

  function CauseText(c: Cause): string {
    match c
    case Foreign(text) => text
    case Guardrail(e) => ErrorText(e)
  }

  /** XiangxinAIError.Error(): the message, followed by ": " and the cause's own text when there is a cause. */
  function ErrorText(e: Error): (s: string)
    ensures e.cause.None? ==> s == e.message
    ensures e.cause.Some? ==> s == e.message + ": " + CauseText(e.cause.value)
  {
    match e.cause
    case None => e.message
    case Some(c) => e.message + ": " + CauseText(c)
  }

  /** The message always opens the text, and the text is exactly the message iff there is no cause. */
  lemma ErrorTextIsMessageIffNoCause(e: Error)
    ensures ErrorText(e)[..|e.message|] == e.message
    ensures ErrorText(e) == e.message <==> e.cause.None?
  {
    if e.cause.Some? {
      assert |ErrorText(e)| > |e.message|;
    }
  }

  /** XiangxinAIError.Unwrap(): the stored cause, nil when there is none. */
  function Unwrap(e: Error): (c: Option<Cause>)
    ensures c == e.cause
  {
    e.cause
  }

  /** NewXiangxinAIError keeps the message and the cause it is given. */
  function NewXiangxinAIError(message: string, cause: Option<Cause>): (e: Error)
    ensures e.kind == Base && e.message == message && Unwrap(e) == cause
  {
    Error(Base, message, cause)
  }

  /** NewAuthenticationError: no cause, so Error() is the message. */
  function NewAuthenticationError(message: string): (e: Error)
    ensures e.kind == Authentication && Unwrap(e) == None && ErrorText(e) == message
  {
    Error(Authentication, message, None)
  }

  /** NewRateLimitError: no cause, so Error() is the message. */
  function NewRateLimitError(message: string): (e: Error)
    ensures e.kind == RateLimit && Unwrap(e) == None && ErrorText(e) == message
  {
    Error(RateLimit, message, None)
  }

  /** NewValidationError: no cause, so Error() is the message. */
  function NewValidationError(message: string): (e: Error)
    ensures e.kind == Validation && Unwrap(e) == None && ErrorText(e) == message
  {
    Error(Validation, message, None)
  }

  /** NewNetworkError keeps its cause, so Error() reports it after the message. */
  function NewNetworkError(message: string, cause: Option<Cause>): (e: Error)
    ensures e.kind == Network && Unwrap(e) == cause
    ensures cause.Some? ==> ErrorText(e) == message + ": " + CauseText(cause.value)
  {
    Error(Network, message, cause)
  }

  /** NewServerError: no cause, so Error() is the message. */
  function NewServerError(message: string): (e: Error)
    ensures e.kind == Server && Unwrap(e) == None && ErrorText(e) == message
  {
    Error(Server, message, None)
  }
}
