/**
 * The records the relay engine passes between its stages: relay modes,
 * channel types, the per-request relay information, the parsed client
 * request, token usage and the error values handed back to the client.
 * JSON decoding is not modelled: every record here is already structured.
 */
module Dto {
  import opened Wrappers

  /** The relay modes the engine distinguishes (their numeric codes are not part of this model). */
  datatype RelayMode =
    | ChatCompletions
    | Completions
    | Embeddings
    | Moderations
    | ImagesGenerations
    | Edits
    | AudioSpeech
    | AudioTranslation
    | AudioTranscription
    | MidjourneyNotify
    | MidjourneyTaskFetch
    | MidjourneyTaskFetchByCondition
    | MidjourneyTaskImageSeed
    | SwapFace
    | MidjourneySubmit(kind: int)
    | UnknownMode

  /** Upstream channel types; Unknown is Go's zero value. */
  datatype ChannelType = Unknown | OpenAI | Azure | Ai360 | Moonshot | OtherChannel(code: int)

  /** The value of a Go `any` field decoded from JSON: absent (nil), a string, or some other JSON value. */
  datatype AnyValue = Absent | Str(s: string) | OtherJson

  /** Go's `x == ""` on an `any` value: true only for a string that is empty. */
  predicate IsEmptyString(v: AnyValue)
  {
    v == Str("")
  }

  datatype Message = Message(role: string, content: string)

  /** The fields of the client request that the relay engine inspects or rewrites. */
  datatype GeneralRequest = GeneralRequest(
    model: string,
    maxTokens: int,
    prompt: AnyValue,
    messages: seq<Message>,
    input: AnyValue,
    instruction: string,
    stream: bool)

  /** Per-request relay information. */
  datatype RelayInfo = RelayInfo(
    channelType: ChannelType,
    channelId: int,
    relayMode: RelayMode,
    userId: int,
    tokenId: int,
    tokenUnlimited: bool,
    group: string,
    baseUrl: string,
    requestURLPath: string,
    apiVersion: string,
    apiKey: string,
    organization: string,
    upstreamModelName: string,
    isStream: bool,
    promptTokens: int)

  datatype Usage = Usage(promptTokens: int, completionTokens: int, totalTokens: int)

  /** OpenAI's error object; its `code` field is written as a string here. */
  datatype OpenAIError = OpenAIError(message: string, errorType: string, param: string, code: string)

  /**
   * An error with the HTTP status it is answered with: either one the engine
   * wraps itself (an error message, an error code and a status, the
   * arguments of OpenAIErrorWrapper) or an error object the upstream sent.
   */
  datatype RelayError =
    | Wrapped(message: string, code: string, status: int)
    | Upstream(error: OpenAIError, status: int)
  {
    function StatusCode(): int
    {
      match this
      case Wrapped(_, _, s) => s
      case Upstream(_, s) => s
    }

    function Message(): string
    {
      match this
      case Wrapped(m, _, _) => m
      case Upstream(e, _) => e.message
    }

    /** The error with its message replaced, everything else kept. */
    function WithMessage(m: string): (r: RelayError)
      ensures r.Message() == m && r.StatusCode() == StatusCode()
      ensures r.Wrapped? == Wrapped?
    {
      match this
      case Wrapped(_, c, s) => Wrapped(m, c, s)
      case Upstream(e, s) => Upstream(e.(message := m), s)
    }
  }

  /**
   * What an adaptor's DoResponse hands back to the request orchestration:
   * the usage, an error and the sensitive words reported, or a panic in the
   * request's own goroutine, or a panic in a goroutine it started (which
   * ends the process), or no answer at all because the handler waits for good.
   */
  datatype ResponseOutcome =
    | Responded(usage: Option<Usage>, err: Option<RelayError>, sensitiveWords: Option<seq<string>>)
    | RequestPanicked
    | ProcessCrashed
    | RequestHung

  /** HTTP status codes the engine answers with. */
  const StatusOK: int := 200
  const StatusTemporaryRedirect: int := 307
  const StatusBadRequest: int := 400
  const StatusForbidden: int := 403
  const StatusNotFound: int := 404
  const StatusTooManyRequests: int := 429
  const StatusInternalServerError: int := 500
  const StatusNotImplemented: int := 501
}
