/**
 * The relay controller: which helper serves a relay mode, the retry
 * counter carried in the `retry` query parameter, the choice between a
 * redirect that retries the request and a JSON error, the decision to
 * disable the channel, the Midjourney error answer, and the fixed answers
 * for unimplemented and unknown routes.
 */
module Controller {
  import opened Wrappers
  import opened Strings
  import opened Dto

  /** The helper that serves a relay request. */
  datatype RelayHelper = ImageHelper | AudioHelper | TextHelper

  /** Relay's dispatch: images, the three audio modes, and text for everything else. */
  function RelayDispatch(mode: RelayMode): (h: RelayHelper)
    ensures h == ImageHelper <==> mode == ImagesGenerations
    ensures h == AudioHelper <==> mode in {AudioSpeech, AudioTranslation, AudioTranscription}
    ensures h == TextHelper <==> mode !in {ImagesGenerations, AudioSpeech, AudioTranslation, AudioTranscription}
  {
    match mode
    case ImagesGenerations => ImageHelper
    case AudioSpeech => AudioHelper
    case AudioTranslation => AudioHelper
    case AudioTranscription => AudioHelper
    case _ => TextHelper
  }

  /** The retry count: the configured count when the query has no `retry`, else its Atoi value (0 when it is not a number). */
  function RetryTimes(retryQuery: string, configured: int): (n: int)
    ensures retryQuery == "" ==> n == configured
    ensures retryQuery != "" ==> n == Atoi(retryQuery)
  {
    if retryQuery == "" then configured else Atoi(retryQuery)
  }

  /** A `retry` value with no digit in it counts as 0 retries. */
  lemma NonNumericRetryIsZero(retryQuery: string, configured: int)
    requires retryQuery != ""
    requires forall i :: 0 <= i < |retryQuery| ==> !IsDigit(retryQuery[i])
    ensures RetryTimes(retryQuery, configured) == 0
  {
    AtoiOfNonNumeric(retryQuery);
  }

  /** A `retry` value whose digit run exceeds the uint64 range counts as the largest int64, whatever follows the run. */
  lemma OverflowingRetrySaturates(d: string, t: string, configured: int)
    requires AllDigits(d) && DigitsValue(d) > MaxUint64
    ensures RetryTimes(d + t, configured) == MaxInt64
  {
    AtoiSaturates(d, t);
    assert d != [];
  }

  /** What Relay writes to the client when its helper failed: a redirect that retries, or the error as JSON. */
  datatype Reply =
    | Redirect(status: int, location: string)
    | JsonError(status: int, error: RelayError)

  /**
   * Relay's decision for a failed request: the reply, the error as it
   * stands once the reply is written (the JSON branch rewrites its message),
   * and whether the channel is disabled.
   */
  datatype Decision = Decision(reply: Reply, finalError: RelayError, disable: bool)

  /** The location of the retry redirect: the same path with one retry fewer. */
  function RetryLocation(path: string, retries: nat): string
  {
    path + "?retry=" + NatToDecimal(retries)
  }

  /**
   * Relay after its helper returned `err`. `withRequestId` is
   * MessageWithRequestId and `shouldDisable` is ShouldDisableChannel (both
   * not part of this model); `autoBan` is the channel's auto-ban setting.
   */
  function RelayDecision(err: RelayError, path: string, retryQuery: string, configuredRetries: int, requestId: string,
                         withRequestId: (string, string) -> string, shouldDisable: (RelayError, int) -> bool,
                         autoBan: bool): (d: Decision)
    ensures RetryTimes(retryQuery, configuredRetries) > 0 ==>
              d.reply == Redirect(StatusTemporaryRedirect, RetryLocation(path, RetryTimes(retryQuery, configuredRetries) - 1))
              && d.finalError == err
    ensures RetryTimes(retryQuery, configuredRetries) <= 0 ==>
              d.reply == JsonError(err.StatusCode(), d.finalError) &&
              d.finalError == err.WithMessage(withRequestId(err.Message(), requestId))
    ensures d.finalError.StatusCode() == err.StatusCode()
    ensures d.disable <==> shouldDisable(d.finalError, err.StatusCode()) && autoBan
  {
    var retries := RetryTimes(retryQuery, configuredRetries);
    var final := if retries > 0 then err else err.WithMessage(withRequestId(err.Message(), requestId));
    var reply := if retries > 0 then Redirect(StatusTemporaryRedirect, RetryLocation(path, retries - 1))
                 else JsonError(final.StatusCode(), final);
    Decision(reply, final, shouldDisable(final, final.StatusCode()) && autoBan)
  }

  /** The next request reads back one retry fewer than the one redirected: a chain of retries ends. */
  lemma RetryCountsDown(err: RelayError, path: string, retryQuery: string, configuredRetries: int, requestId: string,
                        withRequestId: (string, string) -> string, shouldDisable: (RelayError, int) -> bool, autoBan: bool)
    requires configuredRetries <= MaxInt64
    requires RetryTimes(retryQuery, configuredRetries) > 0
    ensures var n := RetryTimes(retryQuery, configuredRetries);
            var d := RelayDecision(err, path, retryQuery, configuredRetries, requestId, withRequestId, shouldDisable, autoBan);
            d.reply == Redirect(StatusTemporaryRedirect, path + "?retry=" + NatToDecimal(n - 1)) &&
            RetryTimes(NatToDecimal(n - 1), configuredRetries) == n - 1
  {
    var n := RetryTimes(retryQuery, configuredRetries);
    AtoiOfDecimal(n - 1);
    assert NatToDecimal(n - 1) != "";
  }

  /**
   * With a redirect the disable decision sees the error as the helper
   * returned it; with a JSON reply it sees the message with the request id.
   */
  lemma DisableSeesReplyError(err: RelayError, path: string, retryQuery: string, configuredRetries: int, requestId: string,
                              withRequestId: (string, string) -> string, shouldDisable: (RelayError, int) -> bool)
    ensures var d := RelayDecision(err, path, retryQuery, configuredRetries, requestId, withRequestId, shouldDisable, true);
            d.disable == shouldDisable(if d.reply.Redirect? then err else err.WithMessage(withRequestId(err.Message(), requestId)),
                                       err.StatusCode())
    ensures !RelayDecision(err, path, retryQuery, configuredRetries, requestId, withRequestId, shouldDisable, false).disable
  {
  }

  // ---------------------------------------------------------------------
  // Midjourney

  /** The Midjourney handler a relay mode goes to; every other mode is a submission. */
  datatype MidjourneyHandler = Notify | TaskFetch | TaskImageSeed | SwapFaceTask | Submit

  function MidjourneyDispatch(mode: RelayMode): (h: MidjourneyHandler)
    ensures h == Notify <==> mode == MidjourneyNotify
    ensures h == TaskFetch <==> mode == MidjourneyTaskFetch || mode == MidjourneyTaskFetchByCondition
    ensures h == TaskImageSeed <==> mode == MidjourneyTaskImageSeed
    ensures h == SwapFaceTask <==> mode == SwapFace
  {
    match mode
    case MidjourneyNotify => Notify
    case MidjourneyTaskFetch => TaskFetch
    case MidjourneyTaskFetchByCondition => TaskFetch
    case MidjourneyTaskImageSeed => TaskImageSeed
    case SwapFace => SwapFaceTask
    case _ => Submit
  }

  /** A Midjourney error response: its code, description and result. */
  datatype MidjourneyResponse = MidjourneyResponse(code: int, description: string, result: string)

  /** The JSON answer RelayMidjourney writes for an error. */
  datatype MidjourneyReply = MidjourneyReply(status: int, description: string, replyType: string, code: int)

  /** The code a saturated group answers with. */
  const SaturatedCode: int := 30
  /** The result text that replaces a saturated group's result. */
  const SaturatedResult: string := "当前分组负载已饱和，请稍后再试，或升级账户以提升服务质量。"

  /** RelayMidjourney's answer: nothing when the handler succeeded; 429 with the result replaced for code 30; 400 otherwise. */
  function MidjourneyErrorReply(err: Option<MidjourneyResponse>): (r: Option<MidjourneyReply>)
    ensures r.Some? <==> err.Some?
    ensures err.Some? && err.value.code == SaturatedCode ==>
              r == Some(MidjourneyReply(StatusTooManyRequests, err.value.description + " " + SaturatedResult, "upstream_error", SaturatedCode))
    ensures err.Some? && err.value.code != SaturatedCode ==>
              r == Some(MidjourneyReply(StatusBadRequest, err.value.description + " " + err.value.result, "upstream_error", err.value.code))
  {
    match err
    case None => None
    case Some(e) =>
      var e := if e.code == SaturatedCode then e.(result := SaturatedResult) else e;
      var status := if e.code == SaturatedCode then StatusTooManyRequests else StatusBadRequest;
      Some(MidjourneyReply(status, e.description + " " + e.result, "upstream_error", e.code))
  }

  // ---------------------------------------------------------------------
  // Fixed answers

  /** RelayNotImplemented: 501 with the api_not_implemented error. */
  function RelayNotImplemented(): (r: (int, OpenAIError))
    ensures r.0 == StatusNotImplemented
    ensures r.1 == OpenAIError("API not implemented", "new_api_error", "", "api_not_implemented")
  {
    (StatusNotImplemented, OpenAIError("API not implemented", "new_api_error", "", "api_not_implemented"))
  }

  /** RelayNotFound: 404 naming the method and path of the request. */
  function RelayNotFound(httpMethod: string, path: string): (r: (int, OpenAIError))
    ensures r.0 == StatusNotFound
    ensures r.1.message == "Invalid URL (" + httpMethod + " " + path + ")"
    ensures r.1.errorType == "invalid_request_error" && r.1.param == "" && r.1.code == ""
  {
    (StatusNotFound, OpenAIError("Invalid URL (" + httpMethod + " " + path + ")", "invalid_request_error", "", ""))
  }
}
