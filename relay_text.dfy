/**
 * Request orchestration for text requests: validation of the client
 * request, the one-step model mapping, prompt-token counting by mode, the
 * pre-consume estimate, the quota reservation against the user cache and
 * the token ledger, and the settlement or return of that reservation once
 * the upstream has answered. The quota store is an object whose cached user
 * quota changes and whose ledger calls are logged, so that which paths
 * return or settle a reservation can be stated.
 */
module RelayText {
  import opened Wrappers
  import opened Strings
  import opened Dto

  // ---------------------------------------------------------------------
  // Validation

  const MaxInt32: int := 0x7FFF_FFFF
  /** The largest max_tokens accepted: MaxInt32 / 2 in Go's integer division. */
  const MaxTokensLimit: int := MaxInt32 / 2

  /** The default model moderations and embeddings get when the request names none. */
  function DefaultedModel(mode: RelayMode, request: GeneralRequest, modelParam: string): (m: string)
    ensures request.model != "" ==> m == request.model
    ensures request.model == "" && mode == Moderations ==> m == "text-moderation-latest"
    ensures request.model == "" && mode == Embeddings ==> m == modelParam
    ensures request.model == "" && mode != Moderations && mode != Embeddings ==> m == ""
  {
    if mode == Moderations && request.model == "" then "text-moderation-latest"
    else if mode == Embeddings && request.model == "" then modelParam
    else request.model
  }

  /** The field each mode requires; a Go `any` field counts as missing only when it is the empty string. */
  predicate HasRequiredField(mode: RelayMode, request: GeneralRequest)
  {
    match mode
    case Completions => !IsEmptyString(request.prompt)
    case ChatCompletions => |request.messages| > 0
    case Moderations => !IsEmptyString(request.input)
    case Edits => request.instruction != ""
    case _ => true
  }

  /**
   * getAndValidateTextRequest: `parsed` is the decoded body or the decoding
   * error, `modelParam` the `model` path parameter. The model defaults are
   * applied first, then max_tokens and the model are checked, then the
   * field the mode requires.
   */
  function ValidateTextRequest(mode: RelayMode, parsed: Result<GeneralRequest, string>, modelParam: string)
    : (r: Result<GeneralRequest, string>)
    ensures parsed.Err? ==> r == Err(parsed.error)
    ensures parsed.Ok? ==>
              (r.Ok? <==> 0 <= parsed.value.maxTokens <= MaxTokensLimit
                          && DefaultedModel(mode, parsed.value, modelParam) != ""
                          && HasRequiredField(mode, parsed.value))
    ensures r.Ok? ==> r.value == parsed.value.(model := DefaultedModel(mode, parsed.value, modelParam))
    ensures parsed.Ok? && !(0 <= parsed.value.maxTokens <= MaxTokensLimit) ==> r == Err("max_tokens is invalid")
    ensures parsed.Ok? && 0 <= parsed.value.maxTokens <= MaxTokensLimit && DefaultedModel(mode, parsed.value, modelParam) == "" ==>
              r == Err("model is required")
  {
    var request :- parsed;
    var request := request.(model := DefaultedModel(mode, request, modelParam));
    if request.maxTokens < 0 || request.maxTokens > MaxTokensLimit then Err("max_tokens is invalid")
    else if request.model == "" then Err("model is required")
    else match mode
      case Completions => if IsEmptyString(request.prompt) then Err("field prompt is required") else Ok(request)
      case ChatCompletions => if |request.messages| == 0 then Err("field messages is required") else Ok(request)
      case Moderations => if IsEmptyString(request.input) then Err("field input is required") else Ok(request)
      case Edits => if request.instruction == "" then Err("field instruction is required") else Ok(request)
      case _ => Ok(request)
  }

  /** A completions request whose prompt is missing altogether, or is not a string, passes validation: only `""` is refused. */
  lemma MissingPromptPasses(request: GeneralRequest, modelParam: string)
    requires request.model != "" && 0 <= request.maxTokens <= MaxTokensLimit
    requires request.prompt == Absent || request.prompt == OtherJson
    ensures ValidateTextRequest(Completions, Ok(request), modelParam) == Ok(request)
  {
  }

  /** An invalid max_tokens is reported before a missing model or a missing mode field. */
  lemma MaxTokensCheckedFirst(mode: RelayMode, request: GeneralRequest, modelParam: string)
    requires request.maxTokens < 0 && request.model == "" && request.messages == []
    ensures ValidateTextRequest(mode, Ok(request), modelParam) == Err("max_tokens is invalid")
  {
  }

  // ---------------------------------------------------------------------
  // Model mapping

  /**
   * The model mapping of the channel: `mapping` is the channel's mapping
   * text and `parse` the JSON decoder. The result is the upstream model and
   * whether it was mapped; a mapping that does not decode is an error.
   */
  function MapModel(mapping: string, parse: string -> Result<map<string, string>, string>, model: string)
    : (r: Result<(string, bool), RelayError>)
    ensures mapping == "" || mapping == "{}" ==> r == Ok((model, false))
    ensures mapping != "" && mapping != "{}" && parse(mapping).Err? ==>
              r == Err(Wrapped(parse(mapping).error, "unmarshal_model_mapping_failed", StatusInternalServerError))
    ensures r.Ok? ==> (r.value.1 <==> mapping != "" && mapping != "{}" && parse(mapping).Ok?
                                      && model in parse(mapping).value && parse(mapping).value[model] != "")
    ensures r.Ok? && r.value.1 ==> r.value.0 == parse(mapping).value[model]
    ensures r.Ok? && !r.value.1 ==> r.value.0 == model
  {
    if mapping == "" || mapping == "{}" then Ok((model, false))
    else match parse(mapping)
      case Err(e) => Err(Wrapped(e, "unmarshal_model_mapping_failed", StatusInternalServerError))
      case Ok(m) => if model in m && m[model] != "" then Ok((m[model], true)) else Ok((model, false))
  }

  /** Mapping is a single lookup: with `a -> b` and `b -> c`, `a` goes to `b`, not to `c`. */
  lemma MappingIsOneStep(mapping: string, parse: string -> Result<map<string, string>, string>)
    requires mapping != "" && mapping != "{}"
    requires parse(mapping) == Ok(map["a" := "b", "b" := "c"])
    ensures MapModel(mapping, parse, "a") == Ok(("b", true))
  {
  }

  // ---------------------------------------------------------------------
  // Prompt tokens

  /** What a tokenizer call returns: the count, an error, and whether a sensitive word was found. */
  datatype TokenCount = TokenCount(tokens: int, err: Option<string>, sensitive: bool)

  /**
   * getPromptTokens. The tokenizer calls are parameters: `countMessages`
   * for chat messages and `countInput` for a prompt or input value, each
   * given the model and whether to check for sensitive words.
   */
  function GetPromptTokens(mode: RelayMode, request: GeneralRequest, checkSensitive: bool,
                           countMessages: (seq<Message>, string, bool) -> TokenCount,
                           countInput: (AnyValue, string, bool) -> TokenCount): (r: TokenCount)
    ensures mode == ChatCompletions ==> r == countMessages(request.messages, request.model, checkSensitive)
    ensures mode == Completions ==> r == countInput(request.prompt, request.model, checkSensitive)
    ensures mode == Moderations || mode == Embeddings ==> r == countInput(request.input, request.model, checkSensitive)
    ensures mode !in {ChatCompletions, Completions, Moderations, Embeddings} ==>
              r == TokenCount(0, Some("unknown relay mode"), false)
  {
    match mode
    case ChatCompletions => countMessages(request.messages, request.model, checkSensitive)
    case Completions => countInput(request.prompt, request.model, checkSensitive)
    case Moderations => countInput(request.input, request.model, checkSensitive)
    case Embeddings => countInput(request.input, request.model, checkSensitive)
    case _ => TokenCount(0, Some("unknown relay mode"), false)
  }

  /** An edits request passes validation but has no token count: it always fails here. */
  lemma EditsHaveNoPromptCount(request: GeneralRequest, checkSensitive: bool,
                               countMessages: (seq<Message>, string, bool) -> TokenCount,
                               countInput: (AnyValue, string, bool) -> TokenCount)
    ensures GetPromptTokens(Edits, request, checkSensitive, countMessages, countInput).err == Some("unknown relay mode")
  {
  }

  /** The error a failed prompt count is answered with. */
  function PromptTokenError(count: TokenCount): (e: RelayError)
    requires count.err.Some?
    ensures e.Message() == count.err.value
    ensures e.StatusCode() == if count.sensitive then StatusBadRequest else StatusInternalServerError
  {
    if count.sensitive then Wrapped(count.err.value, "sensitive_words_detected", StatusBadRequest)
    else Wrapped(count.err.value, "count_token_messages_failed", StatusInternalServerError)
  }

  // ---------------------------------------------------------------------
  // Pricing

  /** Go's int(float64) conversion, on reals: truncation toward zero. */
  function Trunc(x: real): (n: int)
    ensures 0.0 <= x ==> 0 <= n && n as real <= x < n as real + 1.0
    ensures x < 0.0 ==> n <= 0 && n as real - 1.0 < x <= n as real
  {
    if x >= 0.0 then x.Floor else -((-x).Floor)
  }

  lemma TruncMonotone(x: real, y: real)
    requires 0.0 <= x <= y
    ensures Trunc(x) <= Trunc(y)
  {
  }

  /**
   * The price lookups, by model or group (not part of this model), the
   * quota per unit, and the token count pre-consumed when max_tokens is 0.
   * A model price of -1 means the model is charged by tokens and ratios.
   */
  datatype Prices = Prices(
    modelPrice: string -> real,
    modelRatio: string -> real,
    groupRatio: string -> real,
    completionRatio: string -> real,
    quotaPerUnit: real,
    preConsumedTokens: int)

  predicate TokenPriced(prices: Prices, model: string)
  {
    prices.modelPrice(model) == -1.0
  }

  /** The ratio TextHelper hands to settlement: model ratio times group ratio when priced by tokens, else 0. */
  function Ratio(prices: Prices, model: string, group: string): real
  {
    if TokenPriced(prices, model) then prices.modelRatio(model) * prices.groupRatio(group) else 0.0
  }

  /** The quota a fixed-price model costs per request. */
  function FixedCharge(prices: Prices, model: string, group: string): int
  {
    Trunc(prices.modelPrice(model) * prices.quotaPerUnit * prices.groupRatio(group))
  }

  /** The tokens a token-priced request is estimated at: the configured default when max_tokens is 0. */
  function EstimatedTokens(prices: Prices, promptTokens: int, maxTokens: int): int
  {
    if maxTokens != 0 then promptTokens + maxTokens else prices.preConsumedTokens
  }

  /** The pre-consume estimate. */
  function PreConsumeAmount(prices: Prices, model: string, group: string, promptTokens: int, maxTokens: int): (q: int)
    ensures !TokenPriced(prices, model) ==> q == FixedCharge(prices, model, group)
    ensures TokenPriced(prices, model) && 0.0 <= Ratio(prices, model, group) && 0 <= EstimatedTokens(prices, promptTokens, maxTokens) ==>
              0 <= q && q as real <= (EstimatedTokens(prices, promptTokens, maxTokens) as real) * Ratio(prices, model, group)
    ensures TokenPriced(prices, model) ==>
              var x := (EstimatedTokens(prices, promptTokens, maxTokens) as real) * Ratio(prices, model, group);
              (0.0 <= x ==> q as real <= x < q as real + 1.0) && (x < 0.0 ==> q as real - 1.0 < x <= q as real)
  {
    if TokenPriced(prices, model) then
      var tokens := EstimatedTokens(prices, promptTokens, maxTokens);
      Trunc((tokens as real) * Ratio(prices, model, group))
    else FixedCharge(prices, model, group)
  }

  /** With max_tokens 0 the estimate ignores the prompt: two prompts of any size are estimated alike. */
  lemma EstimateIgnoresPromptWithoutMaxTokens(prices: Prices, model: string, group: string, p1: int, p2: int)
    ensures PreConsumeAmount(prices, model, group, p1, 0) == PreConsumeAmount(prices, model, group, p2, 0)
  {
  }

  /** A larger max_tokens never lowers a token-priced estimate. */
  lemma EstimateMonotone(prices: Prices, model: string, group: string, promptTokens: int, m1: int, m2: int)
    requires TokenPriced(prices, model) && 0.0 <= Ratio(prices, model, group)
    requires 0 <= promptTokens && 0 < m1 <= m2
    ensures PreConsumeAmount(prices, model, group, promptTokens, m1) <= PreConsumeAmount(prices, model, group, promptTokens, m2)
  {
    var r := Ratio(prices, model, group);
    assert ((promptTokens + m1) as real) * r <= ((promptTokens + m2) as real) * r;
    TruncMonotone(((promptTokens + m1) as real) * r, ((promptTokens + m2) as real) * r);
  }

  /**
   * The settlement charge for the usage (before the zero-usage rule): by
   * tokens, the completion tokens weighed by the completion ratio, the sum
   * weighed by `ratio`, raised to 1 when the ratio is not 0; a fixed price
   * otherwise.
   */
  function SettlementCharge(prices: Prices, model: string, group: string, ratio: real, usage: Usage): (q: int)
    ensures TokenPriced(prices, model) && ratio != 0.0 ==> q >= 1
    ensures TokenPriced(prices, model) && ratio == 0.0 ==> q == 0
    ensures !TokenPriced(prices, model) ==> q == FixedCharge(prices, model, group)
    ensures TokenPriced(prices, model) && ratio != 0.0 ==>
              var x := (Weighed(prices, model, usage) as real) * ratio;
              (1.0 <= x ==> q as real <= x < q as real + 1.0) && (x < 1.0 ==> q == 1)
  {
    if TokenPriced(prices, model) then
      var q := Trunc((Weighed(prices, model, usage) as real) * ratio);
      if ratio != 0.0 && q <= 0 then 1 else q
    else FixedCharge(prices, model, group)
  }

  /** Scaling by a non-negative factor and truncating is monotone in the scaled amount. */
  lemma TruncScaleMonotone(a: int, b: int, c: real)
    requires 0 <= a <= b && 0.0 <= c
    ensures 0 <= Trunc((a as real) * c) <= Trunc((b as real) * c)
  {
    var x, y := (a as real) * c, (b as real) * c;
    assert 0.0 <= x by { assert 0.0 <= a as real; }
    assert y - x == ((b - a) as real) * c;
    assert 0.0 <= ((b - a) as real) * c by { assert 0.0 <= (b - a) as real; }
    TruncMonotone(x, y);
  }

  /** The token-weighed total before the ratio: prompt tokens plus weighed completion tokens. */
  function Weighed(prices: Prices, model: string, usage: Usage): int
  {
    usage.promptTokens + Trunc((usage.completionTokens as real) * prices.completionRatio(model))
  }

  lemma WeighedMonotone(prices: Prices, model: string, u1: Usage, u2: Usage)
    requires 0.0 <= prices.completionRatio(model)
    requires 0 <= u1.promptTokens <= u2.promptTokens && 0 <= u1.completionTokens <= u2.completionTokens
    ensures 0 <= Weighed(prices, model, u1) <= Weighed(prices, model, u2)
  {
    var cr := prices.completionRatio(model);
    TruncScaleMonotone(u1.completionTokens, u2.completionTokens, cr);
    var t1, t2 := Trunc((u1.completionTokens as real) * cr), Trunc((u2.completionTokens as real) * cr);
    assert 0 <= t1 <= t2;
    assert Weighed(prices, model, u1) == u1.promptTokens + t1;
    assert Weighed(prices, model, u2) == u2.promptTokens + t2;
  }

  /** More tokens never cost less. */
  lemma ChargeMonotone(prices: Prices, model: string, group: string, ratio: real, u1: Usage, u2: Usage)
    requires TokenPriced(prices, model) && 0.0 <= ratio && 0.0 <= prices.completionRatio(model)
    requires 0 <= u1.promptTokens <= u2.promptTokens && 0 <= u1.completionTokens <= u2.completionTokens
    ensures SettlementCharge(prices, model, group, ratio, u1) <= SettlementCharge(prices, model, group, ratio, u2)
  {
    WeighedMonotone(prices, model, u1, u2);
    var w1, w2 := Weighed(prices, model, u1), Weighed(prices, model, u2);
    TruncScaleMonotone(w1, w2, ratio);
    RatedChargeMonotone(prices, model, group, ratio, u1, u2, w1, w2);
  }

  /** The step of ChargeMonotone past the weighed totals: raising to 1 keeps the order. */
  lemma RatedChargeMonotone(prices: Prices, model: string, group: string, ratio: real, u1: Usage, u2: Usage, w1: int, w2: int)
    requires TokenPriced(prices, model)
    requires w1 == Weighed(prices, model, u1) && w2 == Weighed(prices, model, u2)
    requires Trunc((w1 as real) * ratio) <= Trunc((w2 as real) * ratio)
    ensures SettlementCharge(prices, model, group, ratio, u1) <= SettlementCharge(prices, model, group, ratio, u2)
  {
    var q1, q2 := Trunc((w1 as real) * ratio), Trunc((w2 as real) * ratio);
    assert SettlementCharge(prices, model, group, ratio, u1) == if ratio != 0.0 && q1 <= 0 then 1 else q1;
    assert SettlementCharge(prices, model, group, ratio, u2) == if ratio != 0.0 && q2 <= 0 then 1 else q2;
  }

  /** A fixed-price model costs the same whatever the usage. */
  lemma FixedPriceIgnoresUsage(prices: Prices, model: string, group: string, ratio: real, u1: Usage, u2: Usage)
    requires !TokenPriced(prices, model)
    ensures SettlementCharge(prices, model, group, ratio, u1) == SettlementCharge(prices, model, group, ratio, u2)
  {
  }

  // ---------------------------------------------------------------------
  // The quota store and its ledger

  /** The ledger calls the relay issues, with their arguments. */
  datatype LedgerCall =
    | CacheDecreaseUserQuota(userId: int, amount: int)
    | PreConsumeTokenQuota(tokenId: int, amount: int)
    | PostConsumeTokenQuota(tokenId: int, userQuota: int, delta: int, preConsumed: int, settled: bool)
    | CacheUpdateUserQuota(userId: int)
    | UpdateUserUsedQuotaAndRequestCount(userId: int, quota: int)
    | UpdateChannelUsedQuota(channelId: int, quota: int)
    | RecordConsumeLog(userId: int, channelId: int, promptTokens: int, completionTokens: int,
                       model: string, quota: int, userQuota: int, isStream: bool)

  /** A return of a reservation: a token-ledger update flagged as not a settlement. */
  predicate IsReturn(c: LedgerCall)
  {
    c.PostConsumeTokenQuota? && !c.settled
  }

  /** A settlement's commitment to the token ledger. */
  predicate IsCommit(c: LedgerCall)
  {
    c.PostConsumeTokenQuota? && c.settled
  }

  /** The consumption log every settlement writes. */
  predicate IsLog(c: LedgerCall)
  {
    c.RecordConsumeLog?
  }

  function Count(calls: seq<LedgerCall>, p: LedgerCall -> bool): (n: nat)
    ensures n <= |calls|
  {
    if calls == [] then 0 else (if p(calls[0]) then 1 else 0) + Count(calls[1..], p)
  }

  lemma {:induction false} CountAppend(a: seq<LedgerCall>, b: seq<LedgerCall>, p: LedgerCall -> bool)
    ensures Count(a + b, p) == Count(a, p) + Count(b, p)
  {
    if a == [] {
      assert a + b == b;
    } else {
      assert (a + b)[0] == a[0];
      assert (a + b)[1..] == a[1..] + b;
      CountAppend(a[1..], b, p);
    }
  }

  lemma {:induction false} CountNone(calls: seq<LedgerCall>, p: LedgerCall -> bool)
    requires forall i :: 0 <= i < |calls| ==> !p(calls[i])
    ensures Count(calls, p) == 0
  {
    if calls != [] {
      assert forall i :: 0 <= i < |calls[1..]| ==> calls[1..][i] == calls[i + 1];
      CountNone(calls[1..], p);
    }
  }

  /** A run of ledger calls that returns or settles at most once, never both, and commits only inside a settlement. */
  predicate Balanced(issued: seq<LedgerCall>)
  {
    Count(issued, IsReturn) + Count(issued, IsLog) <= 1 && Count(issued, IsCommit) <= Count(issued, IsLog)
  }

  /** What the store's not-shown calls answer: the errors of the cache reads and writes and of the token reservation. */
  datatype StoreReplies = StoreReplies(
    cacheGetError: Option<string>,
    decreaseError: Option<string>,
    tokenReply: Result<int, string>,
    refreshedUserQuota: int)

  /** A reservation made: the amount reserved on the token and the user quota reported back. */
  datatype Reservation = Reservation(reserved: int, userQuota: int)

  /** The 100x trust rule: a user (and a limited token) with more than 100 times the amount reserves nothing. */
  predicate Trusted(userQuota: int, tokenQuota: int, unlimited: bool, amount: int)
  {
    userQuota > 100 * amount && (unlimited || tokenQuota > 100 * amount)
  }

  /** Whether the user's cached quota covers the amount. */
  predicate Sufficient(userQuota: int, amount: int)
  {
    userQuota > 0 && userQuota - amount >= 0
  }

  /** The outcome of preConsumeQuota for the quotas it reads. */
  function PreConsume(userQuota: int, tokenQuota: int, info: RelayInfo, amount: int, replies: StoreReplies)
    : (r: Result<Reservation, RelayError>)
    ensures replies.cacheGetError.None? ==>
              (r == Err(Wrapped("user quota is not enough", "insufficient_user_quota", StatusForbidden))
               <==> !Sufficient(userQuota, amount))
    ensures r.Ok? ==> Sufficient(userQuota, amount) && replies.cacheGetError.None? && replies.decreaseError.None?
    ensures r.Ok? ==> (r.value.reserved == 0 <==> Trusted(userQuota, tokenQuota, info.tokenUnlimited, amount) || amount == 0)
    ensures r.Ok? && r.value.reserved != 0 ==> r.value.reserved == amount
    ensures r.Err? ==> r.error.StatusCode() in {StatusForbidden, StatusInternalServerError}
    ensures replies.cacheGetError.Some? ==>
              r == Err(Wrapped(replies.cacheGetError.value, "get_user_quota_failed", StatusInternalServerError))
    ensures replies.cacheGetError.None? && Sufficient(userQuota, amount) && replies.decreaseError.Some? ==>
              r == Err(Wrapped(replies.decreaseError.value, "decrease_user_quota_failed", StatusInternalServerError))
    // Past the user checks, an untrusted positive amount is reserved on the token, and a failed reservation rejects the request.
    ensures replies.cacheGetError.None? && Sufficient(userQuota, amount) && replies.decreaseError.None? &&
            !Trusted(userQuota, tokenQuota, info.tokenUnlimited, amount) && amount > 0 ==>
              (r.Err? <==> replies.tokenReply.Err?) &&
              (replies.tokenReply.Err? ==> r == Err(Wrapped(replies.tokenReply.error, "pre_consume_token_quota_failed", StatusForbidden)))
    // The user quota handed on is the token reservation's reply when something was reserved, else the cached one.
    ensures r.Ok? && r.value.reserved > 0 ==> replies.tokenReply.Ok? && r.value.userQuota == replies.tokenReply.value
    ensures r.Ok? && r.value.reserved <= 0 ==> r.value.userQuota == userQuota
  {
    if replies.cacheGetError.Some? then
      Err(Wrapped(replies.cacheGetError.value, "get_user_quota_failed", StatusInternalServerError))
    else if userQuota <= 0 || userQuota - amount < 0 then
      Err(Wrapped("user quota is not enough", "insufficient_user_quota", StatusForbidden))
    else if replies.decreaseError.Some? then
      Err(Wrapped(replies.decreaseError.value, "decrease_user_quota_failed", StatusInternalServerError))
    else
      var reserved := if Trusted(userQuota, tokenQuota, info.tokenUnlimited, amount) then 0 else amount;
      if reserved > 0 then
        match replies.tokenReply
        case Err(e) => Err(Wrapped(e, "pre_consume_token_quota_failed", StatusForbidden))
        case Ok(q) => Ok(Reservation(reserved, q))
      else Ok(Reservation(reserved, userQuota))
  }

  /** The ledger calls preConsumeQuota issues. */
  function PreConsumeCalls(userQuota: int, tokenQuota: int, info: RelayInfo, amount: int, replies: StoreReplies)
    : (calls: seq<LedgerCall>)
    ensures Count(calls, IsReturn) == 0 && Count(calls, IsCommit) == 0 && Count(calls, IsLog) == 0
  {
    if replies.cacheGetError.Some? || !Sufficient(userQuota, amount) then []
    else if replies.decreaseError.Some? || Trusted(userQuota, tokenQuota, info.tokenUnlimited, amount) || amount <= 0
    then [CacheDecreaseUserQuota(info.userId, amount)]
    else [CacheDecreaseUserQuota(info.userId, amount), PreConsumeTokenQuota(info.tokenId, amount)]
  }

  /** The ledger calls returning a reservation: none for a reservation of 0. */
  function ReturnCalls(tokenId: int, userQuota: int, reserved: int): (calls: seq<LedgerCall>)
    ensures Count(calls, IsReturn) == (if reserved != 0 then 1 else 0)
    ensures Count(calls, IsCommit) == 0 && Count(calls, IsLog) == 0
    ensures forall c :: c in calls && IsReturn(c) ==> c.delta == -reserved && c.preConsumed == 0
  {
    if reserved != 0 then [PostConsumeTokenQuota(tokenId, userQuota, -reserved, 0, false)] else []
  }

  /** The model name the consumption log records: every gizmo model under one name. */
  function LogModel(model: string): (m: string)
    ensures HasPrefix(model, "gpt-4-gizmo") ==> m == "gpt-4-gizmo-*"
    ensures !HasPrefix(model, "gpt-4-gizmo") ==> m == model
  {
    if HasPrefix(model, "gpt-4-gizmo") then "gpt-4-gizmo-*" else model
  }

  /** The quota a settlement charges: 0 when the usage reports no tokens. */
  function Charge(prices: Prices, model: string, group: string, ratio: real, usage: Usage): int
  {
    if usage.promptTokens + usage.completionTokens == 0 then 0 else SettlementCharge(prices, model, group, ratio, usage)
  }

  /** The ledger calls of a settlement. */
  function SettleCalls(info: RelayInfo, model: string, usage: Usage, quota: int, reserved: int, userQuota: int)
    : seq<LedgerCall>
  {
    (if usage.promptTokens + usage.completionTokens == 0 then []
     else [PostConsumeTokenQuota(info.tokenId, userQuota, quota - reserved, reserved, true),
           CacheUpdateUserQuota(info.userId),
           UpdateUserUsedQuotaAndRequestCount(info.userId, quota),
           UpdateChannelUsedQuota(info.channelId, quota)])
    + [RecordConsumeLog(info.userId, info.channelId, usage.promptTokens, usage.completionTokens,
                        LogModel(model), quota, userQuota, info.isStream)]
  }

  /**
   * A settlement logs once and never returns the reservation; it commits
   * `quota - reserved` on top of the reservation unless the usage is 0, in
   * which case the reservation is left as it is.
   */
  lemma SettlementReconciles(info: RelayInfo, model: string, usage: Usage, quota: int, reserved: int, userQuota: int)
    ensures var calls := SettleCalls(info, model, usage, quota, reserved, userQuota);
            Count(calls, IsLog) == 1 && Count(calls, IsReturn) == 0 &&
            Count(calls, IsCommit) == (if usage.promptTokens + usage.completionTokens == 0 then 0 else 1)
    ensures var calls := SettleCalls(info, model, usage, quota, reserved, userQuota);
            forall c :: c in calls && IsCommit(c) ==> c.preConsumed + c.delta == quota
  {
    var calls := SettleCalls(info, model, usage, quota, reserved, userQuota);
    var log := [RecordConsumeLog(info.userId, info.channelId, usage.promptTokens, usage.completionTokens,
                                 LogModel(model), quota, userQuota, info.isStream)];
    if usage.promptTokens + usage.completionTokens == 0 {
      assert calls == [] + log;
    } else {
      var head := [PostConsumeTokenQuota(info.tokenId, userQuota, quota - reserved, reserved, true),
                   CacheUpdateUserQuota(info.userId),
                   UpdateUserUsedQuotaAndRequestCount(info.userId, quota),
                   UpdateChannelUsedQuota(info.channelId, quota)];
      assert calls == head + log;
      CountNone(head, IsLog);
      CountNone(head, IsReturn);
      CountNone(head[1..], IsCommit);
      assert Count(head, IsCommit) == 1;
      CountAppend(head, log, IsLog);
      CountAppend(head, log, IsReturn);
      CountAppend(head, log, IsCommit);
    }
  }

  /**
   * The user-quota cache and the token quota of the request, and the log of
   * ledger calls issued against the store.
   */
  class QuotaStore {
    var userQuota: int
    var tokenQuota: int
    var calls: seq<LedgerCall>

    constructor (userQuota: int, tokenQuota: int)
      ensures this.userQuota == userQuota && this.tokenQuota == tokenQuota && calls == []
    {
      this.userQuota := userQuota;
      this.tokenQuota := tokenQuota;
      calls := [];
    }

    /**
     * preConsumeQuota: check the cached user quota, decrease it by the full
     * amount, then reserve on the token unless the request is trusted.
     */
    method PreConsumeQuota(info: RelayInfo, amount: int, replies: StoreReplies) returns (r: Result<Reservation, RelayError>)
      modifies this
      ensures r == PreConsume(old(userQuota), tokenQuota, info, amount, replies)
      ensures calls == old(calls) + PreConsumeCalls(old(userQuota), tokenQuota, info, amount, replies)
      ensures tokenQuota == old(tokenQuota)
      ensures userQuota == if replies.cacheGetError.None? && Sufficient(old(userQuota), amount) && replies.decreaseError.None?
                           then old(userQuota) - amount else old(userQuota)
      ensures r.Ok? ==> userQuota == old(userQuota) - amount
    {
      if replies.cacheGetError.Some? {
        return Err(Wrapped(replies.cacheGetError.value, "get_user_quota_failed", StatusInternalServerError));
      }
      var quota := userQuota;
      if quota <= 0 || quota - amount < 0 {
        return Err(Wrapped("user quota is not enough", "insufficient_user_quota", StatusForbidden));
      }
      calls := calls + [CacheDecreaseUserQuota(info.userId, amount)];
      if replies.decreaseError.Some? {
        return Err(Wrapped(replies.decreaseError.value, "decrease_user_quota_failed", StatusInternalServerError));
      }
      userQuota := userQuota - amount;
      var reserved := amount;
      if quota > 100 * reserved {
        if !info.tokenUnlimited {
          if tokenQuota > 100 * reserved {
            reserved := 0;
          }
        } else {
          reserved := 0;
        }
      }
      if reserved > 0 {
        calls := calls + [PreConsumeTokenQuota(info.tokenId, reserved)];
        match replies.tokenReply {
          case Err(e) =>
            return Err(Wrapped(e, "pre_consume_token_quota_failed", StatusForbidden));
          case Ok(q) =>
            quota := q;
        }
      }
      return Ok(Reservation(reserved, quota));
    }

    /** returnPreConsumedQuota: give a non-zero reservation back to the token. */
    method ReturnPreConsumedQuota(tokenId: int, userQuota: int, reserved: int)
      modifies this
      ensures calls == old(calls) + ReturnCalls(tokenId, userQuota, reserved)
      ensures this.userQuota == old(this.userQuota) && tokenQuota == old(tokenQuota)
    {
      if reserved != 0 {
        calls := calls + [PostConsumeTokenQuota(tokenId, userQuota, -reserved, 0, false)];
      }
    }

    /**
     * postConsumeQuota: charge the usage and log it. The charge is 0 and
     * nothing is committed when the usage reports no tokens.
     */
    method PostConsumeQuota(info: RelayInfo, model: string, usage: Usage, prices: Prices, ratio: real,
                            reserved: int, userQuota: int, replies: StoreReplies)
      modifies this
      ensures calls == old(calls) + SettleCalls(info, model, usage, Charge(prices, model, info.group, ratio, usage), reserved, userQuota)
      ensures this.userQuota == if usage.promptTokens + usage.completionTokens == 0 then old(this.userQuota) else replies.refreshedUserQuota
      ensures tokenQuota == old(tokenQuota)
    {
      var quota := SettlementCharge(prices, model, info.group, ratio, usage);
      var totalTokens := usage.promptTokens + usage.completionTokens;
      if totalTokens == 0 {
        quota := 0;
      } else {
        calls := calls + [PostConsumeTokenQuota(info.tokenId, userQuota, quota - reserved, reserved, true)];
        calls := calls + [CacheUpdateUserQuota(info.userId)];
        this.userQuota := replies.refreshedUserQuota;
        calls := calls + [UpdateUserUsedQuotaAndRequestCount(info.userId, quota)];
        calls := calls + [UpdateChannelUsedQuota(info.channelId, quota)];
      }
      calls := calls + [RecordConsumeLog(info.userId, info.channelId, usage.promptTokens, usage.completionTokens,
                                         LogModel(model), quota, userQuota, info.isStream)];
    }
  }

  // ---------------------------------------------------------------------
  // TextHelper

  /** The tokenizer, the mapping decoder and the price lookups TextHelper relies on. */
  datatype Services = Services(
    parseMapping: string -> Result<map<string, string>, string>,
    countMessages: (seq<Message>, string, bool) -> TokenCount,
    countInput: (AnyValue, string, bool) -> TokenCount,
    prices: Prices)

  /** The client request as it arrives: the decoded body, the `model` path parameter and the channel's mapping. */
  datatype ClientRequest = ClientRequest(parsed: Result<GeneralRequest, string>, modelParam: string, modelMapping: string)

  /** A request ready to be sent upstream, with its reservation. */
  datatype Prepared = Prepared(request: GeneralRequest, info: RelayInfo, mapped: bool, ratio: real, reservation: Reservation)

  /**
   * The first part of TextHelper, up to the reservation: validation, model
   * mapping, prompt tokens, the estimate and preConsumeQuota.
   */
  method Prepare(store: QuotaStore, info: RelayInfo, client: ClientRequest, services: Services, checkSensitive: bool,
                 replies: StoreReplies)
    returns (r: Result<Prepared, RelayError>)
    modifies store
    ensures ValidateTextRequest(info.relayMode, client.parsed, client.modelParam).Err? ==>
              r == Err(Wrapped(ValidateTextRequest(info.relayMode, client.parsed, client.modelParam).error, "invalid_text_request", StatusBadRequest))
              && store.calls == old(store.calls)
    ensures var v := ValidateTextRequest(info.relayMode, client.parsed, client.modelParam);
            v.Ok? ==>
              var m := MapModel(client.modelMapping, services.parseMapping, v.value.model);
              m.Err? ==> r == Err(m.error) && store.calls == old(store.calls)
    ensures var v := ValidateTextRequest(info.relayMode, client.parsed, client.modelParam);
            v.Ok? ==>
              var m := MapModel(client.modelMapping, services.parseMapping, v.value.model);
              m.Ok? ==>
                var count := GetPromptTokens(info.relayMode, v.value.(model := m.value.0), checkSensitive, services.countMessages, services.countInput);
                count.err.Some? ==> r == Err(PromptTokenError(count)) && store.calls == old(store.calls)
    ensures var v := ValidateTextRequest(info.relayMode, client.parsed, client.modelParam);
            v.Ok? ==>
              var m := MapModel(client.modelMapping, services.parseMapping, v.value.model);
              m.Ok? ==>
                var request := v.value.(model := m.value.0);
                var count := GetPromptTokens(info.relayMode, request, checkSensitive, services.countMessages, services.countInput);
                var i := info.(isStream := v.value.stream, upstreamModelName := m.value.0, promptTokens := count.tokens);
                var amount := PreConsumeAmount(services.prices, m.value.0, info.group, count.tokens, v.value.maxTokens);
                count.err.None? ==>
                  match PreConsume(old(store.userQuota), store.tokenQuota, i, amount, replies)
                  case Err(e) => r == Err(e)
                  case Ok(reservation) => r == Ok(Prepared(request, i, m.value.1, Ratio(services.prices, m.value.0, info.group), reservation))
    ensures |old(store.calls)| <= |store.calls| && store.calls[..|old(store.calls)|] == old(store.calls)
    ensures var issued := store.calls[|old(store.calls)|..];
            Count(issued, IsReturn) == 0 && Count(issued, IsCommit) == 0 && Count(issued, IsLog) == 0
    ensures r.Ok? ==>
              var v := ValidateTextRequest(info.relayMode, client.parsed, client.modelParam);
              var m := MapModel(client.modelMapping, services.parseMapping, v.value.model);
              v.Ok? && m.Ok? &&
              r.value.request == v.value.(model := m.value.0) && r.value.mapped == m.value.1 &&
              r.value.info == info.(isStream := v.value.stream, upstreamModelName := m.value.0,
                                    promptTokens := GetPromptTokens(info.relayMode, r.value.request, checkSensitive,
                                                                    services.countMessages, services.countInput).tokens) &&
              GetPromptTokens(info.relayMode, r.value.request, checkSensitive, services.countMessages, services.countInput).err.None? &&
              r.value.ratio == Ratio(services.prices, m.value.0, info.group) &&
              var amount := PreConsumeAmount(services.prices, m.value.0, info.group, r.value.info.promptTokens, v.value.maxTokens);
              PreConsume(old(store.userQuota), store.tokenQuota, r.value.info, amount, replies) == Ok(r.value.reservation) &&
              store.calls == old(store.calls) + PreConsumeCalls(old(store.userQuota), store.tokenQuota, r.value.info, amount, replies)
    ensures store.tokenQuota == old(store.tokenQuota)
  {
    var v := ValidateTextRequest(info.relayMode, client.parsed, client.modelParam);
    if v.Err? {
      return Err(Wrapped(v.error, "invalid_text_request", StatusBadRequest));
    }
    var request := v.value;
    var info := info.(isStream := request.stream);
    var m := MapModel(client.modelMapping, services.parseMapping, request.model);
    if m.Err? {
      return Err(m.error);
    }
    request := request.(model := m.value.0);
    info := info.(upstreamModelName := request.model);
    var count := GetPromptTokens(info.relayMode, request, checkSensitive, services.countMessages, services.countInput);
    info := info.(promptTokens := count.tokens);
    if count.err.Some? {
      return Err(PromptTokenError(count));
    }
    var amount := PreConsumeAmount(services.prices, request.model, info.group, count.tokens, request.maxTokens);
    var reservation := store.PreConsumeQuota(info, amount, replies);
    if reservation.Err? {
      return Err(reservation.error);
    }
    return Ok(Prepared(request, info, m.value.1, Ratio(services.prices, request.model, info.group), reservation.value));
  }

  /**
   * What happens between the reservation and the response: whether an
   * adaptor exists for the API type, the errors of building the request
   * body and of sending it, the upstream status and content type, the error
   * RelayErrorHandler makes of a non-200 answer, and what the adaptor's
   * DoResponse returns for the final relay information.
   */
  datatype Exchange = Exchange(
    adaptorFound: bool,
    apiType: nat,
    openAIApi: bool,
    marshalError: Option<string>,
    convertError: Option<string>,
    jsonMarshalError: Option<string>,
    doRequestError: Option<string>,
    status: int,
    contentType: string,
    errorReply: RelayError,
    respond: RelayInfo -> ResponseOutcome)

  /** The failures before an upstream answer exists, in the order TextHelper meets them. */
  function SendFailure(x: Exchange, mapped: bool): (e: Option<RelayError>)
    ensures e.Some? ==> e.value.StatusCode() in {StatusBadRequest, StatusInternalServerError}
    ensures !x.adaptorFound ==> e == Some(Wrapped("invalid api type: " + NatToDecimal(x.apiType), "invalid_api_type", StatusBadRequest))
    ensures x.adaptorFound && e.None? ==> x.doRequestError.None?
    ensures x.adaptorFound && x.openAIApi && mapped && x.marshalError.Some? ==>
              e == Some(Wrapped(x.marshalError.value, "marshal_text_request_failed", StatusInternalServerError))
    ensures x.adaptorFound && !x.openAIApi && x.convertError.Some? ==>
              e == Some(Wrapped(x.convertError.value, "convert_request_failed", StatusInternalServerError))
    ensures x.adaptorFound && !x.openAIApi && x.convertError.None? && x.jsonMarshalError.Some? ==>
              e == Some(Wrapped(x.jsonMarshalError.value, "json_marshal_failed", StatusInternalServerError))
    // Only a body that was built is sent: the send error counts once every earlier step succeeded.
    ensures var built := if x.openAIApi then !mapped || x.marshalError.None? else x.convertError.None? && x.jsonMarshalError.None?;
            (x.adaptorFound && built && x.doRequestError.Some? ==>
               e == Some(Wrapped(x.doRequestError.value, "do_request_failed", StatusInternalServerError))) &&
            (e.None? <==> x.adaptorFound && built && x.doRequestError.None?)
  {
    if !x.adaptorFound then Some(Wrapped("invalid api type: " + NatToDecimal(x.apiType), "invalid_api_type", StatusBadRequest))
    else if x.openAIApi && mapped && x.marshalError.Some? then
      Some(Wrapped(x.marshalError.value, "marshal_text_request_failed", StatusInternalServerError))
    else if !x.openAIApi && x.convertError.Some? then
      Some(Wrapped(x.convertError.value, "convert_request_failed", StatusInternalServerError))
    else if !x.openAIApi && x.jsonMarshalError.Some? then
      Some(Wrapped(x.jsonMarshalError.value, "json_marshal_failed", StatusInternalServerError))
    else if x.doRequestError.Some? then
      Some(Wrapped(x.doRequestError.value, "do_request_failed", StatusInternalServerError))
    else None
  }

  /**
   * How TextHelper ends: the error it returns (nil included), a panic in the
   * request or in a goroutine it started, or never, when the response
   * handler waits for good.
   */
  datatype TextOutcome = Answered(err: Option<RelayError>) | HelperPanicked | Crashed | Hung

  /**
   * The second part of TextHelper: send the request, then return or settle
   * the reservation according to the answer.
   */
  method Forward(store: QuotaStore, p: Prepared, x: Exchange, services: Services, stopOnSensitive: bool, replies: StoreReplies)
    returns (out: TextOutcome)
    modifies store
    ensures SendFailure(x, p.mapped).Some? ==> out == Answered(SendFailure(x, p.mapped)) && store.calls == old(store.calls)
    ensures SendFailure(x, p.mapped).None? && x.status != StatusOK ==>
              out == Answered(Some(x.errorReply)) &&
              store.calls == old(store.calls) + ReturnCalls(p.info.tokenId, p.reservation.userQuota, p.reservation.reserved)
    ensures SendFailure(x, p.mapped).None? && x.status == StatusOK ==>
              var info := p.info.(isStream := p.info.isStream || HasPrefix(x.contentType, "text/event-stream"));
              match x.respond(info)
              case RequestPanicked => out == HelperPanicked && store.calls == old(store.calls)
              case ProcessCrashed => out == Crashed && store.calls == old(store.calls)
              case RequestHung => out == Hung && store.calls == old(store.calls)
              case Responded(usage, err, words) =>
                if err.Some? && words.None? then
                  out == Answered(err) &&
                  store.calls == old(store.calls) + ReturnCalls(p.info.tokenId, p.reservation.userQuota, p.reservation.reserved)
                else if usage.None? then out == HelperPanicked && store.calls == old(store.calls)
                else store.calls == old(store.calls) + SettleCalls(info, p.request.model, usage.value,
                                          Charge(services.prices, p.request.model, info.group, p.ratio, usage.value),
                                          p.reservation.reserved, p.reservation.userQuota) &&
                     out == Answered(if err.Some? && stopOnSensitive then err else None)
    ensures |old(store.calls)| <= |store.calls| && store.calls[..|old(store.calls)|] == old(store.calls)
    ensures Balanced(store.calls[|old(store.calls)|..])
    ensures store.tokenQuota == old(store.tokenQuota)
  {
    ghost var before := store.calls;
    var failure := SendFailure(x, p.mapped);
    if failure.Some? {
      return Answered(failure);
    }
    var info := p.info.(isStream := p.info.isStream || HasPrefix(x.contentType, "text/event-stream"));
    if x.status != StatusOK {
      store.ReturnPreConsumedQuota(info.tokenId, p.reservation.userQuota, p.reservation.reserved);
      assert store.calls[|before|..] == ReturnCalls(info.tokenId, p.reservation.userQuota, p.reservation.reserved);
      return Answered(Some(x.errorReply));
    }
    match x.respond(info) {
      case RequestPanicked =>
        return HelperPanicked;
      case ProcessCrashed =>
        return Crashed;
      case RequestHung =>
        return Hung;
      case Responded(usage, err, words) =>
        if err.Some? && words.None? {
          store.ReturnPreConsumedQuota(info.tokenId, p.reservation.userQuota, p.reservation.reserved);
          assert store.calls[|before|..] == ReturnCalls(info.tokenId, p.reservation.userQuota, p.reservation.reserved);
          return Answered(err);
        }
        if usage.None? {
          // postConsumeQuota reads the prompt tokens through a nil usage.
          return HelperPanicked;
        }
        store.PostConsumeQuota(info, p.request.model, usage.value, services.prices, p.ratio,
                               p.reservation.reserved, p.reservation.userQuota, replies);
        ghost var quota := Charge(services.prices, p.request.model, info.group, p.ratio, usage.value);
        assert store.calls[|before|..] == SettleCalls(info, p.request.model, usage.value, quota,
                                                      p.reservation.reserved, p.reservation.userQuota);
        SettlementReconciles(info, p.request.model, usage.value, quota, p.reservation.reserved, p.reservation.userQuota);
        if err.Some? && stopOnSensitive {
          return Answered(err);
        }
        return Answered(None);
    }
  }

  /** A sequence that starts with p is p followed by the rest. */
  lemma PrefixSplit<T>(s: seq<T>, p: seq<T>)
    requires |p| <= |s| && s[..|p|] == p
    ensures s == p + s[|p|..]
  {
  }

  /** The first part of a three-part concatenation, and what follows it. */
  lemma AppendSplit<T>(a: seq<T>, b: seq<T>, c: seq<T>)
    ensures |a| <= |a + b + c| && (a + b + c)[..|a|] == a && (a + b + c)[|a|..] == b + c
  {
    assert a + b + c == a + (b + c);
  }

  /** Calls that neither return, commit nor log keep a balanced run that follows them balanced. */
  lemma BalancedAfterPrepare(pre: seq<LedgerCall>, tail: seq<LedgerCall>)
    requires Count(pre, IsReturn) == 0 && Count(pre, IsCommit) == 0 && Count(pre, IsLog) == 0
    requires Balanced(tail)
    ensures Balanced(pre + tail)
  {
    CountAppend(pre, tail, IsReturn);
    CountAppend(pre, tail, IsLog);
    CountAppend(pre, tail, IsCommit);
  }

  /**
   * TextHelper. Whatever path it takes, a request returns or settles its
   * reservation at most once, never both, and commits to the token ledger
   * only as part of a settlement.
   */
  method TextHelper(store: QuotaStore, info: RelayInfo, client: ClientRequest, services: Services, checkSensitive: bool,
                    x: Exchange, stopOnSensitive: bool, replies: StoreReplies)
    returns (out: TextOutcome)
    modifies store
    ensures |old(store.calls)| <= |store.calls| && store.calls[..|old(store.calls)|] == old(store.calls)
    ensures Balanced(store.calls[|old(store.calls)|..])
    ensures ValidateTextRequest(info.relayMode, client.parsed, client.modelParam).Err? ==>
              out.Answered? && out.err.Some? && out.err.value.StatusCode() == StatusBadRequest && store.calls == old(store.calls)
  {
    ghost var before := store.calls;
    var prepared := Prepare(store, info, client, services, checkSensitive, replies);
    ghost var mid := store.calls;
    ghost var pre := mid[|before|..];
    PrefixSplit(mid, before);
    if prepared.Err? {
      return Answered(Some(prepared.error));
    }
    out := Forward(store, prepared.value, x, services, stopOnSensitive, replies);
    ghost var tail := store.calls[|mid|..];
    PrefixSplit(store.calls, mid);
    AppendSplit(before, pre, tail);
    BalancedAfterPrepare(pre, tail);
  }
}
