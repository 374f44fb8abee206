/**
 * One chat request: the options sent with it and the translation of a
 * failure into a message (`chatReplyProcess` and `ErrorCodeMessage` in
 * service/src/chatgpt/index.ts).
 */
module Reply {
  import opened Wrappers
  import opened Environment
  import opened ApiClient

  /** Links a request to the previous turn of a conversation. */
  datatype ChatContext = ChatContext(conversationId: Option<string>, parentMessageId: Option<string>)

  /** The request as the route hands it over (the progress callback is not modelled). */
  datatype ChatRequest = ChatRequest(
    message: string,
    lastContext: Option<ChatContext>,
    systemMessage: Option<string>,
    temperature: Option<real>,
    topP: Option<real>)

  /** `SendMessageOptions` as the adapter fills them; `None` is an absent property. */
  datatype SendOptions = SendOptions(
    timeoutMs: Option<int>,
    systemMessage: Option<string>,
    completionParams: Option<CompletionParams>,
    parentMessageId: Option<string>,
    conversationId: Option<string>)

  /** What a request produces, as `sendResponse` reports it. */
  datatype Response<T> = Success(data: T) | Fail(message: string)

  /** What the client library reports when a request fails. */
  datatype ChatError = ChatError(statusCode: Option<int>, message: Option<string>)

  /**
   * The options, case by case. The official client always gets the timeout,
   * the completion parameters and a non-empty system message, and takes only
   * the parent message id from a context. The reverse-proxy client (and a
   * client whose init block failed, leaving `apiModel` `undefined`) gets only the
   * timeout, unless there is a context, which then replaces the options
   * wholesale.
   */
  function SendOptionsFor(apiModel: Option<ApiModel>, model: string, timeoutMs: int, req: ChatRequest): (o: SendOptions)
    ensures o.completionParams.Some? <==> apiModel == Some(ChatGPTAPI)
    ensures o.conversationId.Some? ==> apiModel != Some(ChatGPTAPI)
    ensures o.systemMessage.Some? ==> |o.systemMessage.value| > 0
    ensures o.timeoutMs.Some? ==> o.timeoutMs.value == timeoutMs
  {
    if apiModel == Some(ChatGPTAPI) then
      SendOptions(
        Some(timeoutMs),
        NonEmptyOrUndefined(req.systemMessage),
        Some(CompletionParams(model, req.temperature, req.topP)),
        if req.lastContext.Some? then req.lastContext.value.parentMessageId else None,
        None)
    else if req.lastContext.Some? then
      SendOptions(None, None, None, req.lastContext.value.parentMessageId, req.lastContext.value.conversationId)
    else
      SendOptions(Some(timeoutMs), None, None, None, None)
  }

  /** The options as the request handler assembles them, one assignment at a time. */
  method BuildSendOptions(apiModel: Option<ApiModel>, model: string, timeoutMs: int, req: ChatRequest)
    returns (options: SendOptions)
    ensures options == SendOptionsFor(apiModel, model, timeoutMs, req)
  {
    options := SendOptions(Some(timeoutMs), None, None, None, None);
    if apiModel == Some(ChatGPTAPI) {
      if IsNotEmptyString(req.systemMessage) {
        options := options.(systemMessage := req.systemMessage);
      }
      options := options.(completionParams := Some(CompletionParams(model, req.temperature, req.topP)));
    }
    if req.lastContext.Some? {
      if apiModel == Some(ChatGPTAPI) {
        options := options.(parentMessageId := req.lastContext.value.parentMessageId);
      } else {
        var ctx := req.lastContext.value;
        options := SendOptions(None, None, None, ctx.parentMessageId, ctx.conversationId);
      }
    }
  }

  /** The timeout is sent unless the reverse-proxy client continues a conversation. */
  lemma TimeoutDroppedOnlyByContext(apiModel: Option<ApiModel>, model: string, timeoutMs: int, req: ChatRequest)
    ensures var o := SendOptionsFor(apiModel, model, timeoutMs, req);
      (o.timeoutMs == None <==> apiModel != Some(ChatGPTAPI) && req.lastContext.Some?) &&
      (o.timeoutMs.Some? ==> o.timeoutMs.value == timeoutMs)
  {
  }

  /**
   * The official client: the system message only when non-empty, the model
   * with the request's sampling settings, the parent message id of a context,
   * and never a conversation id.
   */
  lemma OfficialSendOptions(model: string, timeoutMs: int, req: ChatRequest)
    ensures var o := SendOptionsFor(Some(ChatGPTAPI), model, timeoutMs, req);
      (o.systemMessage.Some? <==> IsNotEmptyString(req.systemMessage)) &&
      (o.systemMessage.Some? ==> o.systemMessage == req.systemMessage) &&
      o.completionParams == Some(CompletionParams(model, req.temperature, req.topP)) &&
      o.parentMessageId == (if req.lastContext.Some? then req.lastContext.value.parentMessageId else None) &&
      o.conversationId == None
  {
  }

  /** For the reverse-proxy client a context is all that is sent. */
  lemma ContextReplacesOptions(apiModel: Option<ApiModel>, model: string, timeoutMs: int, req: ChatRequest)
    requires apiModel != Some(ChatGPTAPI) && req.lastContext.Some?
    ensures var o := SendOptionsFor(apiModel, model, timeoutMs, req);
      o.parentMessageId == req.lastContext.value.parentMessageId &&
      o.conversationId == req.lastContext.value.conversationId &&
      o.timeoutMs == None && o.systemMessage == None && o.completionParams == None
  {
  }

  /** Without a context, a client other than the official one is sent the timeout and nothing else. */
  lemma UnofficialWithoutContext(apiModel: Option<ApiModel>, model: string, timeoutMs: int, req: ChatRequest)
    requires apiModel != Some(ChatGPTAPI) && req.lastContext.None?
    ensures SendOptionsFor(apiModel, model, timeoutMs, req) == SendOptions(Some(timeoutMs), None, None, None, None)
  {
  }

  /** Neither the model nor the sampling settings reach the reverse-proxy client with a request. */
  lemma UnofficialIgnoresSettings(apiModel: Option<ApiModel>, model: string, model': string, timeoutMs: int, req: ChatRequest,
                                  systemMessage: Option<string>, temperature: Option<real>, topP: Option<real>)
    requires apiModel != Some(ChatGPTAPI)
    ensures SendOptionsFor(apiModel, model', timeoutMs, req.(systemMessage := systemMessage, temperature := temperature, topP := topP))
         == SendOptionsFor(apiModel, model, timeoutMs, req)
  {
  }

  const FallbackMessage := "Please check the back-end console"

  /** `ErrorCodeMessage`: the user-facing text for each status code the adapter recognises. */
  const ErrorCodeMessage: map<int, string> := map[
    401 := "[小兰] 提供错误的API密钥 | Incorrect API key provided",
    403 := "[小兰] 服务器拒绝访问，请稍后再试 | Server refused to access, please try again later",
    502 := "[小兰] 错误的网关 |  Bad Gateway",
    503 := "[小兰] 服务器繁忙，请稍后再试 | Server is busy, please try again later",
    504 := "[小兰] 网关超时 | Gateway Time-out",
    500 := "[小兰] 服务器繁忙，请稍后再试 | Internal Server Error"
  ]

  /**
   * The message a failed request reports: the table entry for a recognised
   * status code, else the error's own message, else a fixed hint.
   */
  function FailureMessage(error: ChatError): (msg: string)
    ensures error.statusCode.Some? && error.statusCode.value in ErrorCodeMessage ==>
      msg == ErrorCodeMessage[error.statusCode.value]
    ensures !(error.statusCode.Some? && error.statusCode.value in ErrorCodeMessage) && error.message.Some? ==>
      msg == error.message.value
    ensures !(error.statusCode.Some? && error.statusCode.value in ErrorCodeMessage) && error.message.None? ==>
      msg == FallbackMessage
  {
    if error.statusCode.Some? && error.statusCode.value in ErrorCodeMessage then
      ErrorCodeMessage[error.statusCode.value]
    else
      Coalesce(error.message, FallbackMessage)
  }

  /** The recognised codes are exactly 401, 403, 500, 502, 503 and 504, each with its own text. */
  lemma RecognisedCodes(code: int)
    ensures code in ErrorCodeMessage <==> code in {401, 403, 500, 502, 503, 504}
    ensures forall c, d :: c in ErrorCodeMessage && d in ErrorCodeMessage && c != d ==>
      ErrorCodeMessage[c] != ErrorCodeMessage[d]
  {
  }

  /** For a recognised code the error's own message is never shown, and the text differs from the fallback. */
  lemma RecognisedCodeIgnoresMessage(code: int, m1: Option<string>, m2: Option<string>)
    requires code in ErrorCodeMessage
    ensures FailureMessage(ChatError(Some(code), m1)) == FailureMessage(ChatError(Some(code), m2))
    ensures FailureMessage(ChatError(Some(code), m1)) != FallbackMessage
  {
  }
}
