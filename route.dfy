/**
 * The `POST /api/generate` handler: it reads the submitted text, rejects it
 * when empty or too long, wraps it in a fixed instruction prompt, sends that
 * prompt to the language-model service once, and turns the service's reply
 * or error into an HTTP status and a JSON body.
 *
 * `req.json()` and `JSON.parse` are not modelled: the handler receives the
 * request body already parsed (`None` when it is not JSON), and a `parse`
 * function standing for `JSON.parse`. The service call is not modelled either:
 * the handler receives `answer`, what the service returned or threw, and
 * reports the prompts it sent.
 */
module GenerateRoute {
  import opened Wrappers
  import opened JsString
  import opened JsValue

  /** The longest accepted input, in UTF-16 code units. */
  const MaxInputLength: nat := 5000

  const TextKey: Text := Utf16("text")
  const CardsKey: Text := Utf16("cards")
  const MessageKey: Text := Utf16("message")

  // ---------------------------------------------------------------------------
  // Responses

  /** The user-facing error messages the handler can answer with. */
  datatype Message =
    | EmptyInput            // no usable text in the request
    | InputTooLong          // text over MaxInputLength code units
    | InvalidRequestFormat  // body not JSON, or reading `text` threw
    | UnparsableReply       // reply text not JSON or not of the expected shape
    | InvalidApiKey         // service error with status 401
    | RateLimited           // service error with status 429
    | ServiceFailure        // any other service error or reply shape

  function MessageText(m: Message): Text
  {
    match m
    case EmptyInput => Utf16("输入文本不能为空")
    case InputTooLong => Utf16("输入文本过长，请保持在 5000 字以内")
    case InvalidRequestFormat => Utf16("无效的请求格式")
    case UnparsableReply => Utf16("无法解析AI模型的响应，请稍后重试或调整输入。")
    case InvalidApiKey => Utf16("Anthropic API 密钥无效或缺失")
    case RateLimited => Utf16("AI服务调用频率过高，请稍后再试")
    case ServiceFailure => Utf16("调用AI服务时发生错误")
  }

  /** The HTTP status sent with each message: 400 for input errors, 500 otherwise. */
  function MessageStatus(m: Message): nat
  {
    if m == EmptyInput || m == InputTooLong || m == InvalidRequestFormat then 400 else 500
  }

  /** A response body: the parsed reply on success, or an error message. */
  datatype Body = Data(json: Json) | Error(message: Message)

  /** The JSON a body is sent as; an error is `{ "message": <text> }`. */
  function BodyJson(b: Body): Json
  {
    match b
    case Data(json) => json
    case Error(m) => Object(map[MessageKey := String(MessageText(m))])
  }

  /** An HTTP response: status and body. */
  datatype Response = Response(status: nat, body: Body)

  /** `NextResponse.json({ message }, { status })`. */
  function ErrorResponse(m: Message): Response
  {
    Response(MessageStatus(m), Error(m))
  }

  // ---------------------------------------------------------------------------
  // 1. Input validation

  /**
   * The submitted text as a plain object lookup: the string under `text`
   * when the body is an object that has one.
   */
  function SubmittedText(body: Json): Option<Text>
  {
    if body.Object? && TextKey in body.properties && body.properties[TextKey].String?
    then Some(body.properties[TextKey].s)
    else None
  }

  /**
   * Reads `body.text` and checks it. A body that is not JSON, or is JSON
   * `null` (reading a property of it throws), is an invalid request. A body
   * without a non-blank string `text` is empty input. A non-blank text longer
   * than MaxInputLength is too long; whitespace-only text is reported as empty
   * whatever its length. Anything else is accepted unchanged, untrimmed.
   */
  function ReadInput(body: Option<Json>): (r: Result<Text, Message>)
    ensures r == Failure(InvalidRequestFormat) <==> body == None || body == Some(Null)
    ensures r == Failure(EmptyInput) <==>
      && body.Some? && body.value != Null
      && (SubmittedText(body.value) == None || AllWhitespace(SubmittedText(body.value).value))
    ensures r == Failure(InputTooLong) <==>
      && body.Some? && SubmittedText(body.value).Some?
      && !AllWhitespace(SubmittedText(body.value).value)
      && |SubmittedText(body.value).value| > MaxInputLength
    ensures r.Success? <==>
      && body.Some? && SubmittedText(body.value).Some?
      && !AllWhitespace(SubmittedText(body.value).value)
      && |SubmittedText(body.value).value| <= MaxInputLength
    ensures r.Success? ==> r.value == SubmittedText(body.value).value
  {
    match body
    case None => Failure(InvalidRequestFormat)
    case Some(v) =>
      match GetProperty(v, TextKey)
      case TypeError => Failure(InvalidRequestFormat)
      case Undefined => Failure(EmptyInput)
      case Present(t) =>
        if !Truthy(t) || !t.String? || Trim(t.s) == [] then Failure(EmptyInput)
        else if |t.s| > MaxInputLength then Failure(InputTooLong)
        else Success(t.s)
  }

  // ---------------------------------------------------------------------------
  // 2. Prompt construction

  /** The delimiter line around the user's text. */
  const Marker: Text := Utf16("\"\"\"")
  const Newline: Text := Utf16("\n")

  /** The fixed instruction text that precedes the user's text. */
  const Instructions: Text := Utf16(
      "\n"
    + "请扮演一个社交媒体内容优化助手。我将给你一段文字，请你：\n"
    + "1.  将文字润色，使其更适合在抖音图文或小红书笔记中发布，风格简洁、吸引人。\n"
    + "2.  将润色后的内容，智能地分割成多个逻辑连贯的小段落，每段适合单独放在一张图片卡片上展示（例如每段建议不超过100字，但请根据内容逻辑自然分段）。\n"
    + "3.  以严格的JSON格式返回结果，**不要包含任何额外的解释、注释或代码块标记 (如 ```)**，直接输出JSON对象。格式如下：\n"
    + "    {\n"
    + "      \"cards\": [\n"
    + "        {\"text\": \"第一段润色后的文字...\"},\n"
    + "        {\"text\": \"第二段润色后的文字...\"},\n"
    + "        // ...更多段落\n"
    + "      ]\n"
    + "    }\n"
    + " **重要：请确保 JSON 字符串值内部的所有特殊字符（尤其是双引号 \" 和反斜杠 \\）都已正确转义（例如，使用 \" 和 \\\\）。最终输出必须是完全合法的 JSON。**\n"
    + "\n"
    + "这是用户输入的原始文字：\n")

  /** What precedes the user's text: the instructions and an opening marker line. */
  const Preamble: Text := Instructions + Marker + Newline

  /** What follows the user's text: a closing marker line. */
  const Closing: Text := Newline + Marker + Newline

  /**
   * The prompt sent to the service: the instructions, then the user's text
   * verbatim, alone between an opening and a closing marker line.
   */
  function BuildPrompt(input: Text): (p: Text)
    ensures |p| == |Preamble| + |input| + |Closing|
    ensures p[..|Instructions|] == Instructions
    ensures p[|Instructions|..|Preamble|] == Marker + Newline
    ensures p[|Preamble|..|Preamble| + |input|] == input
    ensures p[|Preamble| + |input|..] == Newline + Marker + Newline
  {
    Preamble + input + Closing
  }

  /** The user's text inside a prompt built by BuildPrompt, if `p` is one. */
  function PromptInput(p: Text): Option<Text>
  {
    if |p| >= |Preamble| + |Closing| && p[..|Preamble|] == Preamble && p[|p| - |Closing|..] == Closing
    then Some(p[|Preamble|..|p| - |Closing|])
    else None
  }

  // ---------------------------------------------------------------------------
  // 3. The service's answer

  /** One content block of a reply: its `type`, and its `text` for a text block. */
  datatype Block = Block(kind: Text, text: Text)

  /**
   * What the service call came back with: a reply's content blocks, or a
   * thrown error with its `status`, if it has a numeric one.
   */
  datatype Answer = Reply(content: seq<Block>) | Thrown(status: Option<int>)

  const TextBlockType: Text := Utf16("text")

  /** The text of the reply's first block, when there is one of type "text". */
  function ReplyText(content: seq<Block>): Option<Text>
  {
    if |content| > 0 && content[0].kind == TextBlockType then Some(content[0].text) else None
  }

  /** A card as the reply format describes it: an object whose `text` is a string. */
  predicate IsCard(v: Json)
  {
    v.Object? && TextKey in v.properties && v.properties[TextKey].String?
  }

  /** The reply format: an object whose `cards` is an array of cards. */
  predicate IsCardSet(v: Json)
  {
    && v.Object? && CardsKey in v.properties && v.properties[CardsKey].Array?
    && forall i :: 0 <= i < |v.properties[CardsKey].elements| ==>
         IsCard(v.properties[CardsKey].elements[i])
  }

  /** How `cards.every(card => typeof card.text === "string")` ends. */
  datatype EveryOutcome = AllCards | NotAllCards | ThrewOnNull

  /**
   * `cards.every(card => typeof card.text === "string")`, left to right:
   * it stops with `false` at the first element whose `text` is not a string,
   * and throws a `TypeError` if that element is `null`.
   */
  function EveryCardHasText(cards: seq<Json>): (r: EveryOutcome)
    ensures r == AllCards <==> forall i :: 0 <= i < |cards| ==> IsCard(cards[i])
    ensures r == ThrewOnNull ==> Null in cards
  {
    if cards == [] then AllCards
    else
      match GetProperty(cards[0], TextKey)
      case TypeError => ThrewOnNull
      case Present(String(_)) => EveryCardHasText(cards[1..])
      case _ => NotAllCards
  }

  /** Why a reply's text was refused: the three ways the inner `try` throws. */
  datatype ReplyFailure =
    | MalformedJson   // JSON.parse threw
    | SchemaMismatch  // the explicit "does not match expected structure" error
    | CardIsNull      // reading `text` of a null card threw

  /**
   * Trims the reply text, parses it, and accepts the parsed value unchanged
   * exactly when it has the reply format; a parse failure is MalformedJson.
   */
  function ValidateReply(raw: Text, parse: Text -> Option<Json>): (r: Result<Json, ReplyFailure>)
    ensures r.Success? <==> parse(Trim(raw)).Some? && IsCardSet(parse(Trim(raw)).value)
    ensures r.Success? ==> r.value == parse(Trim(raw)).value
    ensures r == Failure(MalformedJson) <==> parse(Trim(raw)) == None
  {
    match parse(Trim(raw))
    case None => Failure(MalformedJson)
    case Some(v) =>
      if !Truthy(v) then Failure(SchemaMismatch)
      else
        match GetProperty(v, CardsKey)
        case Present(Array(cards)) =>
          (match EveryCardHasText(cards)
           case AllCards => Success(v)
           case NotAllCards => Failure(SchemaMismatch)
           case ThrewOnNull => Failure(CardIsNull))
        case _ => Failure(SchemaMismatch)
  }

  // ---------------------------------------------------------------------------
  // 4. Failure classification and the whole handler

  /** The message for an error caught by the outer `catch`, chosen by its `status`. */
  function ErrorMessage(status: Option<int>): (m: Message)
    ensures MessageStatus(m) == 500
    ensures m == InvalidApiKey <==> status == Some(401)
    ensures m == RateLimited <==> status == Some(429)
    ensures status != Some(401) && status != Some(429) ==> m == ServiceFailure
  {
    if status == Some(401) then InvalidApiKey
    else if status == Some(429) then RateLimited
    else ServiceFailure
  }

  /**
   * The response to the service's answer. A thrown error is classified by its
   * status. A reply without a leading text block makes the handler throw an
   * error of its own, which has no status. A reply text that fails validation
   * is answered inside the inner `catch` and never reaches the classification.
   */
  function HandleAnswer(answer: Answer, parse: Text -> Option<Json>): (r: Response)
    ensures r.status == 200 || r.status == 500
  {
    match answer
    case Thrown(status) => ErrorResponse(ErrorMessage(status))
    case Reply(content) =>
      match ReplyText(content)
      case None => ErrorResponse(ErrorMessage(None))
      case Some(raw) =>
        match ValidateReply(raw, parse)
        case Success(v) => Response(200, Data(v))
        case Failure(_) => ErrorResponse(UnparsableReply)
  }

  /** The handler's response, and the prompts it sent to the service, in order. */
  datatype Handled = Handled(response: Response, prompts: seq<Text>)

  /**
   * `POST(req)`: `body` is what `req.json()` gave (`None` if it threw),
   * `answer` what the service call gave, `parse` stands for `JSON.parse`.
   * At most one prompt is sent, and none exactly when the answer is a 400;
   * every other answer is a 200 or a 500.
   */
  function Post(body: Option<Json>, answer: Answer, parse: Text -> Option<Json>): (h: Handled)
    ensures |h.prompts| <= 1
    ensures h.response.status in {200, 400, 500}
    ensures h.prompts == [] <==> h.response.status == 400
  {
    match ReadInput(body)
    case Failure(m) => Handled(ErrorResponse(m), [])
    case Success(input) => Handled(HandleAnswer(answer, parse), [BuildPrompt(input)])
  }
}
