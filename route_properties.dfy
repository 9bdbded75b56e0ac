/**
 * What the `POST /api/generate` handler guarantees, stated over all request
 * bodies, service answers and JSON parsers.
 */
module GenerateRouteProperties {
  import opened Wrappers
  import opened JsString
  import opened JsValue
  import opened GenerateRoute

  // ---------------------------------------------------------------------------
  // Input validation

  /** A body without a non-blank string `text` is answered 400 "empty" and nothing is sent. */
  lemma BlankTextRejected(body: Option<Json>, answer: Answer, parse: Text -> Option<Json>)
    requires body.Some? && body.value != Null
    requires SubmittedText(body.value) == None || AllWhitespace(SubmittedText(body.value).value)
    ensures Post(body, answer, parse) == Handled(Response(400, Error(EmptyInput)), [])
  {
  }

  /**
   * A non-blank text is refused as too long exactly when it has more than
   * 5000 code units; up to 5000 it is sent, verbatim, in one prompt.
   */
  lemma LengthLimit(body: Option<Json>, input: Text, answer: Answer, parse: Text -> Option<Json>)
    requires body.Some? && SubmittedText(body.value) == Some(input) && !AllWhitespace(input)
    ensures |input| > 5000 ==> Post(body, answer, parse) == Handled(Response(400, Error(InputTooLong)), [])
    ensures |input| <= 5000 ==> Post(body, answer, parse).prompts == [BuildPrompt(input)]
  {
  }

  /** A body that is not JSON, or is JSON `null`, is answered 400 "invalid format". */
  lemma UnreadableBodyRejected(body: Option<Json>, answer: Answer, parse: Text -> Option<Json>)
    requires body == None || body == Some(Null)
    ensures Post(body, answer, parse) == Handled(Response(400, Error(InvalidRequestFormat)), [])
  {
  }

  /**
   * When the input is refused no prompt is sent, and the response does not
   * depend on what the service or the parser would have done.
   */
  lemma RejectedInputIgnoresService(body: Option<Json>, answer: Answer, parse: Text -> Option<Json>,
                                    answer': Answer, parse': Text -> Option<Json>)
    requires Post(body, answer, parse).prompts == []
    ensures Post(body, answer', parse') == Post(body, answer, parse)
    ensures Post(body, answer, parse).response.status == 400
  {
  }

  // ---------------------------------------------------------------------------
  // Prompt construction

  /** The user's text can be read back from the prompt it was sent in. */
  lemma PromptRoundTrip(input: Text)
    ensures PromptInput(BuildPrompt(input)) == Some(input)
  {
    var p := BuildPrompt(input);
    assert p[..|Preamble|] == Preamble;
    assert p[|p| - |Closing|..] == Closing;
  }

  /**
   * The input is not escaped: an input consisting of a marker line places a
   * complete closing marker directly after the preamble, so a reader that
   * looked for the first closing marker would cut the input short.
   */
  lemma InputMayContainClosingMarker()
    ensures var p := BuildPrompt(Closing);
      p[|Preamble|..|Preamble| + |Closing|] == Closing && |p| > |Preamble| + |Closing|
  {
  }

  /** Every prompt PromptInput reads a text from is the prompt built from that text. */
  lemma PromptInputSound(p: Text)
    requires PromptInput(p).Some?
    ensures BuildPrompt(PromptInput(p).value) == p
  {
    var input := PromptInput(p).value;
    assert p == p[..|Preamble|] + input + p[|p| - |Closing|..];
  }

  /** Different texts give different prompts. */
  lemma BuildPromptInjective(a: Text, b: Text)
    requires BuildPrompt(a) == BuildPrompt(b)
    ensures a == b
  {
    PromptRoundTrip(a);
    PromptRoundTrip(b);
  }

  // ---------------------------------------------------------------------------
  // Reply validation

  /**
   * `cards.every(...)` throws exactly when the first element that is not a
   * card is `null`.
   */
  lemma {:induction false} EveryThrowsAtFirstNull(cards: seq<Json>)
    ensures EveryCardHasText(cards) == ThrewOnNull <==>
      exists k :: 0 <= k < |cards| && cards[k] == Null && forall i :: 0 <= i < k ==> IsCard(cards[i])
  {
    if cards != [] {
      EveryThrowsAtFirstNull(cards[1..]);
      if IsCard(cards[0]) {
        if EveryCardHasText(cards[1..]) == ThrewOnNull {
          var k :| 0 <= k < |cards[1..]| && cards[1..][k] == Null
                   && forall i :: 0 <= i < k ==> IsCard(cards[1..][i]);
          assert cards[k + 1] == Null;
          assert forall i :: 0 <= i < k + 1 ==> IsCard(cards[i]) by {
            forall i | 0 <= i < k + 1 ensures IsCard(cards[i]) {
              if i > 0 { assert cards[i] == cards[1..][i - 1]; }
            }
          }
        }
      }
    }
  }

  /** Whitespace around the reply text is ignored: trimming happens before parsing. */
  lemma PaddedReplyValidatesAlike(front: Text, raw: Text, back: Text, parse: Text -> Option<Json>)
    requires AllWhitespace(front) && AllWhitespace(back)
    ensures ValidateReply(front + raw + back, parse) == ValidateReply(raw, parse)
  {
    TrimIgnoresPadding(front, raw, back);
  }

  /**
   * A parsed value that is not of the reply format is refused, whatever it
   * is: `null`, a primitive, an array, an object without an array `cards`,
   * or with a card that is `null` or lacks a string `text`.
   */
  lemma ShapeMismatchRefused(raw: Text, parse: Text -> Option<Json>)
    requires parse(Trim(raw)).Some? && !IsCardSet(parse(Trim(raw)).value)
    ensures ValidateReply(raw, parse) == Failure(SchemaMismatch) || ValidateReply(raw, parse) == Failure(CardIsNull)
  {
  }

  // ---------------------------------------------------------------------------
  // The whole handler

  /**
   * The handler answers 200 exactly when the input is accepted, the reply's
   * first block is text, and that text, trimmed, parses to a value of the
   * reply format; the body is then that value, unchanged.
   */
  lemma SuccessExactly(body: Option<Json>, answer: Answer, parse: Text -> Option<Json>)
    ensures Post(body, answer, parse).response.status == 200 <==>
      && ReadInput(body).Success?
      && answer.Reply? && ReplyText(answer.content).Some?
      && parse(Trim(ReplyText(answer.content).value)).Some?
      && IsCardSet(parse(Trim(ReplyText(answer.content).value)).value)
    ensures Post(body, answer, parse).response.status == 200 ==>
      Post(body, answer, parse).response.body == Data(parse(Trim(ReplyText(answer.content).value)).value)
  {
  }

  /**
   * A reply that is empty or does not start with a text block is answered
   * 500 with the generic service message, like an error without a status.
   */
  lemma UnexpectedReplyShape(body: Option<Json>, content: seq<Block>, parse: Text -> Option<Json>)
    requires |content| == 0 || content[0].kind != TextBlockType
    ensures ReadInput(body).Success? ==>
      Post(body, Reply(content), parse).response == Response(500, Error(ServiceFailure))
    ensures Post(body, Reply(content), parse) == Post(body, Thrown(None), parse)
  {
  }

  /**
   * Every reply text that fails validation, for any reason, is answered with
   * the same 500 "cannot parse" response: the text itself never reaches the
   * response.
   */
  lemma UnparsableRepliesLookAlike(body: Option<Json>, raw: Text, rest: seq<Block>, parse: Text -> Option<Json>,
                                   raw': Text, rest': seq<Block>, parse': Text -> Option<Json>)
    requires ValidateReply(raw, parse).Failure? && ValidateReply(raw', parse').Failure?
    ensures ReadInput(body).Success? ==>
      Post(body, Reply([Block(TextBlockType, raw)] + rest), parse).response == Response(500, Error(UnparsableReply))
    ensures Post(body, Reply([Block(TextBlockType, raw')] + rest'), parse').response
         == Post(body, Reply([Block(TextBlockType, raw)] + rest), parse).response
  {
  }

  /**
   * A service error is answered 500, with the invalid-key message for status
   * 401, the rate-limit message for 429, and the generic message otherwise,
   * including when it has no status. It is never the "cannot parse" answer.
   */
  lemma ServiceErrorClassified(body: Option<Json>, status: Option<int>, parse: Text -> Option<Json>)
    ensures ReadInput(body).Success? ==> Post(body, Thrown(status), parse).response.status == 500
    ensures ReadInput(body).Success? && status == Some(401) ==>
      Post(body, Thrown(status), parse).response.body == Error(InvalidApiKey)
    ensures ReadInput(body).Success? && status == Some(429) ==>
      Post(body, Thrown(status), parse).response.body == Error(RateLimited)
    ensures ReadInput(body).Success? && status != Some(401) && status != Some(429) ==>
      Post(body, Thrown(status), parse).response.body == Error(ServiceFailure)
  {
  }

  /** Only a validation failure produces the "cannot parse" answer. */
  lemma UnparsableOnlyFromValidation(body: Option<Json>, answer: Answer, parse: Text -> Option<Json>)
    ensures Post(body, answer, parse).response.body == Error(UnparsableReply) ==>
      && answer.Reply? && ReplyText(answer.content).Some?
      && ValidateReply(ReplyText(answer.content).value, parse).Failure?
  {
  }

  /** Every answer other than a 200 is one of the fixed messages with its status. */
  lemma ErrorsCarryFixedMessages(body: Option<Json>, answer: Answer, parse: Text -> Option<Json>)
    ensures var r := Post(body, answer, parse).response;
      r.status != 200 ==> r.body.Error? && r == ErrorResponse(r.body.message)
  {
  }
}
