/** The `/generate-script` endpoint of the Python backend (`generate_script_endpoint`
    in python_server/main.py): it checks the key read from the environment, asks the
    Anthropic SDK for one completion, concatenates the text blocks of the answer and
    maps the SDK's exceptions, in the order of its except clauses, to fixed messages.
    The environment variable is an input; the SDK call is a parameter `create` that
    gives the outcome of the request it is handed, and `sent` records that request. */
module ScriptEndpoint {
  import opened Text

  /** The request body of `/generate-script`. */
  datatype ScriptRequest = ScriptRequest(prompt: string, modelIdentifier: string)

  datatype UserMessage = UserMessage(role: string, content: string)

  /** The keyword arguments of `client.messages.create`. */
  datatype CreateParams = CreateParams(model: string, maxTokens: nat, messages: seq<UserMessage>)

  /** A block of `response.content`; `text` is None when the block has no `text` attribute. */
  datatype ContentBlock = ContentBlock(text: Option<string>)

  /** Which subclass of `anthropic.APIStatusError` was raised. */
  datatype StatusKind = RateLimit | Authentication | OtherStatus

  /** The exceptions the SDK call can raise, as tags. */
  datatype SdkError =
    | ConnectionError                                  // anthropic.APIConnectionError (timeouts included)
    | StatusError(kind: StatusKind, statusCode: nat)   // anthropic.APIStatusError and its subclasses
    | OtherError                                       // any other Exception

  /** What the SDK call did: returned a message with content blocks, or raised. */
  datatype SdkOutcome = Returned(content: seq<ContentBlock>) | Raised(error: SdkError)

  datatype ScriptData = ScriptData(script: string)

  /** The returned dict; a key it does not carry is None. */
  datatype Reply = Reply(success: bool, error: Option<string>, data: Option<ScriptData>)

  /** The classes named by the except clauses of the handler. */
  datatype ExceptionClass = APIConnectionError | RateLimitError | AuthenticationError | APIStatusError | AnyException

  const MaxTokens := 1024
  const MissingKeyMessage := "ANTHROPIC_API_KEY not found in environment variables."
  const Placeholder := "[No text content found in response]"
  const ConnectionMessage := "Failed to connect to Anthropic API."
  const RateLimitMessage := "Anthropic API rate limit exceeded."
  const AuthenticationMessage := "Anthropic API authentication failed. Check your API key."
  const StatusMessagePrefix := "Anthropic API error: "
  const UnexpectedMessage := "An unexpected error occurred" + " while generating the script."

  /** The except clauses, in the order the handler lists them. */
  const Handlers: seq<ExceptionClass> := [APIConnectionError, RateLimitError, AuthenticationError, APIStatusError, AnyException]

  /** Every reply is a failure with an error or a success with data, never both. */
  predicate WellFormed(r: Reply)
  {
    (r.success <==> r.data.Some?) && (r.success <==> r.error.None?)
  }

  /** `isinstance(e, c)` along the SDK's class hierarchy. */
  predicate IsInstance(e: SdkError, c: ExceptionClass)
  {
    match c
    case APIConnectionError => e.ConnectionError?
    case RateLimitError => e.StatusError? && e.kind == RateLimit
    case AuthenticationError => e.StatusError? && e.kind == Authentication
    case APIStatusError => e.StatusError?
    case AnyException => true
  }

  /** The position of the first clause that catches `e`; `|clauses|` when none does. */
  function FirstCatching(clauses: seq<ExceptionClass>, e: SdkError): (i: nat)
    ensures i <= |clauses|
    ensures i < |clauses| ==> IsInstance(e, clauses[i])
    ensures forall j :: 0 <= j < i ==> !IsInstance(e, clauses[j])
  {
    if clauses == [] then 0
    else if IsInstance(e, clauses[0]) then 0
    else 1 + FirstCatching(clauses[1..], e)
  }

  /** The clause that catches `e` is the first one whose class `e` is an instance of. */
  lemma FirstCatchingIs(clauses: seq<ExceptionClass>, e: SdkError, k: nat)
    requires k < |clauses| && IsInstance(e, clauses[k])
    requires forall j :: 0 <= j < k ==> !IsInstance(e, clauses[j])
    ensures FirstCatching(clauses, e) == k
  {
  }

  /** The message has the form "Anthropic API error: <something>". */
  predicate QuotesStatusCode(r: string)
  {
    |r| > |StatusMessagePrefix| && r[..|StatusMessagePrefix|] == StatusMessagePrefix
  }

  /** The message the body of each except clause returns. */
  function ClauseMessage(c: ExceptionClass, e: SdkError): (r: string)
    requires IsInstance(e, c)
    ensures r != ""
    ensures c == APIStatusError <==> QuotesStatusCode(r)
  {
    match c
    case APIConnectionError =>
      assert ConnectionMessage[0] != StatusMessagePrefix[0];
      ConnectionMessage
    case RateLimitError =>
      assert RateLimitMessage[14] != StatusMessagePrefix[14];
      RateLimitMessage
    case AuthenticationError =>
      assert AuthenticationMessage[14] != StatusMessagePrefix[14];
      AuthenticationMessage
    case APIStatusError => StatusMessagePrefix + NatToDecimal(e.statusCode)
    case AnyException =>
      assert UnexpectedMessage[3] != StatusMessagePrefix[3];
      UnexpectedMessage
  }

  /** The error message of a raised exception: that of the first clause that catches it. */
  function ExceptionMessage(e: SdkError): (r: string)
    ensures r != ""
    ensures QuotesStatusCode(r) <==> e.StatusError? && e.kind == OtherStatus
  {
    var i := FirstCatching(Handlers, e);
    assert IsInstance(e, Handlers[4]);
    assert Handlers[1] == RateLimitError && Handlers[2] == AuthenticationError && Handlers[3] == APIStatusError;
    assert i == 3 <==> e.StatusError? && e.kind == OtherStatus;
    ClauseMessage(Handlers[i], e)
  }

  /** The text a block contributes: its `text`, or nothing when it has none. */
  function TextOf(b: ContentBlock): string
  {
    if b.text.Some? then b.text.value else ""
  }

  /** The in-order concatenation of the texts of the blocks. */
  function JoinTexts(blocks: seq<ContentBlock>): (r: string)
    ensures r == "" <==> forall i :: 0 <= i < |blocks| ==> TextOf(blocks[i]) == ""
  {
    if blocks == [] then ""
    else
      assert forall i :: 1 <= i < |blocks| ==> blocks[1..][i - 1] == blocks[i];
      TextOf(blocks[0]) + JoinTexts(blocks[1..])
  }

  /** Concatenation distributes over splitting the blocks. */
  lemma {:induction false} JoinTextsAppend(xs: seq<ContentBlock>, ys: seq<ContentBlock>)
    ensures JoinTexts(xs + ys) == JoinTexts(xs) + JoinTexts(ys)
  {
    if xs != [] {
      assert (xs + ys)[1..] == xs[1..] + ys;
      JoinTextsAppend(xs[1..], ys);
    } else {
      assert xs + ys == ys;
    }
  }

  /** `data.script` of a successful reply: the concatenated text, or the placeholder when it is empty. */
  function ScriptOf(blocks: seq<ContentBlock>): (r: string)
    ensures r != ""
    ensures JoinTexts(blocks) != "" ==> r == JoinTexts(blocks)
  {
    var text := JoinTexts(blocks);
    if text == "" then Placeholder else text
  }

  /** The loop `for block in response.content: if hasattr(block, 'text'): script_text += block.text`. */
  method ConcatTexts(blocks: seq<ContentBlock>) returns (scriptText: string)
    ensures scriptText == JoinTexts(blocks)
  {
    scriptText := "";
    for i := 0 to |blocks|
      invariant scriptText == JoinTexts(blocks[..i])
    {
      if blocks[i].text.Some? {
        scriptText := scriptText + blocks[i].text.value;
      }
      JoinTextsAppend(blocks[..i], [blocks[i]]);
      assert JoinTexts([blocks[i]]) == TextOf(blocks[i]);
      assert blocks[..i + 1] == blocks[..i] + [blocks[i]];
    }
    assert blocks[..|blocks|] == blocks;
  }

  /** `generate_script_endpoint(request)` with `apiKey` the value of `ANTHROPIC_API_KEY`. */
  method GenerateScriptEndpoint(request: ScriptRequest, apiKey: Option<string>, create: CreateParams -> SdkOutcome)
    returns (sent: Option<CreateParams>, reply: Reply)
    ensures WellFormed(reply)
    ensures sent.None? <==> !Present(apiKey)
    ensures !Present(apiKey) ==> reply == Reply(false, Some(MissingKeyMessage), None)
    ensures sent.Some? ==>
              sent.value == CreateParams(request.modelIdentifier, 1024, [UserMessage("user", request.prompt)])
    ensures sent.Some? && create(sent.value).Raised? ==>
              reply == Reply(false, Some(ExceptionMessage(create(sent.value).error)), None)
    ensures sent.Some? && create(sent.value).Returned? ==>
              reply == Reply(true, None, Some(ScriptData(ScriptOf(create(sent.value).content))))
  {
    if !Present(apiKey) {
      return None, Reply(false, Some(MissingKeyMessage), None);
    }
    var params := CreateParams(request.modelIdentifier, MaxTokens, [UserMessage("user", request.prompt)]);
    sent := Some(params);
    match create(params)
    case Raised(e) =>
      reply := Reply(false, Some(ExceptionMessage(e)), None);
    case Returned(content) =>
      var scriptText := ConcatTexts(content);
      if scriptText == "" {
        reply := Reply(true, None, Some(ScriptData(Placeholder)));
      } else {
        reply := Reply(true, None, Some(ScriptData(scriptText)));
      }
  }

  // ----- Properties of the endpoint -----

  /** Exceptions are mapped in clause order, the first match winning: a rate-limit or authentication
      error is also an `APIStatusError`, yet gets its own message because its clause comes first. */
  lemma ExceptionMessages(code: nat)
    ensures ExceptionMessage(ConnectionError) == "Failed to connect to Anthropic API."
    ensures IsInstance(StatusError(RateLimit, code), APIStatusError) &&
            ExceptionMessage(StatusError(RateLimit, code)) == "Anthropic API rate limit exceeded."
    ensures IsInstance(StatusError(Authentication, code), APIStatusError) &&
            ExceptionMessage(StatusError(Authentication, code)) == "Anthropic API authentication failed. Check your API key."
    ensures ExceptionMessage(StatusError(OtherStatus, code)) == "Anthropic API error: " + NatToDecimal(code)
    ensures ExceptionMessage(OtherError) == "An unexpected error occurred" + " while generating the script."
  {
    FirstCatchingIs(Handlers, ConnectionError, 0);
    FirstCatchingIs(Handlers, StatusError(RateLimit, code), 1);
    FirstCatchingIs(Handlers, StatusError(Authentication, code), 2);
    FirstCatchingIs(Handlers, StatusError(OtherStatus, code), 3);
    FirstCatchingIs(Handlers, OtherError, 4);
  }

  /** Two status errors of the generic kind get the same message only when their codes agree. */
  lemma StatusMessageDeterminesCode(m: nat, n: nat)
    ensures ExceptionMessage(StatusError(OtherStatus, m)) == ExceptionMessage(StatusError(OtherStatus, n)) ==> m == n
  {
    ExceptionMessages(m);
    ExceptionMessages(n);
    var s := StatusMessagePrefix;
    if s + NatToDecimal(m) == s + NatToDecimal(n) {
      assert NatToDecimal(m) == (s + NatToDecimal(m))[|s|..];
      assert NatToDecimal(n) == (s + NatToDecimal(n))[|s|..];
      NatToDecimalInjective(m, n);
    }
  }

  /** The script of a successful call: the placeholder when no block has a non-empty text, and otherwise
      the concatenation of the texts in order, which is then not empty. */
  lemma {:induction false} ScriptOrPlaceholder(blocks: seq<ContentBlock>)
    ensures (forall i :: 0 <= i < |blocks| ==> TextOf(blocks[i]) == "") ==> ScriptOf(blocks) == Placeholder
    ensures (exists i :: 0 <= i < |blocks| && TextOf(blocks[i]) != "") ==>
              ScriptOf(blocks) == JoinTexts(blocks) && ScriptOf(blocks) != ""
  {
  }
}
