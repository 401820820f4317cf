/** The browser-side bridge to Anthropic's Messages endpoint (`callClaudeApi` in
    milkdown-experiment/src/api.js): it refuses to call without a key, builds one
    POST request, and normalises whatever comes back into a `{success, script}` or
    `{success, error, raw_error}` record. `fetch` is a parameter: the function gets
    the outcome of the request it built, and `Exchange.sent` records that request
    (None when no request is issued). */
module ClaudeApi {
  import opened Text

  /** A JSON value as `response.json()` yields it. */
  datatype Json =
    | JNull
    | JBool(b: bool)
    | JNum(n: real)
    | JStr(s: string)
    | JArr(items: seq<Json>)
    | JObj(fields: map<string, Json>)

  /** What `response.json()` did: parsed the body, or rejected with a SyntaxError message. */
  datatype BodyRead = Parsed(json: Json) | Unparsable(message: string)

  /** What `await fetch(...)` did: rejected with an error, or produced a response. */
  datatype FetchOutcome =
    | Threw(message: string)
    | Responded(status: nat, statusText: string, body: BodyRead)

  datatype Message = Message(role: string, content: string)

  /** The JSON body before `JSON.stringify`; `system` is absent unless attached. */
  datatype RequestBody = RequestBody(model: string, maxTokens: nat, messages: seq<Message>, system: Option<string>)

  datatype HttpRequest = HttpRequest(url: string, httpMethod: string, headers: map<string, string>, body: RequestBody)

  /** The `raw_error` attached to a failure: the JSON the server sent, or a caught Error (by its message). */
  datatype Raw = RawJson(json: Json) | RawError(message: string)

  /** The record the function returns; a field that the JavaScript object does not carry is None. */
  datatype Reply = Reply(success: bool, script: Option<Json>, error: Option<Json>, rawError: Option<Raw>)

  /** The request that was issued (if any) and the record returned. */
  datatype Exchange = Exchange(sent: Option<HttpRequest>, reply: Reply)

  const ApiUrl := "/api/anthropic/v1/messages"
  const AnthropicVersion := "2023-06-01"
  const MaxTokens := 2048
  const MissingKeyMessage := "Anthropic API key is missing."
  const UnexpectedStructureMessage := "Unexpected response structure."
  const StatusFallbackPrefix := "API request failed with status "

  /** Exactly one arm: a success carries a script and no error; a failure carries an error and no script. */
  predicate WellFormed(r: Reply)
  {
    (r.success <==> r.script.Some?) && (r.success <==> r.error.None?) && (r.success ==> r.rawError.None?)
  }

  function Failure(error: Json, raw: Option<Raw>): Reply
  {
    Reply(false, None, Some(error), raw)
  }

  /** JavaScript truthiness of a value read from JSON; None stands for `undefined`. */
  predicate Truthy(v: Option<Json>)
  {
    match v
    case None => false
    case Some(JNull) => false
    case Some(JBool(b)) => b
    case Some(JNum(n)) => n != 0.0
    case Some(JStr(s)) => s != ""
    case Some(JArr(_)) => true
    case Some(JObj(_)) => true
  }

  /** `v[key]` for a value that is not null, restricted to the keys the bridge reads: an object's
      own property; an array's or string's `length` and element `0`; `undefined` otherwise. */
  function Member(v: Json, key: string): (r: Option<Json>)
    requires !v.JNull?
    ensures v.JObj? ==> (r.Some? <==> key in v.fields)
    ensures !v.JObj? && !v.JArr? && !v.JStr? ==> r.None?
  {
    match v
    case JObj(fields) => if key in fields then Some(fields[key]) else None
    case JArr(items) =>
      if key == "length" then Some(JNum(|items| as real))
      else if key == "0" && |items| > 0 then Some(items[0])
      else None
    case JStr(s) =>
      if key == "length" then Some(JNum(|s| as real))
      else if key == "0" && |s| > 0 then Some(JStr([s[0]]))
      else None
    case _ => None
  }

  /** `v && v.key`, as far as its truthiness and value go when it is truthy. */
  function Guarded(v: Json, key: string): Option<Json>
  {
    if Truthy(Some(v)) then Member(v, key) else None
  }

  /** `x > 0` for a `length` read; only numbers and booleans are compared (see README, Left out). */
  predicate LengthIsPositive(v: Option<Json>)
  {
    match v
    case Some(JNum(n)) => n > 0.0
    case Some(JBool(b)) => b
    case _ => false
  }

  /** The TypeError message for a property read from null or undefined, in V8's wording (assumed here;
      other engines word it differently). */
  function ReadFromNothingMessage(nothing: string, key: string): string
  {
    "Cannot read properties of " + nothing + " (reading '" + key + "')"
  }

  /** The text of a caught exception becomes a failure carrying its message. */
  function Caught(message: string): (r: Reply)
    ensures WellFormed(r) && r.error == Some(JStr(message)) && r.rawError == Some(RawError(message))
  {
    Failure(JStr(message), Some(RawError(message)))
  }

  /** `response.ok`: the status is in the range 200 to 299. */
  predicate IsOk(status: nat)
  {
    200 <= status <= 299
  }

  /** Whether `system` is attached: `systemPrompt && systemPrompt.trim() !== ''`. */
  predicate AttachSystem(systemPrompt: Option<string>)
  {
    Present(systemPrompt) && Trim(systemPrompt.value) != ""
  }

  /** The single POST request the bridge issues for a present key. */
  function BuildRequest(prompt: string, apiKey: string, model: string, systemPrompt: Option<string>): (q: HttpRequest)
    ensures q.url == ApiUrl && q.httpMethod == "POST"
    ensures "x-api-key" in q.headers && q.headers["x-api-key"] == apiKey
    ensures q.body.model == model && q.body.maxTokens == 2048 && q.body.messages == [Message("user", prompt)]
    ensures q.body.system.Some? <==> systemPrompt.Some? && !IsBlank(systemPrompt.value)
    ensures q.body.system.Some? ==> q.body.system == systemPrompt
  {
    TrimEmptyIffBlank(if systemPrompt.Some? then systemPrompt.value else "");
    var headers := map["x-api-key" := apiKey, "anthropic-version" := AnthropicVersion, "content-type" := "application/json"];
    var system := if AttachSystem(systemPrompt) then systemPrompt else None;
    HttpRequest(ApiUrl, "POST", headers, RequestBody(model, MaxTokens, [Message("user", prompt)], system))
  }

  /** `errorData`: the parsed error body, or `{detail: statusText}` when it does not parse. */
  function ErrorData(statusText: string, body: BodyRead): (d: Json)
    ensures body.Parsed? ==> d == body.json
    ensures body.Unparsable? ==> d.JObj? && d.fields.Keys == {"detail"} && d.fields["detail"] == JStr(statusText)
  {
    match body
    case Parsed(j) => j
    case Unparsable(_) => JObj(map["detail" := JStr(statusText)])
  }

  /** The three-level choice of the error message of a non-ok response. */
  function ErrorMessage(status: nat, errorData: Json): (m: Json)
    ensures Truthy(Some(m))
  {
    var err := Guarded(errorData, "error");
    var nested := if Truthy(err) then Member(err.value, "message") else None;
    var detail := Guarded(errorData, "detail");
    if Truthy(nested) then nested.value
    else if Truthy(detail) then detail.value
    else JStr(StatusFallbackPrefix + NatToDecimal(status))
  }

  /** The check of an ok response's parsed body:
      `responseData.content && responseData.content.length > 0 && responseData.content[0].text`.
      Reading a property of null or undefined throws, and the catch turns that into a failure. */
  function CheckBody(body: Json): (r: Reply)
    ensures WellFormed(r)
    ensures r.success ==> Truthy(r.script)
    ensures !r.success ==> r.rawError == Some(RawJson(body)) || (r.rawError.Some? && r.rawError.value.RawError?)
  {
    if body.JNull? then Caught(ReadFromNothingMessage("null", "content"))
    else
      var content := Member(body, "content");
      if !Truthy(content) || !LengthIsPositive(Member(content.value, "length")) then
        Failure(JStr(UnexpectedStructureMessage), Some(RawJson(body)))
      else
        var first := Member(content.value, "0");
        if first.None? then Caught(ReadFromNothingMessage("undefined", "text"))
        else if first.value.JNull? then Caught(ReadFromNothingMessage("null", "text"))
        else
          var text := Member(first.value, "text");
          if Truthy(text) then Reply(true, text, None, None)
          else Failure(JStr(UnexpectedStructureMessage), Some(RawJson(body)))
  }

  /** Everything from `await fetch(...)` on, the catch included. */
  function Interpret(outcome: FetchOutcome): (r: Reply)
    ensures WellFormed(r)
    ensures outcome.Responded? && !IsOk(outcome.status) ==>
              !r.success && r.rawError == Some(RawJson(ErrorData(outcome.statusText, outcome.body)))
    ensures r.success ==> outcome.Responded? && IsOk(outcome.status) && outcome.body.Parsed?
  {
    match outcome
    case Threw(message) => Caught(message)
    case Responded(status, statusText, body) =>
      if !IsOk(status) then
        var errorData := ErrorData(statusText, body);
        Failure(ErrorMessage(status, errorData), Some(RawJson(errorData)))
      else
        match body
        case Unparsable(message) => Caught(message)
        case Parsed(json) => CheckBody(json)
  }

  /** `callClaudeApi(prompt, apiKey, modelIdentifier, systemPrompt)`. */
  function CallClaudeApi(prompt: string, apiKey: Option<string>, model: string, systemPrompt: Option<string>,
                         fetch: HttpRequest -> FetchOutcome): (x: Exchange)
    ensures x.sent.None? <==> !Present(apiKey)
    ensures WellFormed(x.reply)
    ensures x.sent.Some? ==> apiKey.Some? && x.sent.value == BuildRequest(prompt, apiKey.value, model, systemPrompt)
    ensures x.sent.Some? ==> x.reply == Interpret(fetch(x.sent.value))
  {
    if !Present(apiKey) then
      Exchange(None, Failure(JStr(MissingKeyMessage), None))
    else
      var request := BuildRequest(prompt, apiKey.value, model, systemPrompt);
      Exchange(Some(request), Interpret(fetch(request)))
  }

  // ----- Properties of the bridge -----

  /** Without a key nothing is sent, the reply is the fixed missing-key failure, and it does not depend on the network. */
  lemma MissingKeyShortCircuits(prompt: string, apiKey: Option<string>, model: string, systemPrompt: Option<string>,
                                fetch: HttpRequest -> FetchOutcome, otherFetch: HttpRequest -> FetchOutcome)
    requires apiKey.None? || apiKey.value == ""
    ensures var x := CallClaudeApi(prompt, apiKey, model, systemPrompt, fetch);
            x.sent.None? && x.reply == Reply(false, None, Some(JStr(MissingKeyMessage)), None) &&
            x == CallClaudeApi(prompt, apiKey, model, systemPrompt, otherFetch)
  {
  }

  /** With a key, exactly one POST goes to the proxied Messages URL with the key and version headers,
      the model passed through, 2048 tokens and the prompt as the one user message. */
  lemma RequestShape(prompt: string, apiKey: string, model: string, systemPrompt: Option<string>,
                     fetch: HttpRequest -> FetchOutcome)
    requires apiKey != ""
    ensures var x := CallClaudeApi(prompt, Some(apiKey), model, systemPrompt, fetch);
            x.sent.Some? &&
            x.sent.value.url == "/api/anthropic/v1/messages" && x.sent.value.httpMethod == "POST" &&
            x.sent.value.headers == map["x-api-key" := apiKey, "anthropic-version" := "2023-06-01",
                                         "content-type" := "application/json"] &&
            x.sent.value.body.model == model && x.sent.value.body.maxTokens == 2048 &&
            x.sent.value.body.messages == [Message("user", prompt)]
  {
  }

  /** `system` is attached exactly when the system prompt is given and has a non-whitespace character,
      and then it is the system prompt as given, untrimmed. */
  lemma SystemAttachedIffNotBlank(prompt: string, apiKey: string, model: string, systemPrompt: Option<string>,
                                  fetch: HttpRequest -> FetchOutcome)
    requires apiKey != ""
    ensures var x := CallClaudeApi(prompt, Some(apiKey), model, systemPrompt, fetch);
            x.sent.Some? &&
            (x.sent.value.body.system.Some? <==> systemPrompt.Some? && !IsBlank(systemPrompt.value)) &&
            (x.sent.value.body.system.Some? ==> x.sent.value.body.system == systemPrompt)
  {
  }

  /** The error message of a non-ok response: a truthy `error.message` of the body first, then a truthy
      `detail`, then the status line; `raw_error` is the error body in every case. */
  lemma NonOkErrorMessage(status: nat, statusText: string, body: Json)
    requires !IsOk(status)
    ensures var r := Interpret(Responded(status, statusText, Parsed(body)));
            var nested := body.JObj? && "error" in body.fields && body.fields["error"].JObj? &&
                          "message" in body.fields["error"].fields && Truthy(Some(body.fields["error"].fields["message"]));
            var detail := body.JObj? && "detail" in body.fields && Truthy(Some(body.fields["detail"]));
            !r.success && r.rawError == Some(RawJson(body)) &&
            (nested ==> r.error == Some(body.fields["error"].fields["message"])) &&
            (!nested && detail ==> r.error == Some(body.fields["detail"])) &&
            (!nested && !detail ==> r.error == Some(JStr("API request failed with status " + NatToDecimal(status))))
  {
  }

  /** When the error body does not parse, `errorData` is `{detail: statusText}`: the message is the status
      text, or the status line when the status text is empty. */
  lemma UnparsableErrorBody(status: nat, statusText: string, parseError: string)
    requires !IsOk(status)
    ensures var r := Interpret(Responded(status, statusText, Unparsable(parseError)));
            !r.success && r.rawError == Some(RawJson(JObj(map["detail" := JStr(statusText)]))) &&
            r.error == Some(if statusText != "" then JStr(statusText)
                            else JStr("API request failed with status " + NatToDecimal(status)))
  {
  }

  /** An ok response whose `content` is an array succeeds exactly when its first element is an object with
      a truthy `text`, which becomes the script; an empty array or a first element without a truthy `text`
      is the unexpected-structure failure carrying the body; a null first element throws and is caught. */
  lemma OkResponseWithContentArray(status: nat, statusText: string, fields: map<string, Json>, items: seq<Json>)
    requires IsOk(status) && "content" in fields && fields["content"] == JArr(items)
    ensures var r := Interpret(Responded(status, statusText, Parsed(JObj(fields))));
            var textual := |items| > 0 && items[0].JObj? && "text" in items[0].fields && Truthy(Some(items[0].fields["text"]));
            (textual ==> r == Reply(true, Some(items[0].fields["text"]), None, None)) &&
            (|items| > 0 && items[0].JNull? ==>
               r == Caught(ReadFromNothingMessage("null", "text"))) &&
            (!textual && !(|items| > 0 && items[0].JNull?) ==>
               r == Reply(false, None, Some(JStr("Unexpected response structure.")), Some(RawJson(JObj(fields)))))
  {
  }

  /** Any ok response that succeeds took its script from a truthy `content[0].text` of an object body; any
      other parsed body is the unexpected-structure failure or a caught TypeError. */
  lemma OkResponseSuccessShape(status: nat, statusText: string, body: Json)
    requires IsOk(status)
    ensures var r := Interpret(Responded(status, statusText, Parsed(body)));
            (r.success ==> body.JObj? && "content" in body.fields && Truthy(Some(body.fields["content"])) &&
                           r.script == Member(Member(body.fields["content"], "0").value, "text")) &&
            (!r.success ==> (r.error == Some(JStr("Unexpected response structure.")) && r.rawError == Some(RawJson(body))) ||
                            (r.rawError.Some? && r.rawError.value.RawError?))
  {
  }

  /** A rejected `fetch`, and an ok body that is not JSON, become a failure carrying the error's message. */
  lemma ThrownBecomesFailure(message: string, status: nat, statusText: string)
    ensures Interpret(Threw(message)) == Reply(false, None, Some(JStr(message)), Some(RawError(message)))
    ensures IsOk(status) ==>
              Interpret(Responded(status, statusText, Unparsable(message))) == Reply(false, None, Some(JStr(message)), Some(RawError(message)))
  {
  }
}
