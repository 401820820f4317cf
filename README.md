# A verified model of the AI script editor's request bridge and tooltip placement

The application is a desktop prototype of a script editor that asks Anthropic's
Messages API to write or revise text. Three small pieces of it make real decisions,
and this project models each one in Dafny and proves what it promises.

- **`ClaudeApi`** (`claude_api.dfy`) models `callClaudeApi` in
  `milkdown-experiment/src/api.js`. It is the browser-side bridge. Without an API key
  it refuses at once. Otherwise it builds one POST request, attaching a `system`
  instruction only when the system prompt is not blank. It then turns whatever comes
  back into a record: `{success: true, script}`, or `{success: false, error, raw_error}`.
  The error message is chosen by a three-level fallback. An ok response is accepted
  only if it has the expected shape.
  - `fetch` is a parameter, a function from the request to its outcome.
  - `Exchange.sent` records the request that was issued, or None when no request was issued.
  - JSON is a small algebraic type. JavaScript's truthiness and property reads are
    spelled out as `Truthy` and `Member`.
- **`ScriptEndpoint`** (`script_endpoint.dfy`) models `generate_script_endpoint` in
  `python_server/main.py`. It checks the key read from the environment and sends a
  single-message request through the SDK. It then concatenates the text blocks of the
  answer, and returns a placeholder when there is no text. SDK exceptions are mapped to
  fixed messages by the first matching `except` clause.
  - The environment value is an input.
  - The SDK call is a parameter, and exceptions are tags.
  - The loop over blocks is the method `ConcatTexts`, proved against the recursive
    `JoinTexts`.
- **`DevTooltip`** (`dev_tooltip.dfy`) models the placement effect of
  `src/DevTooltip.jsx`. The tooltip is left-aligned, flipped to right-aligned, or pinned
  5px in.
  - `Placement` states the placement as a three-way decision.
  - `ComputeStyle` follows the code's sequence of overwrites and is proved equal to
    `Placement`.
  - The class `Tooltip` holds the component state: the `note` prop and the
    `isVisible`/`tooltipStyle` hooks.
- **`Text`** (`text.dfy`) is shared by the other modules. It holds an `Option`,
  ECMAScript's `String.prototype.trim` with the whitespace set of ECMAScript 2023
  (sections 12.2 and 12.3), and the decimal rendering of a status code. Both
  JavaScript template literals and Python f-strings use that rendering.

A few behaviours of the code are worth stating outright:
- A rejected `fetch` gives a failure carrying the error's own message.
- Neither bridge checks the prompt.
- The browser bridge asks for 2048 tokens and the Python endpoint for 1024.
- An empty Python answer is a success carrying a placeholder.

## Model

| member | source | states |
|---|---|---|
| Text.TrimStart | milkdown-experiment/src/api.js:26 | the result is the suffix of the input left after its leading whitespace, and does not start with whitespace |
| Text.TrimEnd | milkdown-experiment/src/api.js:26 | the result is the prefix of the input left before its trailing whitespace, and does not end with whitespace |
| Text.TrimEmptyIffBlank | milkdown-experiment/src/api.js:26 | `s.trim() !== ''` holds exactly when `s` has a character that is not ECMAScript whitespace |
| Text.NatToDecimal | milkdown-experiment/src/api.js:41 | a status code renders as a non-empty string of decimal digits without a leading zero |
| Text.DecimalRoundTrip | milkdown-experiment/src/api.js:41 | reading the rendered numeral back gives the status code |
| Text.NatToDecimalInjective | python_server/main.py:72 | two different codes never render alike |
| ClaudeApi.Member | milkdown-experiment/src/api.js:42-54 | a property read on an object yields a value exactly when the key is present; numbers and booleans have none of the properties read |
| ClaudeApi.BuildRequest | milkdown-experiment/src/api.js:11-28 | the request is a POST to the proxied messages URL carrying the key, the model, 2048 tokens and the prompt as the one user message; `system` is present exactly when the system prompt is given and not blank, and then equals it, untrimmed |
| ClaudeApi.ErrorData | milkdown-experiment/src/api.js:38 | `errorData` is the parsed error body, or the object whose only key `detail` holds the status text when the body does not parse |
| ClaudeApi.Caught | milkdown-experiment/src/api.js:61-64 | a caught exception is a failure whose `error` and `raw_error` carry its message |
| ClaudeApi.ErrorMessage | milkdown-experiment/src/api.js:41-46 | the chosen error message is always truthy, since the status fallback is never empty |
| ClaudeApi.CheckBody | milkdown-experiment/src/api.js:50-59 | an ok body gives exactly one arm; a success carries a truthy script; a failure carries the body as `raw_error`, or is a caught TypeError |
| ClaudeApi.Interpret | milkdown-experiment/src/api.js:30-64 | every outcome gives exactly one arm; a non-ok status is a failure whose `raw_error` is `errorData`; success needs a 2xx status and a parsed body |
| ClaudeApi.CallClaudeApi | milkdown-experiment/src/api.js:1-65 | a request is issued exactly when the key is present and non-empty, and it is the request `BuildRequest` describes; the reply is always well-formed and is the interpretation of the issued request's outcome |
| ClaudeApi.MissingKeyShortCircuits | milkdown-experiment/src/api.js:4-9 | a missing or empty key gives `{success:false, error:'Anthropic API key is missing.'}`, issues nothing, and does not depend on the network |
| ClaudeApi.RequestShape | milkdown-experiment/src/api.js:11-35 | the request is a POST to the proxied messages URL with `x-api-key`, `anthropic-version: 2023-06-01` and JSON content type, the model passed through, `max_tokens` 2048 and one user message holding the prompt |
| ClaudeApi.SystemAttachedIffNotBlank | milkdown-experiment/src/api.js:26-28 | in the request the bridge sends, `system` is present exactly when the system prompt is given and not blank, and then it equals the system prompt, untrimmed |
| ClaudeApi.NonOkErrorMessage | milkdown-experiment/src/api.js:37-47 | a non-ok message is a truthy `error.message`, else a truthy `detail`, else "API request failed with status N"; `raw_error` is the error body |
| ClaudeApi.UnparsableErrorBody | milkdown-experiment/src/api.js:38-47 | an unparsable error body becomes `{detail: statusText}`; the message is the status text, or the status line when that is empty |
| ClaudeApi.OkResponseWithContentArray | milkdown-experiment/src/api.js:54-59 | with an array `content`, success holds exactly when its first element has a truthy `text`, which is the script; otherwise the failure is "Unexpected response structure." with the body, or a caught TypeError for a null first element |
| ClaudeApi.OkResponseSuccessShape | milkdown-experiment/src/api.js:50-59 | any success took its script from `content[0].text` of an object body; any other ok body is the unexpected-structure failure or a caught TypeError |
| ClaudeApi.ThrownBecomesFailure | milkdown-experiment/src/api.js:61-64 | a rejected `fetch`, or an ok body that does not parse, is a failure carrying that error's message |
| ScriptEndpoint.FirstCatching | python_server/main.py:61-75 | the chosen clause catches the exception and no earlier clause does |
| ScriptEndpoint.FirstCatchingIs | python_server/main.py:61-75 | the first clause whose class the exception is an instance of is the one chosen |
| ScriptEndpoint.ClauseMessage | python_server/main.py:61-75 | each except clause returns a non-empty message, and only the `APIStatusError` clause's message has the form "Anthropic API error: …" |
| ScriptEndpoint.ExceptionMessage | python_server/main.py:61-75 | the message of a raised exception is non-empty, and it quotes a status code exactly when the exception is a status error other than rate limit or authentication |
| ScriptEndpoint.ExceptionMessages | python_server/main.py:61-75 | connection, rate-limit, authentication, other status and any other exception map to their fixed messages; rate-limit and authentication errors win over the status-error clause that also catches them |
| ScriptEndpoint.StatusMessageDeterminesCode | python_server/main.py:70-72 | the generic status message determines the status code |
| ScriptEndpoint.JoinTextsAppend | python_server/main.py:47-51 | concatenating the texts of two runs of blocks is concatenating their results |
| ScriptEndpoint.JoinTexts | python_server/main.py:47-53 | the in-order concatenation of the block texts is empty exactly when every block has no text or an empty one |
| ScriptEndpoint.ScriptOf | python_server/main.py:53-59 | `data.script` is never empty, and it is the concatenated text whenever that text is non-empty |
| ScriptEndpoint.ConcatTexts | python_server/main.py:47-51 | the loop accumulates the in-order concatenation of the texts of the blocks that have one |
| ScriptEndpoint.ScriptOrPlaceholder | python_server/main.py:53-59 | the script is the placeholder when no block has text, and otherwise the non-empty in-order concatenation |
| ScriptEndpoint.GenerateScriptEndpoint | python_server/main.py:21-75 | the reply is always well-formed; a missing or empty key gives the fixed failure and sends nothing; otherwise one request with the model, 1024 tokens and the prompt as the one user message is sent, an exception gives its clause's message, and a returned message is a success with the script or the placeholder |
| DevTooltip.CandidateLeftEdge | src/DevTooltip.jsx:34-41 | the left edge checked against the margin is the wrapper's right side minus the tooltip's width when the tooltip would overflow on the right, and the wrapper's left side otherwise |
| DevTooltip.Placement | src/DevTooltip.jsx:16-48 | a visible style has opacity 1, `top` equal to the wrapper's height plus 5, and exactly one of `left` and `right` a length with the other `auto` |
| DevTooltip.ComputeStyle | src/DevTooltip.jsx:16-48 | the sequence of overwrites gives the same style as the three-way decision |
| DevTooltip.PlacementCases | src/DevTooltip.jsx:19-48 | left-aligned exactly when it fits on the right and the wrapper is 5px in; flipped exactly when it overflows on the right and the flipped left edge is 5px in; pinned at `left: 5px` exactly in the remaining cases |
| DevTooltip.UnpinnedKeepsMargins | src/DevTooltip.jsx:34-48 | unless pinned, the computed left edge is at least 5; when left-aligned, the right edge also keeps 5px from the viewport |
| DevTooltip.Tooltip.constructor | src/DevTooltip.jsx:5-6 | the component starts hidden with style `{opacity: 0}` |
| DevTooltip.Tooltip.MouseEnter | src/DevTooltip.jsx:65 | hovering sets `isVisible` |
| DevTooltip.Tooltip.MouseLeave | src/DevTooltip.jsx:66 | leaving clears `isVisible` |
| DevTooltip.Tooltip.RunEffect | src/DevTooltip.jsx:10-55 | when hidden the style becomes exactly `{opacity: 0}`; when visible and measured it is the placement; when visible but unmeasured it is unchanged; the style stays hidden or a complete placement |
| DevTooltip.Tooltip.Render | src/DevTooltip.jsx:57-78 | without a note the children are rendered unchanged; with one they are wrapped with the tooltip carrying the current style and the note |

## Left out

- Transport. The network, `JSON.stringify`, `async`/`await`, and the Anthropic SDK client are outside the model. `fetch` and `client.messages.create` are parameters of the functions, and their outcomes are datatypes.
- Logging. `console.error` and `print` calls are not modelled.
- Environment. Reading `os.environ` is an input `Option<string>`.
- Caught TypeErrors. Their text is assumed to be V8's wording ("Cannot read properties of null (reading 'content')"). Other JavaScript engines word these errors differently, and the code does not fix which engine runs it.
- ClaudeApi.LengthIsPositive: `content.length > 0` is decided for numbers and booleans only. JavaScript would convert a string, array or object `length` to a number first. That is reachable only when `content` is an object with its own `length` key, and the model then treats the comparison as false.
- String lengths. JavaScript counts UTF-16 code units and Dafny counts Unicode scalar values. The code only compares a length with 0, where the two agree.
- Property reads. Only the keys the bridge reads are modelled: `error`, `message`, `detail`, `content`, `text`, `length` and `0`. Prototype properties are not modelled, and none of these keys is one.
- Non-string arguments. A non-string `systemPrompt`, `apiKey` or `prompt` is not modelled. For example, `trim` on a number throws outside the `try`, so the promise rejects.
- SDK errors. The SDK picks the exception subclass from the status code, and that choice is not modelled. Timeouts (`APITimeoutError`) are folded into the connection error, which is their superclass.
- Python type errors. A block whose `text` is not a string would make `+=` raise, and the generic clause would catch it. This is not modelled. A `content` that is not a list is not modelled either.
- Other Python routes. The `/` and `/ping` routes are not modelled, nor is FastAPI's validation of `ScriptRequest`.
- Tooltip styles. `top`, `left` and `right` are numbers. The `px` string formatting and the stylesheet are not modelled.
- React scheduling. When React re-runs the effect, through its dependency list, is not modelled. `RunEffect` is one run, and `measured` is None when either ref is unattached.
- Other files. Window and IPC plumbing (`main.js`, `preload.js`), the application shell and editor views (both `App.jsx` files, `main.jsx`) and the build configuration are not part of this model.
- Session features. Conversation history, revise-mode document replacement, system-prompt selection and credential storage are not part of the modelled files.
