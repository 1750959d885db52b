# Request gates of the agentic RAG query API

This project models the request gates that stand in front of a
library-provided question-answering agent, and proves what they promise. The
agent (a ReAct agent over a Chroma vector store and an OpenAI model) is not
part of the model. A gate decides, from the request's method, headers and body,
which status and message to return, and whether the agent is called at all.
There are two variants.

- **The AWS Lambda handler** (`src/lambda_function.py`). A cold start reads the
  API key and the auth token from Parameter Store and builds the agent once.
  The module globals that hold them become the class `AgentHost`, and its method
  `Initialize` skips everything once the agent exists. A request then runs a
  fixed chain of early returns:
  - initialisation failure gives 500;
  - `OPTIONS` gives 200;
  - any other non-`POST` method gives 405;
  - an absent or empty `Authorization` header gives 401;
  - a token other than the secret gives 403;
  - a body that is not valid JSON gives 400;
  - a falsy `query` gives 400;
  - otherwise the agent's outcome gives 200 or 500.

  `Decide` returns either an answer or `CallAgent(query)`, so "the agent is
  called" is precisely `Decide(...) == CallAgent(q)`.
- **The local Flask server** (`local/main.py`). The `token_required` decorator
  accepts only the exact prefix `"Bearer "`, and takes field 1 of a split on
  single spaces. A missing token and an invalid token both get 401. The query
  endpoint checks only that a `query` key is present. `/health` always answers.

The tokens come from Python string operations, modelled exactly as sequence
functions in `PyStrings`:
- `str.split()` (`Fields`) splits on runs of the characters `str.isspace`
  accepts;
- `str.split(' ')` (`SplitOn`) gives n + 1 fields, empty ones included, for n
  spaces.

Decoded JSON documents, Python truthiness and the operator `in` are in
`PyValues`. The agent's reply or exception is in `AgentBoundary`.
`GateComparison` proves where the two gates disagree on the same credential.

Exceptions that the Python code does not catch are modelled as outcomes of
their own (`Raise` / `Unhandled`), not as preconditions. These cases are:
- in the Lambda, a whitespace-only credential (IndexError);
- in the Lambda, a `null` body (TypeError) or `null` headers (AttributeError)
  in the event;
- in the Lambda, a JSON document that is not an object (AttributeError);
- in the Lambda as written, the token comparison at line 230, which names an
  undefined variable (NameError; see "## Findings");
- in Flask, a truthy number or `true` as the document, where `'query' in data`
  raises TypeError;
- in Flask, a list holding `"query"` or a string containing it, where
  `data['query']` raises TypeError.

The NameError that the agent construction at line 81 raises as written is not
among them: the handler at src/lambda_function.py:177-191 catches it and
answers 500 "Failed to initialize agent" (`InitFailure`).

The agent is a parameter `agent: JsonValue -> AgentOutcome`. So are the
Parameter Store reads (`Fetch`) and the outcome of building the agent
(`constructed`). The Lambda's secret is the `auth_token` that initialisation
read. The Flask secret is the token admitted by the start-up check
(`LoadToken`).

Some consequences of the code that a reader might not expect:
- The Lambda takes the last whitespace-separated field as the token, whether
  or not it follows `"Bearer "`.
- The Lambda checks authentication before it parses the body, so an
  unauthenticated `{}` body gets 401 or 403, not 400.
- The query checks test truthiness (Lambda) or key presence (Flask), not "a
  non-empty string".
- Both gates put the agent's exception text into their answers: `run_query`
  reports `str(e)` as `error` (src/lambda_function.py:157), and the Flask
  endpoint answers 500 with `str(e)` (local/main.py:102).
- Both token comparisons are plain `!=`.
- A wrong token is 403 at the Lambda handler and 401 at the Flask server.

## Model

| member | source | states |
|---|---|---|
| `PyStrings.Word` | src/lambda_function.py:227 | the result is the longest whitespace-free prefix: a prefix, no whitespace in it, and followed by whitespace unless it reaches the end |
| `PyStrings.Fields` | src/lambda_function.py:227 | every field `str.split()` returns is non-empty and free of whitespace |
| `PyStrings.FieldsAroundSpace` | src/lambda_function.py:227 | a whitespace character is a field boundary: `Fields(a + [sp] + b) == Fields(a) + Fields(b)` |
| `PyStrings.FieldsOfWord` | src/lambda_function.py:227 | a non-empty whitespace-free string splits into itself alone |
| `PyStrings.FieldsEmptyIffAllSpace` | src/lambda_function.py:227-228 | `str.split()` is empty exactly when the string is empty or all whitespace (the case where `token_parts[0]` raises) |
| `PyStrings.FieldsOfJoin` | src/lambda_function.py:227 | round trip: non-empty whitespace-free fields joined by one whitespace character split back into the same fields |
| `PyStrings.FieldsKeepNonSpace` | src/lambda_function.py:227 | the concatenated fields are exactly the string's non-whitespace characters, in order |
| `PyStrings.SplitOn` | local/main.py:30 | `str.split(' ')` gives one more field than there are separators, no field holds the separator, and joining the fields with it restores the string |
| `PyStrings.SplitOnAroundSep` | local/main.py:30 | a separator occurrence cuts the split in two: `SplitOn(a + [sep] + b) == SplitOn(a) + SplitOn(b)` |
| `PyStrings.SplitOnWithoutSep` | local/main.py:30 | a string without the separator is a single field |
| `PyStrings.SplitOnJoin` | local/main.py:30 | round trip: separator-free parts joined by the separator split back into the same parts |
| `PyStrings.IsSpace` | src/lambda_function.py:227 | the characters Python's `str.isspace` accepts, which `str.split()` splits on; used by `Fields` and every lemma about it |
| `PyStrings.StartsWith` | local/main.py:29 | `str.startswith`: the prefix relation; used by `BearerToken` and `SplitAfterPrefix` |
| `PyValues.Truthy` | src/lambda_function.py:250 | Python truthiness (`not query` here, `not data` at local/main.py:94): null, false, zero and empty strings, lists and objects are false; used by `BodyChecks`, `AgentCalledIffChecksPass` and `QueryChecks` |
| `PyValues.Substring` | local/main.py:94 | `'query' in text` for a string: the needle occurs in it as a contiguous piece; used by `In` and `NonObjectQueryRaises` |
| `PyValues.Get` | src/lambda_function.py:249 | `body.get('query')` is the member when present and `None` otherwise |
| `PyValues.In` | local/main.py:94 | `'query' in data` is key membership for an object, element membership for a list, and raises TypeError exactly for numbers, booleans and null |
| `LambdaHandler.InitStep` | src/lambda_function.py:62-126 | once the agent exists, initialisation changes nothing and succeeds; otherwise it stops at the first failed read (the API key set, the token unchanged, when only the token read fails), and it succeeds exactly when both reads and the construction succeed; success is exactly "agent set", and then both secrets are held and the key exported |
| `LambdaHandler.InitStepAsWritten` | src/lambda_function.py:81 | as written, initialisation from a cold state never succeeds: both secrets are read and stored, but the agent is never set |
| `LambdaHandler.AgentHost.constructor` | src/lambda_function.py:57-59 | a cold start holds no key, no token and no agent |
| `LambdaHandler.AgentHost.Initialize` | src/lambda_function.py:62-126 | updates the globals exactly as `InitStep` says and keeps them consistent |
| `LambdaHandler.AgentHost.HandleEvent` | src/lambda_function.py:162-279 | initialises first; if the agent does not exist afterwards, every event (whatever its method) gets 500 "Failed to initialize agent"; otherwise the outcome is the gate's, run against the auth token that was read |
| `LambdaHandler.Gate` | src/lambda_function.py:193-228 | the checks before the token comparison, in order: `OPTIONS` 200, any other non-`POST` 405, null headers AttributeError, no credential 401, whitespace-only credential IndexError, otherwise the presented token; its properties are `OptionsAnswered`, `OtherMethodsRejected`, `MissingCredentialIs401`, `WhitespaceCredentialRaises` and `GateIgnoresBody` |
| `LambdaHandler.ReadQuery` | src/lambda_function.py:238-246 | the body decoding: a missing body is `{}`, a null body raises TypeError, undecodable JSON gives 400 "Invalid JSON in request body"; its properties are in `BodyChecks` |
| `LambdaHandler.QueryOf` | src/lambda_function.py:248-255 | `body.get('query')` on an object, 400 "Missing query parameter" when it is falsy, AttributeError on a non-object; its properties are in `BodyChecks` and `AgentCalledIffChecksPass` |
| `LambdaHandler.Decide` | src/lambda_function.py:193-255 | the corrected chain of early returns, with the token compared against the secret; its properties are `OptionsAnswered` to `AgentCalledIffChecksPass`, `AnsweredScenario` and `WrongTokenScenario` |
| `LambdaHandler.DecideAsWritten` | src/lambda_function.py:230 | the chain as written, where the comparison raises NameError; its properties are `AsWrittenNeverCallsAgent` and `AsWrittenCounterexample` |
| `LambdaHandler.Serve` | src/lambda_function.py:257-269 | the handler after initialisation: the gate's answer, or the report of `run_query` on the agent's outcome; its properties are `StatusFollowsAgent` and `AnsweredScenario` |
| `LambdaHandler.Credential` | src/lambda_function.py:215-224 | the credential is `Authorization`, or `authorization` when the first is absent or empty; there is none exactly when neither carries a non-empty value |
| `LambdaHandler.PresentedToken` | src/lambda_function.py:226-228 | there is no token exactly when the credential is all whitespace; a token is non-empty and whitespace-free |
| `LambdaHandler.PresentedTokenIsLastField` | src/lambda_function.py:226-228 | the token is the last whitespace-separated field (which is the only one when there is one) |
| `LambdaHandler.BareAndPrefixedTokenAgree` | src/lambda_function.py:226-228 | a bare token and the same token after any prefix and a whitespace character both yield the token |
| `LambdaHandler.BearerExample` | src/lambda_function.py:226-228 | `"Bearer abc"` and `"abc"` both yield `"abc"` |
| `LambdaHandler.WhitespaceCredentialRaises` | src/lambda_function.py:218-228 | a whitespace-only credential passes the emptiness check and then raises IndexError |
| `LambdaHandler.OptionsAnswered` | src/lambda_function.py:193-204 | `OPTIONS` gets 200 with an empty body, whatever the headers and body, and without any token check |
| `LambdaHandler.OtherMethodsRejected` | src/lambda_function.py:206-212 | every method other than `OPTIONS` and `POST` (an absent one included) gets 405 "Method not allowed", whatever the headers and body |
| `LambdaHandler.MissingCredentialIs401` | src/lambda_function.py:214-224 | a POST gets 401 "Missing authentication token" exactly when neither header spelling carries a non-empty value |
| `LambdaHandler.GateIgnoresBody` | src/lambda_function.py:193-228 | the checks up to the token comparison do not depend on the body |
| `LambdaHandler.WrongTokenForbidden` | src/lambda_function.py:230-236 | a token other than the secret gets 403 "Invalid authentication token" whatever the body, so authentication errors take precedence over body errors |
| `LambdaHandler.BodyChecks` | src/lambda_function.py:238-255 | with the right token: undecodable JSON gives 400 "Invalid JSON in request body"; a missing body counts as `{}` and gives 400 "Missing query parameter"; a null body raises TypeError; a non-object document raises AttributeError; a missing or falsy `query` gives 400 "Missing query parameter" |
| `LambdaHandler.AgentCalledIffChecksPass` | src/lambda_function.py:193-259 | the agent is called with `q` exactly when the method is POST, the token equals the secret, the body decodes to an object, and its `query` member is `q` and truthy |
| `LambdaHandler.RunQuery` | src/lambda_function.py:129-159 | the status is "success" exactly when the agent did not raise; the result is the reply's `response` attribute when it has one and its `str()` otherwise; an exception gives its message as the error |
| `LambdaHandler.Report` | src/lambda_function.py:257-269 | the status code is 200 exactly when the status is "success" and 500 otherwise; the body is the whole result |
| `LambdaHandler.StatusFollowsAgent` | src/lambda_function.py:257-269 | once the agent is called, the handler responds, with 200 exactly when the agent returned and 500 when it raised |
| `LambdaHandler.AnsweredScenario` | src/lambda_function.py:226-269 | `Bearer <secret>` with a non-empty query reaches the agent, and its answer comes back as 200 with status "success" |
| `LambdaHandler.WrongTokenScenario` | src/lambda_function.py:226-236 | a bearer token other than the secret gets 403, and the agent is not called |
| `LambdaHandler.AsWrittenNeverCallsAgent` | src/lambda_function.py:230 | as written, no event reaches the agent: every event that gets past the header checks raises NameError at the comparison |
| `LambdaHandler.AsWrittenCounterexample` | src/lambda_function.py:226-259 | `Bearer <secret>` and a non-empty query raise NameError as written, and reach the agent in the corrected chain |
| `LocalServer.LoadToken` | local/main.py:15-17 | the server starts exactly when `FUNCTION_API_TOKEN` is set and non-empty, with that value as the token |
| `LocalServer.SplitAfterPrefix` | local/main.py:29-30 | a header starting with `"Bearer "` splits into `"Bearer"` followed by the fields of the rest, so field 1 always exists |
| `LocalServer.FirstField` | local/main.py:30 | the first field of a split is the longest prefix without the separator |
| `LocalServer.BearerToken` | local/main.py:25-30 | a token exists exactly when the header is present and starts with `"Bearer "`; it is what follows the prefix up to the next space (possibly empty) |
| `LocalServer.BearerTokenOf` | local/main.py:28-30 | `"Bearer " + t`, alone or followed by a space and anything, yields `t` when `t` has no space |
| `LocalServer.TokenExamples` | local/main.py:28-30 | `"Bearer a b"` gives `"a"`, `"Bearer  a"` gives `""`, and `"Token abc"` gives no token |
| `LocalServer.Authorize` | local/main.py:25-38 | the decorator's verdict: missing (no token or an empty one), invalid (another token) or granted; its properties are `MissingTokenIff`, `GrantedIff` and `ConfiguredTokenGrants` |
| `LocalServer.Guard` | local/main.py:22-40 | `token_required`: 401 with "Unauthorized: Missing token" or "Unauthorized: Invalid token", or no reply when the view may run; its properties are `RejectionsAre401` and `ViewRunsOnlyWhenGranted` |
| `LocalServer.QueryStep` | local/main.py:93-97 | the endpoint's body check: a falsy document or one without `query` gives 400, an object with `query` calls the agent with that member, and the TypeError cases of `in` and of indexing; its properties are `QueryChecks`, `NonObjectQueryRaises` and `AgentCalledIff` |
| `LocalServer.QueryPlan` | local/main.py:90-99 | `POST /query` up to the agent call: the decorator, then the endpoint's check; its properties are `ViewRunsOnlyWhenGranted` and `AgentCalledIff` |
| `LocalServer.QueryRoute` | local/main.py:90-102 | `POST /query` in full, with the agent's outcome mapped to 200 or 500; its property is `OutcomeFollowsAgent` |
| `LocalServer.MissingTokenIff` | local/main.py:32-33 | "Missing token" exactly when there is no `"Bearer "` header or the extracted token is empty |
| `LocalServer.GrantedIff` | local/main.py:32-38 | access exactly when the extracted token equals the configured token and that token is non-empty |
| `LocalServer.ConfiguredTokenGrants` | local/main.py:15-17 | with a token the start-up check admits, access is exactly presenting that token; an empty token never matches |
| `LocalServer.RejectionsAre401` | local/main.py:32-36 | a missing and an invalid token are both 401 (not 403), and the endpoint does not run |
| `LocalServer.ViewRunsOnlyWhenGranted` | local/main.py:38 | the wrapped endpoint runs when access is granted, and the agent is called only then |
| `LocalServer.AgentCalledIff` | local/main.py:90-99 | the agent is called with `q` exactly when access is granted and the document is an object whose `query` member is `q`, whatever that member holds |
| `LocalServer.QueryChecks` | local/main.py:93-95 | a null document and an object without `query` get 400 "Missing query parameter"; an empty-string `query` passes |
| `LocalServer.NonObjectQueryRaises` | local/main.py:94-97 | a list holding `"query"` or a string containing it passes the key check and then raises TypeError at `data['query']` |
| `LocalServer.AgentReplyOf` | local/main.py:98-102 | 200 exactly when the agent returned, with `str(result)`; 500 with the exception's text when it raised |
| `LocalServer.OutcomeFollowsAgent` | local/main.py:98-102 | once the agent is called, the route answers 200 with `str(result)` or 500 with the error text |
| `LocalServer.HealthCheck` | local/main.py:105-107 | `/health` answers 200 `{"status": "healthy"}`, with no token check |
| `GateComparison.WrongTokenStatusDiffers` | src/lambda_function.py:230-236 | a wrong bearer token gets 403 from the Lambda handler (these lines) and 401 from the local server (local/main.py:35-36) |
| `GateComparison.ExtraFieldsDiffer` | local/main.py:30 | for `"Bearer a b"`, the Lambda handler takes the last field and the local server the first |

## Findings

Both rows are defects of the Lambda handler. In the program as written the
line-81 defect comes first: every cold start fails there, and the line-230
defect can be reached only once line 81 is fixed.

The corrected chain `LambdaHandler.Decide` compares the token with the
`auth_token` that initialisation reads. `AnsweredScenario` and
`AgentCalledIffChecksPass` are proved about it. The corrected initialisation
`LambdaHandler.InitStep` takes the outcome of building the agent as a
parameter. `AgentHost.HandleEvent` uses both.

| source | as written | input that shows it | evidently intended | confidence | as-written member | corrected member |
|---|---|---|---|---|---|---|
| src/lambda_function.py:230 | the token is compared with `FUNCTION_API_TOKEN`, a name the module never defines, so the comparison raises NameError | a POST with `Authorization: Bearer s3cret` and body `{"query": "hi"}`, secret `s3cret` | compare with `auth_token`, read at line 71 | high; not executed; reachable only once the line-81 defect below is fixed, since until then this input gets 500 "Failed to initialize agent" | `LambdaHandler.DecideAsWritten` | `LambdaHandler.Decide` |
| src/lambda_function.py:81 | the construction step names `CHROMA_COLLECTION_NAME`, a name the module never defines (as are the names at lines 86-87, 91-92 and 120), so it raises NameError. Initialisation fails on every cold start, and every event gets 500 "Failed to initialize agent" | any event, on a cold start with both Parameter Store reads succeeding | use `CHROMA_COLLECTION` (line 29) and the other configured values | high; not executed | `LambdaHandler.InitStepAsWritten` | `LambdaHandler.InitStep` |

## Left out

- The agent's reasoning loop, retrieval, embeddings and language model
  (`ReActAgent`, `QueryEngineTool`, `VectorStoreIndex`, `ChromaVectorStore`,
  `OpenAI`) are library code. The agent is an opaque function from query to
  outcome, and building it is a boolean parameter.
- `get_api_key` and `get_auth_token` are network reads from Parameter Store.
  Their outcomes are parameters (`Fetch`).
- Logging has no behaviour to state.
- The CORS and content-type header dictionaries are constants. Only the status
  code and the body are modelled.
- JSON encoding and decoding (`json.loads`, `json.dumps`, `get_json`,
  `jsonify`) are abstracted. The event carries the decoded document or
  `Malformed`. Numbers are integers only: non-integral numbers are not
  modelled.
- `LambdaHandler.RunQuery`: the agent's `response` attribute is always
  modelled as a string. A `None` or non-string attribute, and a `json.dumps`
  failure on it (the `except` branch at lines 270-279), are not modelled. With
  string results that branch cannot be reached.
- Other fields of the Lambda event, non-string header values, methods and bodies (a
  non-string body makes `json.loads` at src/lambda_function.py:240 raise TypeError), and
  the unused `context` argument are not modelled.
- Flask routing, method matching and application start-up (local/main.py:19,
  90, 105, 110-112) are the hosting layer. The request carries the
  `Authorization` value as Flask's case-insensitive lookup finds it. A `get_json`
  failure is `Aborted`: Flask itself answers 400 or 415 there. An exception
  escaping the view is `Unhandled`: Flask answers its generic 500.
- The module-level construction of the agent in local/main.py:43-82 and the
  one-line `run_query` wrapper (85-87) become the agent parameter.
- Environment and configuration loading are not modelled. The secrets are
  parameters. For the Flask server, only the emptiness check at lines 15-17 is
  modelled.
- Both comparisons are plain `!=`, so nothing is claimed about timing.
- Exceptions outside `Exception` (for example `KeyboardInterrupt`) and
  concurrent invocations are not modelled.
