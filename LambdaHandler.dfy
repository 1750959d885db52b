/** The AWS Lambda entry point in front of the query agent: a once-only
    initialisation of the module globals (`api_key`, `auth_token`,
    `agent`), then a fixed chain of early returns over the API Gateway event
    (method, headers, body) that decides the status code and message, and
    whether the agent is called at all. */
module LambdaHandler {
  import opened PyStrings
  import opened PyValues
  import opened AgentBoundary

  const MSG_INIT_FAILED := "Failed to initialize agent"
  const MSG_METHOD_NOT_ALLOWED := "Method not allowed"
  const MSG_MISSING_TOKEN := "Missing authentication token"
  const MSG_INVALID_TOKEN := "Invalid authentication token"
  const MSG_INVALID_JSON := "Invalid JSON in request body"
  const MSG_MISSING_QUERY := "Missing query parameter"

  /** An event entry as API Gateway may deliver it: left out, JSON null, or a value. */
  datatype Field<+T> = Absent | Null | Present(value: T)

  /** What `json.loads` makes of the body text: a decoding error, or a document. */
  datatype Decoded = Malformed | Document(doc: JsonValue)

  /** The parts of the event the handler reads. */
  datatype Event = Event(
    httpMethod: Option<string>,
    headers: Field<map<string, string>>,
    body: Field<Decoded>)

  /** The dictionary `run_query` returns: `status` is "success" or "error". */
  datatype QueryResult = Answered(result: string) | Failed(error: string) {
    function Status(): string {
      if Answered? then "success" else "error"
    }
  }

  /** The JSON body of a response: empty (the CORS preflight), an error
      message, or the dictionary `run_query` returned. */
  datatype Body = NoContent | ErrorMessage(message: string) | QueryReport(report: QueryResult)

  datatype Response = Response(statusCode: int, body: Body)

  /** A response, or an exception that escapes the handler (the Lambda
      invocation then fails instead of answering). */
  datatype Outcome = Respond(response: Response) | Raise(error: PyException)

  /** What the request gate decides: an outcome without consulting the agent,
      or a call of the agent with the given query. */
  datatype Decision = Answer(outcome: Outcome) | CallAgent(query: JsonValue)

  function Reject(code: int, message: string): Outcome {
    Respond(Response(code, ErrorMessage(message)))
  }

  function InitFailure(): Outcome {
    Reject(500, MSG_INIT_FAILED)
  }

  // -----------------------------------------------------------------------
  // Initialisation (the module globals and `initialize_agent`)

  /** The outcome of one Parameter Store read. */
  datatype Fetch = Fetched(value: string) | FetchFailed

  /** The module globals `api_key`, `auth_token`, whether `agent` is set, and
      the `OPENAI_API_KEY` environment entry the initialisation writes. */
  datatype Globals = Globals(
    apiKey: Option<string>,
    authToken: Option<string>,
    openAiKey: Option<string>,
    agentReady: bool)

  /** Once the agent exists, both secrets have been read and the key exported. */
  predicate Consistent(g: Globals) {
    g.agentReady ==> g.apiKey.Some? && g.authToken.Some? && g.openAiKey == g.apiKey
  }

  /** One call of `initialize_agent`: the new globals and whether it returned
      normally. `constructed` is whether building the vector store, models
      and agent succeeded. */
  function InitStep(g: Globals, key: Fetch, token: Fetch, constructed: bool): (r: (Globals, bool))
    requires Consistent(g)
    ensures Consistent(r.0)
    ensures r.1 == r.0.agentReady
    ensures g.agentReady ==> r == (g, true)
    ensures !g.agentReady && key.FetchFailed? ==> r == (g, false)
    ensures !g.agentReady && key.Fetched? ==> r.0.apiKey == Some(key.value)
    ensures !g.agentReady && key.Fetched? && token.FetchFailed? ==> r == (g.(apiKey := Some(key.value)), false)
    ensures !g.agentReady && r.1 ==> key.Fetched? && token.Fetched? && constructed
    ensures !g.agentReady && key.Fetched? && token.Fetched? ==>
              r.0.authToken == Some(token.value) && r.0.openAiKey == Some(key.value) && r.1 == constructed
  {
    if g.agentReady then (g, true)
    else match key
      case FetchFailed => (g, false)
      case Fetched(k) =>
        var g1 := g.(apiKey := Some(k));
        match token
        case FetchFailed => (g1, false)
        case Fetched(t) =>
          var g2 := g1.(authToken := Some(t), openAiKey := Some(k));
          if constructed then (g2.(agentReady := true), true) else (g2, false)
  }

  /** `initialize_agent` as written: the construction step names
      `CHROMA_COLLECTION_NAME` (line 81), which the module never defines, so
      it always raises NameError once both secrets are read, and the agent
      never comes to exist. */
  function InitStepAsWritten(g: Globals, key: Fetch, token: Fetch): (r: (Globals, bool))
    requires Consistent(g)
    ensures !g.agentReady ==> !r.1 && !r.0.agentReady
    ensures !g.agentReady && key.Fetched? && token.Fetched? ==>
              r.0.authToken == Some(token.value) && r.0.apiKey == Some(key.value)
  {
    InitStep(g, key, token, false)
  }

  /** The process-wide state the handler keeps between invocations. */
  class AgentHost {
    var apiKey: Option<string>
    var authToken: Option<string>
    var openAiKey: Option<string>
    var agentReady: bool

    ghost function State(): Globals
      reads this
    {
      Globals(apiKey, authToken, openAiKey, agentReady)
    }

    ghost predicate Valid()
      reads this
    {
      Consistent(State())
    }

    /** A cold start: every global is `None`. */
    constructor ()
      ensures Valid()
      ensures State() == Globals(None, None, None, false)
    {
      apiKey, authToken, openAiKey, agentReady := None, None, None, false;
    }

    /** `initialize_agent`: does nothing once the agent exists; otherwise
        reads the API key, then the auth token, exports the key and builds
        the agent, stopping at the first failure. */
    method Initialize(key: Fetch, token: Fetch, constructed: bool) returns (ok: bool)
      requires Valid()
      modifies this
      ensures Valid()
      ensures (State(), ok) == InitStep(old(State()), key, token, constructed)
    {
      if agentReady {
        return true;
      }
      if key.FetchFailed? {
        return false;
      }
      apiKey := Some(key.value);
      if token.FetchFailed? {
        return false;
      }
      authToken := Some(token.value);
      openAiKey := Some(key.value);
      if !constructed {
        return false;
      }
      agentReady := true;
      ok := true;
    }

    /** `lambda_handler`: initialise, answering 500 for every method when
        that fails; otherwise run the request gate against the auth token
        the initialisation read, and the agent when the gate lets the
        request through. */
    method HandleEvent(e: Event, key: Fetch, token: Fetch, constructed: bool,
                       agent: JsonValue -> AgentOutcome) returns (out: Outcome)
      requires Valid()
      modifies this
      ensures Valid()
      ensures State() == InitStep(old(State()), key, token, constructed).0
      ensures !agentReady ==> out == InitFailure()
      ensures agentReady ==> authToken.Some? && out == Serve(e, authToken.value, agent)
    {
      var ok := Initialize(key, token, constructed);
      if !ok {
        return InitFailure();
      }
      out := Serve(e, authToken.value, agent);
    }
  }

  // -----------------------------------------------------------------------
  // The request gate

  predicate Presented(headers: map<string, string>, name: string) {
    name in headers && headers[name] != []
  }

  /** The credential the handler accepts: `headers['Authorization']`, or
      `headers['authorization']` when the first is absent or empty; `None`
      when the value found is absent or empty. */
  function Credential(headers: map<string, string>): (c: Option<string>)
    ensures c.Some? ==> c.value != []
    ensures c.Some? <==> Presented(headers, "Authorization") || Presented(headers, "authorization")
    ensures Presented(headers, "Authorization") ==> c == Some(headers["Authorization"])
    ensures !Presented(headers, "Authorization") && Presented(headers, "authorization") ==>
              c == Some(headers["authorization"])
  {
    var header :=
      if Presented(headers, "Authorization") then Some(headers["Authorization"])
      else if "authorization" in headers then Some(headers["authorization"])
      else None;
    if header == Some([]) then None else header
  }

  /** The token taken from a credential: the last whitespace-separated field
      when there are two or more, the only field when there is one; `None`
      when there is no field (Python then raises IndexError). */
  function PresentedToken(credential: string): (t: Option<string>)
    ensures t.None? <==> AllSpace(credential)
    ensures t.Some? ==> t.value != [] && NoSpace(t.value)
  {
    var parts := Fields(credential);
    FieldsEmptyIffAllSpace(credential);
    if |parts| > 1 then Some(parts[|parts| - 1])
    else if |parts| == 1 then Some(parts[0])
    else None
  }

  /** The header map the handler inspects: `event.get('headers', {})`. */
  function HeaderMap(e: Event): map<string, string> {
    if e.headers.Present? then e.headers.value else map[]
  }

  /** The part of the chain before the token comparison: an early outcome, or
      the token the request presents. */
  datatype GateStep = Early(outcome: Outcome) | Token(token: string)

  function Gate(e: Event): GateStep {
    if e.httpMethod == Some("OPTIONS") then Early(Respond(Response(200, NoContent)))
    else if e.httpMethod != Some("POST") then Early(Reject(405, MSG_METHOD_NOT_ALLOWED))
    else if e.headers.Null? then Early(Raise(AttributeError))
    else
      match Credential(HeaderMap(e))
      case None => Early(Reject(401, MSG_MISSING_TOKEN))
      case Some(c) =>
        match PresentedToken(c)
        case None => Early(Raise(IndexError))
        case Some(t) => Token(t)
  }

  /** The body checks: `json.loads(event.get('body', '{}'))`, then `body.get('query')`. */
  function ReadQuery(body: Field<Decoded>): Decision {
    match body
    case Absent => QueryOf(JObj(map[]))
    case Null => Answer(Raise(TypeError))
    case Present(Malformed) => Answer(Reject(400, MSG_INVALID_JSON))
    case Present(Document(doc)) => QueryOf(doc)
  }

  function QueryOf(doc: JsonValue): Decision {
    match doc
    case JObj(m) =>
      var q := Get(m, "query");
      if Truthy(q) then CallAgent(q) else Answer(Reject(400, MSG_MISSING_QUERY))
    case _ => Answer(Raise(AttributeError))
  }

  /** The whole chain of early returns, with the token compared against the
      secret the initialisation read into `auth_token`. */
  function Decide(e: Event, secret: string): Decision {
    match Gate(e)
    case Early(o) => Answer(o)
    case Token(t) =>
      if t != secret then Answer(Reject(403, MSG_INVALID_TOKEN)) else ReadQuery(e.body)
  }

  /** The same chain as written at line 230, where the comparison names
      `FUNCTION_API_TOKEN`, which the module never defines: evaluating it
      raises NameError, and nothing catches it. */
  function DecideAsWritten(e: Event): Decision {
    match Gate(e)
    case Early(o) => Answer(o)
    case Token(_) => Answer(Raise(NameError("FUNCTION_API_TOKEN")))
  }

  /** `run_query`: the agent's answer (its `response` attribute when it has
      one, its `str()` otherwise) or the text of the exception it raised. */
  function RunQuery(o: AgentOutcome): (r: QueryResult)
    ensures r.Status() == "success" <==> o.Returned?
    ensures o.Raised? ==> r == Failed(o.message)
    ensures o.Returned? && o.reply.WithResponse? ==> r == Answered(o.reply.response)
    ensures o.Returned? && o.reply.Plain? ==> r == Answered(o.reply.display)
  {
    match o
    case Raised(msg) => Failed(msg)
    case Returned(WithResponse(text, _)) => Answered(text)
    case Returned(Plain(text)) => Answered(text)
  }

  /** The response built from `run_query`'s result. */
  function Report(r: QueryResult): (resp: Response)
    ensures resp.statusCode == 200 <==> r.Status() == "success"
    ensures resp.statusCode != 200 ==> resp.statusCode == 500
    ensures resp.body == QueryReport(r)
  {
    Response(if r.Status() == "success" then 200 else 500, QueryReport(r))
  }

  /** The handler after a successful initialisation. */
  function Serve(e: Event, secret: string, agent: JsonValue -> AgentOutcome): Outcome {
    match Decide(e, secret)
    case Answer(o) => o
    case CallAgent(q) => Respond(Report(RunQuery(agent(q))))
  }

  // -----------------------------------------------------------------------
  // Properties of the gate

  /** A preflight request is answered 200 with an empty body, whatever its
      headers and body. */
  lemma OptionsAnswered(e: Event, secret: string)
    requires e.httpMethod == Some("OPTIONS")
    ensures Decide(e, secret) == Answer(Respond(Response(200, NoContent)))
  {
  }

  /** Every method other than OPTIONS and POST gets 405, before any header or
      body is looked at. */
  lemma OtherMethodsRejected(e: Event, secret: string)
    requires e.httpMethod != Some("OPTIONS") && e.httpMethod != Some("POST")
    ensures Decide(e, secret) == Answer(Reject(405, MSG_METHOD_NOT_ALLOWED))
  {
  }

  /** A POST gets 401 exactly when neither header spelling carries a non-empty value. */
  lemma MissingCredentialIs401(e: Event, secret: string)
    requires e.httpMethod == Some("POST") && !e.headers.Null?
    ensures Decide(e, secret) == Answer(Reject(401, MSG_MISSING_TOKEN)) <==>
              !Presented(HeaderMap(e), "Authorization") && !Presented(HeaderMap(e), "authorization")
  {
  }

  /** The token is the last whitespace-separated field of the credential. */
  lemma PresentedTokenIsLastField(credential: string)
    ensures Fields(credential) == [] ==> PresentedToken(credential) == None
    ensures Fields(credential) != [] ==>
              PresentedToken(credential) == Some(Fields(credential)[|Fields(credential)| - 1])
  {
  }

  /** A bare token and the same token after any prefix and whitespace (such
      as "Bearer ") both yield that token. */
  lemma BareAndPrefixedTokenAgree(token: string, prefix: string, sp: char)
    requires token != [] && NoSpace(token) && IsSpace(sp)
    ensures PresentedToken(token) == Some(token)
    ensures PresentedToken(prefix + [sp] + token) == Some(token)
  {
    FieldsOfWord(token);
    FieldsAroundSpace(prefix, sp, token);
  }

  lemma BearerExample()
    ensures PresentedToken("Bearer abc") == Some("abc")
    ensures PresentedToken("abc") == Some("abc")
  {
    BareAndPrefixedTokenAgree("abc", "Bearer", ' ');
    assert "Bearer" + [' '] + "abc" == "Bearer abc";
  }

  /** A credential made only of whitespace passes the emptiness check but has
      no field, so the indexing raises IndexError. */
  lemma WhitespaceCredentialRaises(e: Event, secret: string, c: string)
    requires e.httpMethod == Some("POST") && !e.headers.Null?
    requires Credential(HeaderMap(e)) == Some(c) && AllSpace(c)
    ensures Decide(e, secret) == Answer(Raise(IndexError))
  {
  }

  /** The gate's steps up to the token comparison never look at the body. */
  lemma GateIgnoresBody(e: Event, body: Field<Decoded>)
    ensures Gate(e.(body := body)) == Gate(e)
  {
  }

  /** A token other than the secret gets 403, whatever the body: the
      authentication errors take precedence over the body errors. */
  lemma WrongTokenForbidden(e: Event, secret: string, body: Field<Decoded>)
    requires Gate(e).Token? && Gate(e).token != secret
    ensures Decide(e.(body := body), secret) == Answer(Reject(403, MSG_INVALID_TOKEN))
  {
    GateIgnoresBody(e, body);
  }

  /** With the right token, the body decides: a decoding error gives 400
      "Invalid JSON in request body", a missing body counts as `{}` and so
      fails the query check, and a falsy or missing `query` gives 400
      "Missing query parameter". */
  lemma BodyChecks(e: Event, secret: string)
    requires Gate(e) == Token(secret)
    ensures e.body == Present(Malformed) ==> Decide(e, secret) == Answer(Reject(400, MSG_INVALID_JSON))
    ensures e.body.Absent? ==> Decide(e, secret) == Answer(Reject(400, MSG_MISSING_QUERY))
    ensures e.body.Null? ==> Decide(e, secret) == Answer(Raise(TypeError))
    ensures e.body.Present? && e.body.value.Document? && !e.body.value.doc.JObj? ==>
              Decide(e, secret) == Answer(Raise(AttributeError))
    ensures e.body.Present? && e.body.value.Document? && e.body.value.doc.JObj? &&
            !Truthy(Get(e.body.value.doc.members, "query")) ==>
              Decide(e, secret) == Answer(Reject(400, MSG_MISSING_QUERY))
  {
  }

  /** The agent is called exactly when every check passes, and then with the
      body's `query` member. */
  lemma AgentCalledIffChecksPass(e: Event, secret: string, q: JsonValue)
    ensures Decide(e, secret) == CallAgent(q) <==>
              && Gate(e) == Token(secret)
              && e.body.Present? && e.body.value.Document? && e.body.value.doc.JObj?
              && Get(e.body.value.doc.members, "query") == q
              && Truthy(q)
  {
  }

  /** Once the agent is called, the status is 200 exactly when it did not raise,
      and 500 otherwise. */
  lemma StatusFollowsAgent(e: Event, secret: string, agent: JsonValue -> AgentOutcome, q: JsonValue)
    requires Decide(e, secret) == CallAgent(q)
    ensures Serve(e, secret, agent).Respond?
    ensures Serve(e, secret, agent).response.statusCode == 200 <==> agent(q).Returned?
    ensures Serve(e, secret, agent).response.statusCode != 200 ==>
              Serve(e, secret, agent).response.statusCode == 500
  {
  }

  // -----------------------------------------------------------------------
  // Two end-to-end requests

  function BearerEvent(token: string, query: string): Event {
    Event(Some("POST"),
          Present(map["Authorization" := "Bearer " + token]),
          Present(Document(JObj(map["query" := JStr(query)]))))
  }

  /** The right bearer token and a non-empty query reach the agent, and its
      answer comes back with 200. */
  lemma AnsweredScenario(secret: string, query: string, answer: string, display: string,
                         agent: JsonValue -> AgentOutcome)
    requires secret != [] && NoSpace(secret) && query != []
    requires agent(JStr(query)) == Returned(WithResponse(answer, display))
    ensures Decide(BearerEvent(secret, query), secret) == CallAgent(JStr(query))
    ensures Serve(BearerEvent(secret, query), secret, agent) ==
              Respond(Response(200, QueryReport(Answered(answer))))
  {
    var e := BearerEvent(secret, query);
    BareAndPrefixedTokenAgree(secret, "Bearer", ' ');
    assert "Bearer" + [' '] + secret == "Bearer " + secret;
    assert Credential(HeaderMap(e)) == Some("Bearer " + secret);
    assert Gate(e) == Token(secret);
  }

  /** A wrong token (such as "wrong") gets 403 and the agent is never called. */
  lemma WrongTokenScenario(secret: string, token: string, query: string)
    requires token != secret && token != [] && NoSpace(token)
    ensures Decide(BearerEvent(token, query), secret) == Answer(Reject(403, MSG_INVALID_TOKEN))
  {
    var e := BearerEvent(token, query);
    BareAndPrefixedTokenAgree(token, "Bearer", ' ');
    assert "Bearer" + [' '] + token == "Bearer " + token;
    assert Credential(HeaderMap(e)) == Some("Bearer " + token);
    assert Gate(e) == Token(token);
  }

  // -----------------------------------------------------------------------
  // The comparison as written

  /** As written, no event ever reaches the agent: every request that gets
      past the header checks raises NameError at the token comparison. */
  lemma AsWrittenNeverCallsAgent(e: Event)
    ensures !DecideAsWritten(e).CallAgent?
    ensures Gate(e).Token? ==> DecideAsWritten(e) == Answer(Raise(NameError("FUNCTION_API_TOKEN")))
  {
  }

  /** The requests that show it: a bearer token equal to the secret and a
      non-empty query (say `Authorization: Bearer s3cret` with body
      `{"query": "hi"}`) reach the agent in the intended chain and raise in
      the written one. */
  lemma AsWrittenCounterexample(secret: string, query: string)
    requires secret != [] && NoSpace(secret) && query != []
    ensures DecideAsWritten(BearerEvent(secret, query)) == Answer(Raise(NameError("FUNCTION_API_TOKEN")))
    ensures Decide(BearerEvent(secret, query), secret) == CallAgent(JStr(query))
  {
    var e := BearerEvent(secret, query);
    BareAndPrefixedTokenAgree(secret, "Bearer", ' ');
    assert "Bearer" + [' '] + secret == "Bearer " + secret;
    assert Credential(HeaderMap(e)) == Some("Bearer " + secret);
    assert Gate(e) == Token(secret);
  }
}
