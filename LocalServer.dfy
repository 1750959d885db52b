/** The local Flask server: the `token_required` decorator that guards the
    query endpoint, the endpoint's body check and outcome mapping, the health
    check, and the start-up check that a token is configured. */
module LocalServer {
  import opened PyStrings
  import opened PyValues
  import opened AgentBoundary

  const BEARER_PREFIX := "Bearer "
  const MSG_MISSING_TOKEN := "Unauthorized: Missing token"
  const MSG_INVALID_TOKEN := "Unauthorized: Invalid token"
  const MSG_MISSING_QUERY := "Missing query parameter"

  /** What `request.get_json()` gives the view: the decoded document, or a
      request Flask refuses itself (a body that is not JSON). */
  datatype Payload = Refused | Json(doc: JsonValue)

  /** The parts of a request the gate reads: the `Authorization` header, as
      Flask's case-insensitive header lookup finds it, and the payload. */
  datatype Request = Request(authorization: Option<string>, payload: Payload)

  /** The JSON bodies the server writes: `{"error": ..}`, `{"result": ..}`, `{"status": ..}`. */
  datatype Body = ErrorBody(error: string) | ResultBody(result: string) | StatusBody(status: string)

  datatype Reply = Reply(status: int, body: Body)

  /** What serving a request produces: a reply of the server's own, an
      exception escaping the view (Flask then answers with its generic 500),
      or the error response Flask raises from `get_json` itself. */
  datatype Outcome = Replied(reply: Reply) | Unhandled(error: PyException) | Aborted

  /** A decision taken before the agent: an outcome, or a call of the agent. */
  datatype Step = Finish(outcome: Outcome) | Invoke(query: JsonValue)

  datatype Verdict = MissingToken | InvalidToken | Granted

  /** The start-up check on `FUNCTION_API_TOKEN`: the configured token, or
      `None` when it is unset or empty and the server refuses to start. */
  function LoadToken(env: Option<string>): (t: Option<string>)
    ensures t.Some? <==> env.Some? && env.value != []
    ensures t.Some? ==> t == env
  {
    if env.None? || env.value == [] then None else env
  }

  /** The split of a header carrying the bearer prefix: "Bearer", then the
      fields of what follows the prefix. */
  lemma SplitAfterPrefix(header: string)
    requires StartsWith(header, BEARER_PREFIX)
    ensures SplitOn(header, ' ') == ["Bearer"] + SplitOn(header[|BEARER_PREFIX|..], ' ')
  {
    var rest := header[|BEARER_PREFIX|..];
    assert header == "Bearer" + [' '] + rest;
    SplitOnAroundSep("Bearer", ' ', rest);
    SplitOnWithoutSep("Bearer", ' ');
  }

  /** The first field of `s.split(sep)` is the longest prefix of `s` without `sep`. */
  lemma {:induction false} FirstField(s: string, sep: char)
    ensures SplitOn(s, sep)[0] <= s
    ensures sep !in SplitOn(s, sep)[0]
    ensures |SplitOn(s, sep)[0]| < |s| ==> s[|SplitOn(s, sep)[0]|] == sep
  {
    if s != [] && s[0] != sep {
      FirstField(s[1..], sep);
    }
  }

  /** The token `token_required` extracts: when the header is present and
      starts with exactly "Bearer ", field 1 of a split on single spaces,
      that is, what follows the prefix up to the next space (possibly
      nothing); `None` otherwise. */
  function BearerToken(header: Option<string>): (t: Option<string>)
    ensures t.Some? <==> header.Some? && StartsWith(header.value, BEARER_PREFIX)
    ensures t.Some? ==>
              var rest := header.value[|BEARER_PREFIX|..];
              && t.value <= rest
              && ' ' !in t.value
              && (|t.value| < |rest| ==> rest[|t.value|] == ' ')
  {
    if header.Some? && header.value != [] && StartsWith(header.value, BEARER_PREFIX) then
      var parts := SplitOn(header.value, ' ');
      SplitAfterPrefix(header.value);
      FirstField(header.value[|BEARER_PREFIX|..], ' ');
      Some(parts[1])
    else None
  }

  /** The decorator's verdict: no usable token, a token other than the
      configured one, or access. */
  function Authorize(header: Option<string>, apiToken: string): Verdict {
    var token := BearerToken(header);
    if token.None? || token.value == [] then MissingToken
    else if token.value != apiToken then InvalidToken
    else Granted
  }

  /** `token_required`: the 401 reply it returns, or `None` when it lets the
      wrapped view run. */
  function Guard(header: Option<string>, apiToken: string): Option<Reply> {
    match Authorize(header, apiToken)
    case MissingToken => Some(Reply(401, ErrorBody(MSG_MISSING_TOKEN)))
    case InvalidToken => Some(Reply(401, ErrorBody(MSG_INVALID_TOKEN)))
    case Granted => None
  }

  /** The body check of `query_endpoint`: `not data or 'query' not in data`,
      then `data['query']`. A truthy document that is not an object either
      makes `in` raise (a number, `true`) or, when it mentions "query" (a
      list holding it, a string containing it), makes the indexing raise. */
  function QueryStep(payload: Payload): Step {
    match payload
    case Refused => Finish(Aborted)
    case Json(data) =>
      if !Truthy(data) then Finish(Replied(Reply(400, ErrorBody(MSG_MISSING_QUERY))))
      else
        match In("query", data)
        case NotIterable => Finish(Unhandled(TypeError))
        case Member(false) => Finish(Replied(Reply(400, ErrorBody(MSG_MISSING_QUERY))))
        case Member(true) =>
          if data.JObj? then Invoke(data.members["query"]) else Finish(Unhandled(TypeError))
  }

  /** The reply for the agent's outcome: `str(result)` with 200, or `str(e)` with 500. */
  function AgentReplyOf(o: AgentOutcome): (r: Reply)
    ensures r.status == 200 <==> o.Returned?
    ensures o.Returned? ==> r.body == ResultBody(o.reply.display)
    ensures o.Raised? ==> r == Reply(500, ErrorBody(o.message))
  {
    match o
    case Returned(reply) => Reply(200, ResultBody(reply.display))
    case Raised(msg) => Reply(500, ErrorBody(msg))
  }

  /** `POST /query`: the decorator, then the endpoint. */
  function QueryPlan(req: Request, apiToken: string): Step {
    match Guard(req.authorization, apiToken)
    case Some(r) => Finish(Replied(r))
    case None => QueryStep(req.payload)
  }

  function QueryRoute(req: Request, apiToken: string, agent: JsonValue -> AgentOutcome): Outcome {
    match QueryPlan(req, apiToken)
    case Finish(o) => o
    case Invoke(q) => Replied(AgentReplyOf(agent(q)))
  }

  /** `GET /health`: no token check, always healthy. */
  function HealthCheck(): (r: Reply)
    ensures r.status == 200 && r.body == StatusBody("healthy")
  {
    Reply(200, StatusBody("healthy"))
  }

  // -----------------------------------------------------------------------
  // Properties of the decorator

  /** "Bearer " followed by a space-free token, alone or followed by a space
      and anything, yields that token. */
  lemma {:induction false} BearerTokenOf(token: string, rest: string)
    requires ' ' !in token
    ensures BearerToken(Some(BEARER_PREFIX + token)) == Some(token)
    ensures BearerToken(Some(BEARER_PREFIX + token + " " + rest)) == Some(token)
  {
    var h1 := BEARER_PREFIX + token;
    var h2 := BEARER_PREFIX + token + " " + rest;
    assert h1[|BEARER_PREFIX|..] == token;
    assert h2[|BEARER_PREFIX|..] == token + [' '] + rest;
    SplitAfterPrefix(h1);
    SplitAfterPrefix(h2);
    SplitOnWithoutSep(token, ' ');
    SplitOnAroundSep(token, ' ', rest);
    SplitOnWithoutSep(token, ' ');
  }

  lemma TokenExamples()
    ensures BearerToken(Some("Bearer a b")) == Some("a")
    ensures BearerToken(Some("Bearer  a")) == Some("")
    ensures BearerToken(Some("Token abc")) == None
  {
    BearerTokenOf("a", "b");
    assert BEARER_PREFIX + "a" + " " + "b" == "Bearer a b";
    BearerTokenOf("", "a");
    assert BEARER_PREFIX + "" + " " + "a" == "Bearer  a";
    assert !StartsWith("Token abc", BEARER_PREFIX) by {
      assert "Token abc"[0] != BEARER_PREFIX[0];
    }
  }

  /** "Missing token" exactly when there is no "Bearer " header or the token after it is empty. */
  lemma MissingTokenIff(header: Option<string>, apiToken: string)
    ensures Authorize(header, apiToken) == MissingToken <==>
              BearerToken(header) == None || BearerToken(header) == Some([])
  {
  }

  /** Access exactly when the extracted token equals a non-empty configured token. */
  lemma GrantedIff(header: Option<string>, apiToken: string)
    ensures Authorize(header, apiToken) == Granted <==>
              apiToken != [] && BearerToken(header) == Some(apiToken)
  {
  }

  /** With the token the start-up check admits, an empty token never matches,
      and access is exactly presenting that token. */
  lemma ConfiguredTokenGrants(env: Option<string>, header: Option<string>)
    requires LoadToken(env).Some?
    ensures Authorize(header, LoadToken(env).value) == Granted <==>
              BearerToken(header) == LoadToken(env)
  {
    GrantedIff(header, LoadToken(env).value);
  }

  /** A missing and an invalid token are both answered 401, with different
      messages, and the wrapped view does not run. */
  lemma RejectionsAre401(req: Request, apiToken: string)
    requires Authorize(req.authorization, apiToken) != Granted
    ensures Guard(req.authorization, apiToken).Some?
    ensures Guard(req.authorization, apiToken).value.status == 401
    ensures QueryPlan(req, apiToken) == Finish(Replied(Guard(req.authorization, apiToken).value))
  {
  }

  /** The endpoint runs exactly when the decorator grants access. */
  lemma ViewRunsOnlyWhenGranted(req: Request, apiToken: string)
    ensures Authorize(req.authorization, apiToken) == Granted ==>
              QueryPlan(req, apiToken) == QueryStep(req.payload)
    ensures QueryPlan(req, apiToken).Invoke? ==> Authorize(req.authorization, apiToken) == Granted
  {
  }

  // -----------------------------------------------------------------------
  // Properties of the endpoint

  /** The agent is called exactly when access is granted and the payload is
      an object with a `query` member, whatever that member holds. */
  lemma AgentCalledIff(req: Request, apiToken: string, q: JsonValue)
    ensures QueryPlan(req, apiToken) == Invoke(q) <==>
              && Authorize(req.authorization, apiToken) == Granted
              && req.payload.Json? && req.payload.doc.JObj?
              && "query" in req.payload.doc.members
              && req.payload.doc.members["query"] == q
  {
  }

  /** A null document or an object without `query` gets 400; key presence
      suffices, so an empty query string reaches the agent. */
  lemma QueryChecks(m: map<string, JsonValue>)
    ensures QueryStep(Json(JNull)) == Finish(Replied(Reply(400, ErrorBody(MSG_MISSING_QUERY))))
    ensures "query" !in m ==> QueryStep(Json(JObj(m))) == Finish(Replied(Reply(400, ErrorBody(MSG_MISSING_QUERY))))
    ensures QueryStep(Json(JObj(m["query" := JStr("")]))) == Invoke(JStr(""))
  {
    var withQuery := m["query" := JStr("")];
    assert "query" in withQuery && withQuery != map[];
  }

  /** A truthy document that is not an object but mentions "query" reaches
      `data['query']` and raises TypeError. */
  lemma NonObjectQueryRaises(elems: seq<JsonValue>, text: string)
    ensures QueryStep(Json(JArr(elems + [JStr("query")]))) == Finish(Unhandled(TypeError))
    ensures Substring("query", text) ==> QueryStep(Json(JStr(text))) == Finish(Unhandled(TypeError))
  {
    assert JStr("query") in elems + [JStr("query")];
  }

  /** Once the agent is called, 200 with `str(result)` when it returned and
      500 with the error text when it raised. */
  lemma OutcomeFollowsAgent(req: Request, apiToken: string, agent: JsonValue -> AgentOutcome, q: JsonValue)
    requires QueryPlan(req, apiToken) == Invoke(q)
    ensures QueryRoute(req, apiToken, agent).Replied?
    ensures agent(q).Returned? ==>
              QueryRoute(req, apiToken, agent) == Replied(Reply(200, ResultBody(agent(q).reply.display)))
    ensures agent(q).Raised? ==>
              QueryRoute(req, apiToken, agent) == Replied(Reply(500, ErrorBody(agent(q).message)))
  {
  }
}
