/** The boundary to the library-provided reasoning agent. The agent itself
    (its reasoning loop, retrieval and language-model calls) is opaque here:
    a call to `agent.query(q)` is represented only by what it produced. */
module AgentBoundary {

  /** What `agent.query` returned: a response object carrying a `response`
      attribute, or some other object; `display` is what `str()` makes of it. */
  datatype AgentReply =
    | WithResponse(response: string, display: string)
    | Plain(display: string)

  /** The outcome of one `agent.query(q)` call: a reply, or an exception,
      given by the text `str(e)` makes of it. */
  datatype AgentOutcome = Returned(reply: AgentReply) | Raised(message: string)
}
