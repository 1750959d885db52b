/** Where the two request gates disagree on the same credential. */
module GateComparison {
  import opened PyStrings
  import opened PyValues
  import LambdaHandler
  import LocalServer

  /** A wrong bearer token is 403 at the Lambda handler and 401 at the local server. */
  lemma WrongTokenStatusDiffers(secret: string, token: string, query: string)
    requires token != secret && token != [] && NoSpace(token)
    ensures LambdaHandler.Decide(LambdaHandler.BearerEvent(token, query), secret)
              == LambdaHandler.Answer(LambdaHandler.Reject(403, LambdaHandler.MSG_INVALID_TOKEN))
    ensures LocalServer.Guard(Some("Bearer " + token), secret)
              == Some(LocalServer.Reply(401, LocalServer.ErrorBody(LocalServer.MSG_INVALID_TOKEN)))
  {
    LambdaHandler.WrongTokenScenario(secret, token, query);
    LocalServer.BearerTokenOf(token, []);
  }

  /** With more than one token after "Bearer ", the Lambda handler takes the
      last field and the local server the first. */
  lemma ExtraFieldsDiffer(first: string, last: string)
    requires first != [] && NoSpace(first) && last != [] && NoSpace(last)
    ensures LambdaHandler.PresentedToken("Bearer " + first + " " + last) == Some(last)
    ensures LocalServer.BearerToken(Some("Bearer " + first + " " + last)) == Some(first)
  {
    LambdaHandler.BareAndPrefixedTokenAgree(last, "Bearer " + first, ' ');
    assert "Bearer " + first + [' '] + last == "Bearer " + first + " " + last;
    LocalServer.BearerTokenOf(first, last);
  }
}
