/**
 The peer's side of admission (handleAgentEndpoint in internal/a2a/server.go): which requests reach
 the executor, and of which it declares that they did not.
*/
module AgentEndpoint {

  datatype Request = Request(agentName: string, get: bool, key: string)

  datatype Server = Server(cards: set<string>, apiKey: string)

  /** The HTTP answer: whether it is a success, whether it carries the non-admission header, and
      whether the request was handed to the executor. */
  datatype Response = Response(success: bool, declaresNotAdmitted: bool, admitted: bool)

  method HandleAgentEndpoint(s: Server, r: Request, accepted: bool) returns (answer: Response)
    ensures answer.declaresNotAdmitted ==> !answer.admitted && !answer.success
    ensures answer.admitted <==> r.agentName != "" && r.agentName in s.cards && !r.get && s.apiKey != "" && r.key == s.apiKey
    ensures answer.admitted ==> answer.success == accepted
    ensures !answer.success && !answer.admitted ==> answer.declaresNotAdmitted
    ensures answer.success && !answer.admitted <==> r.agentName == "" || (r.agentName in s.cards && r.get)
  {
    if r.agentName == "" { return Response(true, false, false); }
    if r.agentName !in s.cards { return Response(false, true, false); }
    if r.get { return Response(true, false, false); }
    if s.apiKey == "" || r.key != s.apiKey { return Response(false, true, false); }
    return Response(accepted, false, true);
  }
}
