/** The messages exchanged by agents, gateways and public callers. JSON is taken to be an
  * injective encoding, so messages are datatypes; byte strings are written as strings.
  */
module TunnelProto {
  import opened Wrappers

  /** Identifiers drawn from uuid.NewString; only their freshness matters. */
  type Uuid = nat

  type Label = string

  type Headers = map<string, seq<string>>

  datatype ForwardedRequest = ForwardedRequest(verb: string, path: string, headers: Headers, body: string)

  datatype ForwardedResponse = ForwardedResponse(status: int, headers: Headers, body: string)

  datatype Envelope =
    | RequestForward(requestID: Uuid, req: ForwardedRequest)
    | ResponseForward(requestID: Uuid, resp: ForwardedResponse)
    | Heartbeat
    | Disconnect

  const BAD_GATEWAY := 502

  /** The response a gateway writes itself when forwarding to an agent failed. */
  function ErrorResponse(err: string): ForwardedResponse {
    ForwardedResponse(BAD_GATEWAY, map["Content-Type" := ["text/plain; charset=utf-8"]], "tunnel error: " + err)
  }

  type ForwardResult = Result<ForwardedResponse, string>

  /** What serveLocally returns for the result of a forward. */
  function ToResponse(res: ForwardResult): ForwardedResponse {
    match res case Ok(resp) => resp case Err(err) => ErrorResponse(err)
  }

  /** The agent's answer to a forwarded request echoes the request id. */
  function HandleRequest(env: Envelope, resp: ForwardedResponse): Envelope
    requires env.RequestForward?
  {
    ResponseForward(env.requestID, resp)
  }

  /** uuid.NewString always finds an identifier that is not in use. */
  lemma FreshUuid(used: set<Uuid>) returns (id: Uuid)
    ensures forall x | x in used :: x < id
  {
    if used == {} {
      id := 0;
    } else {
      var x :| x in used;
      var y := FreshUuid(used - {x});
      id := if x < y then y else x + 1;
      forall z | z in used ensures z < id { assert z == x || z in used - {x}; }
    }
  }
}
