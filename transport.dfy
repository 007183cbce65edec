/** The three ways the clients reach a switch. The HTTP exchange itself and
    the JSON-RPC library are outside the model: they are the parameters
    `net` (one HTTP POST, answered by a status and a body that json
    decoding either accepts or refuses) and `rpc` (one JSON-RPC call). What
    is modelled is the request each client hands over and how it turns the
    answer into a decoded body or an exception. */
module Transport {
  import opened Py
  import opened Payload
  import opened Url

  /** `HTTP_HEADERS`: the body is JSON */
  const HTTP_HEADERS: map<string, string> := map["Content-Type" := "application/json"]

  /** The `creds` pair of a client. */
  datatype Credentials = Credentials(username: string, password: string)

  /** `creds=("admin", "")` */
  const DEFAULT_CREDENTIALS := Credentials("admin", "")

  /** How the credentials travel: urllib2 registers them for one URL and
      answers a challenge with them; requests sends them with the request. */
  datatype Auth =
    | BasicOnChallenge(scope: string, username: string, password: string)
    | BasicPreemptive(username: string, password: string)

  datatype HttpRequest = HttpRequest(
    verb: string,
    url: string,
    headers: map<string, string>,
    auth: Auth,
    body: Json)

  /** What comes back from one POST: nothing (the switch could not be
      reached), or a final status with a body that json decoding accepts
      (Some) or refuses (None). */
  datatype Delivery =
    | Unreachable(reason: string)
    | Delivered(status: int, body: Option<Json>)

  type Network = HttpRequest -> Delivery

  /** `json.load(handler)` / `response.json()`: ValueError on a body that is not JSON. */
  function DecodeBody(body: Option<Json>): (r: Result<Json>)
    ensures r.Ok? <==> body.Some?
    ensures r.Ok? ==> r.value == body.value
    ensures r.Err? ==> r.error == DecodeFailure
  {
    match body
    case Some(j) => Ok(j)
    case None => Err(DecodeFailure)
  }

  /** The urllib2 request: a POST of the payload as JSON to the endpoint, with
      the JSON content type, and the credentials registered for exactly the
      endpoint URL. */
  function Urllib2Request(endpoint: string, payload: Request, creds: Credentials): (req: HttpRequest)
    ensures req.verb == "POST" && req.url == endpoint
    ensures req.headers == map["Content-Type" := "application/json"]
    ensures req.auth.BasicOnChallenge? && req.auth.scope == req.url
    ensures (req.auth.username, req.auth.password) == (creds.username, creds.password)
    ensures RequestOf(req.body) == Some(payload)
  {
    RequestRoundTrip(payload);
    HttpRequest("POST", endpoint, HTTP_HEADERS,
      BasicOnChallenge(endpoint, creds.username, creds.password), ToJson(payload))
  }

  /** The requests request: the same POST, the credentials sent with it. */
  function RequestsRequest(endpoint: string, payload: Request, creds: Credentials): (req: HttpRequest)
    ensures req.verb == "POST" && req.url == endpoint
    ensures req.headers == map["Content-Type" := "application/json"]
    ensures req.auth == BasicPreemptive(creds.username, creds.password)
    ensures RequestOf(req.body) == Some(payload)
  {
    RequestRoundTrip(payload);
    HttpRequest("POST", endpoint, HTTP_HEADERS,
      BasicPreemptive(creds.username, creds.password), ToJson(payload))
  }

  /** `urllib2.urlopen` then `json.load`: urlopen's default handlers raise
      HTTPError on every final status outside 2xx. */
  function Urllib2Outcome(reply: Delivery): (r: Result<Json>)
    ensures r.Ok? <==> reply.Delivered? && 200 <= reply.status < 300 && reply.body.Some?
    ensures r.Ok? ==> r.value == reply.body.value
    ensures reply.Unreachable? ==> r == Err(ConnectionFailure(reply.reason))
    ensures reply.Delivered? && !(200 <= reply.status < 300) ==> r == Err(HttpError(reply.status))
    ensures reply.Delivered? && 200 <= reply.status < 300 && reply.body.None? ==> r == Err(DecodeFailure)
  {
    match reply
    case Unreachable(reason) => Err(ConnectionFailure(reason))
    case Delivered(status, body) =>
      if !(200 <= status < 300) then Err(HttpError(status)) else DecodeBody(body)
  }

  /** `requests.post`, `raise_for_status()`, then `response.json()`:
      only a 4xx or 5xx status raises; any other reply is decoded. */
  function RequestsOutcome(reply: Delivery): (r: Result<Json>)
    ensures r.Ok? <==> reply.Delivered? && !(400 <= reply.status < 600) && reply.body.Some?
    ensures r.Ok? ==> r.value == reply.body.value
    ensures reply.Unreachable? ==> r == Err(ConnectionFailure(reply.reason))
    ensures reply.Delivered? && 400 <= reply.status < 600 ==> r == Err(HttpError(reply.status))
    ensures reply.Delivered? && !(400 <= reply.status < 600) && reply.body.None? ==> r == Err(DecodeFailure)
  {
    match reply
    case Unreachable(reason) => Err(ConnectionFailure(reason))
    case Delivered(status, body) =>
      if 400 <= status < 600 then Err(HttpError(status)) else DecodeBody(body)
  }

  /** The two HTTP libraries turn a reply into the same outcome exactly when
      the switch was unreachable or the status is 2xx, 4xx or 5xx; on any
      other status urllib2 raises and requests decodes the body. */
  lemma OutcomesAgreeIff(reply: Delivery)
    ensures Urllib2Outcome(reply) == RequestsOutcome(reply) <==>
      reply.Unreachable? || 200 <= reply.status < 300 || 400 <= reply.status < 600
  {
    if reply.Delivered? && !(200 <= reply.status < 300) && !(400 <= reply.status < 600) {
      assert Urllib2Outcome(reply).error.HttpError?;
      assert RequestsOutcome(reply).Err? ==> !RequestsOutcome(reply).error.HttpError?;
    }
  }

  /** One JSON-RPC call as jsonrpclib makes it: method name and positional params. */
  datatype RpcCall = RpcCall(url: string, rpcMethod: string, params: seq<Json>)

  /** The JSON-RPC library: it answers a call with the `result` of the reply,
      or raises (a fault reported by the switch, a transport failure). */
  type RpcServer = RpcCall -> Result<Json>

  /** `conn.runCmds(1, commands)`: version 1 and the commands, in order; none
      of the keyword options reach this call. */
  function RunCmdsCall(url: string, commands: seq<Command>): (call: RpcCall)
    ensures call.url == url && call.rpcMethod == "runCmds" && |call.params| == 2
    ensures call.params[0] == JInt(1)
    ensures call.params[1].JArray? && CommandsOf(call.params[1].items) == Some(commands)
  {
    CommandsRoundTrip(commands);
    RpcCall(url, "runCmds", [JInt(1), JArray(CommandsToJson(commands))])
  }

  /** `JsonrpclibEapiClient.send`: one call to the credential-carrying URL
      exactly as the source formats it, then element 0 of what the library
      returns. */
  function JsonrpclibSend(creds: Credentials, switchAddr: string, commands: seq<Command>, rpc: RpcServer): (r: Result<Json>)
    ensures var answer := rpc(RunCmdsCall(CredentialUrlAsWritten(creds.username, creds.password, switchAddr), commands));
      && (answer.Err? ==> r == answer)
      && (answer.Ok? ==> r == First(answer.value))
  {
    var url := CredentialUrlAsWritten(creds.username, creds.password, switchAddr);
    match rpc(RunCmdsCall(url, commands))
    case Err(e) => Err(e)
    case Ok(result) => First(result)
  }

  /** What the jsonrpclib client returns is the library's first result
      element unchanged; an empty result list is an IndexError. */
  lemma JsonrpclibReturnsFirstResult(creds: Credentials, switchAddr: string, commands: seq<Command>,
                                     rpc: RpcServer, results: seq<Json>)
    requires rpc(RunCmdsCall(CredentialUrlAsWritten(creds.username, creds.password, switchAddr), commands)) == Ok(JArray(results))
    ensures results != [] ==> JsonrpclibSend(creds, switchAddr, commands, rpc) == Ok(results[0])
    ensures results == [] ==> JsonrpclibSend(creds, switchAddr, commands, rpc) == Err(IndexError)
  {
  }

  /** The jsonrpclib send with the credentials percent-encoded into the URL,
      so that the switch receives them whatever characters they hold. */
  function JsonrpclibSendEncoded(creds: Credentials, switchAddr: string, commands: seq<Command>, rpc: RpcServer): (r: Result<Json>)
    ensures var answer := rpc(RunCmdsCall(CredentialUrl(creds.username, creds.password, switchAddr), commands));
      && (answer.Err? ==> r == answer)
      && (answer.Ok? ==> r == First(answer.value))
  {
    var url := CredentialUrl(creds.username, creds.password, switchAddr);
    match rpc(RunCmdsCall(url, commands))
    case Err(e) => Err(e)
    case Ok(result) => First(result)
  }

  /** On credentials of unreserved characters the encoding changes nothing:
      the corrected send makes the very call the source makes. */
  lemma JsonrpclibSendEncodedAgrees(creds: Credentials, switchAddr: string, commands: seq<Command>, rpc: RpcServer)
    requires forall i :: 0 <= i < |creds.username| ==> Unreserved(creds.username[i])
    requires forall i :: 0 <= i < |creds.password| ==> Unreserved(creds.password[i])
    ensures JsonrpclibSendEncoded(creds, switchAddr, commands, rpc) == JsonrpclibSend(creds, switchAddr, commands, rpc)
  {
    CredentialUrlAgreesOnPlainCredentials(creds.username, creds.password, switchAddr);
  }

  /** A reply whose `result` is the list of per-command results: the
      jsonrpclib send hands back the first of them. */
  lemma JsonrpclibSendOnSuccessEnvelope(creds: Credentials, switchAddr: string, commands: seq<Command>,
                                        rpc: RpcServer, results: seq<Json>, id: Json)
    requires results != []
    requires var call := RunCmdsCall(CredentialUrlAsWritten(creds.username, creds.password, switchAddr), commands);
      rpc(call) == Subscript(SuccessEnvelope(results, id), "result")
    ensures JsonrpclibSend(creds, switchAddr, commands, rpc) == Ok(results[0])
  {
  }

  /** The success reply of the eAPI: `{"jsonrpc": "2.0", "result": [...], "id": ...}`. */
  function SuccessEnvelope(results: seq<Json>, id: Json): (j: Json)
    ensures j.JObject? && "result" in j.fields && "error" !in j.fields
  {
    JObject(map["jsonrpc" := JString("2.0"), "result" := JArray(results), "id" := id])
  }

  /** The error reply of the eAPI:
      `{"jsonrpc": "2.0", "error": {"code": ..., "message": ..., "data": [...]}, "id": ...}`. */
  function ErrorEnvelope(code: int, message: string, data: seq<Json>, id: Json): (j: Json)
    ensures j.JObject? && "error" in j.fields && "result" !in j.fields
    ensures j.fields["error"].JObject? && "message" in j.fields["error"].fields
    ensures j.fields["error"].fields["message"] == JString(message)
  {
    JObject(map[
      "jsonrpc" := JString("2.0"),
      "error" := JObject(map["code" := JInt(code), "message" := JString(message), "data" := JArray(data)]),
      "id" := id])
  }
}
