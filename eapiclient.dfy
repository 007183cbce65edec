/** eapiclient.py: `BaseEapiClient.send` builds the endpoint and the payload,
    hands both to the subclass's `_send`, raises EapiException when the reply
    reports an error and returns the reply's `result` otherwise. The
    jsonrpclib client overrides `send` itself. */
module EapiClient {
  import opened Py
  import opened Payload
  import opened Url
  import opened Transport
  import opened ClientClasses

  /** The module's globals whose name ends in "EapiClient": the four classes
      and the alias `EapiClient = RequestsEapiClient`. */
  const GLOBALS: map<string, ClientClass> := map[
    "Base" + CLASS_SUFFIX := BaseEapiClient,
    "Urllib2" + CLASS_SUFFIX := Urllib2EapiClient,
    "Requests" + CLASS_SUFFIX := RequestsEapiClient,
    "Jsonrpclib" + CLASS_SUFFIX := JsonrpclibEapiClient,
    "" + CLASS_SUFFIX := RequestsEapiClient]

  /** The capitalized approaches `client_factory` resolves. */
  const PREFIXES: set<string> := {"", "Base", "Urllib2", "Requests", "Jsonrpclib"}

  /** `client_factory(approach="requests")`: the class named
      `approach.capitalize() + "EapiClient"`. */
  function ClientFactory(approach: string := "requests"): (r: Result<ClientClass>)
    ensures r.Err? ==> r.error == KeyError(JString(Capitalize(approach) + "EapiClient"))
  {
    LookupClass(GLOBALS, approach)
  }

  /** The factory resolves exactly five capitalized approaches: the three the
      command line offers, "Base" for the abstract class, and the empty
      string, which names the `EapiClient` alias. */
  lemma ClientFactoryResolves(approach: string)
    ensures ClientFactory(approach).Ok? <==> Capitalize(approach) in PREFIXES
    ensures Capitalize(approach) == "" ==> ClientFactory(approach) == Ok(RequestsEapiClient)
    ensures Capitalize(approach) == "Base" ==> ClientFactory(approach) == Ok(BaseEapiClient)
    ensures Capitalize(approach) == "Urllib2" ==> ClientFactory(approach) == Ok(Urllib2EapiClient)
    ensures Capitalize(approach) == "Requests" ==> ClientFactory(approach) == Ok(RequestsEapiClient)
    ensures Capitalize(approach) == "Jsonrpclib" ==> ClientFactory(approach) == Ok(JsonrpclibEapiClient)
  {
    SuffixCancels(Capitalize(approach), PREFIXES, GLOBALS);
    GlobalsBind();
  }

  /** What each name in GLOBALS is bound to. */
  lemma GlobalsBind()
    ensures GLOBALS["" + CLASS_SUFFIX] == RequestsEapiClient
    ensures GLOBALS["Base" + CLASS_SUFFIX] == BaseEapiClient
    ensures GLOBALS["Urllib2" + CLASS_SUFFIX] == Urllib2EapiClient
    ensures GLOBALS["Requests" + CLASS_SUFFIX] == RequestsEapiClient
    ensures GLOBALS["Jsonrpclib" + CLASS_SUFFIX] == JsonrpclibEapiClient
  {
    // the five names differ in length
    assert |"" + CLASS_SUFFIX| == 10 && |"Base" + CLASS_SUFFIX| == 14;
    assert |"Urllib2" + CLASS_SUFFIX| == 17 && |"Requests" + CLASS_SUFFIX| == 18;
    assert |"Jsonrpclib" + CLASS_SUFFIX| == 20;
  }

  /** The lookup is case-insensitive. */
  lemma ClientFactoryIgnoresCase(approach1: string, approach2: string)
    requires Lower(approach1) == Lower(approach2)
    ensures ClientFactory(approach1) == ClientFactory(approach2)
  {
    CapitalizeIgnoresCase(approach1, approach2);
  }

  /** The command line's approaches, as it spells them, name their classes. */
  lemma ClientFactoryUrllib2()
    ensures ClientFactory("urllib2") == Ok(Urllib2EapiClient)
  {
    CapitalizeLowerCase("urllib2");
    ClientFactoryResolves("urllib2");
  }

  /** Called without an approach, the factory uses "requests". */
  lemma ClientFactoryDefault()
    ensures ClientFactory() == Ok(RequestsEapiClient)
  {
    CapitalizeLowerCase("requests");
    ClientFactoryResolves("requests");
  }

  lemma ClientFactoryJsonrpclib()
    ensures ClientFactory("jsonrpclib") == Ok(JsonrpclibEapiClient)
  {
    CapitalizeLowerCase("jsonrpclib");
    ClientFactoryResolves("jsonrpclib");
  }

  /** The reply handling of `BaseEapiClient.send`: `"error" in response`,
      then `response["error"]["message"]` or `response["result"]`. */
  function Resolve(response: Json): (r: Result<Json>)
    ensures r.Ok? <==> response.JObject? && "error" !in response.fields && "result" in response.fields
    ensures r.Ok? ==> r.value == response.fields["result"]
    ensures (r.Err? && r.error.EapiException?) <==>
      (response.JObject? && "error" in response.fields && response.fields["error"].JObject?
       && "message" in response.fields["error"].fields)
    ensures r.Err? && r.error.EapiException? ==> r.error.message == response.fields["error"].fields["message"]
    ensures response.JObject? && "error" !in response.fields && "result" !in response.fields ==>
      r == Err(KeyError(JString("result")))
    ensures !response.JObject? ==> r == Err(TypeError)
    ensures response.JObject? && "error" in response.fields ==> r.Err? && r.error != KeyError(JString("result"))
  {
    match Contains(response, "error")
    case Err(e) => Err(e)
    case Ok(hasError) =>
      if hasError then
        match Subscript(response, "error")
        case Err(e) => Err(e)
        case Ok(error) =>
          match Subscript(error, "message")
          case Err(e) => Err(e)
          case Ok(message) => Err(EapiException(message))
      else
        Subscript(response, "result")
  }

  /** `_send(endpoint, payload)` of each class: urllib2 and requests POST the
      payload; the base class raises NotImplementedError, and the jsonrpclib
      client inherits that `_send` (its own `send` never calls it). */
  function Transmit(klass: ClientClass, endpoint: string, payload: Request, creds: Credentials, net: Network): (r: Result<Json>)
    ensures SpeaksHttp(klass) ==> r == HttpOutcomeFor(klass, net(HttpRequestFor(klass, endpoint, payload, creds)))
    ensures !SpeaksHttp(klass) ==> r == Err(NotImplementedError("send must be overridden"))
  {
    if SpeaksHttp(klass) then HttpOutcomeFor(klass, net(HttpRequestFor(klass, endpoint, payload, creds)))
    else Err(NotImplementedError("send must be overridden"))
  }

  /** An instance of one of the client classes. The fields are written once,
      by the constructor. */
  class Client {
    const klass: ClientClass
    const switchAddr: string
    const creds: Credentials

    /** The constructor as evidently intended: it stores the address and the
        credentials and accepts any further keywords. */
    constructor (klass: ClientClass, switchAddr: string, creds: Credentials := DEFAULT_CREDENTIALS, kwargs: Kwargs := map[])
      ensures this.klass == klass && this.switchAddr == switchAddr && this.creds == creds
    {
      this.klass := klass;
      this.switchAddr := switchAddr;
      this.creds := creds;
    }

    /** `send(commands, **kwargs)`. The network and the JSON-RPC server are
        parameters. */
    function Send(commands: seq<Command>, kwargs: Kwargs, net: Network, rpc: RpcServer): (r: Result<Json>)
      ensures klass == JsonrpclibEapiClient ==> r == JsonrpclibSend(creds, switchAddr, commands, rpc)
      ensures klass != JsonrpclibEapiClient && !(kwargs.Keys <= OPTION_NAMES) ==> r == Err(TypeError)
      ensures klass == BaseEapiClient && kwargs.Keys <= OPTION_NAMES ==>
        r == Err(NotImplementedError("send must be overridden"))
    {
      if klass == JsonrpclibEapiClient then
        JsonrpclibSend(creds, switchAddr, commands, rpc)
      else
        var endpoint := Endpoint(switchAddr);
        match BindOptions(kwargs)
        case Err(e) => Err(e)
        case Ok(options) =>
          match Transmit(klass, endpoint, BuildPayload(commands, options), creds, net)
          case Err(e) => Err(e)
          case Ok(response) => Resolve(response)
    }
  }

  /** An HTTP client sends exactly one request, to the endpoint, carrying the
      payload built from the commands and the keywords, and its answer is the
      library's outcome resolved by `Resolve`. */
  lemma SendIsOneExchange(c: Client, commands: seq<Command>, kwargs: Kwargs, net: Network, rpc: RpcServer)
    requires SpeaksHttp(c.klass) && kwargs.Keys <= OPTION_NAMES
    ensures var outcome := HttpOutcomeFor(c.klass, net(WireRequest(c.klass, c.switchAddr, c.creds, commands, BindOptions(kwargs).value)));
      c.Send(commands, kwargs, net, rpc) == (if outcome.Err? then Err(outcome.error) else Resolve(outcome.value))
  {
  }

  /** Two networks that answer the wire request alike give the same answer:
      nothing but that one request is sent. */
  lemma SendDependsOnlyOnWireRequest(c: Client, commands: seq<Command>, kwargs: Kwargs,
                                     net1: Network, net2: Network, rpc: RpcServer)
    requires SpeaksHttp(c.klass) && kwargs.Keys <= OPTION_NAMES
    requires var req := WireRequest(c.klass, c.switchAddr, c.creds, commands, BindOptions(kwargs).value); net1(req) == net2(req)
    ensures c.Send(commands, kwargs, net1, rpc) == c.Send(commands, kwargs, net2, rpc)
  {
    SendIsOneExchange(c, commands, kwargs, net1, rpc);
    SendIsOneExchange(c, commands, kwargs, net2, rpc);
  }

  /** A 2xx reply without an "error" key gives its "result" unchanged. */
  lemma SendReturnsResult(c: Client, commands: seq<Command>, kwargs: Kwargs, net: Network, rpc: RpcServer,
                          status: int, body: Json)
    requires SpeaksHttp(c.klass) && kwargs.Keys <= OPTION_NAMES
    requires net(WireRequest(c.klass, c.switchAddr, c.creds, commands, BindOptions(kwargs).value)) == Delivered(status, Some(body))
    requires 200 <= status < 300
    requires body.JObject? && "error" !in body.fields && "result" in body.fields
    ensures c.Send(commands, kwargs, net, rpc) == Ok(body.fields["result"])
  {
    SendIsOneExchange(c, commands, kwargs, net, rpc);
  }

  /** A 2xx reply reporting an error raises EapiException with the switch's
      message, whether or not the reply also has a "result". */
  lemma SendRaisesApiError(c: Client, commands: seq<Command>, kwargs: Kwargs, net: Network, rpc: RpcServer,
                           status: int, body: Json)
    requires SpeaksHttp(c.klass) && kwargs.Keys <= OPTION_NAMES
    requires net(WireRequest(c.klass, c.switchAddr, c.creds, commands, BindOptions(kwargs).value)) == Delivered(status, Some(body))
    requires 200 <= status < 300
    requires body.JObject? && "error" in body.fields
    requires body.fields["error"].JObject? && "message" in body.fields["error"].fields
    ensures c.Send(commands, kwargs, net, rpc) == Err(EapiException(body.fields["error"].fields["message"]))
  {
    SendIsOneExchange(c, commands, kwargs, net, rpc);
  }

  /** An eAPI error envelope, in particular, raises EapiException carrying its message. */
  lemma SendRaisesEnvelopeMessage(c: Client, commands: seq<Command>, kwargs: Kwargs, net: Network, rpc: RpcServer,
                                  status: int, code: int, message: string, data: seq<Json>, id: Json)
    requires SpeaksHttp(c.klass) && kwargs.Keys <= OPTION_NAMES
    requires net(WireRequest(c.klass, c.switchAddr, c.creds, commands, BindOptions(kwargs).value)) == Delivered(status, Some(ErrorEnvelope(code, message, data, id)))
    requires 200 <= status < 300
    ensures c.Send(commands, kwargs, net, rpc) == Err(EapiException(JString(message)))
  {
    SendRaisesApiError(c, commands, kwargs, net, rpc, status, ErrorEnvelope(code, message, data, id));
  }

  /** A 2xx success envelope gives the list of per-command results. */
  lemma SendReturnsEnvelopeResults(c: Client, commands: seq<Command>, kwargs: Kwargs, net: Network, rpc: RpcServer,
                                   status: int, results: seq<Json>, id: Json)
    requires SpeaksHttp(c.klass) && kwargs.Keys <= OPTION_NAMES
    requires net(WireRequest(c.klass, c.switchAddr, c.creds, commands, BindOptions(kwargs).value)) == Delivered(status, Some(SuccessEnvelope(results, id)))
    requires 200 <= status < 300
    ensures c.Send(commands, kwargs, net, rpc) == Ok(JArray(results))
  {
    SendReturnsResult(c, commands, kwargs, net, rpc, status, SuccessEnvelope(results, id));
  }

  /** A 4xx or 5xx status raises the library's HTTP error, whatever the body says. */
  lemma SendSurfacesHttpFailure(c: Client, commands: seq<Command>, kwargs: Kwargs, net: Network, rpc: RpcServer,
                                status: int, body: Option<Json>)
    requires SpeaksHttp(c.klass) && kwargs.Keys <= OPTION_NAMES
    requires net(WireRequest(c.klass, c.switchAddr, c.creds, commands, BindOptions(kwargs).value)) == Delivered(status, body)
    requires 400 <= status < 600
    ensures c.Send(commands, kwargs, net, rpc) == Err(HttpError(status))
  {
    SendIsOneExchange(c, commands, kwargs, net, rpc);
  }

  /** The jsonrpclib client ignores the keyword options and sends no HTTP
      request of its own. */
  lemma JsonrpclibIgnoresOptions(c: Client, commands: seq<Command>, kwargs1: Kwargs, kwargs2: Kwargs,
                                 net1: Network, net2: Network, rpc: RpcServer)
    requires c.klass == JsonrpclibEapiClient
    ensures c.Send(commands, kwargs1, net1, rpc) == c.Send(commands, kwargs2, net2, rpc)
  {
  }

  /** The methods each class body of eapiclient.py defines. `_on_init`
      stands only in a comment. */
  function DefinedIn(klass: ClientClass): set<string> {
    match klass
    case BaseEapiClient => {"__init__", "send", "_send"}
    case Urllib2EapiClient => {"_send"}
    case RequestsEapiClient => {"_send"}
    case JsonrpclibEapiClient => {"send"}
  }

  /** The methods an instance of `klass` has: its own and those it inherits
      from `BaseEapiClient`. */
  function MethodsAsWritten(klass: ClientClass): set<string> {
    DefinedIn(klass) + DefinedIn(BaseEapiClient)
  }

  /** `BaseEapiClient.__init__` as written: it stores the two fields, then
      calls `self._on_init(**kwargs)`, which looks up a method no class has. */
  function InitAsWritten(klass: ClientClass, switchAddr: string, creds: Credentials, kwargs: Kwargs): (r: Result<(string, Credentials)>)
    ensures r.Ok? <==> "_on_init" in MethodsAsWritten(klass)
    ensures r.Ok? ==> r.value == (switchAddr, creds)
    ensures r.Err? ==> r.error == AttributeError("_on_init")
  {
    if "_on_init" in MethodsAsWritten(klass) then Ok((switchAddr, creds)) else Err(AttributeError("_on_init"))
  }

  /** As written, no client class of eapiclient.py can be constructed. */
  lemma InitAsWrittenAlwaysFails(klass: ClientClass, switchAddr: string, creds: Credentials, kwargs: Kwargs)
    ensures InitAsWritten(klass, switchAddr, creds, kwargs) == Err(AttributeError("_on_init"))
  {
  }
}
