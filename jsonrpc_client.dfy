/** eapi_client.py: the same classes, but each subclass overrides `send`
    whole. The HTTP clients return `reply["result"]` without looking for an
    "error" key, and `BaseEapiClient.send` raises at once. */
module JsonRpcClient {
  import opened Py
  import opened Payload
  import opened Url
  import opened Transport
  import opened ClientClasses
  import EapiClient

  /** The module's globals whose name ends in "EapiClient": the four
      classes, and no alias. */
  const GLOBALS: map<string, ClientClass> := map[
    "Base" + CLASS_SUFFIX := BaseEapiClient,
    "Urllib2" + CLASS_SUFFIX := Urllib2EapiClient,
    "Requests" + CLASS_SUFFIX := RequestsEapiClient,
    "Jsonrpclib" + CLASS_SUFFIX := JsonrpclibEapiClient]

  /** The capitalized approaches `client_factory` resolves. */
  const PREFIXES: set<string> := {"Base", "Urllib2", "Requests", "Jsonrpclib"}

  /** `client_factory(approach="requests")`: the class named
      `approach.capitalize() + "EapiClient"`. */
  function ClientFactory(approach: string := "requests"): (r: Result<ClientClass>)
    ensures r.Err? ==> r.error == KeyError(JString(Capitalize(approach) + "EapiClient"))
  {
    LookupClass(GLOBALS, approach)
  }

  /** The factory resolves exactly four capitalized approaches, one per class. */
  lemma ClientFactoryResolves(approach: string)
    ensures ClientFactory(approach).Ok? <==> Capitalize(approach) in PREFIXES
    ensures Capitalize(approach) == "Base" ==> ClientFactory(approach) == Ok(BaseEapiClient)
    ensures Capitalize(approach) == "Urllib2" ==> ClientFactory(approach) == Ok(Urllib2EapiClient)
    ensures Capitalize(approach) == "Requests" ==> ClientFactory(approach) == Ok(RequestsEapiClient)
    ensures Capitalize(approach) == "Jsonrpclib" ==> ClientFactory(approach) == Ok(JsonrpclibEapiClient)
  {
    SuffixCancels(Capitalize(approach), PREFIXES, GLOBALS);
    // the four names differ in length
    assert |"Base" + CLASS_SUFFIX| == 14 && |"Urllib2" + CLASS_SUFFIX| == 17;
    assert |"Requests" + CLASS_SUFFIX| == 18 && |"Jsonrpclib" + CLASS_SUFFIX| == 20;
  }

  /** Called without an approach, the factory uses "requests". */
  lemma ClientFactoryDefault()
    ensures ClientFactory() == Ok(RequestsEapiClient)
  {
    CapitalizeLowerCase("requests");
    ClientFactoryResolves("requests");
  }

  /** The two files' factories agree on every approach but the empty one,
      which only eapiclient.py resolves (to its `EapiClient` alias). */
  lemma FactoriesDiffer(approach: string)
    ensures ClientFactory(approach) == EapiClient.ClientFactory(approach) <==> approach != ""
  {
    ClientFactoryResolves(approach);
    EapiClient.ClientFactoryResolves(approach);
    assert Capitalize(approach) == "" <==> approach == "";
  }

  /** An instance of one of the client classes. The fields are written once,
      by the constructor. */
  class Client {
    const klass: ClientClass
    const switchAddr: string
    const creds: Credentials

    /** `BaseEapiClient.__init__`: it stores the address and the credentials,
        then calls `_on_init(**kwargs)`, which does nothing. */
    constructor (klass: ClientClass, switchAddr: string, creds: Credentials := DEFAULT_CREDENTIALS, kwargs: Kwargs := map[])
      ensures this.klass == klass && this.switchAddr == switchAddr && this.creds == creds
    {
      this.klass := klass;
      this.switchAddr := switchAddr;
      this.creds := creds;
    }

    /** `send(commands, **kwargs)` of each class. The network and the
        JSON-RPC server are parameters. */
    function Send(commands: seq<Command>, kwargs: Kwargs, net: Network, rpc: RpcServer): (r: Result<Json>)
      ensures klass == BaseEapiClient ==> r == Err(NotImplementedError("send must be overridden"))
      ensures klass == JsonrpclibEapiClient ==> r == JsonrpclibSend(creds, switchAddr, commands, rpc)
      ensures SpeaksHttp(klass) && !(kwargs.Keys <= OPTION_NAMES) ==> r == Err(TypeError)
      ensures SpeaksHttp(klass) && r.Err? ==> !r.error.EapiException?
    {
      if klass == BaseEapiClient then
        Err(NotImplementedError("send must be overridden"))
      else if klass == JsonrpclibEapiClient then
        JsonrpclibSend(creds, switchAddr, commands, rpc)
      else
        match BindOptions(kwargs)
        case Err(e) => Err(e)
        case Ok(options) =>
          match HttpOutcomeFor(klass, net(WireRequest(klass, switchAddr, creds, commands, options)))
          case Err(e) => Err(e)
          case Ok(response) => Subscript(response, "result")
    }
  }

  /** An HTTP client sends exactly one request, to the endpoint, carrying the
      payload built from the commands and the keywords, and answers with the
      "result" of the decoded reply. */
  lemma SendIsOneExchange(c: Client, commands: seq<Command>, kwargs: Kwargs, net: Network, rpc: RpcServer)
    requires SpeaksHttp(c.klass) && kwargs.Keys <= OPTION_NAMES
    ensures var outcome := HttpOutcomeFor(c.klass, net(WireRequest(c.klass, c.switchAddr, c.creds, commands, BindOptions(kwargs).value)));
      c.Send(commands, kwargs, net, rpc) == (if outcome.Err? then Err(outcome.error) else Subscript(outcome.value, "result"))
  {
  }

  /** A reply that has a "result" gives it back, even when the reply also
      reports an error. */
  lemma SendIgnoresErrorKey(c: Client, commands: seq<Command>, kwargs: Kwargs, net: Network, rpc: RpcServer,
                            status: int, body: Json)
    requires SpeaksHttp(c.klass) && kwargs.Keys <= OPTION_NAMES
    requires net(WireRequest(c.klass, c.switchAddr, c.creds, commands, BindOptions(kwargs).value)) == Delivered(status, Some(body))
    requires 200 <= status < 300
    requires body.JObject? && "result" in body.fields
    ensures c.Send(commands, kwargs, net, rpc) == Ok(body.fields["result"])
  {
    SendIsOneExchange(c, commands, kwargs, net, rpc);
  }

  /** A 2xx success envelope gives the list of per-command results. */
  lemma SendReturnsEnvelopeResults(c: Client, commands: seq<Command>, kwargs: Kwargs, net: Network, rpc: RpcServer,
                                   status: int, results: seq<Json>, id: Json)
    requires SpeaksHttp(c.klass) && kwargs.Keys <= OPTION_NAMES
    requires net(WireRequest(c.klass, c.switchAddr, c.creds, commands, BindOptions(kwargs).value)) == Delivered(status, Some(SuccessEnvelope(results, id)))
    requires 200 <= status < 300
    ensures c.Send(commands, kwargs, net, rpc) == Ok(JArray(results))
  {
    SendIgnoresErrorKey(c, commands, kwargs, net, rpc, status, SuccessEnvelope(results, id));
  }

  /** An eAPI error envelope has no "result": the switch's message is lost
      and a KeyError is raised instead. */
  lemma SendLosesErrorMessage(c: Client, commands: seq<Command>, kwargs: Kwargs, net: Network, rpc: RpcServer,
                              status: int, code: int, message: string, data: seq<Json>, id: Json)
    requires SpeaksHttp(c.klass) && kwargs.Keys <= OPTION_NAMES
    requires net(WireRequest(c.klass, c.switchAddr, c.creds, commands, BindOptions(kwargs).value)) == Delivered(status, Some(ErrorEnvelope(code, message, data, id)))
    requires 200 <= status < 300
    ensures c.Send(commands, kwargs, net, rpc) == Err(KeyError(JString("result")))
  {
    SendIsOneExchange(c, commands, kwargs, net, rpc);
  }

  /** The two files' HTTP clients, given the same fields, keywords and
      network, answer alike exactly when the decoded reply is not an object
      with an "error" key: only eapiclient.py turns such a reply into an
      exception of its own. */
  lemma CopiesAgreeIff(c1: EapiClient.Client, c2: Client, commands: seq<Command>, kwargs: Kwargs,
                       net: Network, rpc: RpcServer)
    requires c1.klass == c2.klass && c1.switchAddr == c2.switchAddr && c1.creds == c2.creds
    requires SpeaksHttp(c2.klass) && kwargs.Keys <= OPTION_NAMES
    ensures var outcome := HttpOutcomeFor(c2.klass, net(WireRequest(c2.klass, c2.switchAddr, c2.creds, commands, BindOptions(kwargs).value)));
      c1.Send(commands, kwargs, net, rpc) == c2.Send(commands, kwargs, net, rpc) <==>
      !(outcome.Ok? && outcome.value.JObject? && "error" in outcome.value.fields)
  {
    EapiClient.SendIsOneExchange(c1, commands, kwargs, net, rpc);
    SendIsOneExchange(c2, commands, kwargs, net, rpc);
  }
}
