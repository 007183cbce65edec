/** The client classes both source files define, the HTTP library each one
    binds, and `client_factory`'s lookup of a class by the name
    `approach.capitalize() + "EapiClient"` among a module's globals. */
module ClientClasses {
  import opened Py
  import opened Payload
  import opened Url
  import opened Transport

  datatype ClientClass =
    | BaseEapiClient
    | Urllib2EapiClient
    | RequestsEapiClient
    | JsonrpclibEapiClient

  /** The classes that speak HTTP themselves. */
  predicate SpeaksHttp(klass: ClientClass) {
    klass == Urllib2EapiClient || klass == RequestsEapiClient
  }

  /** The HTTP request an HTTP-speaking class sends. */
  function HttpRequestFor(klass: ClientClass, endpoint: string, payload: Request, creds: Credentials): (req: HttpRequest)
    requires SpeaksHttp(klass)
    ensures req.verb == "POST" && req.url == endpoint
    ensures req.headers == map["Content-Type" := "application/json"]
    ensures RequestOf(req.body) == Some(payload)
  {
    if klass == Urllib2EapiClient then Urllib2Request(endpoint, payload, creds)
    else RequestsRequest(endpoint, payload, creds)
  }

  /** The HTTP request `send(commands, **kwargs)` of a client hands to its
      library: to the endpoint of its switch, carrying the built payload. */
  function WireRequest(klass: ClientClass, switchAddr: string, creds: Credentials,
                       commands: seq<Command>, options: Options): (req: HttpRequest)
    requires SpeaksHttp(klass)
    ensures req.url == Endpoint(switchAddr)
    ensures RequestOf(req.body) == Some(BuildPayload(commands, options))
  {
    HttpRequestFor(klass, Endpoint(switchAddr), BuildPayload(commands, options), creds)
  }

  /** How an HTTP-speaking class turns the reply into a decoded body. */
  function HttpOutcomeFor(klass: ClientClass, reply: Delivery): (r: Result<Json>)
    requires SpeaksHttp(klass)
    ensures r.Ok? ==> reply.Delivered? && !(400 <= reply.status < 600) && reply.body == Some(r.value)
    ensures reply.Delivered? && 400 <= reply.status < 600 ==> r == Err(HttpError(reply.status))
    ensures reply.Delivered? && 200 <= reply.status < 300 ==> r == DecodeBody(reply.body)
    ensures reply.Unreachable? ==> r == Err(ConnectionFailure(reply.reason))
    ensures r.Err? ==> r.error.HttpError? || r.error.ConnectionFailure? || r.error == DecodeFailure
  {
    if klass == Urllib2EapiClient then Urllib2Outcome(reply) else RequestsOutcome(reply)
  }

  const CLASS_SUFFIX := "EapiClient"

  /** `globals()[approach.capitalize() + "EapiClient"]`: a missing name is a KeyError. */
  function LookupClass(globals: map<string, ClientClass>, approach: string): (r: Result<ClientClass>)
    ensures r.Ok? <==> Capitalize(approach) + CLASS_SUFFIX in globals
    ensures r.Ok? ==> r.value == globals[Capitalize(approach) + CLASS_SUFFIX]
    ensures r.Err? ==> r.error == KeyError(JString(Capitalize(approach) + CLASS_SUFFIX))
  {
    var name := Capitalize(approach) + CLASS_SUFFIX;
    if name in globals then Ok(globals[name]) else Err(KeyError(JString(name)))
  }

  /** The globals named `p + "EapiClient"` for `p` in `prefixes` are exactly
      the globals there are: then `name + "EapiClient"` is one of them
      exactly when `name` is in `prefixes`. */
  lemma SuffixCancels(name: string, prefixes: set<string>, globals: map<string, ClientClass>)
    requires globals.Keys == set p | p in prefixes :: p + CLASS_SUFFIX
    ensures name + CLASS_SUFFIX in globals <==> name in prefixes
  {
    if name + CLASS_SUFFIX in globals {
      var p :| p in prefixes && p + CLASS_SUFFIX == name + CLASS_SUFFIX;
      assert |p| == |name|;
      assert p == (p + CLASS_SUFFIX)[..|p|] == (name + CLASS_SUFFIX)[..|name|] == name;
    }
  }
}
