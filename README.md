# eAPI client request/response layer

A Dafny model of the request/response layer of the two eAPI clients in
this repository, `eapiclient.py` and `eapi_client.py`. Both are Python
clients for Arista's eAPI, the JSON-RPC 2.0 interface to the EOS CLI at
`http://<switch>/command-api`. The model covers:

- the payload builder, `create_eapi_payload` in eapiclient.py and its
  copy `create_jsonrpc_payload` in eapi_client.py. It builds a `runCmds`
  request from a command list and five keyword options. A falsy `version`
  is replaced by 1.
- `client_factory`, which picks a client class by
  `approach.capitalize() + "EapiClient"`.
- the client classes:
  - `BaseEapiClient.__init__`.
  - In eapiclient.py, `BaseEapiClient.send`. It builds the endpoint and
    the payload and calls the subclass's `_send`. If the reply has an
    "error" key it raises EapiException with the reply's error message;
    otherwise it returns the reply's "result".
  - In eapi_client.py, the subclasses each override `send` directly and
    return `reply["result"]` without looking for an error.
  - The jsonrpclib client. It splices the credentials, unescaped, into its URL, calls
    `runCmds(1, commands)` and returns the first element of the answer.

Python exceptions are the `Err` side of a `Result`. The HTTP exchange is a
parameter, `net: HttpRequest -> Delivery`. So is the JSON-RPC library,
`rpc: RpcCall -> Result<Json>`. What the model fixes is the request each
client hands over and how it treats the answer:

- urllib2's `urlopen` raises for every final status outside 2xx;
- `requests`' `raise_for_status` raises for 4xx and 5xx;
- json decoding raises on a body that is not JSON.

A client instance is a Dafny `class` with `const` fields, because the
source writes `switch_addr` and `creds` once, in `__init__`, and never
changes them. `send` only reads those fields, so it is a function of the
commands, the keywords, `net` and `rpc`.

Modules:

- `Py` (py.dfy): the slice of Python the clients rely on: JSON values,
  exceptions, truth testing, `str.lower`/`str.capitalize`, `in`, `v[key]`
  and `v[0]`.
- `Payload` (payload.dfy): the builder. Also the binding of `**kwargs` to
  its parameters, the JSON the request becomes, and a reading of that
  JSON back into a request.
- `Url` (url.dfy): the endpoint and the credential URL, with a reading of
  URLs after RFC 3986 section 3.2 and percent-encoding after section 2.1.
- `Transport` (transport.dfy): the urllib2, requests and jsonrpclib
  exchanges.
- `ClientClasses` (client_classes.dfy): the four classes, the HTTP
  library each one uses, and the `globals()` lookup.
- `EapiClient` (eapiclient.dfy): eapiclient.py.
- `JsonRpcClient` (jsonrpc_client.dfy): eapi_client.py.

Where a statement about the source and the code disagree, the model
follows the code:

- `client_factory` resolves more than the three approaches the command
  line offers. "base" resolves to the abstract BaseEapiClient, and in
  eapiclient.py the empty string resolves to the `EapiClient` alias. Any
  upper/lower-case spelling works, because `capitalize()` normalises the
  case.
- The docstring example of eapiclient.py:97 shows the id "EapiExplorer-1".
  The code sends `EAPI_CLIENT_ID`, "AristaProgrammability-1".
- "Raw" urllib2 does fail on an HTTP error status. `urlopen` raises
  HTTPError for every final status outside 2xx before the body is read.
  The requests client fails only on 4xx and 5xx (`raise_for_status`).
  `Transport.OutcomesAgreeIff` states exactly where the two differ.

## Model

| member | source | states |
|---|---|---|
| Py.Capitalize | eapiclient.py:69 | `capitalize()` keeps the length and agrees with the argument up to case |
| Py.CapitalizeIgnoresCase | eapiclient.py:69 | approaches that agree up to case capitalize to the same class-name prefix |
| Py.CapitalizeLowerCase | eapiclient.py:69 | on a string with no capitals, only the first character is upper-cased |
| Py.Truthy | eapiclient.py:103-104 | a value is falsy exactly when it is None, False, 0, "", [] or {} |
| Py.IsInfixIffOccurs | eapiclient.py:219 | `needle in haystack` on two strs holds exactly when the needle occurs at some index of the haystack |
| Py.Contains | eapiclient.py:219 | `"error" in response`: a key test on a dict, a membership test on a list, a substring test on a str, TypeError on None, bools and numbers |
| Py.Subscript | eapiclient.py:220-222 | `v[key]` succeeds exactly on a dict holding the key; otherwise KeyError on a dict and TypeError on anything else |
| Py.First | eapiclient.py:298 | `v[0]` is the first element of a non-empty list or str; IndexError when it is empty, KeyError(0) on a dict, TypeError otherwise |
| Payload.BindOptions | eapiclient.py:77-79 | binding `**kwargs` succeeds exactly when every keyword is one of the five option names, else TypeError; each given option is taken as given and every other keeps its default |
| Payload.BindOptionsDefaultsAndOverrides | eapiclient.py:77-79 | no keywords give the defaults "json", False, False, False, None; passing all five gives exactly those values, False included |
| Payload.BuildPayload | eapiclient.py:103-182 | the builder is total; jsonrpc "2.0", method "runCmds", id "AristaProgrammability-1"; cmds is the input list; the four options pass through; a truthy version passes unchanged, a falsy one becomes 1, so the version sent is never falsy; `create_jsonrpc_payload` (eapi_client.py:70-170) is the same body line for line |
| Payload.BuildPayloadVersionIdempotent | eapiclient.py:103-104 | building again with the version a payload already carries gives the same payload |
| Payload.ToJson | eapiclient.py:106-180 | the request object has exactly the keys jsonrpc, method, params, id; params has exactly format, timestamps, autoComplete, expandAliases, cmds, version |
| Payload.CommandsRoundTrip | eapiclient.py:164-168 | the cmds list as JSON, strs and dicts (prompt answers, revisioned commands) alike, reads back as the same commands, in order and length |
| Payload.RequestRoundTrip | eapiclient.py:106-182 | the JSON object sent reads back as exactly the payload built |
| Payload.WireRequestCarriesCommands | eapi_client.py:96-97 | for all commands and options, the object sent carries the envelope constants, the commands in order, and a truthy version |
| Url.Endpoint | eapiclient.py:214 | for a host with no '/', '?', '#' or '@', `http://<addr>/command-api` reads back as that host, path "/command-api" and no credentials |
| Url.CredentialUrlAsWritten | eapiclient.py:295-296 | when neither credential holds '/', '?', '#' or '%' and the username no ':', the URL as the source formats it reads back with userinfo `user:pass`, the switch as host and path "/command-api" |
| Url.CredentialUrlAsWrittenMisroutes | eapiclient.py:295-296 | with password "a/b" the URL as written names host "admin:a" and carries no credentials |
| Url.DecodeEncode | eapiclient.py:295-296 | percent-decoding undoes percent-encoding, for every string |
| Url.CredentialUrl | eapiclient.py:295-296 | the corrected credential URL of the second finding: with the credentials percent-encoded it reads back as userinfo `user:pass`, the switch as host and path "/command-api", for every username and password |
| Url.CredentialUrlCarriesCredentials | eapiclient.py:295-296 | for a username without ':' the basic credentials the URL carries are exactly the client's `creds` |
| Url.CredentialUrlAgreesOnPlainCredentials | eapiclient.py:295-296 | for credentials of unreserved characters the encoded URL is the very string the source builds |
| Transport.DecodeBody | eapiclient.py:269 | `json.load` gives the decoded body or ValueError |
| Transport.Urllib2Request | eapiclient.py:254-267 | a POST to the endpoint, Content-Type application/json, credentials registered for exactly the endpoint, and a body that reads back as the payload |
| Transport.RequestsRequest | eapiclient.py:277-280 | a POST to the endpoint with the JSON content type, the credentials sent along, and a body that reads back as the payload |
| Transport.Urllib2Outcome | eapiclient.py:267-269 | a decoded body exactly for a 2xx reply that is JSON; HTTPError for any other status; a connection failure when unreachable |
| Transport.RequestsOutcome | eapiclient.py:283-286 | HTTPError exactly for 4xx and 5xx; any other delivered reply is decoded |
| Transport.OutcomesAgreeIff | eapiclient.py:267-286 | urllib2 and requests treat a reply alike exactly when it is undelivered, 2xx, 4xx or 5xx |
| Transport.RunCmdsCall | eapiclient.py:298 | `runCmds(1, commands)`: version 1 and the commands in order, no keyword option |
| Transport.JsonrpclibSend | eapiclient.py:293-298 | one call to the URL exactly as the source formats it, credentials unescaped; a library failure is passed on; otherwise the answer is element 0 of the library's result; eapi_client.py:264-269 is the same body |
| Transport.JsonrpclibReturnsFirstResult | eapiclient.py:298 | a result list gives its first element unchanged; an empty list is an IndexError |
| Transport.JsonrpclibSendOnSuccessEnvelope | eapiclient.py:298 | when the library hands back the `result` of an eAPI success reply, the client returns its first element |
| Transport.JsonrpclibSendEncoded | eapiclient.py:293-298 | the corrected send of the second finding: the same call and answer, at the URL with percent-encoded credentials |
| Transport.JsonrpclibSendEncodedAgrees | eapiclient.py:295-296 | on credentials of unreserved characters the corrected send answers exactly as the source's send |
| ClientClasses.HttpRequestFor | eapiclient.py:252-280 | each HTTP class POSTs to the endpoint a body that reads back as the payload |
| ClientClasses.HttpOutcomeFor | eapiclient.py:267-286 | a decoded body only for a delivered non-4xx/5xx reply; HTTPError on 4xx and 5xx; never any other kind of exception |
| ClientClasses.WireRequest | eapiclient.py:214-217 | the request goes to `http://<addr>/command-api` and carries the payload built from the commands and options; the eapi_client.py subclasses build the same (eapi_client.py:223-224, 247-248) |
| ClientClasses.LookupClass | eapiclient.py:69-75 | the lookup succeeds exactly when `capitalize() + "EapiClient"` is a global, and then gives that class; otherwise KeyError of that name |
| EapiClient.ClientFactory | eapiclient.py:64-75 | a failed lookup is KeyError of the looked-up name |
| EapiClient.ClientFactoryResolves | eapiclient.py:64-75 | the factory succeeds exactly for the capitalized approaches "", "Base", "Urllib2", "Requests", "Jsonrpclib"; "" names the alias of line 301 (RequestsEapiClient) |
| EapiClient.ClientFactoryIgnoresCase | eapiclient.py:69 | approaches that agree up to case give the same answer |
| EapiClient.ClientFactoryUrllib2 | eapiclient.py:64-75 | "urllib2" resolves to Urllib2EapiClient |
| EapiClient.ClientFactoryDefault | eapiclient.py:64 | called without an approach, the factory uses "requests" and gives RequestsEapiClient |
| EapiClient.ClientFactoryJsonrpclib | eapiclient.py:64-75 | "jsonrpclib" resolves to JsonrpclibEapiClient |
| EapiClient.Resolve | eapiclient.py:219-222 | the result is returned exactly when the reply is a dict with a "result" and no "error"; EapiException exactly when "error" is a dict with a "message", carrying that message; an "error" key never yields the result; a non-dict reply is a TypeError |
| EapiClient.Transmit | eapiclient.py:224-286 | urllib2 and requests POST the payload and decode the reply; the base class (and the jsonrpclib class, which inherits it) raises NotImplementedError |
| EapiClient.Client.constructor | eapiclient.py:189-196 | the corrected constructor stores the address and the credentials, default ("admin", "") |
| EapiClient.Client.Send | eapiclient.py:209-222 | a keyword the builder does not take is a TypeError; the base class raises NotImplementedError; the jsonrpclib class uses its own `send`, at the URL as the source formats it |
| EapiClient.SendIsOneExchange | eapiclient.py:214-222 | an HTTP client's answer is the library outcome of the one wire request, resolved by `Resolve` |
| EapiClient.SendDependsOnlyOnWireRequest | eapiclient.py:214-217 | networks that answer the wire request alike give the same answer |
| EapiClient.SendReturnsResult | eapiclient.py:222 | a 2xx reply with a "result" and no "error" gives that result unchanged |
| EapiClient.SendReturnsEnvelopeResults | eapiclient.py:222 | a 2xx eAPI success reply gives its list of per-command results |
| EapiClient.SendRaisesApiError | eapiclient.py:219-220 | a 2xx reply whose "error" holds a "message" raises EapiException with that message, even when a "result" is present |
| EapiClient.SendRaisesEnvelopeMessage | eapiclient.py:219-220 | an eAPI error envelope raises EapiException with its message |
| EapiClient.SendSurfacesHttpFailure | eapiclient.py:267-283 | a 4xx or 5xx reply raises HTTPError whatever its body |
| EapiClient.JsonrpclibIgnoresOptions | eapiclient.py:293-298 | the jsonrpclib client ignores the keyword options and the HTTP network |
| EapiClient.InitAsWritten | eapiclient.py:198 | construction as written succeeds only if the class has `_on_init`, and otherwise raises AttributeError |
| EapiClient.InitAsWrittenAlwaysFails | eapiclient.py:198-207 | as written, constructing any client class raises AttributeError `_on_init` |
| JsonRpcClient.ClientFactory | eapi_client.py:58-68 | a failed lookup is KeyError of the looked-up name |
| JsonRpcClient.ClientFactoryResolves | eapi_client.py:58-68 | the factory succeeds exactly for the capitalized approaches "Base", "Urllib2", "Requests", "Jsonrpclib", each naming its class |
| JsonRpcClient.ClientFactoryDefault | eapi_client.py:58 | called without an approach, the factory uses "requests" and gives RequestsEapiClient |
| JsonRpcClient.FactoriesDiffer | eapi_client.py:58-68 | the two files' factories agree on every approach except the empty one |
| JsonRpcClient.Client.constructor | eapi_client.py:174-192 | the constructor stores the address and the credentials; `_on_init` does nothing |
| JsonRpcClient.Client.Send | eapi_client.py:194-269 | the base class raises NotImplementedError whatever the keywords; the HTTP clients never raise EapiException; a bad keyword is a TypeError; the jsonrpclib class calls the URL as the source formats it |
| JsonRpcClient.SendIsOneExchange | eapi_client.py:222-258 | an HTTP client's answer is `reply["result"]` of the library outcome of the one wire request |
| JsonRpcClient.SendIgnoresErrorKey | eapi_client.py:241 | a 2xx reply with a "result" gives it back even when it also has an "error" |
| JsonRpcClient.SendReturnsEnvelopeResults | eapi_client.py:241 | a 2xx eAPI success reply gives its list of per-command results |
| JsonRpcClient.SendLosesErrorMessage | eapi_client.py:258 | an eAPI error envelope raises KeyError("result"), not an API error |
| JsonRpcClient.CopiesAgreeIff | eapi_client.py:241-258 | with the same fields, keywords and network the two files' HTTP clients answer alike exactly when the decoded reply is not a dict with an "error" key |

## Left out

- `main` of both files: argument parsing, reading stdin, printing and the loop over switches. The missing comma at eapi_client.py:297 lies in it.
- The HTTP exchange itself, json serialisation and the jsonrpclib library. They are the parameters `net` and `rpc`: a request goes in, a status and a decoded body (or a failure) come out.
- The commented-out `PyeapiClient` (eapi_client.py:271-281) and SkeletonAgent.cpp, an EOS SDK agent skeleton. SkeletonAgent.cpp is not part of this model.
- JSON numbers are integers only; floating-point options are not modelled.
- Py.Capitalize: upper- and lower-cases ASCII letters only, not the full Unicode case mapping of Python's `str`.
- Url.CredentialUrl: characters beyond code 255 are kept as they are, not UTF-8 encoded and escaped; they are no URL delimiters.
- Payload.BuildPayload: a command entry is a str or a dict of JSON values; entries of other types (numbers, lists, None), which the builder passes on as well, are not modelled.
- Payload.BuildPayload: `cmds` is the caller's list object itself in the source; the model has value semantics, so aliasing of that list is not captured.
- Transport.Urllib2Request: the challenge/response round trip of urllib2's basic-auth handler is not modelled; the request only records that the credentials are registered for the endpoint URL.
- Credentials that are not a pair of strings (`username, password = self.creds` failing) are not modelled: `creds` is a pair of strings.
- Url.Endpoint: states its reading only for a host without '/', '?', '#' and '@'; other addresses are formatted the same way but not read back.
- The jsonrpclib call is trusted to report the switch's errors as its own exceptions; how it does so is not modelled.

## Findings

| source | as written | input that shows it | evidently intended | confidence | as-written member | corrected member |
|---|---|---|---|---|---|---|
| eapiclient.py:198 | `__init__` calls `self._on_init(**kwargs)`, whose definition (eapiclient.py:199-207) is commented out | `Urllib2EapiClient("sw1")`, or any class and address, raises AttributeError | `_on_init` is a no-op hook, as in eapi_client.py:185-192, so construction just stores the fields | not executed | EapiClient.InitAsWrittenAlwaysFails | EapiClient.Client.constructor |
| eapiclient.py:295-296 | the credential URL splices username and password in unescaped; eapi_client.py:266-267 does the same | creds ("admin", "a/b") for switch "sw1": the URL names host "admin:a", path "/b@sw1/command-api" and no credentials | the credentials reach the switch as given: percent-encode both, so every password reads back exactly (Transport.JsonrpclibSendEncoded sends that way) | not executed | Url.CredentialUrlAsWrittenMisroutes | Url.CredentialUrlCarriesCredentials |
