/** The eAPI request builder: `create_eapi_payload` in eapiclient.py and its
    line-for-line copy `create_jsonrpc_payload` in eapi_client.py. It turns a
    command list and five keyword options into a JSON-RPC `runCmds` request. */
module Payload {
  import opened Py

  const JSONRPC_VERSION := "2.0"
  /** the eAPI agent only answers the runCmds method */
  const JSONRPC_METHOD := "runCmds"
  const EAPI_VERSION := 1
  /** the JSON-RPC id: one constant for every request */
  const EAPI_CLIENT_ID := "AristaProgrammability-1"

  /** One entry of the command list: a CLI command as a str, or a dict such
      as `{"cmd": ..., "input": ...}` (the answer to the prompt a command
      raises) or `{"cmd": ..., "revision": N}` (a revisioned command). */
  datatype Command = Plain(text: string) | Structured(fields: map<string, Json>)

  /** The builder's keyword options, each holding whatever the caller passed. */
  datatype Options = Options(
    format: Json,
    timestamps: Json,
    autoComplete: Json,
    expandAliases: Json,
    version: Json)

  /** The defaults of the builder's signature. */
  const DEFAULT_OPTIONS := Options(JString("json"), JBool(false), JBool(false), JBool(false), JNull)

  /** Keyword arguments, as forwarded by `send(commands, **kwargs)`. */
  type Kwargs = map<string, Json>

  /** The builder's keyword parameter names. */
  const OPTION_NAMES: set<string> := {"format", "timestamps", "auto_complete", "expand_aliases", "version"}

  /** The option bound to keyword parameter `name`. */
  function OptionNamed(options: Options, name: string): Json
    requires name in OPTION_NAMES
  {
    if name == "format" then options.format
    else if name == "timestamps" then options.timestamps
    else if name == "auto_complete" then options.autoComplete
    else if name == "expand_aliases" then options.expandAliases
    else options.version
  }

  function Arg(kwargs: Kwargs, name: string, default: Json): Json {
    if name in kwargs then kwargs[name] else default
  }

  /** Python's binding of `**kwargs` to the builder's parameters: a keyword
      that is not one of the parameters (`commands` included, which is
      already given positionally) raises TypeError; each given keyword
      sets its option and every other option keeps its default. */
  function BindOptions(kwargs: Kwargs): (r: Result<Options>)
    ensures r.Ok? <==> kwargs.Keys <= OPTION_NAMES
    ensures r.Err? ==> r.error == TypeError
    ensures r.Ok? ==> forall name :: name in OPTION_NAMES ==>
      OptionNamed(r.value, name) == if name in kwargs then kwargs[name] else OptionNamed(DEFAULT_OPTIONS, name)
  {
    if kwargs.Keys <= OPTION_NAMES then
      Ok(Options(
        Arg(kwargs, "format", DEFAULT_OPTIONS.format),
        Arg(kwargs, "timestamps", DEFAULT_OPTIONS.timestamps),
        Arg(kwargs, "auto_complete", DEFAULT_OPTIONS.autoComplete),
        Arg(kwargs, "expand_aliases", DEFAULT_OPTIONS.expandAliases),
        Arg(kwargs, "version", DEFAULT_OPTIONS.version)))
    else
      Err(TypeError)
  }

  /** The keyword arguments that pass an option set explicitly. */
  function AsKwargs(options: Options): (kwargs: Kwargs)
    ensures kwargs.Keys == OPTION_NAMES
  {
    map["format" := options.format, "timestamps" := options.timestamps,
        "auto_complete" := options.autoComplete, "expand_aliases" := options.expandAliases,
        "version" := options.version]
  }

  /** Passing no keyword gives the defaults; passing all five gives exactly
      what was passed, `False` included. */
  lemma BindOptionsDefaultsAndOverrides(options: Options)
    ensures BindOptions(map[]) == Ok(DEFAULT_OPTIONS)
    ensures BindOptions(AsKwargs(options)) == Ok(options)
  {
    var r := BindOptions(AsKwargs(options));
    assert OptionNamed(r.value, "format") == options.format;
    assert OptionNamed(r.value, "timestamps") == options.timestamps;
    assert OptionNamed(r.value, "auto_complete") == options.autoComplete;
    assert OptionNamed(r.value, "expand_aliases") == options.expandAliases;
    assert OptionNamed(r.value, "version") == options.version;
  }

  /** The `params` block of a request. */
  datatype Params = Params(
    format: Json,
    timestamps: Json,
    autoComplete: Json,
    expandAliases: Json,
    cmds: seq<Command>,
    version: Json)

  /** A JSON-RPC request envelope. */
  datatype Request = Request(jsonrpc: string, methodName: string, params: Params, id: string)

  /** The builder. It cannot fail; `version` is replaced by EAPI_VERSION when
      it is falsy (None, 0, False, ...), so the version sent is never falsy. */
  function BuildPayload(commands: seq<Command>, options: Options): (p: Request)
    ensures p.jsonrpc == "2.0" && p.methodName == "runCmds" && p.id == "AristaProgrammability-1"
    ensures p.params.cmds == commands
    ensures p.params.format == options.format && p.params.timestamps == options.timestamps
    ensures p.params.autoComplete == options.autoComplete && p.params.expandAliases == options.expandAliases
    ensures Truthy(p.params.version)
    ensures Truthy(options.version) ==> p.params.version == options.version
    ensures !Truthy(options.version) ==> p.params.version == JInt(1)
  {
    var version := if !Truthy(options.version) then JInt(EAPI_VERSION) else options.version;
    Request(
      JSONRPC_VERSION,
      JSONRPC_METHOD,
      Params(options.format, options.timestamps, options.autoComplete, options.expandAliases, commands, version),
      EAPI_CLIENT_ID)
  }

  /** Defaulting is idempotent: building again with the version a request
      already carries rebuilds the same request. */
  lemma BuildPayloadVersionIdempotent(commands: seq<Command>, options: Options)
    ensures var p := BuildPayload(commands, options);
            BuildPayload(commands, options.(version := p.params.version)) == p
  {
  }

  function CommandToJson(c: Command): Json {
    match c
    case Plain(text) => JString(text)
    case Structured(fields) => JObject(fields)
  }

  /** The `cmds` list as JSON: one entry per command, in order. */
  function CommandsToJson(commands: seq<Command>): (r: seq<Json>)
    ensures |r| == |commands|
    ensures forall i :: 0 <= i < |commands| ==> r[i] == CommandToJson(commands[i])
  {
    if commands == [] then [] else [CommandToJson(commands[0])] + CommandsToJson(commands[1..])
  }

  /** The dict the builder returns, as the JSON object that is sent: four
      top-level keys, and all six keys in `params` whatever their values. */
  function ToJson(p: Request): (j: Json)
    ensures j.JObject? && j.fields.Keys == {"jsonrpc", "method", "params", "id"}
    ensures j.fields["params"].JObject?
    ensures j.fields["params"].fields.Keys ==
      {"format", "timestamps", "autoComplete", "expandAliases", "cmds", "version"}
  {
    JObject(map[
      "jsonrpc" := JString(p.jsonrpc),
      "method" := JString(p.methodName),
      "params" := JObject(map[
        "format" := p.params.format,
        "timestamps" := p.params.timestamps,
        "autoComplete" := p.params.autoComplete,
        "expandAliases" := p.params.expandAliases,
        "cmds" := JArray(CommandsToJson(p.params.cmds)),
        "version" := p.params.version]),
      "id" := JString(p.id)])
  }

  /** The receiver's reading of one `cmds` entry. */
  function CommandOf(j: Json): Option<Command> {
    match j
    case JString(text) => Some(Plain(text))
    case JObject(m) => Some(Structured(m))
    case _ => None
  }

  /** The receiver's reading of the `cmds` list, or None if an entry is not a command. */
  function CommandsOf(js: seq<Json>): (r: Option<seq<Command>>)
    ensures r.Some? ==> |r.value| == |js|
  {
    if js == [] then Some([])
    else match (CommandOf(js[0]), CommandsOf(js[1..]))
      case (Some(c), Some(cs)) => Some([c] + cs)
      case _ => None
  }

  /** The receiver's reading of a whole request object. */
  function RequestOf(j: Json): Option<Request> {
    if !j.JObject? || j.fields.Keys != {"jsonrpc", "method", "params", "id"} then None
    else
      var m := j.fields;
      if !(m["jsonrpc"].JString? && m["method"].JString? && m["id"].JString? && m["params"].JObject?) then None
      else
        var q := m["params"].fields;
        if q.Keys != {"format", "timestamps", "autoComplete", "expandAliases", "cmds", "version"} || !q["cmds"].JArray? then None
        else match CommandsOf(q["cmds"].items)
          case None => None
          case Some(cmds) =>
            Some(Request(m["jsonrpc"].s, m["method"].s,
              Params(q["format"], q["timestamps"], q["autoComplete"], q["expandAliases"], cmds, q["version"]),
              m["id"].s))
  }

  lemma {:induction false} CommandsRoundTrip(commands: seq<Command>)
    ensures CommandsOf(CommandsToJson(commands)) == Some(commands)
  {
    if commands != [] {
      CommandsRoundTrip(commands[1..]);
      assert CommandsToJson(commands)[1..] == CommandsToJson(commands[1..]);
      assert [commands[0]] + commands[1..] == commands;
    }
  }

  /** The JSON object is a faithful rendering of the request: reading it back
      gives every field, and the command list in its order and length. */
  lemma RequestRoundTrip(p: Request)
    ensures RequestOf(ToJson(p)) == Some(p)
  {
    CommandsRoundTrip(p.params.cmds);
  }

  /** For any commands and options, the object put on the wire carries the
      commands exactly, in order, and a version that is never falsy. */
  lemma WireRequestCarriesCommands(commands: seq<Command>, options: Options)
    ensures var j := ToJson(BuildPayload(commands, options));
            var q := j.fields["params"].fields;
            && j.fields["jsonrpc"] == JString("2.0")
            && j.fields["method"] == JString("runCmds")
            && j.fields["id"] == JString("AristaProgrammability-1")
            && q["cmds"].JArray? && CommandsOf(q["cmds"].items) == Some(commands)
            && Truthy(q["version"])
  {
    CommandsRoundTrip(commands);
  }
}
