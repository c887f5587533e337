/** The HTTP client of `clients/remote_client.py`: a normalised base URL, a
    health-gated `is_connected`, a fixed tool list, and the mapping from a tool
    name to the REST request `call_endpoint` issues. The HTTP session itself is
    a flag; what the server answers is a parameter. */
module Remote {
  import opened Py
  import opened Json

  const NotConnected := "❌ Servidor remoto no está conectado"
  const UnknownToolPrefix := "❌ Herramienta desconocida: "
  const ServerErrorPrefix := "❌ Error del servidor: "
  const FaultPrefix := "❌ Error comunicándose con el servidor remoto: "

  // ------------------------------------------------------------ tool list

  function Property(kind: string, description: string): Value
  {
    Obj(map["type" := Str(kind), "description" := Str(description)])
  }

  function Schema(properties: map<string, Value>, required: seq<string>): Value
  {
    Obj(map["type" := Str("object"), "properties" := Obj(properties),
            "required" := Arr(seq(|required|, i requires 0 <= i < |required| => Str(required[i])))])
  }

  function Tool(name: string, description: string, schema: Value): Value
  {
    Obj(map["name" := Str(name), "description" := Str(description), "inputSchema" := schema])
  }

  function Strings(s: seq<string>): Value
  {
    Arr(seq(|s|, i requires 0 <= i < |s| => Str(s[i])))
  }

  /** The names of the six tools `list_tools` announces, in order. */
  const ToolNames: seq<string> := ["health_check", "get_inspirational_quote", "get_sleep_hygiene_tip",
                                   "search_sleep_quotes", "get_daily_sleep_wisdom", "mcp_call"]

  function Description(name: string): string
  {
    if name == "health_check" then "Verifica el estado de salud del servidor remoto"
    else if name == "get_inspirational_quote" then "Obtiene una cita inspiracional para dormir"
    else if name == "get_sleep_hygiene_tip" then "Obtiene un consejo específico de higiene del sueño"
    else if name == "search_sleep_quotes" then "Busca citas por palabra clave"
    else if name == "get_daily_sleep_wisdom" then "Obtiene sabiduría diaria sobre el sueño con cita y consejo"
    else "Llamada genérica al endpoint MCP para funcionalidades avanzadas"
  }

  function InputSchema(name: string): Value
  {
    if name == "get_inspirational_quote" then
      Schema(map[
        "category" := Obj(Property("string", "Categoría de la cita").fields["enum" := Strings(
          ["sleep_hygiene", "mindfulness", "motivation", "science", "holistic", "wellness", "inspiration", "techniques"])]),
        "mood" := Obj(Property("string", "Estado de ánimo deseado").fields["enum" := Strings(
          ["calm", "motivational", "peaceful", "reflective", "educational"])]),
        "time_based" := Obj(Property("boolean", "Si usar cita basada en la hora actual").fields["default" := Bool(false)])
      ], [])
    else if name == "search_sleep_quotes" then
      Schema(map[
        "query" := Property("string", "Palabra clave para buscar en las citas"),
        "limit" := Obj(Property("integer", "Número máximo de resultados").fields
                     ["default" := Int(5)]["minimum" := Int(1)]["maximum" := Int(20)])
      ], ["query"])
    else if name == "get_daily_sleep_wisdom" then
      Schema(map[
        "include_tip" := Obj(Property("boolean", "Incluir consejo práctico además de la cita").fields["default" := Bool(true)])
      ], [])
    else if name == "mcp_call" then
      Schema(map[
        "method" := Property("string", "Método MCP a llamar"),
        "params" := Property("object", "Parámetros para el método MCP")
      ], ["method"])
    else Schema(map[], [])
  }

  /** The six tools `list_tools` announces, in order. */
  const RemoteTools: seq<Value> :=
    seq(|ToolNames|, i requires 0 <= i < |ToolNames| => Tool(ToolNames[i], Description(ToolNames[i]), InputSchema(ToolNames[i])))

  // ------------------------------------------------------------ endpoints

  datatype Verb = Get | Post

  /** A REST endpoint: the verb, the path, and the argument names passed on as
      query parameters; an empty list stands for the empty dict, which lets
      every argument through. */
  datatype Endpoint = Endpoint(verb: Verb, path: string, validParams: seq<string>)

  const Endpoints: map<string, Endpoint> := map[
    "health_check" := Endpoint(Get, "/health", []),
    "get_inspirational_quote" := Endpoint(Get, "/api/quote", ["category", "mood", "time_based"]),
    "get_sleep_hygiene_tip" := Endpoint(Get, "/api/tip", []),
    "search_sleep_quotes" := Endpoint(Get, "/api/search/{query}", ["query", "limit"]),
    "get_daily_sleep_wisdom" := Endpoint(Get, "/api/wisdom", ["include_tip"]),
    "mcp_call" := Endpoint(Post, "/mcp", [])
  ]

  /** Every announced tool has an endpoint and every endpoint is announced. */
  lemma ListedToolsHaveEndpoints()
    ensures |RemoteTools| == 6
    ensures forall i :: 0 <= i < |RemoteTools| ==> RemoteTools[i].fields["name"] == Str(ToolNames[i])
    ensures forall i :: 0 <= i < |ToolNames| ==> ToolNames[i] in Endpoints
    ensures forall name :: name in Endpoints ==> name in ToolNames
  {
  }

  /** `str(v) if isinstance(v, bool) else v`. */
  function Stringified(v: Value): (w: Value)
    ensures v.Bool? ==> w == Str(if v.b then "True" else "False")
    ensures !v.Bool? ==> w == v
  {
    if v.Bool? then Str(if v.b then "True" else "False") else v
  }

  /** The query parameters of a GET: the arguments the endpoint accepts (all of
      them when it names none), without `query` once it went into the path,
      with booleans turned into text. */
  function QueryParams(arguments: Object, valid: seq<string>, dropQuery: bool): (params: Object)
    ensures forall k :: k in params <==> k in arguments && !(dropQuery && k == "query") && (valid == [] || k in valid)
    ensures forall k :: k in params ==> params[k] == Stringified(arguments[k])
  {
    map k | k in arguments && !(dropQuery && k == "query") && (valid == [] || k in valid) :: Stringified(arguments[k])
  }

  /** An endpoint that names no parameters forwards every argument. */
  lemma EmptyValidForwardsAll(arguments: Object)
    ensures QueryParams(arguments, [], false).Keys == arguments.Keys
  {
  }

  /** A URL: known text, or a template whose `{query}` is replaced by `str()` of
      a float, list or dict, which the model does not spell out. */
  datatype Url = Known(s: string) | Templated(template: string, query: Value)

  datatype HttpRequest = HttpRequest(verb: Verb, url: Url, params: Object, body: Option<Object>)

  /** The request `call_endpoint` sends for a tool, if the tool is mapped. */
  function RequestFor(baseUrl: string, toolName: string, arguments: Object): (r: Option<HttpRequest>)
    ensures r.Some? <==> toolName in Endpoints
    ensures r.Some? && r.value.verb == Post ==>
      r.value.url == Known(baseUrl + Endpoints[toolName].path) && r.value.body == Some(arguments)
    ensures r.Some? && r.value.verb == Get ==>
      var e := Endpoints[toolName];
      var inPath := Contains(e.path, "{query}") && "query" in arguments;
      && r.value.body.None?
      && r.value.params == QueryParams(arguments, e.validParams, inPath)
      && (!inPath ==> r.value.url == Known(baseUrl + e.path))
      && (inPath && ScalarText(arguments["query"]).Some? ==>
            r.value.url == Known(ReplaceAll(baseUrl + e.path, "{query}", ScalarText(arguments["query"]).value)))
      && (inPath && ScalarText(arguments["query"]).None? ==>
            r.value.url == Templated(baseUrl + e.path, arguments["query"]))
  {
    if toolName !in Endpoints then None
    else
      var e := Endpoints[toolName];
      var url := baseUrl + e.path;
      match e.verb
      case Post => Some(HttpRequest(Post, Known(url), map[], Some(arguments)))
      case Get =>
        if Contains(e.path, "{query}") && "query" in arguments then
          var q := arguments["query"];
          var target := match ScalarText(q)
            case Some(s) => Known(ReplaceAll(url, "{query}", s))
            case None => Templated(url, q);
          Some(HttpRequest(Get, target, QueryParams(arguments, e.validParams, true), None))
        else
          Some(HttpRequest(Get, Known(url), QueryParams(arguments, e.validParams, false), None))
  }

  /** What the server did with the request. */
  datatype HttpReply = Answered(status: int, body: string) | Fault(message: string)

  /** The text `call_endpoint` returns for the server's answer. */
  function ReplyText(reply: HttpReply): (t: string)
    ensures reply.Answered? && reply.status == 200 ==> t == reply.body
    ensures reply.Answered? && reply.status != 200 ==>
      |ServerErrorPrefix| <= |t| && t[..|ServerErrorPrefix|] == ServerErrorPrefix && t[|ServerErrorPrefix|..] == IntToString(reply.status)
    ensures reply.Fault? ==>
      |FaultPrefix| <= |t| && t[..|FaultPrefix|] == FaultPrefix && t[|FaultPrefix|..] == reply.message
  {
    match reply
    case Answered(status, body) => if status == 200 then body else ServerErrorPrefix + IntToString(status)
    case Fault(message) => FaultPrefix + message
  }

  /** A `search_sleep_quotes` call with a textual `query` puts the query in the
      path and sends the other accepted arguments as parameters. */
  lemma SearchPutsQueryInPath(baseUrl: string, q: string, limit: int)
    requires forall i :: 0 <= i < |baseUrl| ==> baseUrl[i] != '{'
    ensures RequestFor(baseUrl, "search_sleep_quotes", map["query" := Str(q), "limit" := Int(limit)])
         == Some(HttpRequest(Get, Known(baseUrl + "/api/search/" + q), map["limit" := Int(limit)], None))
  {
    SearchUrl(baseUrl, q);
    assert OccursAt("/api/search/{query}", "{query}", 12);
    var args := map["query" := Str(q), "limit" := Int(limit)];
    assert QueryParams(args, ["query", "limit"], true) == map["limit" := Int(limit)];
  }

  /** The search path with the query put in place of its placeholder. */
  lemma SearchUrl(baseUrl: string, q: string)
    requires forall i :: 0 <= i < |baseUrl| ==> baseUrl[i] != '{'
    ensures ReplaceAll(baseUrl + "/api/search/{query}", "{query}", q) == baseUrl + "/api/search/" + q
  {
    var prefix := baseUrl + "/api/search/";
    assert baseUrl + "/api/search/{query}" == prefix + "{query}";
    forall i | 0 <= i < |prefix|
      ensures prefix[i] != '{'
    {
      if i >= |baseUrl| { assert prefix[i] == "/api/search/"[i - |baseUrl|]; }
    }
    ReplaceAllAtEnd(prefix, "{query}", q);
  }

  /** Without a `query` argument the placeholder stays in the URL. */
  lemma SearchWithoutQueryKeepsPlaceholder(baseUrl: string, limit: int)
    ensures RequestFor(baseUrl, "search_sleep_quotes", map["limit" := Int(limit)])
         == Some(HttpRequest(Get, Known(baseUrl + "/api/search/{query}"), map["limit" := Int(limit)], None))
  {
    assert QueryParams(map["limit" := Int(limit)], ["query", "limit"], false) == map["limit" := Int(limit)];
  }

  // ------------------------------------------------------------ the client

  /** The `/health` probe: no answer, or a status and whether the body parsed as JSON. */
  datatype HealthCheck = Unreachable | Status(code: int, jsonBody: bool)

  predicate Healthy(h: HealthCheck)
    ensures Healthy(h) ==> h.Status? && h.code == 200
    ensures h.Status? && !h.jsonBody ==> !Healthy(h)
  {
    h.Status? && h.code == 200 && h.jsonBody
  }

  /** What `call_endpoint` did: the request it sent, if any, and its text. */
  datatype Outcome = Outcome(request: Option<HttpRequest>, text: string)

  class RemoteSleepQuotesClient {
    const baseUrl: string
    var isConnected: bool
    /** Whether an HTTP session has been opened (`self.session` is not None). */
    var session: bool

    /** `__init__`: the base URL loses its trailing slashes. */
    constructor (baseUrl: string)
      ensures this.baseUrl == RStrip(baseUrl, '/')
      ensures |this.baseUrl| == 0 || this.baseUrl[|this.baseUrl| - 1] != '/'
      ensures !isConnected && !session
    {
      this.baseUrl := RStrip(baseUrl, '/');
      isConnected := false;
      session := false;
    }

    /** `start_server`: open a session, then connect only when the health check
        answers 200 with a JSON body; a failed check leaves the flag as it was. */
    method StartServer(health: HealthCheck) returns (ok: bool)
      modifies this`session, this`isConnected
      ensures session
      ensures ok == Healthy(health)
      ensures isConnected == (old(isConnected) || ok)
    {
      session := true;
      ok := Healthy(health);
      if ok {
        isConnected := true;
      }
    }

    /** `list_tools`: nothing until connected, then the fixed six. */
    function ListTools(): (tools: Value)
      reads this
      ensures !isConnected ==> tools == Arr([])
      ensures isConnected ==> tools == Arr(RemoteTools) && |tools.items| == 6
    {
      if isConnected then Arr(RemoteTools) else Arr([])
    }

    /** `call_endpoint`. */
    function CallEndpoint(toolName: string, arguments: Object, reply: HttpReply): (r: Outcome)
      reads this
      ensures !isConnected ==> r == Outcome(None, NotConnected)
      ensures isConnected && toolName !in Endpoints ==> r == Outcome(None, UnknownToolPrefix + toolName)
      ensures isConnected && toolName in Endpoints ==>
        r.request == RequestFor(baseUrl, toolName, arguments) && r.request.Some? && r.text == ReplyText(reply)
    {
      if !isConnected then Outcome(None, NotConnected)
      else if toolName !in Endpoints then Outcome(None, UnknownToolPrefix + toolName)
      else Outcome(RequestFor(baseUrl, toolName, arguments), ReplyText(reply))
    }

    /** `stop_server`: only an existing session is closed and clears the flag. */
    method StopServer()
      modifies this`isConnected
      ensures isConnected == (old(isConnected) && !session)
    {
      if session {
        isConnected := false;
      }
    }
  }
}
