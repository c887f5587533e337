/** The persistent client of `clients/movies_client.py`: a pre-incremented message
    counter, an `is_active`/`_initialized` pair guarded by a clean-up routine,
    one line read per request, its own normalisation of `tools/call` replies, a
    restart when a write fails on a broken connection, and the parameter
    builders of the convenience methods. */
module Movies {
  import opened Py
  import opened Json
  import opened Stdio
  import opened Rpc

  const ClientName := "movies-persistent-client"
  /** `{"tools": {}}`, the capabilities this client announces. */
  const ToolsCapability: Value := Obj(map["tools" := Obj(map[])])

  const NotInitialized := "❌ Servidor no inicializado. Use 'await start_server()' primero."
  const NoReplyPrefix := "❌ No se recibió respuesta para "
  const ServerErrorPrefix := "❌ Error del servidor: "
  const UnexpectedPrefix := "❌ Respuesta inesperada: "
  const FailurePrefix := "❌ Error ejecutando "

  /** The text `call_tool` returns when an exception with text `e` escapes. */
  function FailureText(toolName: string, e: string): string
  {
    FailurePrefix + toolName + ": " + e
  }

  /** `"Broken pipe" in str(e) or "connection" in str(e).lower()`. */
  predicate Restarts(e: string)
    ensures Contains(e, "Broken pipe") ==> Restarts(e)
    ensures Contains(e, "connection") ==> Restarts(e)
  {
    LowerKeepsContained(e, "connection");
    Contains(e, "Broken pipe") || Contains(Lower(e), "connection")
  }

  /** The `arguments` of a `tools/call`: empty for `ping_tool`, otherwise the
      parameters (an empty object for Python's `None`) under `"params"`. */
  function ToolArguments(toolName: string, params: Value): (a: Value)
    ensures a.Obj?
    ensures toolName == "ping_tool" ==> a.fields == map[]
    ensures toolName != "ping_tool" ==>
      a.fields.Keys == {"params"} && a.fields["params"] == (if params.Null? then Obj(map[]) else params)
  {
    if toolName == "ping_tool" then Obj(map[])
    else Obj(map["params" := if params.Null? then Obj(map[]) else params])
  }

  // ------------------------------------------------------ reply normalisation

  /** What a reply to `tools/call` says, in the order `call_tool` tests it. */
  datatype MovieOutcome =
    | NoReply                    // no reply, or an empty object
    | ItemText(text: Value)      // result.content[0]["text"]
    | ItemShown(item: Value)     // str(result.content[0]), the item has no text
    | Dumped(result: Value)      // json.dumps of a list or dict result
    | Shown(result: Value)       // str(result) of any other result
    | ServerError(detail: Value) // error.get("message", str(error))
    | Unrecognised(reply: Object) // neither result nor error
    | ErrorRaises                // error is not a dict, so .get raises

  function ClassifyMovieReply(reply: Option<Object>): (o: MovieOutcome)
    ensures o.ItemText? ==>
      && reply.Some? && "result" in reply.value && reply.value["result"].Obj?
      && "content" in reply.value["result"].fields
      && var content := reply.value["result"].fields["content"];
         && content.Arr? && |content.items| > 0 && content.items[0].Obj? && "text" in content.items[0].fields
         && o.text == content.items[0].fields["text"]
    ensures o.ServerError? ==>
      && reply.Some? && "result" !in reply.value && "error" in reply.value && reply.value["error"].Obj?
      && var error := reply.value["error"].fields;
         o.detail == if "message" in error then error["message"] else Obj(error)
  {
    if reply.None? || reply.value == map[] then NoReply
    else
      var r := reply.value;
      if "result" in r then
        var result := r["result"];
        if result.Obj? && "content" in result.fields
           && result.fields["content"].Arr? && |result.fields["content"].items| > 0 then
          var first := result.fields["content"].items[0];
          if first.Obj? && "text" in first.fields then ItemText(first.fields["text"]) else ItemShown(first)
        else if result.Arr? || result.Obj? then Dumped(result)
        else Shown(result)
      else if "error" in r then
        var error := r["error"];
        if !error.Obj? then ErrorRaises
        else if "message" in error.fields then ServerError(error.fields["message"])
        else ServerError(error)
      else Unrecognised(r)
  }

  function RenderMovieOutcome(toolName: string, o: MovieOutcome): (t: Text)
    ensures o.NoReply? ==> t == Lit(NoReplyPrefix + toolName)
    ensures o.ItemText? && o.text.Str? ==> t == Lit(o.text.s)
    ensures o.ServerError? && o.detail.Str? ==> t == Lit(ServerErrorPrefix + o.detail.s)
    ensures o.Dumped? <==> t.Pretty?
    ensures t.Raised? <==> o.ErrorRaises?
  {
    match o
    case NoReply => Lit(NoReplyPrefix + toolName)
    case ItemText(v) => Returned(v)
    case ItemShown(v) => ShowValue("", v)
    case Dumped(v) => Pretty(v)
    case Shown(v) => ShowValue("", v)
    case ServerError(d) => ShowValue(ServerErrorPrefix, d)
    case Unrecognised(r) => Show(UnexpectedPrefix, Obj(r))
    case ErrorRaises => Raised(FailurePrefix + toolName + ": ")
  }

  /** `call_tool`'s normalisation of the one line read after a `tools/call`. */
  function MovieReplyText(toolName: string, reply: Option<Object>): (t: Text)
    ensures reply.None? || reply == Some(map[]) ==> t == Lit(NoReplyPrefix + toolName)
    ensures t.Raised? ==> reply.Some? && "result" !in reply.value && "error" in reply.value && !reply.value["error"].Obj?
  {
    RenderMovieOutcome(toolName, ClassifyMovieReply(reply))
  }

  /** An empty reply counts as none; `result` is consulted before `error`; a
      content list's first item wins over the result as a whole; a dumped result
      is a list or dict and a shown one is neither. */
  lemma MovieReplyPrecedence(reply: Option<Object>)
    ensures var o := ClassifyMovieReply(reply);
      && (o.NoReply? <==> reply.None? || reply.value == map[])
      && ((o.ItemText? || o.ItemShown? || o.Dumped? || o.Shown?) <==>
            reply.Some? && reply.value != map[] && "result" in reply.value)
      && ((o.ServerError? || o.ErrorRaises?) <==>
            reply.Some? && reply.value != map[] && "result" !in reply.value && "error" in reply.value)
      && (o.Unrecognised? <==>
            reply.Some? && reply.value != map[] && "result" !in reply.value && "error" !in reply.value)
      && (o.Dumped? ==> (o.result.Arr? || o.result.Obj?) && o.result == reply.value["result"])
      && (o.Shown? ==> !o.result.Arr? && !o.result.Obj? && o.result == reply.value["result"])
  {
  }

  /** Where a content list starts with a text item, this client returns the same
      text as the general client of `clients/connection.py`. */
  lemma AgreesOnTextItems(toolName: string, reply: Object, crashPrefix: string)
    requires "result" in reply && reply["result"].Obj? && "content" in reply["result"].fields
    requires reply["result"].fields["content"].Arr? && |reply["result"].fields["content"].items| > 0
    requires reply["result"].fields["content"].items[0].Obj?
    requires "text" in reply["result"].fields["content"].items[0].fields
    ensures MovieReplyText(toolName, Some(reply)) == ToolCallText(Some(reply), crashPrefix)
  {
  }

  /** An error object without `message` is shown whole; with one, its message. */
  lemma ServerErrorTexts(toolName: string, id: Value, code: int, msg: string, detail: map<string, Value>)
    requires "message" !in detail
    ensures MovieReplyText(toolName, Some(ErrorResponse(id, code, msg))) == Lit(ServerErrorPrefix + msg)
    ensures MovieReplyText(toolName, Some(map["id" := id, "error" := Obj(detail)]))
         == Show(ServerErrorPrefix, Obj(detail))
  {
    assert "result" !in ErrorResponse(id, code, msg);
    assert "error" in map["id" := id, "error" := Obj(detail)];
  }

  // ------------------------------------------------------ parameter builders

  /** The keys the `recommend_movies_tool` builders may use. */
  const RecommendKeys: set<string> := {"genres", "min_vote", "from_year", "to_year", "include_cast", "limit"}

  /** `float(x)` for a number; any other value is passed on as it is. */
  function AsFloat(v: Value): (f: Value)
    ensures AsNumber(v).Some? ==> f == Real(AsNumber(v).value)
  {
    match AsNumber(v)
    case Some(r) => Real(r)
    case None => v
  }

  /** `to` holds `from`'s value exactly when that value is truthy. */
  ghost predicate CopiedIfTruthy(params: Object, prefs: Object, from: string, to: string)
  {
    && (to in params <==> Truthy(Get(prefs, from)))
    && (to in params ==> params[to] == prefs[from])
  }

  /** `get_recommendations`: the truthy preferences under the tool's key names,
      and always a limit of 15. */
  method RecommendationParams(preferences: Object) returns (params: Object)
    ensures params.Keys <= RecommendKeys
    ensures "limit" in params && params["limit"] == Int(15)
    ensures CopiedIfTruthy(params, preferences, "genres", "genres")
    ensures CopiedIfTruthy(params, preferences, "from_year", "from_year")
    ensures CopiedIfTruthy(params, preferences, "to_year", "to_year")
    ensures CopiedIfTruthy(params, preferences, "actors", "include_cast")
    ensures ("min_vote" in params <==> Truthy(Get(preferences, "min_rating")))
    ensures "min_vote" in params ==> params["min_vote"] == AsFloat(preferences["min_rating"])
  {
    params := map[];
    if Truthy(Get(preferences, "genres")) {
      params := params["genres" := preferences["genres"]];
    }
    if Truthy(Get(preferences, "min_rating")) {
      params := params["min_vote" := AsFloat(preferences["min_rating"])];
    }
    if Truthy(Get(preferences, "from_year")) {
      params := params["from_year" := preferences["from_year"]];
    }
    if Truthy(Get(preferences, "to_year")) {
      params := params["to_year" := preferences["to_year"]];
    }
    if Truthy(Get(preferences, "actors")) {
      params := params["include_cast" := preferences["actors"]];
    }
    params := params["limit" := Int(15)];
  }

  /** The limits `get_popular_movies` and `search_by_genre` use when the caller gives none. */
  const PopularLimit := 10
  const GenreLimit := 15

  /** `get_popular_movies`: action, drama and thrillers from 2015 to 2023 rated
      at least 7, with the caller's limit or 10. */
  function PopularParams(limit: Option<int>): (params: Object)
    ensures params.Keys == RecommendKeys - {"include_cast"}
    ensures params["genres"] == Arr([Str("Action"), Str("Drama"), Str("Thriller")])
    ensures params["min_vote"] == Real(7.0)
    ensures params["from_year"] == Int(2015) && params["to_year"] == Int(2023)
    ensures limit.Some? ==> params["limit"] == Int(limit.value)
    ensures limit.None? ==> params["limit"] == Int(10)
  {
    var n := if limit.Some? then limit.value else PopularLimit;
    map["genres" := Arr([Str("Action"), Str("Drama"), Str("Thriller")]),
        "min_vote" := Real(7.0), "from_year" := Int(2015), "to_year" := Int(2023), "limit" := Int(n)]
  }

  /** `search_by_genre`: the one genre, a minimum rating of 6 and the caller's
      limit or 15. */
  function GenreParams(genre: string, limit: Option<int>): (params: Object)
    ensures params.Keys == {"genres", "min_vote", "limit"}
    ensures params["genres"] == Arr([Str(genre)]) && params["min_vote"] == Real(6.0)
    ensures limit.Some? ==> params["limit"] == Int(limit.value)
    ensures limit.None? ==> params["limit"] == Int(15)
  {
    var n := if limit.Some? then limit.value else GenreLimit;
    map["genres" := Arr([Str(genre)]), "min_vote" := Real(6.0), "limit" := Int(n)]
  }

  /** `create_playlist`: the target and the high-rating preference (true unless
      given), then genres and language when given and truthy. `preferences` is
      Python's `None` when absent. */
  method PlaylistParams(targetMinutes: int, preferences: Option<Object>) returns (params: Object)
    ensures params.Keys <= {"target_minutes", "prefer_high_rating", "genres", "language"}
    ensures "target_minutes" in params && params["target_minutes"] == Int(targetMinutes)
    ensures "prefer_high_rating" in params
    ensures var given := preferences.Some? && preferences.value != map[];
      && params["prefer_high_rating"]
           == (if given && "prefer_high_rating" in preferences.value then preferences.value["prefer_high_rating"]
               else Bool(true))
      && (!given ==> params.Keys == {"target_minutes", "prefer_high_rating"})
      && (given ==>
            CopiedIfTruthy(params, preferences.value, "genres", "genres")
            && CopiedIfTruthy(params, preferences.value, "language", "language"))
  {
    var given := preferences.Some? && preferences.value != map[];
    var preferHigh := if given && "prefer_high_rating" in preferences.value
      then preferences.value["prefer_high_rating"] else Bool(true);
    params := map["target_minutes" := Int(targetMinutes), "prefer_high_rating" := preferHigh];
    if given {
      var prefs := preferences.value;
      if Truthy(Get(prefs, "genres")) {
        params := params["genres" := prefs["genres"]];
      }
      if Truthy(Get(prefs, "language")) {
        params := params["language" := prefs["language"]];
      }
    }
  }

  // ------------------------------------------------------------ the client

  class MoviesClient {
    var process: Process?
    var isActive: bool
    var initialized: bool
    /** The last id handed out; the next one is one more. */
    var messageId: int
    ghost var issued: seq<int>

    ghost predicate Valid()
      reads this
    {
      && messageId >= 0
      && (isActive ==> initialized && process != null)
      && (forall i :: 0 <= i < |issued| ==> 1 <= issued[i] <= messageId)
      && (forall i, j :: 0 <= i < j < |issued| ==> issued[i] < issued[j])
    }

    constructor ()
      ensures Valid() && fresh(this)
      ensures process == null && !isActive && !initialized && messageId == 0 && issued == []
    {
      process := null;
      isActive := false;
      initialized := false;
      messageId := 0;
      issued := [];
    }

    /** `_get_next_id`: increment, then hand out the new value. */
    method GetNextId() returns (id: int)
      requires Valid()
      modifies this`messageId, this`issued
      ensures Valid()
      ensures id == old(messageId) + 1 && messageId == id
      ensures issued == old(issued) + [id]
      ensures forall i :: 0 <= i < |old(issued)| ==> old(issued)[i] < id
    {
      messageId := messageId + 1;
      id := messageId;
      issued := issued + [id];
    }

    /** No id is handed out twice, and the first one is 1. */
    lemma IdsNeverRepeat()
      requires Valid()
      ensures forall i, j :: 0 <= i < |issued| && 0 <= j < |issued| && i != j ==> issued[i] != issued[j]
      ensures forall i :: 0 <= i < |issued| ==> issued[i] >= 1
    {
      forall i, j | 0 <= i < |issued| && 0 <= j < |issued| && i != j
        ensures issued[i] != issued[j]
      {
        if i < j { assert issued[i] < issued[j]; } else { assert issued[j] < issued[i]; }
      }
    }

    /** A started server that is still running. */
    predicate Live()
      reads this, process
    {
      isActive && process != null && process.running
    }

    /** `_cleanup`: both flags down, a running child stopped, the process dropped. */
    method Cleanup(exitsInGrace: bool)
      requires Valid()
      modifies this`isActive, this`initialized, this`process, process
      ensures Valid()
      ensures !isActive && !initialized && process == null
      ensures StoppedIfRunning(old(process), exitsInGrace)
    {
      isActive := false;
      initialized := false;
      if process != null {
        if process.running {
          process.Stop(exitsInGrace);
        }
        process := null;
      }
    }

    /** `_initialize_server`: the handshake over single reads; `_initialized`
        is raised when it succeeds. */
    method InitializeServer() returns (ok: bool)
      requires Valid() && process != null
      modifies this`messageId, this`issued, this`initialized, process`stdin, process`cursor
      ensures Valid() && messageId == old(messageId) + 1
      ensures ok == HandshakeAccepted(ReadOne(process.stdout, old(process.cursor)))
      ensures initialized == (old(initialized) || ok)
      ensures process.cursor == old(process.cursor) + 1
      ensures process.stdin == old(process.stdin)
        + HandshakeSent(InitializeRequest(old(messageId) + 1, ToolsCapability, ClientName), [],
                        ReadOne(process.stdout, old(process.cursor)), InitializedNotification(None))
    {
      var id := GetNextId();
      ok := SingleReadHandshake(process, InitializeRequest(id, ToolsCapability, ClientName), InitializedNotification(None));
      if ok {
        initialized := true;
      }
    }

    /** `start_server`: nothing to do while a started server still runs; no
        attempt without the server script; otherwise spawn and initialize,
        cleaning up after any failure. */
    method StartServer(launch: Launch, exitsInGrace: bool) returns (ok: bool)
      requires Valid()
      modifies this, process
      ensures Valid()
      ensures old(Live()) ==>
        ok && process == old(process) && unchanged(process) && isActive && messageId == old(messageId)
      ensures !old(Live()) && !launch.fileExists ==>
        && !ok && process == old(process) && isActive == old(isActive) && initialized == old(initialized)
        && messageId == old(messageId)
        && (process != null ==> unchanged(process))
      ensures !old(Live()) && launch.fileExists ==>
        && ok == (!launch.spawnFails && HandshakeAccepted(ReadOne(launch.script, 0)))
        && isActive == ok && initialized == ok
        && (!launch.spawnFails ==> messageId == old(messageId) + 1)
        && (ok ==> fresh(process) && process.stdout == launch.script
                   && process.running == launch.alive && process.signals == [] && process.cursor == 1
                   && process.stdin == HandshakeSent(InitializeRequest(old(messageId) + 1, ToolsCapability, ClientName),
                                                     [], ReadOne(launch.script, 0), InitializedNotification(None)))
        && (!ok ==> process == null)
        && (launch.spawnFails ==> messageId == old(messageId) && StoppedIfRunning(old(process), exitsInGrace))
        && (!launch.spawnFails && old(process) != null ==> unchanged(old(process)))
    {
      if isActive && process != null && process.running {
        return true;
      }
      if !launch.fileExists {
        return false;
      }
      if launch.spawnFails {
        Cleanup(exitsInGrace);
        return false;
      }
      var p := new Process(launch.script, launch.alive);
      process := p;
      ok := InitializeServer();
      if ok {
        isActive := true;
      } else {
        Cleanup(exitsInGrace);
      }
    }

    /** The recovery `call_tool` runs after a broken connection: clean up, then
        start once more from `relaunch`. */
    method Restart(relaunch: Launch, exitsInGrace: bool)
      requires Valid()
      modifies this, process
      ensures Valid()
      ensures StoppedIfRunning(old(process), exitsInGrace)
      ensures isActive == (relaunch.fileExists && !relaunch.spawnFails && HandshakeAccepted(ReadOne(relaunch.script, 0)))
      ensures initialized == isActive
      ensures messageId == old(messageId) + (if relaunch.fileExists && !relaunch.spawnFails then 1 else 0)
      ensures !isActive ==> process == null
      ensures isActive ==>
        && fresh(process) && process.stdout == relaunch.script
        && process.running == relaunch.alive && process.signals == [] && process.cursor == 1
        && process.stdin == HandshakeSent(InitializeRequest(old(messageId) + 1, ToolsCapability, ClientName),
                                          [], ReadOne(relaunch.script, 0), InitializedNotification(None))
    {
      Cleanup(exitsInGrace);
      var _ := StartServer(relaunch, exitsInGrace);
    }

    /** `call_tool`. `writeFault` is the text of the exception the request's
        write raises, if any; on a broken connection the client cleans up and
        starts again from `relaunch`, and still reports the failure. */
    method CallTool(toolName: string, params: Value, writeFault: Option<string>, relaunch: Launch, exitsInGrace: bool)
      returns (text: Text)
      requires Valid()
      modifies this, process
      ensures Valid()
      ensures !old(isActive && initialized) ==>
        && text == Lit(NotInitialized) && messageId == old(messageId)
        && process == old(process) && isActive == old(isActive) && initialized == old(initialized)
        && (process != null ==> unchanged(process))
      ensures old(isActive && initialized) && writeFault.None? ==>
        && messageId == old(messageId) + 1 && process == old(process) && isActive && initialized
        && process.stdin == old(process.stdin) + [ToolCallRequest(old(messageId) + 1, toolName, ToolArguments(toolName, params))]
        && process.cursor == old(process.cursor) + 1
        && process.running == old(process.running) && process.signals == old(process.signals)
        && text == MovieReplyText(toolName, ReadOne(process.stdout, old(process.cursor)))
      ensures old(isActive && initialized) && writeFault.Some? ==>
        && text == Lit(FailureText(toolName, writeFault.value))
        && (!Restarts(writeFault.value) ==>
              messageId == old(messageId) + 1 && process == old(process) && unchanged(process) && isActive)
        && (Restarts(writeFault.value) ==>
              && StoppedIfRunning(old(process), exitsInGrace)
              && isActive == (relaunch.fileExists && !relaunch.spawnFails && HandshakeAccepted(ReadOne(relaunch.script, 0)))
              && initialized == isActive
              && messageId == old(messageId) + 1 + (if relaunch.fileExists && !relaunch.spawnFails then 1 else 0)
              && (!isActive ==> process == null)
              && (isActive ==>
                    && fresh(process) && process.stdout == relaunch.script
                    && process.running == relaunch.alive && process.signals == [] && process.cursor == 1
                    && process.stdin == HandshakeSent(InitializeRequest(old(messageId) + 2, ToolsCapability, ClientName),
                                                      [], ReadOne(relaunch.script, 0), InitializedNotification(None))))
    {
      if !isActive || !initialized {
        return Lit(NotInitialized);
      }
      var id := GetNextId();
      var message := ToolCallRequest(id, toolName, ToolArguments(toolName, params));
      if writeFault.Some? {
        if Restarts(writeFault.value) {
          Restart(relaunch, exitsInGrace);
        }
        return Lit(FailureText(toolName, writeFault.value));
      }
      var response := SendAndReadOne(process, message);
      text := MovieReplyText(toolName, response);
    }

    /** `stop_server`. */
    method StopServer(exitsInGrace: bool)
      requires Valid()
      modifies this`isActive, this`initialized, this`process, process
      ensures Valid()
      ensures !isActive && !initialized && process == null
      ensures StoppedIfRunning(old(process), exitsInGrace)
    {
      Cleanup(exitsInGrace);
    }
  }

  /** A broken pipe and a reset connection trigger the restart; a plain
      timeout message does not. */
  lemma RestartTriggers()
    ensures Restarts("[Errno 32] Broken pipe")
    ensures Restarts("Connection lost")
    ensures !Restarts("timed out")
  {
    assert OccursAt("[Errno 32] Broken pipe", "Broken pipe", 11);
    assert Lower("Connection lost")[..10] == "connection";
    assert OccursAt(Lower("Connection lost"), "connection", 0);
  }
}
