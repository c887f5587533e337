/** The client of `clients/kitchen_client.py`: one Node.js child, a request-id
    counter, the initialize handshake over single reads, `tools/list`,
    `tools/call` with the general normalisation, and the argument builders of
    the kitchen tools. */
module Kitchen {
  import opened Py
  import opened Json
  import opened Stdio
  import opened Rpc

  const ClientName := "kitchen-coach-client"
  const NotConnected := "❌ Kitchen Coach Server no está conectado"
  const CallFault := "❌ Error comunicándose con Kitchen Coach: "

  /** The `type` `recommend_by_mood_and_season` sends when the caller gives none. */
  const DefaultKind := "recipe"

  /** `recommend_by_mood_and_season`: mood and type, and the season only when
      it is truthy. `season` is Python's `None` when not given, and `kind` is
      `None` when the caller leaves `type` at its default. */
  method MoodAndSeasonArguments(mood: string, season: Value, kind: Option<string>) returns (args: Object)
    ensures args.Keys == {"mood", "type"} + (if Truthy(season) then {"season"} else {})
    ensures args["mood"] == Str(mood)
    ensures kind.Some? ==> args["type"] == Str(kind.value)
    ensures kind.None? ==> args["type"] == Str("recipe")
    ensures "season" in args ==> args["season"] == season
  {
    var kindText := if kind.Some? then kind.value else DefaultKind;
    args := map["mood" := Str(mood), "type" := Str(kindText)];
    if Truthy(season) {
      args := args["season" := season];
    }
  }

  /** `suggest_recipe_by_diet`: the diet, and `maxCalories` only when truthy,
      so a limit of 0 is dropped. */
  method DietArguments(diet: string, maxCalories: Value) returns (args: Object)
    ensures args.Keys <= {"diet", "maxCalories"}
    ensures "diet" in args && args["diet"] == Str(diet)
    ensures "maxCalories" in args <==> Truthy(maxCalories)
    ensures "maxCalories" in args ==> args["maxCalories"] == maxCalories
  {
    args := map["diet" := Str(diet)];
    if Truthy(maxCalories) {
      args := args["maxCalories" := maxCalories];
    }
  }

  /** `search_foods`: each criterion that is not `None`, so a bound of 0 is kept. */
  method SearchFoodsArguments(minProtein: Value, maxFat: Value, maxCalories: Value) returns (args: Object)
    ensures args.Keys <= {"minProtein", "maxFat", "maxCalories"}
    ensures ("minProtein" in args <==> !minProtein.Null?) && ("minProtein" in args ==> args["minProtein"] == minProtein)
    ensures ("maxFat" in args <==> !maxFat.Null?) && ("maxFat" in args ==> args["maxFat"] == maxFat)
    ensures ("maxCalories" in args <==> !maxCalories.Null?) && ("maxCalories" in args ==> args["maxCalories"] == maxCalories)
  {
    args := map[];
    if !minProtein.Null? {
      args := args["minProtein" := minProtein];
    }
    if !maxFat.Null? {
      args := args["maxFat" := maxFat];
    }
    if !maxCalories.Null? {
      args := args["maxCalories" := maxCalories];
    }
  }

  class KitchenCoachClient {
    var process: Process?
    var isConnected: bool
    var requestId: int
    ghost var issued: seq<int>

    ghost predicate Valid()
      reads this
    {
      && requestId >= 1
      && (isConnected ==> process != null)
      && (forall i :: 0 <= i < |issued| ==> 1 <= issued[i] < requestId)
      && (forall i, j :: 0 <= i < j < |issued| ==> issued[i] < issued[j])
    }

    constructor ()
      ensures Valid() && fresh(this)
      ensures process == null && !isConnected && requestId == 1 && issued == []
    {
      process := null;
      isConnected := false;
      requestId := 1;
      issued := [];
    }

    /** `_get_request_id`. */
    method GetRequestId() returns (id: int)
      requires Valid()
      modifies this`requestId, this`issued
      ensures Valid()
      ensures id == old(requestId) && requestId == old(requestId) + 1
      ensures issued == old(issued) + [id]
      ensures forall i :: 0 <= i < |old(issued)| ==> old(issued)[i] < id
    {
      id := requestId;
      requestId := requestId + 1;
      issued := issued + [id];
    }

    lemma IdsNeverRepeat()
      requires Valid()
      ensures forall i, j :: 0 <= i < |issued| && 0 <= j < |issued| && i != j ==> issued[i] != issued[j]
    {
      forall i, j | 0 <= i < |issued| && 0 <= j < |issued| && i != j
        ensures issued[i] != issued[j]
      {
        if i < j { assert issued[i] < issued[j]; } else { assert issued[j] < issued[i]; }
      }
    }

    /** `_initialize_mcp`: one reply read; the notification, with empty
        params, only when that reply is accepted. */
    method InitializeMcp() returns (ok: bool)
      requires Valid() && process != null
      modifies this`requestId, this`issued, process`stdin, process`cursor
      ensures Valid() && requestId == old(requestId) + 1
      ensures ok == HandshakeAccepted(ReadOne(process.stdout, old(process.cursor)))
      ensures process.cursor == old(process.cursor) + 1
      ensures process.stdin == old(process.stdin)
        + HandshakeSent(InitializeRequest(old(requestId), RootsAndSampling, ClientName), [],
                        ReadOne(process.stdout, old(process.cursor)), InitializedNotification(Some(Obj(map[]))))
    {
      var id := GetRequestId();
      ok := SingleReadHandshake(process, InitializeRequest(id, RootsAndSampling, ClientName),
                                InitializedNotification(Some(Obj(map[]))));
    }

    /** `start_server`: the script must exist and Node.js must start; the child
        must survive the pause; `is_connected` is raised only by a successful
        handshake. */
    method StartServer(launch: Launch) returns (ok: bool)
      requires Valid()
      modifies this
      ensures Valid()
      ensures !launch.fileExists || launch.spawnFails ==>
        !ok && process == old(process) && requestId == old(requestId) && (process != null ==> unchanged(process))
      ensures launch.fileExists && !launch.spawnFails ==> fresh(process) && process.stdout == launch.script
      ensures launch.fileExists && !launch.spawnFails ==>
        && process.running == launch.alive && process.signals == []
        && (!launch.alive ==> requestId == old(requestId) && process.cursor == 0 && process.stdin == [])
        && (launch.alive ==>
              && requestId == old(requestId) + 1
              && process.cursor == 1
              && process.stdin
                   == HandshakeSent(InitializeRequest(old(requestId), RootsAndSampling, ClientName), [],
                                    ReadOne(launch.script, 0), InitializedNotification(Some(Obj(map[])))))
      ensures ok <==> launch.fileExists && !launch.spawnFails && launch.alive
                      && HandshakeAccepted(ReadOne(launch.script, 0))
      ensures isConnected == (old(isConnected) || ok)
    {
      if !launch.fileExists || launch.spawnFails {
        return false;
      }
      var p := new Process(launch.script, launch.alive);
      process := p;
      if !p.running {
        return false;
      }
      ok := InitializeMcp();
      if ok {
        isConnected := true;
      }
    }

    /** `list_tools`. */
    method ListTools() returns (tools: Value)
      requires Valid()
      modifies this`requestId, this`issued, process
      ensures Valid()
      ensures process != null ==> process.running == old(process.running) && process.signals == old(process.signals)
      ensures !old(isConnected) ==>
        tools == Arr([]) && requestId == old(requestId) && (process != null ==> unchanged(process))
      ensures old(isConnected) ==>
        && requestId == old(requestId) + 1
        && tools == ListedTools(ReadOne(process.stdout, old(process.cursor)))
        && process.cursor == old(process.cursor) + 1
        && process.stdin == old(process.stdin) + [Request(old(requestId), "tools/list", Some(Obj(map[])))]
    {
      if !isConnected {
        return Arr([]);
      }
      var id := GetRequestId();
      var response := SendAndReadOne(process, Request(id, "tools/list", Some(Obj(map[]))));
      tools := ListedTools(response);
    }

    /** `call_tool`. */
    method CallTool(toolName: string, arguments: Value) returns (text: Text)
      requires Valid()
      modifies this`requestId, this`issued, process
      ensures Valid()
      ensures process != null ==> process.running == old(process.running) && process.signals == old(process.signals)
      ensures !old(isConnected) ==>
        text == Lit(NotConnected) && requestId == old(requestId) && (process != null ==> unchanged(process))
      ensures old(isConnected) ==>
        && requestId == old(requestId) + 1
        && text == ToolCallText(ReadOne(process.stdout, old(process.cursor)), CallFault)
        && process.cursor == old(process.cursor) + 1
        && process.stdin == old(process.stdin) + [ToolCallRequest(old(requestId), toolName, arguments)]
    {
      if !isConnected {
        return Lit(NotConnected);
      }
      var id := GetRequestId();
      var response := SendAndReadOne(process, ToolCallRequest(id, toolName, arguments));
      text := ToolCallText(response, CallFault);
    }

    /** `stop_server`. */
    method StopServer(exitsInGrace: bool)
      requires Valid()
      modifies this`isConnected, process
      ensures Valid()
      ensures StoppedIfRunning(process, exitsInGrace)
      ensures isConnected == (old(isConnected) && !(process != null && old(process.running)))
    {
      if process != null && process.running {
        process.Stop(exitsInGrace);
        isConnected := false;
      }
    }
  }
}
