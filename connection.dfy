/** The general MCP client of `clients/connection.py`: one child process, a
    request-id counter, the initialize handshake, the five-line reply loop with
    its `roots/list` answers, and `tools/list` / `tools/call`. */
module Connection {
  import opened Py
  import opened Json
  import opened Stdio
  import opened Rpc

  const NotConnected := "❌  Server no está conectado"
  const CallFault := "❌ Error comunicándose con : "
  /** The root the client advertises in answer to `roots/list`. */
  const RootName := "LLM_PROYECTO1"

  /** Server names whose start does not look for a script file first. */
  predicate BuiltIn(serverName: string)
  {
    serverName == "git" || serverName == "filesystem" || serverName == "remote"
  }

  /** `start_server` gets as far as spawning: the script file (the last
      argument) exists unless the server is built in, and the spawn succeeds. */
  predicate Spawned(serverName: string, args: seq<string>, launch: Launch)
  {
    |args| > 0 && (BuiltIn(serverName) || launch.fileExists) && !launch.spawnFails
  }

  class Client {
    var process: Process?
    var isConnected: bool
    /** The next id `_get_request_id` hands out. */
    var requestId: int
    /** `str(Path(__file__).parent)`, the directory advertised as the root. */
    const moduleDir: string
    /** Every id handed out so far, in order. */
    ghost var issued: seq<int>

    ghost predicate Valid()
      reads this
    {
      && requestId >= 1
      && (isConnected ==> process != null)
      && (forall i :: 0 <= i < |issued| ==> 1 <= issued[i] < requestId)
      && (forall i, j :: 0 <= i < j < |issued| ==> issued[i] < issued[j])
    }

    function Root(): (r: Value)
      ensures r == Obj(map["uri" := Str(moduleDir), "name" := Str(RootName)])
    {
      Obj(map["uri" := Str(moduleDir), "name" := Str(RootName)])
    }

    constructor (moduleDir: string)
      ensures Valid() && fresh(this)
      ensures process == null && !isConnected && requestId == 1 && issued == []
      ensures this.moduleDir == moduleDir
    {
      process := null;
      isConnected := false;
      requestId := 1;
      this.moduleDir := moduleDir;
      issued := [];
    }

    /** `_get_request_id`: the current counter, then the counter plus one. */
    method GetRequestId() returns (id: int)
      requires Valid()
      modifies this`requestId, this`issued
      ensures Valid()
      ensures id == old(requestId) && requestId == old(requestId) + 1
      ensures issued == old(issued) + [id]
      ensures forall i :: 0 <= i < |old(issued)| ==> old(issued)[i] < id
    {
      id := requestId;
      requestId := requestId + 1;
      issued := issued + [id];
    }

    /** No id is handed out twice. */
    lemma IdsNeverRepeat()
      requires Valid()
      ensures forall i, j :: 0 <= i < |issued| && 0 <= j < |issued| && i != j ==> issued[i] != issued[j]
    {
      forall i, j | 0 <= i < |issued| && 0 <= j < |issued| && i != j
        ensures issued[i] != issued[j]
      {
        if i < j { assert issued[i] < issued[j]; } else { assert issued[j] < issued[i]; }
      }
    }

    /** `_send_message`. */
    method SendMessage(message: Object) returns (reply: Option<Object>)
      requires process != null
      modifies process`stdin, process`cursor
      ensures var ex := ReplyLoop(process.stdout, old(process.cursor), Get(message, "id"), MaxAttempts);
        && reply == ex.reply
        && process.cursor == old(process.cursor) + ex.consumed
        && process.stdin == old(process.stdin) + [message] + AnswersIn(process.stdout, old(process.cursor), ex.consumed, Root())
    {
      reply := SendAndSelect(process, message, Root());
    }

    /** `_initialize_mcp`: the `initialize` request under a fresh id, then the
        id-less notification only once the reply is accepted. */
    method InitializeMcp(serverName: string) returns (ok: bool)
      requires Valid() && process != null
      modifies this`requestId, this`issued, process`stdin, process`cursor
      ensures Valid() && requestId == old(requestId) + 1
      ensures var init := InitializeRequest(old(requestId), RootsAndSampling, serverName + "-client");
        var ex := ReplyLoop(process.stdout, old(process.cursor), Int(old(requestId)), MaxAttempts);
        && ok == HandshakeAccepted(ex.reply)
        && process.cursor == old(process.cursor) + ex.consumed
        && process.stdin == old(process.stdin)
             + HandshakeSent(init, AnswersIn(process.stdout, old(process.cursor), ex.consumed, Root()),
                             ex.reply, InitializedNotification(None))
    {
      var id := GetRequestId();
      var init := InitializeRequest(id, RootsAndSampling, serverName + "-client");
      assert Get(init, "id") == Int(id);
      ok := LoopHandshake(process, init, InitializedNotification(None), Root());
    }

    /** `start_server`: look for the script, spawn, check the child survived the
        pause, then run the handshake. `is_connected` is only ever raised here. */
    method StartServer(serverName: string, args: seq<string>, launch: Launch) returns (ok: bool)
      requires Valid()
      modifies this
      ensures Valid()
      ensures Spawned(serverName, args, launch) ==> fresh(process) && process.stdout == launch.script
      ensures !Spawned(serverName, args, launch) ==>
        process == old(process) && requestId == old(requestId) && (process != null ==> unchanged(process))
      ensures Spawned(serverName, args, launch) ==>
        && process.running == launch.alive && process.signals == []
        && (!launch.alive ==> requestId == old(requestId) && process.cursor == 0 && process.stdin == [])
        && (launch.alive ==>
              var ex := ReplyLoop(launch.script, 0, Int(old(requestId)), MaxAttempts);
              && requestId == old(requestId) + 1
              && process.cursor == ex.consumed
              && process.stdin
                   == HandshakeSent(InitializeRequest(old(requestId), RootsAndSampling, serverName + "-client"),
                                    AnswersIn(launch.script, 0, ex.consumed, Root()), ex.reply,
                                    InitializedNotification(None)))
      ensures ok <==> Spawned(serverName, args, launch) && launch.alive
                      && HandshakeAccepted(ReplyLoop(launch.script, 0, Int(old(requestId)), MaxAttempts).reply)
      ensures isConnected == (old(isConnected) || ok)
    {
      if !BuiltIn(serverName) && (|args| == 0 || !launch.fileExists) {
        return false;
      }
      if |args| == 0 || launch.spawnFails {
        return false;
      }
      var p := new Process(launch.script, launch.alive);
      process := p;
      if !p.running {
        return false;
      }
      ok := InitializeMcp(serverName);
      if ok {
        isConnected := true;
      }
    }

    /** `list_tools`: `[]` without a connection (nothing written, no id used),
        otherwise `result.tools` of the reply to `tools/list`. */
    method ListTools() returns (tools: Value)
      requires Valid()
      modifies this`requestId, this`issued, process
      ensures Valid()
      ensures process != null ==> process.running == old(process.running) && process.signals == old(process.signals)
      ensures !old(isConnected) ==>
        tools == Arr([]) && requestId == old(requestId) && (process != null ==> unchanged(process))
      ensures old(isConnected) ==>
        var ex := ReplyLoop(process.stdout, old(process.cursor), Int(old(requestId)), MaxAttempts);
        && requestId == old(requestId) + 1
        && tools == ToolsOf(ex.reply)
        && process.cursor == old(process.cursor) + ex.consumed
        && process.stdin == old(process.stdin) + [Request(old(requestId), "tools/list", None)]
                              + AnswersIn(process.stdout, old(process.cursor), ex.consumed, Root())
    {
      if !isConnected {
        return Arr([]);
      }
      var id := GetRequestId();
      var response := SendMessage(Request(id, "tools/list", None));
      tools := ToolsOf(response);
    }

    /** `call_tool`: a fixed refusal without a connection (nothing written, no
        id used), otherwise the normalised reply to `tools/call`. */
    method CallTool(toolName: string, arguments: Value) returns (text: Text)
      requires Valid()
      modifies this`requestId, this`issued, process
      ensures Valid()
      ensures process != null ==> process.running == old(process.running) && process.signals == old(process.signals)
      ensures !old(isConnected) ==>
        text == Lit(NotConnected) && requestId == old(requestId) && (process != null ==> unchanged(process))
      ensures old(isConnected) ==>
        var ex := ReplyLoop(process.stdout, old(process.cursor), Int(old(requestId)), MaxAttempts);
        && requestId == old(requestId) + 1
        && text == ToolCallText(ex.reply, CallFault)
        && process.cursor == old(process.cursor) + ex.consumed
        && process.stdin == old(process.stdin) + [ToolCallRequest(old(requestId), toolName, arguments)]
                              + AnswersIn(process.stdout, old(process.cursor), ex.consumed, Root())
    {
      if !isConnected {
        return Lit(NotConnected);
      }
      var id := GetRequestId();
      var response := SendMessage(ToolCallRequest(id, toolName, arguments));
      text := ToolCallText(response, CallFault);
    }

    /** `stop_server`: only a live child is signalled; a kill follows only when
        the five-second wait times out; `is_connected` drops only then. */
    method StopServer(exitsInGrace: bool)
      requires Valid()
      modifies this`isConnected, process
      ensures Valid()
      ensures old(process) == process
      ensures process != null && old(process.running) ==>
        && !isConnected && !process.running
        && process.signals == old(process.signals) + [Terminate] + (if exitsInGrace then [] else [Kill])
      ensures !(process != null && old(process.running)) ==>
        isConnected == old(isConnected) && (process != null ==> unchanged(process))
    {
      if process != null && process.running {
        process.Stop(exitsInGrace);
        isConnected := false;
      }
    }
  }

  /** A server that asks for its roots before answering an erroneous `tools/call`:
      the roots request is answered and the error comes back as text. */
  lemma RootsThenErrorScenario(reqId: int, id: int, code: int, root: Value)
    ensures var rootsRequest := map["jsonrpc" := Str("2.0"), "id" := Int(reqId), "method" := Str("roots/list")];
      var script := [Msg(rootsRequest), Msg(ErrorResponse(Int(id), code, "boom"))];
      var ex := ReplyLoop(script, 0, Int(id), MaxAttempts);
      && ToolCallText(ex.reply, CallFault) == Lit("❌ Error: boom")
      && AnswersIn(script, 0, ex.consumed, root) == [RootsResponse(Int(reqId), root)]
  {
    var rootsRequest := map["jsonrpc" := Str("2.0"), "id" := Int(reqId), "method" := Str("roots/list")];
    var reply := ErrorResponse(Int(id), code, "boom");
    assert "error" in reply && "method" !in reply;
    RootsListBeforeReply(Int(reqId), id, reply, root);
    ToolCallTextExamples(Int(id), "", [], code, "boom", CallFault);
  }
}
