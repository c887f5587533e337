/** The combined client of `mcp_oficial/git_file_client.py`: a filesystem server
    and a git server driven by one client, sharing one request-id counter, each
    talked to through the five-line reply loop that answers `roots/list` with the
    allowed directory. */
module GitFile {
  import opened Py
  import opened Json
  import opened Stdio
  import opened Rpc

  /** The directory the filesystem server is confined to. */
  const AllowedDir := "demo_workspace"
  /** `clientInfo.name` of both handshakes. */
  const ClientName := "demo-client"

  /** The path `create_file` sends: the allowed directory and a slash are put in
      front unless the directory name already occurs somewhere in the path. */
  function RelativePath(allowedDir: string, path: string): (r: string)
    ensures Contains(r, allowedDir)
    ensures Contains(path, allowedDir) ==> r == path
    ensures !Contains(path, allowedDir) ==> r == allowedDir + "/" + path
  {
    if Contains(path, allowedDir) then path
    else
      PrefixContained(allowedDir, "/" + path);
      assert allowedDir + "/" + path == allowedDir + ("/" + path);
      allowedDir + "/" + path
  }

  /** Applying the path rule to its own result changes nothing. */
  lemma RelativePathIdempotent(allowedDir: string, path: string)
    ensures RelativePath(allowedDir, RelativePath(allowedDir, path)) == RelativePath(allowedDir, path)
  {
  }

  /** The arguments of the `write_file` tool. */
  function WriteFileArguments(allowedDir: string, path: string, content: string): (a: Value)
    ensures a.Obj? && a.fields.Keys == {"path", "content"}
    ensures a.fields["content"] == Str(content)
    ensures a.fields["path"] == Str(RelativePath(allowedDir, path))
    ensures a.fields["path"].Str? && Contains(a.fields["path"].s, allowedDir)
  {
    Obj(map["path" := Str(RelativePath(allowedDir, path)), "content" := Str(content)])
  }

  /** The arguments of the `git_log` tool: the repository and at most five entries. */
  function LogArguments(repoPath: string): (a: Value)
    ensures a.Obj? && a.fields.Keys == {"repo_path", "max_count"}
    ensures a.fields["repo_path"] == Str(repoPath) && a.fields["max_count"] == Int(5)
  {
    Obj(map["repo_path" := Str(repoPath), "max_count" := Int(5)])
  }

  class MCPClient {
    var fsProcess: Process?
    var gitProcess: Process?
    /** The next id, shared by both servers. */
    var requestId: int
    const allowedDir: string
    /** `Path(allowed_dir).resolve()`, which depends on the working directory. */
    const resolvedDir: string
    /** Every id handed out so far, to either server, in order. */
    ghost var issued: seq<int>

    ghost predicate Valid()
      reads this
    {
      && requestId >= 1
      && (fsProcess != null ==> fsProcess != gitProcess)
      && (forall i :: 0 <= i < |issued| ==> 1 <= issued[i] < requestId)
      && (forall i, j :: 0 <= i < j < |issued| ==> issued[i] < issued[j])
    }

    /** The single root advertised to both servers. */
    function Root(): (r: Value)
      reads this
      ensures r == Obj(map["uri" := Str("file://" + resolvedDir), "name" := Str(allowedDir)])
    {
      Obj(map["uri" := Str("file://" + resolvedDir), "name" := Str(allowedDir)])
    }

    constructor (resolvedDir: string)
      ensures Valid() && fresh(this)
      ensures fsProcess == null && gitProcess == null && requestId == 1 && issued == []
      ensures allowedDir == AllowedDir && this.resolvedDir == resolvedDir
    {
      fsProcess := null;
      gitProcess := null;
      requestId := 1;
      allowedDir := AllowedDir;
      this.resolvedDir := resolvedDir;
      issued := [];
    }

    /** `_get_request_id`. */
    method GetRequestId() returns (id: int)
      requires Valid()
      modifies this`requestId, this`issued
      ensures Valid()
      ensures id == old(requestId) && requestId == old(requestId) + 1
      ensures issued == old(issued) + [id]
      ensures forall i :: 0 <= i < |old(issued)| ==> old(issued)[i] < id
    {
      id := requestId;
      requestId := requestId + 1;
      issued := issued + [id];
    }

    /** Ids used with the filesystem server and with the git server never clash. */
    lemma IdsNeverRepeat()
      requires Valid()
      ensures forall i, j :: 0 <= i < |issued| && 0 <= j < |issued| && i != j ==> issued[i] != issued[j]
    {
      forall i, j | 0 <= i < |issued| && 0 <= j < |issued| && i != j
        ensures issued[i] != issued[j]
      {
        if i < j { assert issued[i] < issued[j]; } else { assert issued[j] < issued[i]; }
      }
    }

    /** `_send_message(process, message)`. */
    method SendMessage(p: Process, message: Object) returns (reply: Option<Object>)
      modifies p`stdin, p`cursor
      ensures var ex := ReplyLoop(p.stdout, old(p.cursor), Get(message, "id"), MaxAttempts);
        && reply == ex.reply
        && p.cursor == old(p.cursor) + ex.consumed
        && p.stdin == old(p.stdin) + [message] + AnswersIn(p.stdout, old(p.cursor), ex.consumed, Root())
    {
      reply := SendAndSelect(p, message, Root());
    }

    /** `_initialize_server(process, name)`. */
    method InitializeServer(p: Process) returns (ok: bool)
      requires Valid()
      modifies this`requestId, this`issued, p`stdin, p`cursor
      ensures Valid() && requestId == old(requestId) + 1
      ensures var init := InitializeRequest(old(requestId), RootsAndSampling, ClientName);
        var ex := ReplyLoop(p.stdout, old(p.cursor), Int(old(requestId)), MaxAttempts);
        && ok == HandshakeAccepted(ex.reply)
        && p.cursor == old(p.cursor) + ex.consumed
        && p.stdin == old(p.stdin)
             + HandshakeSent(init, AnswersIn(p.stdout, old(p.cursor), ex.consumed, Root()),
                             ex.reply, InitializedNotification(None))
    {
      var id := GetRequestId();
      var init := InitializeRequest(id, RootsAndSampling, ClientName);
      assert Get(init, "id") == Int(id);
      ok := LoopHandshake(p, init, InitializedNotification(None), Root());
    }

    /** `start_fs_server`: spawn, check the child survived the pause, then the
        handshake. A failed spawn leaves the previous process in place. */
    method StartFsServer(launch: Launch) returns (ok: bool)
      requires Valid()
      modifies this`fsProcess, this`requestId, this`issued
      ensures Valid()
      ensures launch.spawnFails ==> !ok && fsProcess == old(fsProcess) && requestId == old(requestId)
      ensures !launch.spawnFails ==> fresh(fsProcess) && fsProcess.stdout == launch.script
      ensures !launch.spawnFails ==>
        && fsProcess.running == launch.alive && fsProcess.signals == []
        && (!launch.alive ==> requestId == old(requestId) && fsProcess.cursor == 0 && fsProcess.stdin == [])
        && (launch.alive ==>
              var ex := ReplyLoop(launch.script, 0, Int(old(requestId)), MaxAttempts);
              && requestId == old(requestId) + 1
              && fsProcess.cursor == ex.consumed
              && fsProcess.stdin
                   == HandshakeSent(InitializeRequest(old(requestId), RootsAndSampling, ClientName),
                                    AnswersIn(launch.script, 0, ex.consumed, Root()), ex.reply,
                                    InitializedNotification(None)))
      ensures ok <==> !launch.spawnFails && launch.alive
                      && HandshakeAccepted(ReplyLoop(launch.script, 0, Int(old(requestId)), MaxAttempts).reply)
    {
      if launch.spawnFails {
        return false;
      }
      var p := new Process(launch.script, launch.alive);
      fsProcess := p;
      if !p.running {
        return false;
      }
      ok := InitializeServer(p);
    }

    /** `start_git_server_after_repo`: as `start_fs_server`, for the git server
        (the repository path only reaches the command line). */
    method StartGitServer(launch: Launch) returns (ok: bool)
      requires Valid()
      modifies this`gitProcess, this`requestId, this`issued
      ensures Valid()
      ensures launch.spawnFails ==> !ok && gitProcess == old(gitProcess) && requestId == old(requestId)
      ensures !launch.spawnFails ==> fresh(gitProcess) && gitProcess.stdout == launch.script
      ensures !launch.spawnFails ==>
        && gitProcess.running == launch.alive && gitProcess.signals == []
        && (!launch.alive ==> requestId == old(requestId) && gitProcess.cursor == 0 && gitProcess.stdin == [])
        && (launch.alive ==>
              var ex := ReplyLoop(launch.script, 0, Int(old(requestId)), MaxAttempts);
              && requestId == old(requestId) + 1
              && gitProcess.cursor == ex.consumed
              && gitProcess.stdin
                   == HandshakeSent(InitializeRequest(old(requestId), RootsAndSampling, ClientName),
                                    AnswersIn(launch.script, 0, ex.consumed, Root()), ex.reply,
                                    InitializedNotification(None)))
      ensures ok <==> !launch.spawnFails && launch.alive
                      && HandshakeAccepted(ReplyLoop(launch.script, 0, Int(old(requestId)), MaxAttempts).reply)
    {
      if launch.spawnFails {
        return false;
      }
      var p := new Process(launch.script, launch.alive);
      gitProcess := p;
      if !p.running {
        return false;
      }
      ok := InitializeServer(p);
    }

    /** `create_file`: nothing without a filesystem server; otherwise a
        `write_file` call whose path lies under the allowed directory. */
    method CreateFile(path: string, content: string) returns (response: Option<Object>)
      requires Valid()
      modifies this`requestId, this`issued, fsProcess
      ensures Valid()
      ensures gitProcess != null ==> unchanged(gitProcess)
      ensures fsProcess == null ==> response == None && requestId == old(requestId)
      ensures fsProcess != null ==>
        var ex := ReplyLoop(fsProcess.stdout, old(fsProcess.cursor), Int(old(requestId)), MaxAttempts);
        && requestId == old(requestId) + 1
        && response == ex.reply
        && fsProcess.cursor == old(fsProcess.cursor) + ex.consumed
        && fsProcess.running == old(fsProcess.running) && fsProcess.signals == old(fsProcess.signals)
        && fsProcess.stdin == old(fsProcess.stdin)
             + [ToolCallRequest(old(requestId), "write_file", WriteFileArguments(allowedDir, path, content))]
             + AnswersIn(fsProcess.stdout, old(fsProcess.cursor), ex.consumed, Root())
    {
      if fsProcess == null {
        return None;
      }
      var id := GetRequestId();
      response := SendMessage(fsProcess, ToolCallRequest(id, "write_file", WriteFileArguments(allowedDir, path, content)));
    }

    /** The process `list_tools` talks to: the filesystem server for `"fs"`,
        the git server for anything else. */
    function Selected(serverType: string): (p: Process?)
      reads this
      ensures serverType == "fs" ==> p == fsProcess
      ensures serverType != "fs" ==> p == gitProcess
    {
      if serverType == "fs" then fsProcess else gitProcess
    }

    /** `list_tools(server_type)`: the raw reply to `tools/list`. */
    method ListTools(serverType: string) returns (response: Option<Object>)
      requires Valid()
      modifies this`requestId, this`issued, Selected(serverType)
      ensures Valid()
      ensures Selected(serverType) == null ==> response == None && requestId == old(requestId)
      ensures Selected(serverType) != null ==>
        var p := Selected(serverType);
        var ex := ReplyLoop(p.stdout, old(p.cursor), Int(old(requestId)), MaxAttempts);
        && requestId == old(requestId) + 1
        && response == ex.reply
        && p.cursor == old(p.cursor) + ex.consumed
        && p.running == old(p.running) && p.signals == old(p.signals)
        && p.stdin == old(p.stdin) + [Request(old(requestId), "tools/list", None)]
                        + AnswersIn(p.stdout, old(p.cursor), ex.consumed, Root())
    {
      var p := if serverType == "fs" then fsProcess else gitProcess;
      if p == null {
        return None;
      }
      var id := GetRequestId();
      response := SendMessage(p, Request(id, "tools/list", None));
    }

    /** `git_status`: nothing without a git server. */
    method GitStatus(repoPath: string) returns (response: Option<Object>)
      requires Valid()
      modifies this`requestId, this`issued, gitProcess
      ensures Valid()
      ensures fsProcess != null ==> unchanged(fsProcess)
      ensures gitProcess == null ==> response == None && requestId == old(requestId)
      ensures gitProcess != null ==>
        var ex := ReplyLoop(gitProcess.stdout, old(gitProcess.cursor), Int(old(requestId)), MaxAttempts);
        && requestId == old(requestId) + 1
        && response == ex.reply
        && gitProcess.cursor == old(gitProcess.cursor) + ex.consumed
        && gitProcess.running == old(gitProcess.running) && gitProcess.signals == old(gitProcess.signals)
        && gitProcess.stdin == old(gitProcess.stdin)
             + [ToolCallRequest(old(requestId), "git_status", Obj(map["repo_path" := Str(repoPath)]))]
             + AnswersIn(gitProcess.stdout, old(gitProcess.cursor), ex.consumed, Root())
    {
      if gitProcess == null {
        return None;
      }
      var id := GetRequestId();
      response := SendMessage(gitProcess, ToolCallRequest(id, "git_status", Obj(map["repo_path" := Str(repoPath)])));
    }

    /** `git_log`: nothing without a git server; otherwise the last five commits. */
    method GitLog(repoPath: string) returns (response: Option<Object>)
      requires Valid()
      modifies this`requestId, this`issued, gitProcess
      ensures Valid()
      ensures fsProcess != null ==> unchanged(fsProcess)
      ensures gitProcess == null ==> response == None && requestId == old(requestId)
      ensures gitProcess != null ==>
        var ex := ReplyLoop(gitProcess.stdout, old(gitProcess.cursor), Int(old(requestId)), MaxAttempts);
        && requestId == old(requestId) + 1
        && response == ex.reply
        && gitProcess.cursor == old(gitProcess.cursor) + ex.consumed
        && gitProcess.running == old(gitProcess.running) && gitProcess.signals == old(gitProcess.signals)
        && gitProcess.stdin == old(gitProcess.stdin)
             + [ToolCallRequest(old(requestId), "git_log", LogArguments(repoPath))]
             + AnswersIn(gitProcess.stdout, old(gitProcess.cursor), ex.consumed, Root())
    {
      if gitProcess == null {
        return None;
      }
      var id := GetRequestId();
      response := SendMessage(gitProcess, ToolCallRequest(id, "git_log", LogArguments(repoPath)));
    }

    /** `stop_servers`: the filesystem server, then the git server, each stopped
        only while it runs; `fsExits`/`gitExits` say whether each child exits
        within the wait. */
    method StopServers(fsExits: bool, gitExits: bool)
      requires Valid()
      modifies fsProcess, gitProcess
      ensures StoppedIfRunning(fsProcess, fsExits) && StoppedIfRunning(gitProcess, gitExits)
    {
      var processes := [fsProcess, gitProcess];
      var graces := [fsExits, gitExits];
      var i := 0;
      while i < |processes|
        invariant 0 <= i <= |processes|
        invariant forall j :: 0 <= j < i ==> StoppedIfRunning(processes[j], graces[j])
        invariant forall j :: i <= j < |processes| && processes[j] != null ==> unchanged(processes[j])
      {
        var p := processes[i];
        if p != null && p.running {
          p.Stop(graces[i]);
        }
        i := i + 1;
      }
      assert StoppedIfRunning(processes[0], graces[0]) && StoppedIfRunning(processes[1], graces[1]);
    }
  }
}
