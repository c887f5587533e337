/** The JSON-RPC 2.0 exchanges the MCP clients perform over a child's stdio:
    message construction, the reply-selection loop that answers server-initiated
    `roots/list` requests, the single-read exchange, the initialize handshake and
    the normalisation of a `tools/call` reply into text. */
module Rpc {
  import opened Py
  import opened Json
  import opened Stdio

  /** MCP revision announced in every `initialize` request. */
  const ProtocolVersion := "2024-11-05"
  /** Lines the reply-selection loop reads at most for one request. */
  const MaxAttempts := 5

  // ---------------------------------------------------------------- messages

  /** `{"jsonrpc": "2.0", "id": id, "method": method[, "params": params]}`. */
  function Request(id: int, name: string, params: Option<Value>): (m: Object)
    ensures "id" in m && "method" in m && "jsonrpc" in m
    ensures m["id"] == Int(id) && m["method"] == Str(name) && m["jsonrpc"] == Str("2.0")
    ensures "params" in m <==> params.Some?
    ensures params.Some? ==> m["params"] == params.value
    ensures "result" !in m && "error" !in m
  {
    var base := map["jsonrpc" := Str("2.0"), "id" := Int(id), "method" := Str(name)];
    if params.Some? then base["params" := params.value] else base
  }

  /** A notification: a method and no `id`, so no reply is expected. */
  function Notification(name: string, params: Option<Value>): (m: Object)
    ensures "id" !in m && "method" in m && m["method"] == Str(name)
    ensures "params" in m <==> params.Some?
  {
    var base := map["jsonrpc" := Str("2.0"), "method" := Str(name)];
    if params.Some? then base["params" := params.value] else base
  }

  /** `{"roots": {"listChanged": True}, "sampling": {}}`. */
  const RootsAndSampling: Value :=
    Obj(map["roots" := Obj(map["listChanged" := Bool(true)]), "sampling" := Obj(map[])])

  /** The `initialize` request of the MCP lifecycle. */
  function InitializeRequest(id: int, capabilities: Value, clientName: string): (m: Object)
    ensures "id" in m && m["id"] == Int(id) && "method" in m && m["method"] == Str("initialize")
    ensures "params" in m && m["params"].Obj? && "protocolVersion" in m["params"].fields
    ensures m["params"].fields["protocolVersion"] == Str(ProtocolVersion)
  {
    Request(id, "initialize", Some(Obj(map[
      "protocolVersion" := Str(ProtocolVersion),
      "capabilities" := capabilities,
      "clientInfo" := Obj(map["name" := Str(clientName), "version" := Str("1.0.0")])])))
  }

  /** `notifications/initialized`, sent once the `initialize` reply is accepted. */
  function InitializedNotification(params: Option<Value>): (m: Object)
    ensures "id" !in m
  {
    Notification("notifications/initialized", params)
  }

  /** `tools/call` with the tool's name and arguments. */
  function ToolCallRequest(id: int, name: string, arguments: Value): (m: Object)
    ensures "id" in m && m["id"] == Int(id) && "method" in m && m["method"] == Str("tools/call")
    ensures "params" in m && m["params"] == Obj(map["name" := Str(name), "arguments" := arguments])
  {
    Request(id, "tools/call", Some(Obj(map["name" := Str(name), "arguments" := arguments])))
  }

  function ResultResponse(id: Value, result: Value): Object
  {
    map["jsonrpc" := Str("2.0"), "id" := id, "result" := result]
  }

  function ErrorResponse(id: Value, code: int, message: string): Object
  {
    map["jsonrpc" := Str("2.0"), "id" := id,
        "error" := Obj(map["code" := Int(code), "message" := Str(message)])]
  }

  /** The reply to `roots/list`: the request's id and a one-element root list. */
  function RootsResponse(id: Value, root: Value): (r: Object)
    ensures "id" in r && r["id"] == id && "result" in r && "error" !in r
    ensures r["result"] == Obj(map["roots" := Arr([root])])
  {
    ResultResponse(id, Obj(map["roots" := Arr([root])]))
  }

  // --------------------------------------------------- the reply-selection loop

  /** A line carrying both `method` and `id` is a request from the server. */
  predicate IsServerRequest(m: Object)
  {
    "method" in m && "id" in m
  }

  /** `"id" in response and response["id"] == message.get("id")`. */
  predicate RepliesTo(m: Object, expected: Value)
  {
    "id" in m && PyEq(m["id"], expected)
  }

  /** The loop's acceptance test once server requests are set aside. */
  predicate Qualifies(m: Object, expected: Value)
  {
    RepliesTo(m, expected) || "result" in m || "error" in m
  }

  /** A message the loop returns as the reply. */
  predicate Selected(m: Object, expected: Value)
  {
    !IsServerRequest(m) && Qualifies(m, expected)
  }

  /** A line the loop reads past: a server request, or a message it does not accept. */
  predicate Skipped(l: Line, expected: Value)
  {
    l.Msg? && !Selected(l.m, expected)
  }

  /** How the loop treats a line, in the order `_send_message` tests it. */
  datatype LineKind = ReadFailed | ServerRequest | Reply | Ignored

  function KindOf(l: Line, expected: Value): (kind: LineKind)
    ensures kind == ReadFailed <==> !l.Msg?
    ensures kind == Reply ==> Selected(l.m, expected)
  {
    if !l.Msg? then ReadFailed
    else if IsServerRequest(l.m) then ServerRequest
    else if Qualifies(l.m, expected) then Reply
    else Ignored
  }

  /** The four kinds partition the lines: a failed read, a server request, the
      reply the loop selects, and a message it reads past. */
  lemma KindOfMeaning(l: Line, expected: Value)
    ensures var kind := KindOf(l, expected);
      && (kind == ReadFailed <==> !l.Msg?)
      && (kind == ServerRequest <==> l.Msg? && IsServerRequest(l.m))
      && (kind == Reply <==> l.Msg? && Selected(l.m, expected))
      && (kind == Ignored <==> Skipped(l, expected) && !IsServerRequest(l.m))
  {
  }

  /** What the server-request handler writes for an inbound line: one reply to a
      `roots/list` request, nothing for any other method. */
  function Answer(l: Line, root: Value): (r: seq<Object>)
    ensures |r| <= 1
    ensures |r| == 1 <==> l.Msg? && Get(l.m, "method") == Str("roots/list") && "id" in l.m
    ensures |r| == 1 ==> r[0] == RootsResponse(l.m["id"], root)
  {
    if l.Msg? && Get(l.m, "method") == Str("roots/list") && "id" in l.m
    then [RootsResponse(l.m["id"], root)]
    else []
  }

  /** Everything the handler writes while lines `k .. k + count - 1` are read. */
  function AnswersIn(script: seq<Line>, k: nat, count: nat, root: Value): seq<Object>
    decreases count
  {
    if count == 0 then []
    else Answer(LineAt(script, k), root) + AnswersIn(script, k + 1, count - 1, root)
  }

  /** Reading one more line appends the handler's answer to it. */
  lemma {:induction false} AnswersInSnoc(script: seq<Line>, k: nat, count: nat, root: Value)
    ensures AnswersIn(script, k, count + 1, root)
      == AnswersIn(script, k, count, root) + Answer(LineAt(script, k + count), root)
    decreases count
  {
    if count > 0 {
      AnswersInSnoc(script, k + 1, count - 1, root);
    }
  }

  /** The writes so far, followed by the answer to the next line, are the
      writes up to and including that line. */
  lemma AnswersInExtend(before: seq<Object>, script: seq<Line>, k: nat, count: nat, root: Value)
    ensures before + AnswersIn(script, k, count, root) + Answer(LineAt(script, k + count), root)
      == before + AnswersIn(script, k, count + 1, root)
  {
    AnswersInSnoc(script, k, count, root);
  }

  /** The outcome of one request: the reply (None when the client gives up) and
      how many lines were read. What the client writes back meanwhile is
      `AnswersIn` over those lines. */
  datatype Exchange = Exchange(reply: Option<Object>, consumed: nat)

  /** The `for attempt in range(5)` loop, reading from line `k` with `attempts`
      left: a failed read ends it with no reply, an accepted message ends it with
      that reply, and a server request or an unaccepted message is read past. */
  function ReplyLoop(script: seq<Line>, k: nat, expected: Value, attempts: nat): (ex: Exchange)
    ensures ex.consumed <= attempts && (attempts > 0 ==> ex.consumed > 0)
    ensures ex.reply.Some? ==> Selected(ex.reply.value, expected)
    decreases attempts
  {
    if attempts == 0 then Exchange(None, 0)
    else
      var l := LineAt(script, k);
      var kind := KindOf(l, expected);
      if kind == ReadFailed then Exchange(None, 1)
      else if kind == Reply then Exchange(Some(l.m), 1)
      else
        var rest := ReplyLoop(script, k + 1, expected, attempts - 1);
        Exchange(rest.reply, rest.consumed + 1)
  }

  /** One step of the loop: how the exchange from line `k` follows from the one
      from line `k + 1`. */
  lemma ReplyLoopStep(script: seq<Line>, k: nat, expected: Value, n: nat)
    requires n > 0
    ensures var ex := ReplyLoop(script, k, expected, n);
      var next := ReplyLoop(script, k + 1, expected, n - 1);
      var l := LineAt(script, k);
      var kind := KindOf(l, expected);
      && (kind == ReadFailed ==> ex == Exchange(None, 1))
      && (kind == Reply ==> ex == Exchange(Some(l.m), 1))
      && (kind != ReadFailed && kind != Reply ==> ex == Exchange(next.reply, next.consumed + 1))
  {
  }

  /** The loop reads at most `attempts` lines and at least one; every line but
      the last it read was skipped; it stops early only at a failed read or at
      the message it returns; the returned message is the last line read and
      passes the acceptance test; when nothing is returned, no line read passed it. */
  lemma {:induction false} ReplyLoopSelection(script: seq<Line>, k: nat, expected: Value, n: nat)
    ensures var ex := ReplyLoop(script, k, expected, n);
      && ex.consumed <= n
      && (n > 0 ==> ex.consumed > 0)
      && (forall j :: k <= j < k + ex.consumed - 1 ==> Skipped(LineAt(script, j), expected))
      && (ex.consumed < n ==> !Skipped(LineAt(script, k + ex.consumed - 1), expected))
      && (ex.reply.Some? ==>
            LineAt(script, k + ex.consumed - 1) == Msg(ex.reply.value) && Selected(ex.reply.value, expected))
      && (ex.reply.None? && ex.consumed < n ==> !LineAt(script, k + ex.consumed - 1).Msg?)
      && (ex.reply.None? ==>
            forall j :: k <= j < k + ex.consumed ==> !(LineAt(script, j).Msg? && Selected(LineAt(script, j).m, expected)))
    decreases n
  {
    if n > 0 && LineAt(script, k).Msg? && !Selected(LineAt(script, k).m, expected) {
      ReplyLoopSelection(script, k + 1, expected, n - 1);
    }
  }

  /** Only server requests are answered: a line the loop accepts, ignores or
      fails to read gets nothing written back. */
  lemma AnswersOnlyServerRequests(l: Line, expected: Value, root: Value)
    requires KindOf(l, expected) != ServerRequest
    ensures Answer(l, root) == []
  {
  }

  /** Every answer the handler writes echoes a request id. */
  lemma {:induction false} AnswersCarryIds(script: seq<Line>, k: nat, count: nat, root: Value)
    ensures forall w :: w in AnswersIn(script, k, count, root) ==> "id" in w && "result" in w
    decreases count
  {
    if count > 0 {
      AnswersCarryIds(script, k + 1, count - 1, root);
    }
  }

  /** A `roots/list` request arriving before the reply is answered once, with
      its own id, and is not taken for the reply. */
  lemma RootsListBeforeReply(reqId: Value, id: int, reply: Object, root: Value)
    requires Selected(reply, Int(id))
    ensures var request := map["jsonrpc" := Str("2.0"), "id" := reqId, "method" := Str("roots/list")];
      var script := [Msg(request), Msg(reply)];
      && ReplyLoop(script, 0, Int(id), MaxAttempts) == Exchange(Some(reply), 2)
      && AnswersIn(script, 0, 2, root) == [RootsResponse(reqId, root)]
  {
    var request := map["jsonrpc" := Str("2.0"), "id" := reqId, "method" := Str("roots/list")];
    var script := [Msg(request), Msg(reply)];
    assert Answer(LineAt(script, 1), root) == [] by {
      AnswersOnlyServerRequests(LineAt(script, 1), Int(id), root);
    }
  }

  /** Caution: a `result` carrying another request's id is accepted as the reply. */
  lemma ForeignResultAccepted(id: int, other: int, result: Value)
    requires other != id
    ensures var stale := ResultResponse(Int(other), result);
      ReplyLoop([Msg(stale)], 0, Int(id), MaxAttempts).reply == Some(stale)
  {
  }

  /** Five unrelated notifications exhaust the loop: no reply, a sixth line unread. */
  lemma GivesUpAfterFiveLines(note: Object, reply: Object, id: int)
    requires "id" !in note && "result" !in note && "error" !in note
    ensures var script := [Msg(note), Msg(note), Msg(note), Msg(note), Msg(note), Msg(reply)];
      ReplyLoop(script, 0, Int(id), MaxAttempts) == Exchange(None, 5)
  {
  }

  // ------------------------------------------------------------- the exchanges

  /** `_handle_server_request`: reply to `roots/list`, ignore any other method. */
  method AnswerServerRequest(p: Process, request: Object, root: Value)
    modifies p`stdin
    ensures p.stdin == old(p.stdin) + Answer(Msg(request), root)
  {
    if Get(request, "method") == Str("roots/list") && "id" in request {
      p.Write(RootsResponse(request["id"], root));
    }
  }

  /** One pass of the loop body: read a line and, when it is a server request,
      hand it to the server-request handler. */
  method ReadAndAnswer(p: Process, expected: Value, root: Value) returns (line: Line)
    modifies p`stdin, p`cursor
    ensures line == LineAt(p.stdout, old(p.cursor))
    ensures p.cursor == old(p.cursor) + 1
    ensures p.stdin == old(p.stdin) + Answer(line, root)
  {
    line := p.ReadLine();
    if KindOf(line, expected) == ServerRequest {
      AnswerServerRequest(p, line.m, root);
    } else {
      AnswersOnlyServerRequests(line, expected, root);
    }
  }

  /** The reading half of `_send_message` in the looping clients: read up to
      `n` lines, answering server requests, until a reply is accepted. */
  method AwaitReply(p: Process, expected: Value, root: Value, n: nat) returns (reply: Option<Object>)
    modifies p`stdin, p`cursor
    ensures var ex := ReplyLoop(p.stdout, old(p.cursor), expected, n);
      && reply == ex.reply
      && p.cursor == old(p.cursor) + ex.consumed
      && p.stdin == old(p.stdin) + AnswersIn(p.stdout, old(p.cursor), ex.consumed, root)
  {
    ghost var full := ReplyLoop(p.stdout, p.cursor, expected, n);
    var attempt := 0;
    while attempt < n
      invariant 0 <= attempt <= n
      invariant p.cursor == old(p.cursor) + attempt
      invariant p.stdin == old(p.stdin) + AnswersIn(p.stdout, old(p.cursor), attempt, root)
      invariant full.reply == ReplyLoop(p.stdout, p.cursor, expected, n - attempt).reply
      invariant full.consumed == attempt + ReplyLoop(p.stdout, p.cursor, expected, n - attempt).consumed
    {
      ReplyLoopStep(p.stdout, p.cursor, expected, n - attempt);
      AnswersInExtend(old(p.stdin), p.stdout, old(p.cursor), attempt, root);
      var line := ReadAndAnswer(p, expected, root);
      assert p.stdin == old(p.stdin) + AnswersIn(p.stdout, old(p.cursor), attempt + 1, root);
      var kind := KindOf(line, expected);
      if kind == ReadFailed {
        assert full.consumed == attempt + 1;
        return None;
      } else if kind == Reply {
        assert full.consumed == attempt + 1;
        return Some(line.m);
      }
      attempt := attempt + 1;
    }
    reply := None;
  }

  /** `_send_message` of the looping clients: write the request, then wait for
      the reply whose selection ReplyLoop specifies. */
  method SendAndSelect(p: Process, message: Object, root: Value) returns (reply: Option<Object>)
    modifies p`stdin, p`cursor
    ensures var ex := ReplyLoop(p.stdout, old(p.cursor), Get(message, "id"), MaxAttempts);
      && reply == ex.reply
      && p.cursor == old(p.cursor) + ex.consumed
      && p.stdin == old(p.stdin) + [message] + AnswersIn(p.stdout, old(p.cursor), ex.consumed, root)
  {
    p.Write(message);
    reply := AwaitReply(p, Get(message, "id"), root, MaxAttempts);
  }

  /** The reply the single-read clients take: the next line, if it is a message. */
  function ReadOne(script: seq<Line>, k: nat): (reply: Option<Object>)
    ensures reply.Some? <==> LineAt(script, k).Msg?
    ensures reply.Some? ==> LineAt(script, k) == Msg(reply.value)
  {
    match LineAt(script, k)
    case Msg(m) => Some(m)
    case _ => None
  }

  /** `_send_message` of the single-read clients: write, then read exactly one line. */
  method SendAndReadOne(p: Process, message: Object) returns (reply: Option<Object>)
    modifies p`stdin, p`cursor
    ensures reply == ReadOne(p.stdout, old(p.cursor))
    ensures p.cursor == old(p.cursor) + 1
    ensures p.stdin == old(p.stdin) + [message]
  {
    p.Write(message);
    var line := p.ReadLine();
    reply := if line.Msg? then Some(line.m) else None;
  }

  // ------------------------------------------------------------- the handshake

  /** `not response or "error" in response` is false: a non-empty reply without `error`. */
  predicate HandshakeAccepted(reply: Option<Object>)
    ensures HandshakeAccepted(reply) ==> reply.Some? && "error" !in reply.value
    ensures reply.Some? && "result" in reply.value && "error" !in reply.value ==> HandshakeAccepted(reply)
  {
    reply.Some? && reply.value != map[] && "error" !in reply.value
  }

  /** The messages a handshake writes: the request, the handler's answers while
      waiting, and the notification once the reply is accepted. */
  function HandshakeSent(init: Object, answers: seq<Object>, reply: Option<Object>, notification: Object): (sent: seq<Object>)
    ensures |sent| == 1 + |answers| + (if HandshakeAccepted(reply) then 1 else 0)
    ensures sent[0] == init && sent[1..1 + |answers|] == answers
    ensures HandshakeAccepted(reply) ==> sent[|sent| - 1] == notification
  {
    [init] + answers + (if HandshakeAccepted(reply) then [notification] else [])
  }

  /** The handshake's writes, appended to what the process already received. */
  lemma HandshakeSentAppended(before: seq<Object>, init: Object, answers: seq<Object>, reply: Option<Object>, notification: Object)
    ensures HandshakeAccepted(reply) ==>
      before + [init] + answers + [notification] == before + HandshakeSent(init, answers, reply, notification)
    ensures !HandshakeAccepted(reply) ==>
      before + [init] + answers == before + HandshakeSent(init, answers, reply, notification)
  {
  }

  /** The id-less notification goes out exactly when the reply was accepted, and last. */
  lemma NotificationOnlyAfterAcceptance(init: Object, answers: seq<Object>, reply: Option<Object>, notification: Object)
    requires "id" in init && "id" !in notification
    requires forall w :: w in answers ==> "id" in w
    ensures var sent := HandshakeSent(init, answers, reply, notification);
      && ((exists i :: 0 <= i < |sent| && "id" !in sent[i]) <==> HandshakeAccepted(reply))
      && (HandshakeAccepted(reply) ==> sent[|sent| - 1] == notification)
  {
    var sent := HandshakeSent(init, answers, reply, notification);
    if HandshakeAccepted(reply) {
      assert "id" !in sent[|sent| - 1];
    } else {
      assert sent == [init] + answers;
      forall i | 0 <= i < |sent|
        ensures "id" in sent[i]
      {
        if i > 0 { assert sent[i] == answers[i - 1]; }
      }
    }
  }

  /** `_initialize_mcp` / `_initialize_server` of the looping clients: send the
      `initialize` request through the reply loop and, once the reply is
      accepted, the id-less notification. */
  method LoopHandshake(p: Process, init: Object, notification: Object, root: Value) returns (ok: bool)
    modifies p`stdin, p`cursor
    ensures var ex := ReplyLoop(p.stdout, old(p.cursor), Get(init, "id"), MaxAttempts);
      && ok == HandshakeAccepted(ex.reply)
      && p.cursor == old(p.cursor) + ex.consumed
      && p.stdin == old(p.stdin)
           + HandshakeSent(init, AnswersIn(p.stdout, old(p.cursor), ex.consumed, root), ex.reply, notification)
  {
    ghost var before := p.stdin;
    var response := SendAndSelect(p, init, root);
    ghost var answers := p.stdin[|before| + 1..];
    HandshakeSentAppended(before, init, answers, response, notification);
    if !HandshakeAccepted(response) {
      return false;
    }
    p.Write(notification);
    ok := true;
  }

  /** The handshake of the single-read clients: the `initialize` request, one
      line read back, and the id-less notification once that reply is accepted. */
  method SingleReadHandshake(p: Process, init: Object, notification: Object) returns (ok: bool)
    modifies p`stdin, p`cursor
    ensures ok == HandshakeAccepted(ReadOne(p.stdout, old(p.cursor)))
    ensures p.cursor == old(p.cursor) + 1
    ensures p.stdin == old(p.stdin) + HandshakeSent(init, [], ReadOne(p.stdout, old(p.cursor)), notification)
  {
    var response := SendAndReadOne(p, init);
    HandshakeSentAppended(old(p.stdin), init, [], response, notification);
    if !HandshakeAccepted(response) {
      return false;
    }
    p.Write(notification);
    ok := true;
  }

  /** An error reply fails the handshake; a result reply passes it. */
  lemma HandshakeVerdicts(id: Value, result: Value, code: int, message: string)
    ensures HandshakeAccepted(Some(ResultResponse(id, result)))
    ensures !HandshakeAccepted(Some(ErrorResponse(id, code, message)))
    ensures !HandshakeAccepted(None) && !HandshakeAccepted(Some(map[]))
  {
    assert "id" in ResultResponse(id, result);
  }

  // ------------------------------------------------------- tools/list, tools/call

  /** `response["result"]["tools"]`, or `[]` when the reply is missing, carries
      no `result`, or the lookup raises. */
  function ToolsOf(reply: Option<Object>): (tools: Value)
    ensures (reply.Some? && "result" in reply.value && reply.value["result"].Obj? && "tools" in reply.value["result"].fields)
      ==> tools == reply.value["result"].fields["tools"]
    ensures reply.None? || "result" !in reply.value ==> tools == Arr([])
    ensures reply.Some? && "result" in reply.value && !(reply.value["result"].Obj? && "tools" in reply.value["result"].fields)
      ==> tools == Arr([])
  {
    if reply.Some? && "result" in reply.value then
      var result := reply.value["result"];
      if result.Obj? && "tools" in result.fields then result.fields["tools"] else Arr([])
    else Arr([])
  }

  /** What a `tools/call` reply says, in the order `call_tool` tests it. */
  datatype ToolOutcome =
    | FirstText(text: Value)        // result.content is a non-empty list: content[0]["text"]
    | WholeContent(content: Value)  // result.content is anything else: str(content)
    | RemoteError(message: Value)   // error.message
    | Unexpected                    // no reply, or neither result nor error
    | Crashed                       // a lookup on the reply raised

  function ClassifyToolReply(reply: Option<Object>): (o: ToolOutcome)
    ensures o.FirstText? ==>
      && reply.Some? && "result" in reply.value && reply.value["result"].Obj?
      && "content" in reply.value["result"].fields
      && var content := reply.value["result"].fields["content"];
         && content.Arr? && |content.items| > 0 && content.items[0].Obj? && "text" in content.items[0].fields
         && o.text == content.items[0].fields["text"]
    ensures o.RemoteError? ==>
      && reply.Some? && "error" in reply.value && reply.value["error"].Obj?
      && "message" in reply.value["error"].fields && o.message == reply.value["error"].fields["message"]
  {
    if reply.Some? && "result" in reply.value then
      var result := reply.value["result"];
      if !(result.Obj? && "content" in result.fields) then Crashed
      else
        var content := result.fields["content"];
        if content.Arr? && |content.items| > 0 then
          var first := content.items[0];
          if first.Obj? && "text" in first.fields then FirstText(first.fields["text"]) else Crashed
        else WholeContent(content)
    else if reply.Some? && "error" in reply.value then
      var error := reply.value["error"];
      if error.Obj? && "message" in error.fields then RemoteError(error.fields["message"]) else Crashed
    else Unexpected
  }

  /** `result` is consulted before `error`; `error` counts only without a
      `result`; a reply with neither, or no reply, is unexpected. */
  lemma ToolReplyPrecedence(reply: Option<Object>)
    ensures var o := ClassifyToolReply(reply);
      && ((o.FirstText? || o.WholeContent?) ==> reply.Some? && "result" in reply.value)
      && (o.RemoteError? <==>
            reply.Some? && "result" !in reply.value && "error" in reply.value
            && reply.value["error"].Obj? && "message" in reply.value["error"].fields)
      && (o.Unexpected? <==> reply.None? || ("result" !in reply.value && "error" !in reply.value))
      && (o.WholeContent? ==> !(o.content.Arr? && o.content.items != []))
  {
  }

  const UnexpectedReply := "❌ Respuesta inesperada del servidor"
  const ErrorPrefix := "❌ Error: "

  /** The text `call_tool` returns for an outcome; `crashPrefix` starts the
      message of the `except` branch. */
  function RenderToolOutcome(o: ToolOutcome, crashPrefix: string): (t: Text)
    ensures o.FirstText? && o.text.Str? ==> t == Lit(o.text.s)
    ensures o.RemoteError? && o.message.Str? ==> t == Lit(ErrorPrefix + o.message.s)
    ensures o.Unexpected? ==> t == Lit(UnexpectedReply)
    ensures t.Raised? <==> o.Crashed?
  {
    match o
    case FirstText(v) => Returned(v)
    case WholeContent(c) => ShowValue("", c)
    case RemoteError(msg) => ShowValue(ErrorPrefix, msg)
    case Unexpected => Lit(UnexpectedReply)
    case Crashed => Raised(crashPrefix)
  }

  /** `call_tool`'s normalisation of the reply to a `tools/call` request. */
  function ToolCallText(reply: Option<Object>, crashPrefix: string): (t: Text)
    ensures reply.None? ==> t == Lit(UnexpectedReply)
    ensures t.Raised? <==> ClassifyToolReply(reply).Crashed?
  {
    RenderToolOutcome(ClassifyToolReply(reply), crashPrefix)
  }

  /** A reply whose content list starts with a text item yields that text;
      an error reply yields the error prefix and its message; no reply yields
      the fixed text. */
  lemma ToolCallTextExamples(id: Value, s: string, rest: seq<Value>, code: int, msg: string, crashPrefix: string)
    ensures ToolCallText(Some(ResultResponse(id, Obj(map["content" := Arr([Obj(map["text" := Str(s)])] + rest)]))), crashPrefix)
      == Lit(s)
    ensures ToolCallText(Some(ErrorResponse(id, code, msg)), crashPrefix) == Lit(ErrorPrefix + msg)
    ensures ToolCallText(None, crashPrefix) == Lit(UnexpectedReply)
  {
    var r := ResultResponse(id, Obj(map["content" := Arr([Obj(map["text" := Str(s)])] + rest)]));
    assert r["result"].fields["content"].items[0] == Obj(map["text" := Str(s)]);
  }

  /** Python iterates `tools` to print each `tool['name']`; that raises unless
      `tools` is a list of objects with a name, or an empty dict or string. */
  predicate ToolNamesPrintable(tools: Value)
  {
    match tools
    case Arr(items) => forall i :: 0 <= i < |items| ==> items[i].Obj? && "name" in items[i].fields
    case Obj(fields) => fields == map[]
    case Str(s) => s == ""
    case _ => false
  }

  /** `list_tools` of the single-read clients: `result.tools`, unless the reply
      has none or printing the tools' names raises, and then `[]`. */
  function ListedTools(reply: Option<Object>): (tools: Value)
    ensures tools != Arr([]) ==> ToolNamesPrintable(tools) && tools == ToolsOf(reply)
    ensures ToolNamesPrintable(ToolsOf(reply)) ==> tools == ToolsOf(reply)
  {
    var t := ToolsOf(reply);
    if ToolNamesPrintable(t) then t else Arr([])
  }
}
