/** The conversation memory of `tools/session_manager.py`: a history of message
    objects trimmed to the newest N after every addition, a message counter,
    the role/content view sent to the model, counting statistics, and the
    defaults applied when a saved session is loaded. */
module Session {
  import opened Py
  import opened Json

  const DefaultMaxContext := 20

  /** `conversation_history[-max:]` once the history is longer than `max`. */
  function Trimmed(h: seq<Object>, max: int): (r: seq<Object>)
    ensures |r| <= |h| && r == h[|h| - |r|..]
    ensures |h| <= max ==> r == h
    ensures max >= 1 ==> |r| <= max && (|h| > 0 ==> |r| > 0)
    ensures max >= 1 && |h| >= max ==> |r| == max
    ensures max == 0 ==> r == h
  {
    if |h| > max then SliceFrom(h, -max) else h
  }

  /** Trimming after an append keeps the appended message last. */
  lemma TrimmedKeepsLast(h: seq<Object>, m: Object, max: int)
    ensures max >= 1 ==> |Trimmed(h + [m], max)| <= max && Trimmed(h + [m], max)[|Trimmed(h + [m], max)| - 1] == m
    ensures |Trimmed(h + [m], max)| <= |h| + 1
  {
    var t := Trimmed(h + [m], max);
    if max >= 1 {
      assert t == (h + [m])[|h| + 1 - |t|..];
      assert t[|t| - 1] == (h + [m])[|h|];
    }
  }

  /** The keys every added message starts with. */
  const BaseKeys: set<string> := {"role", "content", "timestamp", "message_id"}

  /** The message `add_message` builds: role, content, the clock's timestamp and
      the id, then every metadata entry written over them. */
  function NewMessage(role: string, content: string, timestamp: string, id: int, metadata: Option<Object>): (m: Object)
    ensures metadata.None? ==> m.Keys == BaseKeys
    ensures metadata.Some? ==> m.Keys == BaseKeys + metadata.value.Keys
    ensures metadata.Some? ==> forall k :: k in metadata.value ==> m[k] == metadata.value[k]
    ensures var extra := if metadata.Some? then metadata.value.Keys else {};
      && ("role" !in extra ==> m["role"] == Str(role))
      && ("content" !in extra ==> m["content"] == Str(content))
      && ("timestamp" !in extra ==> m["timestamp"] == Str(timestamp))
      && ("message_id" !in extra ==> m["message_id"] == Int(id))
  {
    var base := map["role" := Str(role), "content" := Str(content), "timestamp" := Str(timestamp), "message_id" := Int(id)];
    if metadata.Some? && metadata.value != map[] then base + metadata.value else base
  }

  /** The number of messages whose role equals `role`. */
  function CountRole(h: seq<Object>, role: string): (n: nat)
    ensures n <= |h|
    ensures n == |h| <==> forall i :: 0 <= i < |h| ==> Get(h[i], "role") == Str(role)
  {
    if h == [] then 0
    else CountRole(h[..|h| - 1], role) + (if Get(h[|h| - 1], "role") == Str(role) then 1 else 0)
  }

  /** The `role` entries of the messages, `None` where a message has none. */
  function Roles(h: seq<Object>): (r: seq<Value>)
    ensures |r| == |h| && forall i :: 0 <= i < |h| ==> r[i] == Get(h[i], "role")
  {
    seq(|h|, i requires 0 <= i < |h| => Get(h[i], "role"))
  }

  /** The count is the number of times the role occurs among the messages' roles. */
  lemma {:induction false} CountRoleIsMultiplicity(h: seq<Object>, role: string)
    ensures CountRole(h, role) == multiset(Roles(h))[Str(role)]
  {
    if h != [] {
      var front := h[..|h| - 1];
      CountRoleIsMultiplicity(front, role);
      assert Roles(h) == Roles(front) + [Get(h[|h| - 1], "role")];
    }
  }

  /** A message has one role, so user and assistant messages together are at
      most all of them. */
  lemma {:induction false} CountRolesBound(h: seq<Object>)
    ensures CountRole(h, "user") + CountRole(h, "assistant") <= |h|
  {
    if h != [] {
      CountRolesBound(h[..|h| - 1]);
    }
  }

  /** The counts of `get_session_stats`; the duration is left out. */
  datatype SessionStats = SessionStats(totalMessages: int, userMessages: nat, assistantMessages: nat, messagesInContext: nat)

  class SessionManager {
    var history: seq<Object>
    const maxContextMessages: int
    var messageCount: int

    constructor (maxContextMessages: int)
      ensures history == [] && messageCount == 0 && this.maxContextMessages == maxContextMessages
    {
      history := [];
      this.maxContextMessages := maxContextMessages;
      messageCount := 0;
    }

    /** The counter has seen at least every message held. */
    predicate CountCoversHistory()
      reads this
    {
      messageCount >= |history|
    }

    /** `_trim_context`. */
    method TrimContext()
      modifies this`history
      ensures history == Trimmed(old(history), maxContextMessages)
    {
      if |history| > maxContextMessages {
        history := SliceFrom(history, -maxContextMessages);
      }
    }

    /** `add_message`: exactly one message, numbered by the counter, goes in at
        the end, then the history is trimmed. */
    method AddMessage(role: string, content: string, timestamp: string, metadata: Option<Object>)
      modifies this`history, this`messageCount
      ensures messageCount == old(messageCount) + 1
      ensures history == Trimmed(old(history) + [NewMessage(role, content, timestamp, old(messageCount), metadata)],
                                 maxContextMessages)
      ensures maxContextMessages >= 1 ==>
        |history| <= maxContextMessages
        && history[|history| - 1] == NewMessage(role, content, timestamp, old(messageCount), metadata)
      ensures old(CountCoversHistory()) ==> CountCoversHistory()
    {
      var message := NewMessage(role, content, timestamp, messageCount, metadata);
      TrimmedKeepsLast(history, message, maxContextMessages);
      history := history + [message];
      messageCount := messageCount + 1;
      TrimContext();
    }

    /** `get_context`: role and content of each message, in order; `None` where
        a message lacks either key and the lookup raises. */
    function GetContext(): (r: Option<seq<Object>>)
      reads this
      ensures r.Some? <==> forall i :: 0 <= i < |history| ==> HasRoleAndContent(history[i])
      ensures r.Some? ==> |r.value| == |history|
      ensures r.Some? ==> forall i :: 0 <= i < |history| ==>
        r.value[i] == map["role" := history[i]["role"], "content" := history[i]["content"]]
    {
      var h := history;
      if forall i :: 0 <= i < |h| ==> HasRoleAndContent(h[i]) then
        Some(seq(|h|, i requires 0 <= i < |h| && HasRoleAndContent(h[i]) =>
          map["role" := h[i]["role"], "content" := h[i]["content"]]))
      else None
    }

    /** `clear_context`. */
    method ClearContext()
      modifies this`history, this`messageCount
      ensures history == [] && messageCount == 0
      ensures CountCoversHistory()
    {
      history := [];
      messageCount := 0;
    }

    /** `get_session_stats`: zeros for an empty history; otherwise the counter,
        the user and assistant counts and the history's length. `None` where a
        message has no role and the lookup raises. */
    function GetSessionStats(): (r: Option<SessionStats>)
      reads this
      ensures history == [] ==> r == Some(SessionStats(0, 0, 0, 0))
      ensures history != [] ==> (r.None? <==> exists i :: 0 <= i < |history| && "role" !in history[i])
      ensures history != [] && r.Some? ==>
        && r.value.totalMessages == messageCount
        && r.value.messagesInContext == |history|
        && r.value.userMessages == CountRole(history, "user")
        && r.value.assistantMessages == CountRole(history, "assistant")
        && r.value.userMessages + r.value.assistantMessages <= r.value.messagesInContext
    {
      if history == [] then Some(SessionStats(0, 0, 0, 0))
      else if exists i :: 0 <= i < |history| && "role" !in history[i] then None
      else
        CountRolesBound(history);
        Some(SessionStats(messageCount, CountRole(history, "user"), CountRole(history, "assistant"), |history|))
    }

    /** `load_session` after the file is read: `file` is the decoded JSON, or
        `None` when the file is missing or not JSON. A missing history is empty
        and a missing count is 0. */
    method LoadSession(file: Option<Object>) returns (ok: bool)
      modifies this`history, this`messageCount
      ensures file.None? ==> !ok && history == old(history) && messageCount == old(messageCount)
      ensures file.Some? && "conversation_history" !in file.value ==> history == [] || !ok
      ensures file.Some? && "session_info" !in file.value && "conversation_history" !in file.value ==>
        ok && history == [] && messageCount == 0
      ensures ok <==> file.Some? && LoadedHistory(file.value).Some? && LoadedCount(file.value).Some?
      ensures ok ==>
        && history == LoadedHistory(file.value).value
        && messageCount == LoadedCount(file.value).value
      ensures file.Some? && LoadedHistory(file.value).None? ==>
        history == old(history) && messageCount == old(messageCount)
      ensures file.Some? && LoadedHistory(file.value).Some? && LoadedCount(file.value).None? ==>
        history == LoadedHistory(file.value).value && messageCount == old(messageCount)
    {
      if file.None? {
        return false;
      }
      var data := file.value;
      var loaded := LoadedHistory(data);
      if loaded.None? {
        return false;
      }
      history := loaded.value;
      var count := LoadedCount(data);
      if count.None? {
        return false;
      }
      messageCount := count.value;
      ok := true;
    }
  }

  /** `session_data.get("conversation_history", [])`, when it is a list of objects. */
  function LoadedHistory(data: Object): (r: Option<seq<Object>>)
    ensures "conversation_history" !in data ==> r == Some([])
    ensures "conversation_history" in data ==>
      (r.Some? <==> data["conversation_history"].Arr?
                    && forall i :: 0 <= i < |data["conversation_history"].items| ==> data["conversation_history"].items[i].Obj?)
    ensures "conversation_history" in data && r.Some? ==>
      |r.value| == |data["conversation_history"].items|
      && forall i :: 0 <= i < |r.value| ==> data["conversation_history"].items[i] == Obj(r.value[i])
  {
    if "conversation_history" !in data then Some([])
    else match data["conversation_history"]
      case Arr(items) =>
        if forall i :: 0 <= i < |items| ==> items[i].Obj? then
          Some(seq(|items|, i requires 0 <= i < |items| && items[i].Obj? => items[i].fields))
        else None
      case _ => None
  }

  /** `session_data.get("session_info", {}).get("total_messages", 0)`, when the
      info is an object and the count an integer. */
  function LoadedCount(data: Object): (r: Option<int>)
    ensures "session_info" !in data ==> r == Some(0)
    ensures "session_info" in data && data["session_info"].Obj? && "total_messages" !in data["session_info"].fields
      ==> r == Some(0)
    ensures "session_info" in data && !data["session_info"].Obj? ==> r.None?
    ensures "session_info" in data && data["session_info"].Obj? && "total_messages" in data["session_info"].fields
      ==> r == (if data["session_info"].fields["total_messages"].Int? then Some(data["session_info"].fields["total_messages"].i) else None)
  {
    var info := if "session_info" in data then data["session_info"] else Obj(map[]);
    if !info.Obj? then None
    else match Get(info.fields, "total_messages")
      case Null => if "total_messages" in info.fields then None else Some(0)
      case Int(n) => Some(n)
      case _ => None
  }
}
