/** The request `clients/anthropic_client.py` builds for the Messages API: the
    user and assistant entries among the newest twenty, reduced to role and
    content, then the new message; the model facts it reports. The API calls
    are not modelled. */
module Anthropic {
  import opened Py
  import opened Json

  /** How many of the newest history entries the request considers. */
  const MessageWindow := 20
  const DefaultModel := "claude-3-5-haiku-20241022"
  const MaxTokens := 4000
  const Temperature: real := 0.7

  /** `msg["role"] in ["user", "assistant"]`, with a missing role raising. */
  predicate KeptRole(role: Value)
  {
    role == Str("user") || role == Str("assistant")
  }

  /** The role and content of a kept entry. */
  function Reduced(entry: Object): Object
    requires "role" in entry && "content" in entry
  {
    map["role" := entry["role"], "content" := entry["content"]]
  }

  /** The messages built from `entries`; `None` where a lookup raises. */
  function Kept(entries: seq<Object>): (r: Option<seq<Object>>)
    ensures r.Some? ==> |r.value| <= |entries|
    ensures r.Some? ==> forall i :: 0 <= i < |r.value| ==>
      r.value[i].Keys == {"role", "content"} && KeptRole(r.value[i]["role"])
    ensures r.Some? && (forall i :: 0 <= i < |entries| ==> "role" in entries[i] && !KeptRole(entries[i]["role"]))
      ==> r.value == []
  {
    if entries == [] then Some([])
    else
      var last := entries[|entries| - 1];
      match Kept(entries[..|entries| - 1])
      case None => None
      case Some(front) =>
        if "role" !in last then None
        else if KeptRole(last["role"]) then
          if "content" in last then Some(front + [Reduced(last)]) else None
        else Some(front)
  }

  /** Once an entry raises, so do the longer prefixes. */
  lemma {:induction false} KeptStaysNone(entries: seq<Object>, k: nat)
    requires k <= |entries| && Kept(entries[..k]).None?
    ensures Kept(entries).None?
  {
    if k < |entries| {
      assert entries[..|entries| - 1][..k] == entries[..k];
      KeptStaysNone(entries[..|entries| - 1], k);
    } else {
      assert entries[..k] == entries;
    }
  }

  /** A single entry is kept reduced when its role is kept, dropped otherwise. */
  lemma KeptOfOne(e: Object)
    ensures Kept([e]) ==
      if "role" !in e then None
      else if KeptRole(e["role"]) then (if "content" in e then Some([Reduced(e)]) else None)
      else Some([])
  {
    var none: seq<Object> := [];
    assert [e][..0] == none && Kept(none) == Some(none);
    if "role" in e && "content" in e {
      assert none + [Reduced(e)] == [Reduced(e)];
    }
  }

  /** The messages of consecutive stretches of the history follow one another
      in the same order: nothing is reordered, dropped or repeated. */
  lemma {:induction false} KeptAppend(a: seq<Object>, b: seq<Object>)
    requires Kept(a).Some? && Kept(b).Some?
    ensures Kept(a + b) == Some(Kept(a).value + Kept(b).value)
    decreases |b|
  {
    if b == [] {
      assert a + b == a;
      assert Kept(b).value == [];
      assert Kept(a).value + Kept(b).value == Kept(a).value;
    } else {
      var front := b[..|b| - 1];
      var last := b[|b| - 1];
      assert (a + b)[..|a + b| - 1] == a + front;
      assert (a + b)[|a + b| - 1] == last;
      assert Kept(front).Some?;
      KeptAppend(a, front);
      if KeptRole(last["role"]) {
        assert Kept(a).value + Kept(front).value + [Reduced(last)] == Kept(a).value + (Kept(front).value + [Reduced(last)]);
      }
    }
  }

  /** Every kept message is the reduced form of an entry, and every entry of a
      kept role appears reduced among the messages. */
  lemma {:induction false} KeptMembership(entries: seq<Object>)
    requires Kept(entries).Some?
    ensures forall m :: m in Kept(entries).value ==> exists e :: e in entries && HasRoleAndContent(e) && m == Reduced(e)
    ensures forall e :: e in entries && "role" in e && KeptRole(e["role"]) ==> HasRoleAndContent(e) && Reduced(e) in Kept(entries).value
  {
    if entries != [] {
      var front := entries[..|entries| - 1];
      KeptMembership(front);
      assert forall e :: e in entries <==> e in front || e == entries[|entries| - 1];
    }
  }

  /** The newest `MessageWindow` entries. */
  function Recent(history: seq<Object>): (r: seq<Object>)
    ensures |r| <= MessageWindow && |r| <= |history| && r == history[|history| - |r|..]
  {
    SliceFrom(history, -MessageWindow)
  }

  /** The new message. */
  function UserMessage(message: string): Object
  {
    map["role" := Str("user"), "content" := Str(message)]
  }

  /** The request for `message` after `history`. */
  function Messages(message: string, history: seq<Object>): (r: Option<seq<Object>>)
    ensures r.Some? <==> Kept(Recent(history)).Some?
    ensures r.Some? ==> 1 <= |r.value| <= MessageWindow + 1 && r.value[|r.value| - 1] == UserMessage(message)
    ensures r.Some? ==> forall i :: 0 <= i < |r.value| ==> "role" in r.value[i] && KeptRole(r.value[i]["role"])
    ensures r.Some? ==> r.value[..|r.value| - 1] == Kept(Recent(history)).value
  {
    match Kept(Recent(history))
    case None => None
    case Some(kept) => Some(kept + [UserMessage(message)])
  }

  /** Without history the request is the new message alone. */
  lemma MessagesWithoutHistory(message: string)
    ensures Messages(message, []) == Some([UserMessage(message)])
  {
    var none: seq<Object> := [];
    assert Recent(none) == none;
    assert Kept(none) == Some(none);
    assert none + [UserMessage(message)] == [UserMessage(message)];
  }

  /** One more entry: kept if its role is, dropped otherwise. */
  lemma KeptStep(entries: seq<Object>, k: nat)
    requires k < |entries| && Kept(entries[..k]).Some?
    ensures var e := entries[k]; var front := Kept(entries[..k]).value;
      Kept(entries[..k + 1]) ==
        if "role" !in e then None
        else if KeptRole(e["role"]) then (if "content" in e then Some(front + [Reduced(e)]) else None)
        else Some(front)
  {
    assert entries[..k + 1][..k] == entries[..k];
  }

  /** `_build_messages`: the list grows one entry at a time. */
  method BuildMessages(message: string, history: seq<Object>) returns (messages: Option<seq<Object>>)
    ensures messages == Messages(message, history)
  {
    var out: seq<Object> := [];
    var recent := Recent(history);
    if history != [] {
      for k := 0 to |recent|
        invariant Kept(recent[..k]) == Some(out)
      {
        var msg := recent[k];
        KeptStep(recent, k);
        if "role" !in msg {
          KeptStaysNone(recent, k + 1);
          return None;
        }
        if msg["role"] == Str("user") || msg["role"] == Str("assistant") {
          if "content" !in msg {
            KeptStaysNone(recent, k + 1);
            return None;
          }
          out := out + [map["role" := msg["role"], "content" := msg["content"]]];
        }
      }
      assert recent[..|recent|] == recent;
    }
    messages := Some(out + [map["role" := Str("user"), "content" := Str(message)]]);
  }

  /** `list_available_models`. */
  const AvailableModels: seq<string> := [
    "claude-3-5-sonnet-20241022",
    "claude-3-5-haiku-20241022",
    "claude-3-opus-20240229",
    "claude-3-sonnet-20240229",
    "claude-3-haiku-20240307"
  ]

  /** `list_available_models`: five distinct models, the default among them. */
  function ListAvailableModels(): (r: seq<string>)
    ensures |r| == 5 && DefaultModel in r
    ensures forall i, j :: 0 <= i < j < |r| ==> r[i] != r[j]
  {
    assert AvailableModels[1] == DefaultModel;
    AvailableModels
  }

  /** `get_model_info`. */
  function GetModelInfo(modelName: string): (r: Object)
    ensures r.Keys == {"model_name", "provider", "max_tokens", "temperature"}
    ensures r["model_name"] == Str(modelName) && r["provider"] == Str("Anthropic")
    ensures r["max_tokens"] == Int(MaxTokens) && r["temperature"] == Real(Temperature)
  {
    map["model_name" := Str(modelName), "provider" := Str("Anthropic"),
        "max_tokens" := Int(MaxTokens), "temperature" := Real(Temperature)]
  }
}
