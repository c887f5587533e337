/** The prompt `clients/ollama_client.py` sends to a local model: the newest
    eight history entries as "Usuario:"/"Asistente:" lines, then the new
    message; and its token estimate. The HTTP calls are not modelled. */
module Ollama {
  import opened Py
  import opened Json

  /** How many of the newest history entries the prompt considers. */
  const PromptWindow := 8
  const UserTag := "Usuario: "
  const AssistantTag := "Asistente: "
  const AnswerCue := "\nAsistente:"

  /** A line of the conversation in the prompt. */
  predicate IsTurnLine(l: string)
  {
    (StartsWith(l, UserTag) || StartsWith(l, AssistantTag)) && EndsWith(l, "\n")
  }

  /** An entry whose role is user or assistant. */
  predicate IsTurn(entry: Object)
  {
    "role" in entry && (entry["role"] == Str("user") || entry["role"] == Str("assistant"))
  }

  /** The number of user and assistant entries. */
  function Turns(entries: seq<Object>): nat
  {
    if entries == [] then 0
    else Turns(entries[..|entries| - 1]) + (if IsTurn(entries[|entries| - 1]) then 1 else 0)
  }

  /** The line an entry contributes, `""` for other roles. `None` where a
      lookup raises, or where the content is a float, list or dict, whose
      `str()` is not modelled. */
  function EntryLine(entry: Object): (r: Option<string>)
    ensures "role" !in entry ==> r.None?
    ensures "role" in entry && !IsTurn(entry) ==> r == Some("")
    ensures IsTurn(entry) && r.Some? ==> IsTurnLine(r.value)
    ensures IsTurn(entry) && "content" in entry && entry["content"].Str? ==>
      r == Some((if entry["role"] == Str("user") then UserTag else AssistantTag) + entry["content"].s + "\n")
  {
    if "role" !in entry then None
    else if IsTurn(entry) then
      if "content" !in entry then None
      else match ScalarText(entry["content"])
        case None => None
        case Some(t) => Some((if entry["role"] == Str("user") then UserTag else AssistantTag) + t + "\n")
    else Some("")
  }

  /** The conversation lines of `entries`, one per user or assistant entry,
      in order. */
  function Lines(entries: seq<Object>): (r: Option<seq<string>>)
    ensures r.Some? ==> |r.value| == Turns(entries) <= |entries|
    ensures r.Some? ==> forall i :: 0 <= i < |r.value| ==> IsTurnLine(r.value[i])
  {
    if entries == [] then Some([])
    else
      match Lines(entries[..|entries| - 1])
      case None => None
      case Some(front) =>
        match EntryLine(entries[|entries| - 1])
        case None => None
        case Some(l) => Some(if l == "" then front else front + [l])
  }

  /** A single entry contributes its own line, if it has one. */
  lemma LinesOfOne(e: Object)
    ensures Lines([e]) ==
      match EntryLine(e)
      case None => None
      case Some(l) => Some(if l == "" then [] else [l])
  {
    var none: seq<Object> := [];
    assert [e][..0] == none && Lines(none) == Some([]);
    if EntryLine(e).Some? {
      var nolines: seq<string> := [];
      assert nolines + [EntryLine(e).value] == [EntryLine(e).value];
    }
  }

  /** The lines of consecutive stretches of the history follow one another in
      the same order: nothing is reordered, dropped or repeated. */
  lemma {:induction false} LinesAppend(a: seq<Object>, b: seq<Object>)
    requires Lines(a).Some? && Lines(b).Some?
    ensures Lines(a + b) == Some(Lines(a).value + Lines(b).value)
    decreases |b|
  {
    if b == [] {
      assert a + b == a;
      assert Lines(b).value == [];
      assert Lines(a).value + Lines(b).value == Lines(a).value;
    } else {
      var front := b[..|b| - 1];
      var last := b[|b| - 1];
      assert (a + b)[..|a + b| - 1] == a + front;
      assert (a + b)[|a + b| - 1] == last;
      assert Lines(front).Some?;
      LinesAppend(a, front);
      var l := EntryLine(last).value;
      if l != "" {
        assert Lines(a).value + Lines(front).value + [l] == Lines(a).value + (Lines(front).value + [l]);
      }
    }
  }

  /** Once an entry raises, so do the longer prefixes. */
  lemma {:induction false} LinesStayNone(entries: seq<Object>, k: nat)
    requires k <= |entries| && Lines(entries[..k]).None?
    ensures Lines(entries).None?
  {
    if k < |entries| {
      assert entries[..|entries| - 1][..k] == entries[..k];
      LinesStayNone(entries[..|entries| - 1], k);
    } else {
      assert entries[..k] == entries;
    }
  }

  /** One more entry extends the lines by the entry's line, if it has one. */
  lemma LinesStep(entries: seq<Object>, k: nat)
    requires k < |entries| && Lines(entries[..k]).Some?
    ensures Lines(entries[..k + 1]) ==
      match EntryLine(entries[k])
      case None => None
      case Some(l) => Some(if l == "" then Lines(entries[..k]).value else Lines(entries[..k]).value + [l])
  {
    assert entries[..k + 1][..k] == entries[..k];
  }

  lemma ConcatSnoc(lines: seq<string>, l: string)
    ensures Concat(lines + [l]) == Concat(lines) + l
  {
    assert (lines + [l])[..|lines|] == lines;
  }

  function Concat(lines: seq<string>): string
  {
    if lines == [] then "" else Concat(lines[..|lines| - 1]) + lines[|lines| - 1]
  }

  /** The newest `PromptWindow` entries; a missing history is empty. */
  function Recent(history: seq<Object>): (r: seq<Object>)
    ensures |r| <= PromptWindow && |r| <= |history| && r == history[|history| - |r|..]
    ensures |history| <= PromptWindow ==> r == history
  {
    SliceFrom(history, -PromptWindow)
  }

  /** The prompt for `message` after `history`. */
  function Prompt(message: string, history: seq<Object>): (r: Option<string>)
    ensures r.Some? <==> Lines(Recent(history)).Some?
    ensures r.Some? ==> StartsWith(r.value, "\n") && EndsWith(r.value, UserTag + message + AnswerCue)
    ensures r.Some? ==> r.value == "\n" + Concat(Lines(Recent(history)).value) + (UserTag + message + AnswerCue)
  {
    match Lines(Recent(history))
    case None => None
    case Some(lines) =>
      var p := "\n" + Concat(lines) + (UserTag + message + AnswerCue);
      assert p[..1] == "\n";
      Some(p)
  }

  /** Without history the prompt is the message alone. */
  lemma PromptWithoutHistory(message: string)
    ensures Prompt(message, []) == Some("\nUsuario: " + message + "\nAsistente:")
  {
    assert Recent([]) == [];
    assert Concat([]) == "";
    assert "\n" + "" + (UserTag + message + AnswerCue) == "\nUsuario: " + message + "\nAsistente:";
  }

  /** At most eight conversation lines reach the prompt, one per user or
      assistant entry among the newest eight. */
  lemma PromptWindowBound(history: seq<Object>)
    requires Lines(Recent(history)).Some?
    ensures |Lines(Recent(history)).value| == Turns(Recent(history)) <= PromptWindow
  {
  }

  /** `_build_prompt`: the prompt grows one entry at a time. */
  method BuildPrompt(message: string, history: seq<Object>) returns (prompt: Option<string>)
    ensures prompt == Prompt(message, history)
  {
    var p := "\n";
    var recent := Recent(history);
    if history != [] {
      for k := 0 to |recent|
        invariant Lines(recent[..k]).Some?
        invariant p == "\n" + Concat(Lines(recent[..k]).value)
      {
        var msg := recent[k];
        LinesStep(recent, k);
        if "role" !in msg {
          LinesStayNone(recent, k + 1);
          return None;
        }
        if msg["role"] == Str("user") || msg["role"] == Str("assistant") {
          var tag := if msg["role"] == Str("user") then UserTag else AssistantTag;
          if "content" !in msg || ScalarText(msg["content"]).None? {
            LinesStayNone(recent, k + 1);
            return None;
          }
          var line := tag + ScalarText(msg["content"]).value + "\n";
          assert EntryLine(msg) == Some(line);
          ConcatSnoc(Lines(recent[..k]).value, line);
          AppendAssociates("\n", Concat(Lines(recent[..k]).value), line);
          p := p + line;
        } else {
          assert EntryLine(msg) == Some("");
        }
      }
      assert recent[..|recent|] == recent;
    }
    prompt := Some(p + (UserTag + message + AnswerCue));
  }

  /** `estimate_tokens`: a third of the length, rounded down. */
  function EstimateTokens(text: string): (r: nat)
    ensures 3 * r <= |text| < 3 * r + 3
  {
    |text| / 3
  }
}
