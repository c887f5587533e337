/** The MCP interaction log of `tools/logger.py` (`InteractionLogger`): the
    record each call appends, the sanitising of long results, the statistics
    over the records, and the preview written for a model's response. */
module InteractionLog {
  import opened Py
  import opened Json

  /** Results longer than this are cut. */
  const MaxResultLength := 1000
  /** Responses longer than this are previewed. */
  const PreviewLength := 200

  const NoteHead := "... [truncado, "
  const NoteTail := " caracteres totales]"

  /** A string result cut to its first 1000 characters, followed by a note
      giving its full length. */
  function Truncated(s: string): (t: string)
    requires |s| > MaxResultLength
    ensures |t| > MaxResultLength && t[..MaxResultLength] == s[..MaxResultLength]
  {
    s[..MaxResultLength] + NoteHead + NatToString(|s|) + NoteTail
  }

  /** Reads back the length a truncation note records, if `t` has the shape of
      a truncated result. */
  function RecordedLength(t: string): Option<nat>
  {
    var start := MaxResultLength + |NoteHead|;
    if |t| > start + |NoteTail| && t[MaxResultLength..start] == NoteHead && t[|t| - |NoteTail|..] == NoteTail
       && forall i :: start <= i < |t| - |NoteTail| ==> IsDigit(t[i])
    then Some(ParseNat(t[start..|t| - |NoteTail|]))
    else None
  }

  /** The note of a truncated result gives back the original length. */
  lemma TruncationRecordsLength(s: string)
    requires |s| > MaxResultLength
    ensures RecordedLength(Truncated(s)) == Some(|s|)
  {
    var t := Truncated(s);
    var digits := NatToString(|s|);
    var start := MaxResultLength + |NoteHead|;
    assert t[MaxResultLength..start] == NoteHead;
    assert t[start..|t| - |NoteTail|] == digits;
    assert t[|t| - |NoteTail|..] == NoteTail;
    NatToStringRoundTrip(|s|);
  }

  /** The placeholder standing for a list or dict whose JSON text is too long. */
  function Placeholder(typeName: string, size: nat): (p: string)
    ensures Contains(p, typeName) && Contains(p, NatToString(size))
  {
    var head := "[Objeto grande truncado: ";
    var p := head + typeName + " con " + NatToString(size) + " elementos]";
    assert p[|head|..|head| + |typeName|] == typeName;
    assert OccursAt(p, typeName, |head|);
    assert p[|head| + |typeName| + 5..|head| + |typeName| + 5 + |NatToString(size)|] == NatToString(size);
    assert OccursAt(p, NatToString(size), |head| + |typeName| + 5);
    p
  }

  /** `_sanitize_result`. `dumpedLength` is the length of the value's
      two-space-indented JSON text, which matters only for lists and dicts. */
  function SanitizeResult(result: Value, dumpedLength: nat): (r: Value)
    ensures r != result ==> r.Str?
    ensures result.Str? && |result.s| > MaxResultLength ==>
      |r.s| > MaxResultLength && r.s[..MaxResultLength] == result.s[..MaxResultLength]
      && RecordedLength(r.s) == Some(|result.s|)
    ensures result.Str? && |result.s| <= MaxResultLength ==> r == result
    ensures result.Arr? ==> r == (if dumpedLength > MaxResultLength then Str(Placeholder("list", |result.items|)) else result)
    ensures result.Obj? ==> r == (if dumpedLength > MaxResultLength then Str(Placeholder("dict", |result.fields|)) else result)
    ensures !result.Str? && !result.Arr? && !result.Obj? ==> r == result
  {
    match result
      case Str(s) =>
        if |s| > MaxResultLength then
          TruncationRecordsLength(s);
          Str(Truncated(s))
        else result
      case Arr(items) => if dumpedLength > MaxResultLength then Str(Placeholder("list", |items|)) else result
      case Obj(fields) => if dumpedLength > MaxResultLength then Str(Placeholder("dict", |fields|)) else result
      case _ => result
  }

  /** One record of the MCP log. */
  datatype Interaction = Interaction(
    timestamp: string,
    server: string,
    action: string,
    parameters: Value,
    success: bool,
    result: Value,
    error: Value)

  /** The record `log_mcp_interaction` builds. `parameters` and `error` are
      Python's `None` when not given, the timestamp comes from the clock. */
  function NewInteraction(timestamp: string, server: string, action: string, parameters: Value,
                          result: Value, dumpedLength: nat, success: bool, error: Value): (i: Interaction)
    ensures i.timestamp == timestamp && i.server == server && i.action == action && i.success == success
    ensures i.parameters == (if Truthy(parameters) then parameters else Obj(map[]))
    ensures success ==> i.result == SanitizeResult(result, dumpedLength) && i.error == Null
    ensures !success ==> i.result == Null && i.error == error
  {
    Interaction(timestamp, server, action,
                if Truthy(parameters) then parameters else Obj(map[]),
                success,
                if success then SanitizeResult(result, dumpedLength) else Null,
                if !success then error else Null)
  }

  /** The server of each record, in order. */
  function Servers(log: seq<Interaction>): (r: seq<string>)
    ensures |r| == |log| && forall i :: 0 <= i < |log| ==> r[i] == log[i].server
  {
    seq(|log|, i requires 0 <= i < |log| => log[i].server)
  }

  lemma ServersSnoc(log: seq<Interaction>, k: nat)
    requires k < |log|
    ensures Servers(log[..k + 1]) == Servers(log[..k]) + [log[k].server]
  {
  }

  /** The number of successful records. */
  function CountSuccessful(log: seq<Interaction>): (n: nat)
    ensures n <= |log|
    ensures n == |log| <==> forall i :: 0 <= i < |log| ==> log[i].success
  {
    if log == [] then 0
    else CountSuccessful(log[..|log| - 1]) + (if log[|log| - 1].success then 1 else 0)
  }

  /** Whether each record succeeded, in order. */
  function Outcomes(log: seq<Interaction>): (r: seq<bool>)
    ensures |r| == |log| && forall i :: 0 <= i < |log| ==> r[i] == log[i].success
  {
    seq(|log|, i requires 0 <= i < |log| => log[i].success)
  }

  /** `sum(1 for i in interactions if i['success'])` counts the successful
      records: their multiplicity among the outcomes. */
  lemma {:induction false} CountSuccessfulIsMultiplicity(log: seq<Interaction>)
    ensures CountSuccessful(log) == multiset(Outcomes(log))[true]
  {
    if log != [] {
      var front := log[..|log| - 1];
      CountSuccessfulIsMultiplicity(front);
      assert Outcomes(log) == Outcomes(front) + [log[|log| - 1].success];
    }
  }

  /** The distinct servers in order of first appearance: the key order of a
      dict filled while walking the log. */
  function FirstAppearance(xs: seq<string>): (o: seq<string>)
    ensures forall s :: s in o <==> s in xs
    ensures forall i, j :: 0 <= i < j < |o| ==> o[i] != o[j]
  {
    if xs == [] then []
    else
      var front := FirstAppearance(xs[..|xs| - 1]);
      var last := xs[|xs| - 1];
      assert forall s :: s in xs <==> s in xs[..|xs| - 1] || s == last;
      if last in front then front else front + [last]
  }

  /** The per-server counts: every server of the log, with its number of
      occurrences. */
  function Counts(xs: seq<string>): (c: map<string, nat>)
    ensures forall s :: s in c <==> s in xs
    ensures forall s :: s in c ==> c[s] == multiset(xs)[s]
  {
    if xs == [] then map[]
    else
      var front := xs[..|xs| - 1];
      var c := Counts(front);
      var last := xs[|xs| - 1];
      assert xs == front + [last];
      assert forall s :: s in xs <==> s in front || s == last;
      c[last := (if last in c then c[last] else 0) + 1]
  }

  /** One more server: a new one is added at the end of the key order and
      counted once, a known one has its count raised. */
  lemma CountsSnoc(xs: seq<string>, x: string)
    ensures var c := Counts(xs); Counts(xs + [x]) == c[x := (if x in c then c[x] else 0) + 1]
    ensures var o := FirstAppearance(xs); FirstAppearance(xs + [x]) == if x in o then o else o + [x]
  {
    assert (xs + [x])[..|xs|] == xs;
  }

  /** The counts of the servers in `o`, added up. */
  function Sum(o: seq<string>, c: map<string, nat>): nat
    requires forall s :: s in o ==> s in c
  {
    if o == [] then 0 else Sum(o[..|o| - 1], c) + c[o[|o| - 1]]
  }

  lemma {:induction false} SumUnaffected(o: seq<string>, c: map<string, nat>, k: string, v: nat)
    requires forall s :: s in o ==> s in c
    requires k !in o
    ensures Sum(o, c[k := v]) == Sum(o, c)
  {
    if o != [] {
      SumUnaffected(o[..|o| - 1], c, k, v);
    }
  }

  lemma {:induction false} SumBump(o: seq<string>, c: map<string, nat>, k: string)
    requires forall s :: s in o ==> s in c
    requires forall i, j :: 0 <= i < j < |o| ==> o[i] != o[j]
    requires k in o
    ensures Sum(o, c[k := c[k] + 1]) == Sum(o, c) + 1
  {
    var front := o[..|o| - 1];
    if o[|o| - 1] == k {
      assert forall i :: 0 <= i < |front| ==> front[i] == o[i] != o[|o| - 1];
      SumUnaffected(front, c, k, c[k] + 1);
    } else {
      SumBump(front, c, k);
    }
  }

  /** The per-server counts add up to the number of records. */
  lemma {:induction false} CountsSumToLength(xs: seq<string>)
    ensures Sum(FirstAppearance(xs), Counts(xs)) == |xs|
  {
    if xs != [] {
      var front := xs[..|xs| - 1];
      var last := xs[|xs| - 1];
      CountsSumToLength(front);
      var o := FirstAppearance(front);
      var c := Counts(front);
      if last in o {
        SumBump(o, c, last);
      } else {
        SumUnaffected(o, c, last, 1);
        assert Counts(xs) == c[last := 1];
      }
    }
  }

  /** `max(server_counts.items(), key=count)`: the position, in key order, of
      the first server whose count no other server exceeds. */
  function MostUsedIndex(o: seq<string>, c: map<string, nat>): (j: nat)
    requires |o| > 0 && forall s :: s in o ==> s in c
    ensures j < |o|
    ensures forall i :: 0 <= i < |o| ==> c[o[i]] <= c[o[j]]
    ensures forall i :: 0 <= i < j ==> c[o[i]] < c[o[j]]
  {
    if |o| == 1 then 0
    else
      var front := o[..|o| - 1];
      var best := MostUsedIndex(front, c);
      assert forall i :: 0 <= i < |front| ==> o[i] == front[i];
      if c[o[|o| - 1]] > c[o[best]] then |o| - 1 else best
  }

  /** `get_mcp_stats`: three zeros for an empty log, otherwise the summary.
      `serversUsed` is a set: Python's list of a set has no defined order. */
  datatype McpStats =
    | NoInteractions
    | Summary(total: nat, successful: nat, successRate: real, serversUsed: set<string>,
              perServer: map<string, nat>, mostUsed: string)

  class InteractionLogger {
    var interactions: seq<Interaction>

    /** `interactions` is what the JSON file already held. */
    constructor (loaded: seq<Interaction>)
      ensures interactions == loaded
    {
      interactions := loaded;
    }

    /** `log_mcp_interaction`: exactly one record is appended. */
    method LogMcpInteraction(timestamp: string, server: string, action: string, parameters: Value,
                             result: Value, dumpedLength: nat, success: bool, error: Value)
      modifies this`interactions
      ensures interactions == old(interactions)
        + [NewInteraction(timestamp, server, action, parameters, result, dumpedLength, success, error)]
    {
      var record := NewInteraction(timestamp, server, action, parameters, result, dumpedLength, success, error);
      interactions := interactions + [record];
    }

    /** `get_mcp_stats`. */
    method GetMcpStats() returns (stats: McpStats)
      ensures stats == StatsOf(interactions)
      ensures interactions == [] <==> stats.NoInteractions?
    {
      var log := interactions;
      if log == [] {
        return NoInteractions;
      }
      var counts, order := CountServers(log);
      stats := Summarise(log, counts, order);
    }
  }

  /** The `server_counts` loop of `get_mcp_stats`: one pass over the records,
      also keeping the order in which the dict's keys were inserted. */
  method CountServers(log: seq<Interaction>) returns (counts: map<string, nat>, order: seq<string>)
    ensures counts == Counts(Servers(log))
    ensures order == FirstAppearance(Servers(log))
  {
    counts := map[];
    order := [];
    for k := 0 to |log|
      invariant counts == Counts(Servers(log[..k]))
      invariant order == FirstAppearance(Servers(log[..k]))
    {
      ServersSnoc(log, k);
      var server := log[k].server;
      CountsSnoc(Servers(log[..k]), server);
      if server !in counts {
        order := order + [server];
      }
      counts := counts[server := (if server in counts then counts[server] else 0) + 1];
    }
    assert log[..|log|] == log;
  }

  /** The distinct servers of the log. */
  function ServerSet(log: seq<Interaction>): (r: set<string>)
    ensures forall s :: s in r <==> s in Servers(log)
  {
    set i | 0 <= i < |log| :: log[i].server
  }

  /** What `get_mcp_stats` reports for a log. */
  function StatsOf(log: seq<Interaction>): (stats: McpStats)
    ensures log == [] <==> stats.NoInteractions?
    ensures stats.Summary? ==> stats.total == |log| && stats.serversUsed == ServerSet(log)
    ensures stats.Summary? ==> stats.successful == CountSuccessful(log)
  {
    if log == [] then NoInteractions
    else Summarise(log, Counts(Servers(log)), FirstAppearance(Servers(log)))
  }

  /** `successful / total * 100`, in exact arithmetic: the percentage of
      successful records, 100 when all of them succeeded. */
  function SuccessRate(successful: nat, total: nat): (rate: real)
    requires 0 < total
    ensures rate * (total as real) == (successful as real) * 100.0
    ensures successful == total ==> rate == 100.0
  {
    var r := successful as real / total as real;
    assert r * (total as real) == successful as real;
    assert successful == total ==> (r - 1.0) * (total as real) == 0.0 && r == 1.0;
    r * 100.0
  }

  /** The summary of a non-empty log, given its per-server counts and their
      key order. */
  function Summarise(log: seq<Interaction>, counts: map<string, nat>, order: seq<string>): (stats: McpStats)
    requires log != [] && |order| > 0 && forall s :: s in order ==> s in counts
    ensures stats.Summary? && stats.total == |log| && stats.successful <= stats.total
    ensures stats.successful == CountSuccessful(log)
    ensures stats.successRate == SuccessRate(stats.successful, |log|)
    ensures stats.perServer == counts && stats.mostUsed in order
  {
    var successful := CountSuccessful(log);
    Summary(|log|, successful, SuccessRate(successful, |log|), ServerSet(log),
            counts, order[MostUsedIndex(order, counts)])
  }

  /** The summary of a non-empty log: at most as many successes as records,
      one count per distinct server, counts adding up to the records, and the
      most used server first among those with the greatest count. */
  lemma SummaryFacts(log: seq<Interaction>)
    requires log != []
    ensures var stats := StatsOf(log);
      && stats.Summary?
      && stats.total == |log|
      && stats.successful <= stats.total
      && (forall s :: s in stats.perServer <==> s in stats.serversUsed)
      && (forall s :: s in stats.perServer ==> stats.perServer[s] == multiset(Servers(log))[s])
      && Sum(FirstAppearance(Servers(log)), stats.perServer) == stats.total
      && stats.mostUsed in stats.perServer
      && (forall s :: s in stats.perServer ==> stats.perServer[s] <= stats.perServer[stats.mostUsed])
  {
    var order := FirstAppearance(Servers(log));
    var counts := Counts(Servers(log));
    CountsSumToLength(Servers(log));
    var j := MostUsedIndex(order, counts);
    forall s | s in counts
      ensures counts[s] <= counts[order[j]]
    {
      var i :| 0 <= i < |order| && order[i] == s;
    }
  }

  /** Ties go to the server seen first. */
  lemma MostUsedFirstOnTie(log: seq<Interaction>, i: nat, j: nat)
    requires log != [] && j < |FirstAppearance(Servers(log))|
    requires var o := FirstAppearance(Servers(log)); i < j && StatsOf(log).mostUsed == o[j]
    ensures var o := FirstAppearance(Servers(log)); Counts(Servers(log))[o[i]] < Counts(Servers(log))[o[j]]
  {
    var o := FirstAppearance(Servers(log));
    var counts := Counts(Servers(log));
    var m := MostUsedIndex(o, counts);
    assert o[m] == o[j];
    if m != j {
      assert false;
    }
  }

  /** `log_anthropic_response`'s preview: the whole response up to 200
      characters, else its first 200 followed by an ellipsis. */
  function ResponsePreview(response: string): (r: string)
    ensures |r| <= PreviewLength + 3
    ensures |response| <= PreviewLength ==> r == response
    ensures |response| > PreviewLength ==>
      |r| == PreviewLength + 3 && r[..PreviewLength] == response[..PreviewLength] && r[PreviewLength..] == "..."
  {
    if |response| > PreviewLength then response[..PreviewLength] + "..." else response
  }

  /** The token part of the line: absent for `None` and for 0. */
  function TokenInfo(tokensUsed: Option<int>): (r: string)
    ensures r == "" <==> tokensUsed.None? || tokensUsed.value == 0
  {
    if tokensUsed.Some? && tokensUsed.value != 0 then " | Tokens: " + IntToString(tokensUsed.value) else ""
  }
}
