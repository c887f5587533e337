/** `chatbot/logger.py` repeats the interaction log of `tools/logger.py`
    (modelled by `InteractionLog`) and adds `show_mcp_interactions`, whose
    choice of records is modelled here; the printing is not. */
module ChatbotLog {
  import opened Py
  import opened InteractionLog

  /** The records whose server is `server`, in log order. */
  function Matching(log: seq<Interaction>, server: string): (r: seq<Interaction>)
    ensures |r| <= |log|
    ensures forall i :: 0 <= i < |r| ==> r[i].server == server
    ensures forall x :: x in r <==> x in log && x.server == server
  {
    if log == [] then []
    else
      var front := Matching(log[..|log| - 1], server);
      var last := log[|log| - 1];
      assert forall x :: x in log <==> x in log[..|log| - 1] || x == last;
      if last.server == server then front + [last] else front
  }

  /** Filtering keeps the relative order: a record's matches before it stay
      before it. */
  lemma {:induction false} MatchingAppend(a: seq<Interaction>, b: seq<Interaction>, server: string)
    ensures Matching(a + b, server) == Matching(a, server) + Matching(b, server)
  {
    if b != [] {
      var front := b[..|b| - 1];
      assert (a + b)[..|a + b| - 1] == a + front;
      MatchingAppend(a, front, server);
    } else {
      assert a + b == a;
    }
  }

  /** The records a filter selects: those of the named server, or all of them
      when the filter is absent or empty. */
  function Filtered(log: seq<Interaction>, serverFilter: Option<string>): (r: seq<Interaction>)
    ensures serverFilter.Some? && serverFilter.value != "" ==>
      forall i :: 0 <= i < |r| ==> r[i].server == serverFilter.value
    ensures serverFilter.Some? && serverFilter.value != "" ==> r == Matching(log, serverFilter.value)
    ensures serverFilter.None? || serverFilter.value == "" ==> r == log
  {
    if serverFilter.Some? && serverFilter.value != "" then Matching(log, serverFilter.value) else log
  }

  /** `show_mcp_interactions`: the filtered records, then the last `limit` of
      them (all of them for a limit of 0, as `[-0:]` is the whole list). */
  function ShownInteractions(logger: InteractionLogger, serverFilter: Option<string>, limit: int): (r: seq<Interaction>)
    reads logger
    ensures var filtered := Filtered(logger.interactions, serverFilter);
      && |r| <= |filtered| && r == filtered[|filtered| - |r|..]
      && (limit >= 1 ==> |r| == if |filtered| <= limit then |filtered| else limit)
      && (limit == 0 ==> r == filtered)
  {
    SliceFrom(Filtered(logger.interactions, serverFilter), -limit)
  }

  /** Every shown record belongs to the filtered server. */
  lemma ShownMatchFilter(logger: InteractionLogger, server: string, limit: int)
    requires server != ""
    ensures var r := ShownInteractions(logger, Some(server), limit);
      forall i :: 0 <= i < |r| ==> r[i].server == server
  {
    var filtered := Filtered(logger.interactions, Some(server));
    var r := ShownInteractions(logger, Some(server), limit);
    forall i | 0 <= i < |r|
      ensures r[i].server == server
    {
      assert r[i] == filtered[|filtered| - |r| + i];
    }
  }
}
