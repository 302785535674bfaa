/** The context window handed to the LLM (`filter_visible_for_llm`,
    `prune_context_refs`, crates/node/src/conversation.rs). */
module Context {
  import opened Conversations
  import opened Journal

  predicate IsTool(t: Turn) {
    t.ToolCall? || t.ToolResult?
  }

  /** Index of the most recent Assistant turn, -1 when there is none. */
  function LastAssistant(turns: seq<Turn>): (li: int)
    ensures -1 <= li < |turns|
    ensures li >= 0 ==> turns[li].Assistant?
    ensures forall i | li < i < |turns| :: !turns[i].Assistant?
  {
    if turns == [] then -1
    else if turns[|turns| - 1].Assistant? then |turns| - 1
    else LastAssistant(turns[..|turns| - 1])
  }

  /** The filter over the first `n` turns: tool turns at or before `li` go. */
  function VisibleUpTo(turns: seq<Turn>, li: int, n: nat): seq<Turn>
    requires n <= |turns|
  {
    if n == 0 then []
    else
      VisibleUpTo(turns, li, n - 1) + (if IsTool(turns[n - 1]) && n - 1 <= li then [] else [turns[n - 1]])
  }

  function FilterVisible(turns: seq<Turn>): seq<Turn> {
    VisibleUpTo(turns, LastAssistant(turns), |turns|)
  }

  /** Keep the last `maxTurns`, rewinding by one rather than starting on a
      result whose call sits just outside. */
  function Prune(refs: seq<Turn>, maxTurns: nat): seq<Turn> {
    if |refs| <= maxTurns then refs
    else
      var start := |refs| - maxTurns;
      if && start < |refs| && refs[start].ToolResult?
         && refs[start - 1].ToolCall? && refs[start - 1].id == refs[start].callId
      then refs[start - 1..]
      else refs[start..]
  }

  function ChatTurns(turns: seq<Turn>, maxTurns: nat): seq<Turn> {
    Prune(FilterVisible(turns), maxTurns)
  }

  // ---------------------------------------------------------------------

  /** The User, Assistant and System turns of a list. */
  function WithoutTools(turns: seq<Turn>): (r: seq<Turn>)
    ensures forall i | 0 <= i < |r| :: !IsTool(r[i])
  {
    if turns == [] then []
    else
      var front := WithoutTools(turns[..|turns| - 1]);
      if IsTool(turns[|turns| - 1]) then front else front + [turns[|turns| - 1]]
  }

  lemma {:induction false} VisiblePast(turns: seq<Turn>, li: int, n: nat)
    requires n <= |turns| && n <= li + 1
    ensures VisibleUpTo(turns, li, n) == WithoutTools(turns[..n])
  {
    if n > 0 {
      VisiblePast(turns, li, n - 1);
      assert turns[..n][..n - 1] == turns[..n - 1];
    }
  }

  lemma {:induction false} VisiblePresent(turns: seq<Turn>, li: int, n: nat)
    requires -1 <= li < |turns| && li + 1 <= n <= |turns|
    ensures VisibleUpTo(turns, li, n) == WithoutTools(turns[..li + 1]) + turns[li + 1..n]
  {
    if n == li + 1 {
      VisiblePast(turns, li, n);
    } else {
      VisiblePresent(turns, li, n - 1);
      assert turns[li + 1..n] == turns[li + 1..n - 1] + [turns[n - 1]];
    }
  }

  /** The filter leaves a clean User/Assistant trail for the closed dispatches
      and the whole current dispatch, tool turns included. */
  lemma FilterShape(turns: seq<Turn>)
    ensures var li := LastAssistant(turns);
            FilterVisible(turns) == WithoutTools(turns[..li + 1]) + turns[li + 1..]
  {
    VisiblePresent(turns, LastAssistant(turns), |turns|);
    assert turns[LastAssistant(turns) + 1..|turns|] == turns[LastAssistant(turns) + 1..];
  }

  lemma FilterKeepsPairs(turns: seq<Turn>)
    requires Paired(turns)
    ensures Paired(FilterVisible(turns))
  {
    FilterShape(turns);
    var li := LastAssistant(turns);
    var past, present := WithoutTools(turns[..li + 1]), turns[li + 1..];
    assert Paired(present) by {
      forall i | 0 <= i < |present| && present[i].ToolCall?
        ensures i + 1 < |present| && present[i + 1].ToolResult? && present[i + 1].callId == present[i].id
      {
        assert present[i] == turns[li + 1 + i];
        assert present[i + 1] == turns[li + 1 + i + 1];
      }
      forall i | 0 <= i < |present| && present[i].ToolResult?
        ensures i > 0 && present[i - 1].ToolCall? && present[i - 1].id == present[i].callId
      {
        assert present[i] == turns[li + 1 + i];
        assert turns[li + i].ToolCall?;
        assert li >= 0 ==> !turns[li].ToolCall?;
        assert present[i - 1] == turns[li + i];
      }
    }
    assert forall i | 0 <= i < |past| :: !IsTool(past[i]);
  }

  lemma PruneKeepsPairs(refs: seq<Turn>, maxTurns: nat)
    requires Paired(refs)
    ensures Paired(Prune(refs, maxTurns))
  {
    var r := Prune(refs, maxTurns);
    var d := |refs| - |r|;
    assert r == refs[d..];
    if r != [] && d > 0 { assert !r[0].ToolResult?; }
    forall i | 0 <= i < |r| && r[i].ToolCall?
      ensures i + 1 < |r| && r[i + 1].ToolResult? && r[i + 1].callId == r[i].id
    {
      assert r[i] == refs[d + i];
      assert refs[d + i + 1] == r[i + 1];
    }
    forall i | 0 <= i < |r| && r[i].ToolResult?
      ensures i > 0 && r[i - 1].ToolCall? && r[i - 1].id == r[i].callId
    {
      assert r[i] == refs[d + i];
      assert refs[d + i - 1].ToolCall?;
      assert i == 0 ==> d == 0;
      assert r[i - 1] == refs[d + i - 1];
    }
  }

  /** The window: a suffix of (closed dispatches without tools, then the current
      dispatch verbatim), never splitting a pair, holding at least the last
      `maxTurns` turns of it and at most one more, and one more only to keep a
      pair whole. */
  lemma ContextWindow(turns: seq<Turn>, maxTurns: nat)
    requires Paired(turns)
    ensures Paired(ChatTurns(turns, maxTurns))
    ensures var li := LastAssistant(turns);
            var visible := WithoutTools(turns[..li + 1]) + turns[li + 1..];
            var window := ChatTurns(turns, maxTurns);
            && |window| <= |visible| && window == visible[|visible| - |window|..]
            && (|visible| <= maxTurns ==> window == visible)
            && (|visible| > maxTurns ==> maxTurns <= |window| <= maxTurns + 1)
            && (|visible| > maxTurns && |window| == maxTurns + 1 ==>
                  |window| >= 2 && window[0].ToolCall? && window[1].ToolResult? && window[1].callId == window[0].id)
  {
    FilterShape(turns);
    FilterKeepsPairs(turns);
    PruneKeepsPairs(FilterVisible(turns), maxTurns);
  }

  /** The window of a conversation reloaded after a crash never splits a pair. */
  lemma WindowAfterACrash(id: string, c: Conversation, now: int, maxTurns: nat)
    requires NearlyPaired(LoadTurns(c.log))
    ensures Paired(ChatTurns(FreshLoad(id, c, now).turns, maxTurns))
  {
    LoadPairs(id, c, now);
    ContextWindow(FreshLoad(id, c, now).turns, maxTurns);
  }
}
