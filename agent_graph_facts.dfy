/** What a run of the turn loop promises about the conversation it leaves and the nodes it visits. */
module AgentGraphFacts {
  import opened AgentGraph

  /** After the agent step the router continues exactly when the model asked for a tool. */
  lemma RouteAfterAgent(msgs: seq<Message>, llm: Oracle)
    ensures ShouldContinue(AgentStep(msgs, llm)) == Continue <==> |llm(msgs).toolCalls| > 0
    ensures ShouldContinue(AgentStep(msgs, llm)) == Continue <==> HasPendingCalls(AgentStep(msgs, llm)[|msgs|])
  {
  }

  /** The route depends on the last message alone. */
  lemma RouteOnlyOnLast(m1: seq<Message>, m2: seq<Message>)
    requires |m1| > 0 && |m2| > 0 && m1[|m1| - 1] == m2[|m2| - 1]
    ensures ShouldContinue(m1) == ShouldContinue(m2)
  {
  }

  /**
   * The messages a run appends, read as rounds: each round opens with an AI
   * message; a round that goes on is followed by exactly the tool results
   * for that message's calls, in call order.
   */
  predicate Rounds(s: seq<Message>, tool: ToolFunction)
    decreases |s|
  {
    if |s| == 0 then true
    else if !s[0].AI? then false
    else if |s| == 1 then true
    else
      var n := |s[0].toolCalls|;
      0 < n && 1 + n <= |s| && s[1..1 + n] == ToolOutputs(s[0].toolCalls, tool) && Rounds(s[1 + n..], tool)
  }

  lemma RoundOfCalls(a: Message, outs: seq<Message>, rest: seq<Message>, tool: ToolFunction)
    requires a.AI? && |a.toolCalls| > 0 && outs == ToolOutputs(a.toolCalls, tool) && Rounds(rest, tool)
    ensures Rounds([a] + outs + rest, tool)
  {
    var s := [a] + outs + rest;
    var n := |a.toolCalls|;
    assert s[1..1 + n] == outs;
    assert s[1 + n..] == rest;
  }

  lemma RoundAppended(msgs: seq<Message>, a: Message, outs: seq<Message>, rest: seq<Message>, tool: ToolFunction)
    requires a.AI? && |a.toolCalls| > 0 && outs == ToolOutputs(a.toolCalls, tool) && Rounds(rest, tool)
    ensures var s := msgs + [a] + outs + rest;
            |msgs| <= |s| && s[..|msgs|] == msgs && Rounds(s[|msgs|..], tool)
  {
    var s := msgs + [a] + outs + rest;
    assert s[|msgs|..] == [a] + outs + rest;
    RoundOfCalls(a, outs, rest, tool);
  }

  /**
   * A run from the entry node only appends to the conversation, and what it
   * appends is a sequence of rounds.
   */
  lemma {:induction false} RunTranscript(msgs: seq<Message>, llm: Oracle, tool: ToolFunction, fuel: nat)
    ensures var r := RunFrom(AgentNode, msgs, llm, tool, fuel);
            |msgs| <= |r.messages| && r.messages[..|msgs|] == msgs && Rounds(r.messages[|msgs|..], tool)
    decreases fuel
  {
    var r := RunFrom(AgentNode, msgs, llm, tool, fuel);
    if fuel == 0 {
      assert r.messages[|msgs|..] == [];
    } else {
      var m := AgentStep(msgs, llm);
      if ShouldContinue(m) == End || fuel == 1 {
        assert r.messages[|msgs|..] == [m[|msgs|]];
      } else {
        var m2 := ToolStep(m, tool);
        AgentUnfold(msgs, llm, tool, fuel);
        ToolUnfold(m, llm, tool, fuel - 1);
        RunTranscript(m2, llm, tool, fuel - 2);
        var r2 := RunFrom(AgentNode, m2, llm, tool, fuel - 2);
        var rest := r2.messages[|m2|..];
        var a := m[|msgs|];
        assert r.messages == r2.messages == m2 + rest;
        assert m2 == msgs + [a] + ToolOutputs(a.toolCalls, tool);
        RoundAppended(msgs, a, ToolOutputs(a.toolCalls, tool), rest, tool);
      }
    }
  }

  /** The nodes agent, tool, agent, ... in turn. */
  predicate Alternating(t: seq<Node>) {
    forall k :: 0 <= k < |t| ==> t[k] == if k % 2 == 0 then AgentNode else ToolNode
  }

  lemma AlternatingAfterRound(t: seq<Node>)
    requires Alternating(t)
    ensures Alternating([AgentNode] + ([ToolNode] + t))
  {
    var u := [AgentNode] + ([ToolNode] + t);
    forall k | 2 <= k < |u|
      ensures u[k] == if k % 2 == 0 then AgentNode else ToolNode
    {
      assert u[k] == t[k - 2];
    }
  }

  /** The nodes a run from the entry visits alternate agent, tool, agent, ..., and there are at most `fuel` of them. */
  lemma {:induction false} RunAlternates(msgs: seq<Message>, llm: Oracle, tool: ToolFunction, fuel: nat)
    ensures var t := RunFrom(AgentNode, msgs, llm, tool, fuel).trace;
            |t| <= fuel && Alternating(t)
    decreases fuel
  {
    if fuel >= 2 {
      var m := AgentStep(msgs, llm);
      if ShouldContinue(m) == Continue {
        var m2 := ToolStep(m, tool);
        AgentUnfold(msgs, llm, tool, fuel);
        ToolUnfold(m, llm, tool, fuel - 1);
        RunAlternates(m2, llm, tool, fuel - 2);
        AlternatingAfterRound(RunFrom(AgentNode, m2, llm, tool, fuel - 2).trace);
      }
    }
  }

  /**
   * A run stops short of its bound only by reaching END, and then it
   * executed an odd number of nodes, the last of them the agent.
   */
  lemma {:induction false} RunStopsAtEndOrBound(msgs: seq<Message>, llm: Oracle, tool: ToolFunction, fuel: nat)
    ensures var r := RunFrom(AgentNode, msgs, llm, tool, fuel);
            (r.finished ==> |r.trace| % 2 == 1 && r.trace[|r.trace| - 1] == AgentNode) &&
            (!r.finished ==> |r.trace| == fuel)
    decreases fuel
  {
    if fuel >= 2 {
      var m := AgentStep(msgs, llm);
      if ShouldContinue(m) == Continue {
        AgentUnfold(msgs, llm, tool, fuel);
        ToolUnfold(m, llm, tool, fuel - 1);
        RunStopsAtEndOrBound(ToolStep(m, tool), llm, tool, fuel - 2);
        var t := RunFrom(AgentNode, ToolStep(m, tool), llm, tool, fuel - 2).trace;
        assert RunFrom(AgentNode, msgs, llm, tool, fuel).trace == [AgentNode] + ([ToolNode] + t);
      }
    }
  }

  /** A finished run ends on an AI message with no tool calls: the model's final answer. */
  lemma {:induction false} FinishedOnAnswer(msgs: seq<Message>, llm: Oracle, tool: ToolFunction, fuel: nat)
    ensures var r := RunFrom(AgentNode, msgs, llm, tool, fuel);
            r.finished ==> |r.messages| > |msgs| && r.messages[|r.messages| - 1].AI? &&
                           r.messages[|r.messages| - 1].toolCalls == []
    decreases fuel
  {
    if fuel >= 2 {
      var m := AgentStep(msgs, llm);
      if ShouldContinue(m) == Continue {
        FinishedOnAnswer(ToolStep(m, tool), llm, tool, fuel - 2);
      }
    }
  }

  /** A model that answers at once ends the run after one agent step and no tool step. */
  lemma DirectAnswer(input: seq<Message>, llm: Oracle, tool: ToolFunction, limit: nat)
    requires limit >= 1 && llm(input).toolCalls == []
    ensures RunFrom(Entry, input, llm, tool, limit) ==
            Run(input + [AI(llm(input).content, [])], [AgentNode], true)
  {
  }

  /**
   * A model that asks for tools once and then answers ends the run after
   * agent, tool, agent, with the tool results between its two messages.
   */
  lemma OneToolRound(input: seq<Message>, llm: Oracle, tool: ToolFunction, limit: nat)
    requires limit >= 3 && |llm(input).toolCalls| > 0
    requires var first := input + [AI(llm(input).content, llm(input).toolCalls)];
             llm(first + ToolOutputs(llm(input).toolCalls, tool)).toolCalls == []
    ensures var first := input + [AI(llm(input).content, llm(input).toolCalls)];
            var second := first + ToolOutputs(llm(input).toolCalls, tool);
            RunFrom(Entry, input, llm, tool, limit) ==
            Run(second + [AI(llm(second).content, [])], [AgentNode, ToolNode, AgentNode], true)
  {
    var first := AgentStep(input, llm);
    var second := ToolStep(first, tool);
    assert second == first + ToolOutputs(llm(input).toolCalls, tool);
    DirectAnswer(second, llm, tool, limit - 2);
  }

  /** A model that asks for tools first sees, after its own message, the results of exactly those calls. */
  lemma FirstRound(input: seq<Message>, llm: Oracle, tool: ToolFunction, limit: nat)
    requires limit >= 2 && |llm(input).toolCalls| > 0
    ensures var first := input + [AI(llm(input).content, llm(input).toolCalls)] + ToolOutputs(llm(input).toolCalls, tool);
            var r := RunFrom(Entry, input, llm, tool, limit);
            |first| <= |r.messages| && r.messages[..|first|] == first
  {
    var m := AgentStep(input, llm);
    var m2 := ToolStep(m, tool);
    AgentUnfold(input, llm, tool, limit);
    ToolUnfold(m, llm, tool, limit - 1);
    RunTranscript(m2, llm, tool, limit - 2);
  }
}
