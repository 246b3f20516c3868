/**
 * The agent's turn loop: a two-node state graph over an append-only list of
 * messages. The agent node asks the language model for one reply; the
 * router ends the turn on a reply without tool calls and otherwise sends it
 * to the tool node, which answers every call with the mock resolver and
 * hands back to the agent.
 */
module AgentGraph {

  /** One tool call the model asks for: its id, the tool's name, and the query text it passes. */
  datatype ToolCall = ToolCall(id: string, name: string, args: string)

  /** The three kinds of message the conversation holds. */
  datatype Message =
    | Human(content: string)
    | AI(content: string, toolCalls: seq<ToolCall>)
    | Tool(content: string, toolCallId: string)

  /** What the language model answers: text and zero or more tool calls. */
  datatype Reply = Reply(content: string, toolCalls: seq<ToolCall>)

  /** The language model, seen only through its answer to the conversation so far. */
  type Oracle = seq<Message> -> Reply

  datatype Route = Continue | End

  datatype Node = AgentNode | ToolNode

  /** The node the graph starts in. */
  const Entry: Node := AgentNode

  /**
   * The router inspects only the last message: it ends the turn on an AI
   * message without tool calls, and continues on anything else, a Human or
   * Tool message included.
   */
  function ShouldContinue(msgs: seq<Message>): (r: Route)
    requires |msgs| > 0
    ensures r == Continue <==>
            msgs[|msgs| - 1].Human? || msgs[|msgs| - 1].Tool? || |msgs[|msgs| - 1].toolCalls| > 0
  {
    var last := msgs[|msgs| - 1];
    if last.AI? && last.toolCalls == [] then End else Continue
  }

  /** A message that still waits for tool results. */
  predicate HasPendingCalls(m: Message) {
    m.AI? && |m.toolCalls| > 0
  }

  /** The agent node: append the model's reply to the conversation it was shown. */
  function AgentStep(msgs: seq<Message>, llm: Oracle): (r: seq<Message>)
    ensures |r| == |msgs| + 1 && r[..|msgs|] == msgs
    ensures r[|msgs|] == AI(llm(msgs).content, llm(msgs).toolCalls)
  {
    msgs + [AI(llm(msgs).content, llm(msgs).toolCalls)]
  }

  /** A tool, seen as the text it answers to the query text of a call. */
  type ToolFunction = string -> string

  /** The tool node answers the k-th call with the k-th tool message: its id, and the tool's answer to its query. */
  function ToolOutputs(calls: seq<ToolCall>, tool: ToolFunction): (r: seq<Message>)
    ensures |r| == |calls|
    ensures forall k :: 0 <= k < |calls| ==> r[k] == Tool(tool(calls[k].args), calls[k].id)
    decreases |calls|
  {
    if calls == [] then []
    else [Tool(tool(calls[0].args), calls[0].id)] + ToolOutputs(calls[1..], tool)
  }

  /** The conversation ends with the AI message whose calls the tool node is to answer. */
  predicate AwaitingTools(msgs: seq<Message>) {
    |msgs| > 0 && msgs[|msgs| - 1].AI?
  }

  /** The tool node: append the results of the last AI message's tool calls. */
  function ToolStep(msgs: seq<Message>, tool: ToolFunction): (r: seq<Message>)
    requires AwaitingTools(msgs)
    ensures |msgs| <= |r| && r[..|msgs|] == msgs
    ensures r[|msgs|..] == ToolOutputs(msgs[|msgs| - 1].toolCalls, tool)
  {
    msgs + ToolOutputs(msgs[|msgs| - 1].toolCalls, tool)
  }

  /** The outcome of running the graph: the conversation, the nodes visited in order, and whether it reached END. */
  datatype Run = Run(messages: seq<Message>, trace: seq<Node>, finished: bool)

  /** `run` with the nodes `t` visited before it. */
  function After(t: seq<Node>, run: Run): Run {
    Run(run.messages, t + run.trace, run.finished)
  }

  /**
   * The graph run from `node` with at most `fuel` node executions: the agent
   * node routes to the tool node or to END, the tool node always returns to
   * the agent node. A run that uses up its fuel stops unfinished, which is
   * where the graph library gives up with a recursion-limit error.
   */
  function RunFrom(node: Node, msgs: seq<Message>, llm: Oracle, tool: ToolFunction, fuel: nat): (r: Run)
    requires node == ToolNode ==> AwaitingTools(msgs)
    decreases fuel
  {
    if fuel == 0 then Run(msgs, [], false)
    else
      match node
      case AgentNode =>
        var m := AgentStep(msgs, llm);
        if ShouldContinue(m) == End then Run(m, [AgentNode], true)
        else After([AgentNode], RunFrom(ToolNode, m, llm, tool, fuel - 1))
      case ToolNode =>
        var m := ToolStep(msgs, tool);
        After([ToolNode], RunFrom(AgentNode, m, llm, tool, fuel - 1))
  }

  /** Invoking the compiled graph on the input conversation, as a loop over node executions. */
  method RunGraph(input: seq<Message>, llm: Oracle, tool: ToolFunction, limit: nat) returns (r: Run)
    ensures r == RunFrom(Entry, input, llm, tool, limit)
  {
    var node := Entry;
    var messages := input;
    var trace: seq<Node> := [];
    var finished := false;
    var steps := 0;
    AfterNothing(RunFrom(Entry, input, llm, tool, limit));
    while steps < limit && !finished
      invariant steps <= limit
      invariant node == ToolNode ==> AwaitingTools(messages)
      invariant finished ==> RunFrom(Entry, input, llm, tool, limit) == Run(messages, trace, true)
      invariant !finished ==> RunFrom(Entry, input, llm, tool, limit) == After(trace, RunFrom(node, messages, llm, tool, limit - steps))
      decreases limit - steps
    {
      ghost var fuel := limit - steps;
      if node == AgentNode {
        AgentUnfold(messages, llm, tool, fuel);
        messages := AgentStep(messages, llm);
        if ShouldContinue(messages) == End {
          finished := true;
        } else {
          node := ToolNode;
          AfterAfter(trace, [AgentNode], RunFrom(ToolNode, messages, llm, tool, fuel - 1));
        }
        trace := trace + [AgentNode];
      } else {
        ToolUnfold(messages, llm, tool, fuel);
        messages := ToolStep(messages, tool);
        node := AgentNode;
        AfterAfter(trace, [ToolNode], RunFrom(AgentNode, messages, llm, tool, fuel - 1));
        trace := trace + [ToolNode];
      }
      steps := steps + 1;
    }
    r := Run(messages, trace, finished);
  }

  lemma AfterNothing(run: Run)
    ensures After([], run) == run
  {
    assert [] + run.trace == run.trace;
  }

  /** One agent step of a run. */
  lemma AgentUnfold(msgs: seq<Message>, llm: Oracle, tool: ToolFunction, fuel: nat)
    requires fuel > 0
    ensures var m := AgentStep(msgs, llm);
            RunFrom(AgentNode, msgs, llm, tool, fuel) ==
            if ShouldContinue(m) == End then Run(m, [AgentNode], true)
            else After([AgentNode], RunFrom(ToolNode, m, llm, tool, fuel - 1))
  {
  }

  /** One tool step of a run. */
  lemma ToolUnfold(msgs: seq<Message>, llm: Oracle, tool: ToolFunction, fuel: nat)
    requires fuel > 0 && AwaitingTools(msgs)
    ensures RunFrom(ToolNode, msgs, llm, tool, fuel) == After([ToolNode], RunFrom(AgentNode, ToolStep(msgs, tool), llm, tool, fuel - 1))
  {
  }

  lemma AfterAfter(t1: seq<Node>, t2: seq<Node>, run: Run)
    ensures After(t1, After(t2, run)) == After(t1 + t2, run)
  {
    assert t1 + (t2 + run.trace) == (t1 + t2) + run.trace;
  }
}
