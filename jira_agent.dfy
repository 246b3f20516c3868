/** The turn loop with the mock Jira search bound as its one tool. */
module JiraAgent {
  import opened JiraQuery
  import opened JiraExamples
  import opened AgentGraph
  import opened AgentGraphFacts

  /** The tool node holds the mock search alone; a call's query text goes to the resolver. */
  function SearchTool(): ToolFunction {
    Resolve
  }

  /** Every tool result of the Jira graph is the resolver's answer to the query of the call it answers. */
  lemma ToolResultsAreSearchResults(calls: seq<ToolCall>)
    ensures forall k :: 0 <= k < |calls| ==>
              ToolOutputs(calls, SearchTool())[k] == Tool(Resolve(calls[k].args), calls[k].id)
  {
  }

  /**
   * A model that searches for the unknown project XYZ is shown, right after
   * its own message, the diagnostic that lists the known projects.
   */
  lemma ExampleSearchUnknownProject(input: seq<Message>, llm: Oracle, limit: nat)
    requires limit >= 2
    requires llm(input).toolCalls == [ToolCall("call_1", "search_jira", "project = XYZ")]
    ensures var r := RunFrom(Entry, input, llm, SearchTool(), limit);
            |r.messages| >= |input| + 2 &&
            r.messages[|input| + 1] ==
              Tool("Mock project '" + "XYZ" + "' not found. Available projects are: " + "PROJ, WEB, DATA", "call_1")
  {
    var calls := llm(input).toolCalls;
    FirstRound(input, llm, SearchTool(), limit);
    ToolResultsAreSearchResults(calls);
    ExampleUnknownProject();
    var first := input + [AI(llm(input).content, calls)] + ToolOutputs(calls, SearchTool());
    assert first[|input| + 1] == ToolOutputs(calls, SearchTool())[0];
  }
}
