# Mock Jira agent: resolver, store and turn loop

This project models the core of a small chat agent. The agent answers questions about Jira issues. It can call one tool, `search_jira`, which resolves a tiny subset of JQL against a fixed, in-memory mock store of issues.

The model has three parts:

- **The store** (`jira_store.dfy`). `load_mock_jira_database` builds an equal ordered dictionary afresh on every call, so no state carries over from one search to the next. It maps the project keys PROJ, WEB and DATA to their issues. The model is an ordered sequence of projects, because the "available projects" diagnostic shows the keys in insertion order. The nested `MockIssue`/`MockFields`/`MockStatus` objects are set once at construction, so they become one immutable `Issue` record.
- **The resolver** (`jira_pattern.dfy`, `jira_query.dfy`). The two case-insensitive clause patterns become deterministic anchored matchers. Each matcher is proved equal to a declarative reading of its regular expression (`PatternAt`). A first-occurrence scan plays the part of `re.search`. `ResolveIn` is the resolver as a total function:
  - find the project key and upper-case it;
  - find an optional status;
  - look the key up;
  - filter by status, case-blind and in order;
  - render one line per issue, or return one of three fixed diagnostics.

  `SearchJira` is the source's step-by-step body. It is proved to compute `Resolve`. The lemmas are in `jira_pattern_facts.dfy` and `jira_query_facts.dfy`. Worked examples on concrete queries are in `jira_examples.dfy`.
- **The turn loop** (`agent_graph.dfy`, `agent_graph_facts.dfy`, `jira_agent.dfy`). The conversation is an append-only sequence of messages. The agent node appends one AI message, the reply of an abstract language model (`Oracle`). The router `ShouldContinue` looks only at the last message. The tool node appends one tool result per call of the last AI message and returns to the agent. `RunFrom` is the graph's behaviour from a node with a bound on node executions. `RunGraph` is the loop that drives it and is proved equal to it. `JiraAgent` binds the tool to the resolver.

Determinism of `search_jira` needs no separate statement. The store is a constant and the resolver is a function, so equal queries give equal answers and no hidden state exists.

The routing rule is sometimes summarised as "continue only on an AI message that carries tool requests". The code (src/agent/graph/graph.py:103-106) also continues when the last message is a Human or Tool message. The model follows the code (`AgentGraph.ShouldContinue`). Inside the graph the router only runs right after the agent node has appended an AI message. So the two readings agree on every run (`AgentGraphFacts.RouteAfterAgent`).

## Model

| member | source | states |
|---|---|---|
| JiraStore.MockDatabase | src/agent/database/jira.py:20-36 | the store: projects PROJ, WEB, DATA in literal order, each with its issue list (contents stated by MockKeys and MockContents) |
| JiraStore.ProjIssues | src/agent/database/jira.py:23-27 | the three PROJ issues in literal order |
| JiraStore.WebIssues | src/agent/database/jira.py:28-31 | the two WEB issues in literal order |
| JiraStore.DataIssues | src/agent/database/jira.py:32-34 | the one DATA issue |
| JiraStore.Keys | src/agent/graph/graph.py:45 | the listed keys are the store's project keys, one per project, in store order |
| JiraStore.Lookup | src/agent/graph/graph.py:44-47 | the key is found exactly when it is among the store's keys, and then the result is that project's issue list |
| JiraStore.MockKeys | src/agent/database/jira.py:22-35 | the store's keys are exactly PROJ, WEB, DATA in that order, and no key repeats |
| JiraStore.MockContents | src/agent/database/jira.py:23-34 | each project holds exactly the constructed issues, with their keys, summaries and statuses, in order |
| JiraStore.MockIssueKeysPrefixed | src/agent/database/jira.py:22-35 | every issue key begins with its project's key followed by "-" |
| JiraStore.MockHasNoLineBreaks | src/agent/database/jira.py:22-35 | no key, summary or status in the store contains a line break |
| Text.IsSpace | src/agent/graph/graph.py:34-35 | `\s` on ASCII: TAB, LF, VT, FF, CR, the separators 0x1C-0x1F, and space |
| Text.IsWordChar | src/agent/graph/graph.py:34-35 | `\w` on ASCII: letters, digits and underscore |
| Text.IsQuote | src/agent/graph/graph.py:34-35 | the character class `['"]` |
| Text.LowerStr | src/agent/graph/graph.py:51 | `str.lower` on ASCII: each upper-case letter is mapped to its lower case, every other character is kept, and the length is kept |
| Text.UpperStr | src/agent/graph/graph.py:40 | `str.upper` on ASCII: each lower-case letter is mapped to its upper case, every other character is kept, and the length is kept (idempotent by UpperStrIdempotent) |
| JiraPattern.MatchAt | src/agent/graph/graph.py:34-35 | an anchored match puts group 1 after the keyword, non-empty and inside the query |
| JiraPattern.FirstFrom | src/agent/graph/graph.py:34-35 | the scan returns the first position whose anchored match succeeds; when it fails, no scanned position matches |
| JiraPattern.Search | src/agent/graph/graph.py:34-35 | the search returns a successful anchored match with none before it, or fails when no position of the query matches |
| JiraPatternFacts.ReadGroupIsGroupAt | src/agent/graph/graph.py:34-35 | the group read after `=` is exactly the group the regular expression describes: optional quote and a maximal `\w+` run, or `['"]`, a maximal `[^'"]+` run and `['"]` |
| JiraPatternFacts.MatchRestIsLayout | src/agent/graph/graph.py:34-35 | after the keyword, the matcher succeeds with a group exactly when blanks, `=`, blanks and that group can be laid out there |
| JiraPatternFacts.MatchAtIsPattern | src/agent/graph/graph.py:34-35 | the anchored matcher returns a span exactly when the pattern matches at that position with group 1 on that span |
| JiraPatternFacts.SearchIsLeftmostMatch | src/agent/graph/graph.py:34-35 | the search fails exactly when the pattern matches nowhere; otherwise it returns a match of the pattern with no match at any earlier position |
| JiraPatternFacts.MatchAtIgnoresCase | src/agent/graph/graph.py:34-35 | under IGNORECASE, queries that lower-case alike give the same anchored match at every position |
| JiraPatternFacts.SearchIgnoresCase | src/agent/graph/graph.py:34-35 | under IGNORECASE, queries that lower-case alike give the same search result |
| JiraPatternFacts.SearchFailsWithoutInitial | src/agent/graph/graph.py:34-35 | a clause whose keyword's first letter occurs in neither case in the query is not found |
| JiraQuery.ProjectKey | src/agent/graph/graph.py:34-40 | group 1 of the first project-clause match, upper-cased; none when the pattern matches nowhere (properties in ProjectKeyIsUpper, ResolveMissingProject) |
| JiraQuery.StatusText | src/agent/graph/graph.py:35-50 | group 1 of the first status-clause match, as written; none when there is no status clause |
| JiraQuery.StatusMatches | src/agent/graph/graph.py:51 | the comprehension's test: the issue's status and the wanted text are equal after lower-casing, as whole strings |
| JiraQuery.Select | src/agent/graph/graph.py:47-51 | all of the project's issues without a status clause, otherwise the status filter's result |
| JiraQuery.IssueLine | src/agent/graph/graph.py:60 | the line `- key: summary (Status: status)` of one issue (shape in IssueLineShape) |
| JiraQuery.Lines | src/agent/graph/graph.py:57-61 | one rendered line per issue, in order |
| JiraQuery.NotFoundMessage | src/agent/graph/graph.py:45 | the "Mock project 'K' not found. Available projects are: ..." text with the keys joined by ", " |
| JiraQuery.ResolveIn | src/agent/graph/graph.py:34-62 | the resolver over a given store: the missing-project text (the constant `MissingProjectMessage`, graph.py:38) without a project match; the not-found text for an unknown key; the no-issues text (the constant `NoIssuesMessage`, graph.py:54) when nothing is kept; otherwise the kept issues' lines joined by line breaks (properties in JiraQueryFacts) |
| JiraQuery.Resolve | src/agent/graph/graph.py:23-62 | what `search_jira` returns: the resolver over the mock store (SearchJira is proved to compute it) |
| JiraQuery.FilterByStatus | src/agent/graph/graph.py:49-51 | the kept issues form an order-preserving subsequence; an issue is kept exactly when its lower-cased status equals the lower-cased wanted text, and then with every copy the input holds |
| JiraQuery.SearchJira | src/agent/graph/graph.py:23-62 | the step-by-step body returns exactly the resolver's answer over the mock store |
| JiraQuery.FormatIssues | src/agent/graph/graph.py:57-62 | the accumulating loop returns the issue lines, one per issue in order, joined by line breaks |
| Text.Join | src/agent/graph/graph.py:62 | Python's `sep.join(parts)`: the parts with the separator between neighbours (inverse of Split by SplitJoin) |
| Text.SplitJoin | src/agent/graph/graph.py:62 | splitting a join on a separator that no part contains gives the parts back |
| JiraQueryFacts.ProjectKeyIsUpper | src/agent/graph/graph.py:34-40 | the key that is looked up is non-empty and already upper case |
| JiraQueryFacts.FilterIgnoresCaseOfWanted | src/agent/graph/graph.py:51 | the filter depends on the wanted status only up to case |
| JiraQueryFacts.SelectKeepsOwnIssues | src/agent/graph/graph.py:47-51 | every kept issue is an issue of the looked-up project |
| JiraQueryFacts.ResolveIgnoresCase | src/agent/graph/graph.py:34-51 | queries that lower-case alike get identical answers over any store |
| JiraQueryFacts.OutcomesDiffer | src/agent/graph/graph.py:37-62 | the three diagnostics and any non-empty listing are pairwise distinct texts |
| JiraQueryFacts.ResolveMissingProject | src/agent/graph/graph.py:34-38 | the "requires a 'project = <KEY>' clause" diagnostic comes back exactly when the project pattern matches nowhere |
| JiraQueryFacts.ResolveNoIssues | src/agent/graph/graph.py:44-54 | the "No issues found" diagnostic comes back exactly when the key names a project and the filter keeps none of its issues |
| JiraQueryFacts.ResolveUnknownProjectIn | src/agent/graph/graph.py:44-45 | an unknown key is named back in the "not found" diagnostic, followed by all store keys joined by ", " |
| JiraQueryFacts.AvailableProjectsText | src/agent/graph/graph.py:45 | the mock store's keys are listed as "PROJ, WEB, DATA" |
| JiraQueryFacts.ResolveUnknownProject | src/agent/graph/graph.py:44-45 | over the mock store, an unknown key K gives "Mock project 'K' not found. Available projects are: PROJ, WEB, DATA" |
| JiraQueryFacts.IssueLineShape | src/agent/graph/graph.py:60 | a rendered issue line opens with "-" and closes with ")" |
| JiraQueryFacts.ListingSplits | src/agent/graph/graph.py:57-62 | splitting a listing on line breaks gives back its lines, and the listing ends with ")", not a line break |
| JiraQueryFacts.ResolveListingIn | src/agent/graph/graph.py:57-62 | over a store without line breaks, a non-empty result splits into one line per kept issue, in order, with no trailing line break |
| JiraQueryFacts.ResolveListing | src/agent/graph/graph.py:57-62 | over the mock store, a non-empty result has exactly as many lines as kept issues, in order, and no trailing line break |
| JiraQueryFacts.ResolveListsAll | src/agent/graph/graph.py:47-62 | without a status clause, every issue of the project is listed, one line each, in store order |
| JiraExamples.ExampleProject | src/agent/graph/graph.py:47-62 | "project = PROJ" gives the lines of PROJ-1, PROJ-2, PROJ-3 joined by line breaks |
| JiraExamples.ExampleProjectAndStatus | src/agent/graph/graph.py:49-62 | "project = WEB and status = 'Done'" gives exactly the line of WEB-102 |
| JiraExamples.ExampleUnknownProject | src/agent/graph/graph.py:44-45 | "project = XYZ" names XYZ and lists PROJ, WEB, DATA |
| JiraExamples.ExampleMissingProject | src/agent/graph/graph.py:37-38 | "status = 'Done'" gives the "requires a project clause" diagnostic |
| JiraExamples.ExampleNoIssues | src/agent/graph/graph.py:53-54 | "project = DATA and status = 'Blocked'" gives the "No issues found" diagnostic |
| JiraExamples.ExampleIgnoresCase | src/agent/graph/graph.py:34-40 | "PROJECT = proj" gives the same answer as "project = PROJ" |
| AgentGraph.ShouldContinue | src/agent/graph/graph.py:99-106 | the route is Continue exactly when the last message is a Human or Tool message or an AI message with at least one tool call; otherwise End |
| AgentGraph.AgentStep | src/agent/graph/graph.py:79-93 | the agent node appends exactly one AI message, the model's reply to the conversation so far, and keeps every earlier message |
| AgentGraph.ToolOutputs | src/agent/graph/graph.py:97 | the tool node produces one result per tool call, in call order; the k-th carries the k-th call's id and the tool's answer to that call's query |
| AgentGraph.ToolStep | src/agent/graph/graph.py:97 | the tool node only appends: every earlier message is kept, and what follows is exactly the results for the last AI message's calls |
| AgentGraph.RunFrom | src/agent/graph/graph.py:119-137 | the run of the wired graph from a node, with at most `fuel` node executions: the agent node routes to the tool node or to END, the tool node always returns to the agent; unfinished when the bound runs out (properties in AgentGraphFacts) |
| AgentGraph.RunGraph | src/agent/graph/graph.py:119-137 | the loop over node executions, starting at the agent node, produces exactly the run that the graph's wiring defines |
| AgentGraph.AgentUnfold | src/agent/graph/graph.py:123-130 | after the agent node the run ends if the router says End, and otherwise goes on at the tool node |
| AgentGraph.ToolUnfold | src/agent/graph/graph.py:134 | after the tool node the run always goes on at the agent node |
| AgentGraphFacts.RouteAfterAgent | src/agent/graph/graph.py:123-130 | right after the agent step, the router continues exactly when the model asked for at least one tool call |
| AgentGraphFacts.RouteOnlyOnLast | src/agent/graph/graph.py:103 | conversations with the same last message are routed alike |
| AgentGraphFacts.RunTranscript | src/agent/graph/graph.py:75 | a run only appends to the input conversation; what it appends is AI messages, each followed by exactly the results of its calls when it continues |
| AgentGraphFacts.RunAlternates | src/agent/graph/graph.py:119-137 | the nodes executed alternate agent, tool, agent, ..., and there are at most as many as the bound |
| AgentGraphFacts.RunStopsAtEndOrBound | src/agent/graph/graph.py:123-134 | a finished run executed an odd number of nodes, the last of them the agent; an unfinished run used up the whole bound |
| AgentGraphFacts.FinishedOnAnswer | src/agent/graph/graph.py:103-104 | a finished run ends on an AI message with no tool calls |
| AgentGraphFacts.DirectAnswer | src/agent/graph/graph.py:123-137 | when the model answers at once, the run ends after exactly one agent step and no tool step, with that answer appended |
| AgentGraphFacts.OneToolRound | src/agent/graph/graph.py:119-137 | when the model calls tools once and then answers, the run is agent, tool, agent, with the tool results between the two AI messages |
| AgentGraphFacts.FirstRound | src/agent/graph/graph.py:123-134 | when the model calls tools first, its message and then exactly the results of those calls follow the input |
| JiraAgent.SearchTool | src/agent/graph/graph.py:97 | the tool node's one tool: `search_jira`, that is, the resolver applied to a call's query text |
| JiraAgent.ToolResultsAreSearchResults | src/agent/graph/graph.py:97 | in the Jira graph, every tool result is the resolver's answer to its call's query, under the call's id |
| JiraAgent.ExampleSearchUnknownProject | src/agent/graph/graph.py:97 | a model that searches for "project = XYZ" is next shown the "not found" diagnostic listing PROJ, WEB, DATA |

## Left out

- The Streamlit user interface (src/agent/ui/app.py) and the package re-exports: display and I/O glue only.
- The language model call (src/agent/graph/graph.py:88-92) is a network service. It is an abstract function `Oracle` from the conversation to a reply. Failures of the call are not modelled.
- The graph library's internals, `compile()` and `draw_ascii()` (src/agent/graph/graph.py:97, 140, 150) are a library outside this model. Only the wiring contract is modelled: entry, the conditional edge, the tool-to-agent edge, and the tool node's one-result-per-call behaviour.
- `load_dotenv()` and the `print` in `search_jira` (src/agent/graph/graph.py:19, 30) are environment and logging side effects.
- The catch-all `except` (src/agent/graph/graph.py:63-64) is left out. Nothing in the modelled body can fail, so the resolver is total and the handler is unreachable.
- Text.IsSpace: `\s` is modelled for ASCII only, and so is `\w` (Text.IsWordChar). Python's Unicode whitespace and word characters beyond ASCII are not modelled.
- Text.LowerStr: `str.lower` is modelled as ASCII case mapping, and so is `str.upper` (Text.UpperStr) and IGNORECASE. Python's Unicode case mappings, including those that change a string's length, are not modelled.
- AgentGraph.RunFrom: the graph is run with a bound on node executions. A run that uses it up ends unfinished, where the graph library raises a recursion-limit error. Termination of the loop is not claimed.
- AgentGraph.ToolStep: requires the last message to be an AI message. The graph only enters the tool node right after the agent's AI message. The library's error for any other last message is not modelled.
- AgentGraph.ShouldContinue: requires a non-empty conversation. On an empty one Python raises an index error. The router only runs after the agent has appended a message.
- AgentGraph.ToolOutputs: the tool call's name is not inspected. Every call is sent to the one tool the graph is built with. A call that names another tool would not reach `search_jira` in the library, which reports an error instead; the model does not capture that case. The call's argument is the query text itself, not a JSON object of named arguments.
