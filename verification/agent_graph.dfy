/**
 * The two hand-written nodes of the agent graph in server/app.py: the
 * router that decides after every model call whether tools must run, and
 * the tool node that turns the assistant's tool calls into tool results.
 * The search engine is an oracle parameter: it maps a call's arguments to
 * the printed form of its results, or to the exception it raises.
 */
module AgentGraph {
  import opened Common

  /** The only tool the graph recognises. */
  const SearchToolName := "tavily_search_results_json"

  datatype ToolCall = ToolCall(id: string, name: string, args: map<string, string>)

  /** A message of the graph's state; only assistant messages carry tool calls. */
  datatype Message =
    | Human(content: string)
    | Assistant(content: string, toolCalls: seq<ToolCall>)
    | ToolResult(content: string, toolCallId: string, name: string)
    | SystemPrompt(content: string)

  /** Where the graph goes after the model node. */
  datatype Route = ToolNode | End

  /** The search tool: the printed results (`str(search_results)`) or the exception text. */
  type SearchTool = map<string, string> -> Result<string, string>

  /** The loop's only branch: run the tools exactly when the newest message asks for some. */
  function ToolsRouter(messages: seq<Message>): (r: Route)
    requires messages != []
    ensures r == ToolNode <==> messages[|messages| - 1].Assistant? && |messages[|messages| - 1].toolCalls| > 0
  {
    var last := messages[|messages| - 1];
    if last.Assistant? && |last.toolCalls| > 0 then ToolNode else End
  }

  /** The calls the tool node acts on: those naming the search tool, in the model's order. */
  function SearchCalls(calls: seq<ToolCall>): (r: seq<ToolCall>)
    ensures |r| <= |calls|
    ensures forall c :: c in r ==> c in calls && c.name == SearchToolName
    ensures forall c :: c in calls && c.name == SearchToolName ==> c in r
  {
    if calls == [] then []
    else
      var last := calls[|calls| - 1];
      SearchCalls(calls[..|calls| - 1]) + (if last.name == SearchToolName then [last] else [])
  }

  /**
   * What the tool node adds to the state for `calls`: one result per search
   * call, in order; the first search exception aborts the whole node.
   */
  function ToolMessages(calls: seq<ToolCall>, search: SearchTool): (r: Result<seq<Message>, string>)
    ensures r.Ok? ==> |r.value| == |SearchCalls(calls)|
  {
    if calls == [] then Ok([])
    else
      var last := calls[|calls| - 1];
      var before := ToolMessages(calls[..|calls| - 1], search);
      if before.Err? then before
      else if last.name != SearchToolName then before
      else match search(last.args)
        case Err(e) => Err(e)
        case Ok(printed) => Ok(before.value + [ToolResult(printed, last.id, SearchToolName)])
  }

  /** A failure in a prefix of the calls is the failure of the whole node. */
  lemma {:induction false} ToolMessagesKeepsFirstError(calls: seq<ToolCall>, n: nat, search: SearchTool)
    requires n <= |calls| && ToolMessages(calls[..n], search).Err?
    ensures ToolMessages(calls, search) == ToolMessages(calls[..n], search)
  {
    if n < |calls| {
      assert calls[..|calls| - 1][..n] == calls[..n];
      ToolMessagesKeepsFirstError(calls[..|calls| - 1], n, search);
    } else {
      assert calls[..n] == calls;
    }
  }

  /**
   * The tool node's promise: it fails exactly when some search call raises;
   * otherwise result k answers the k-th search call, carries that call's id
   * and the printed output of searching with that call's arguments.
   */
  lemma {:induction false} ToolMessagesPairing(calls: seq<ToolCall>, search: SearchTool)
    ensures ToolMessages(calls, search).Err? <==>
            exists k :: 0 <= k < |SearchCalls(calls)| && search(SearchCalls(calls)[k].args).Err?
    ensures ToolMessages(calls, search).Ok? ==>
            var out, sc := ToolMessages(calls, search).value, SearchCalls(calls);
            |out| == |sc| &&
            forall k :: 0 <= k < |sc| ==>
              search(sc[k].args).Ok? && out[k] == ToolResult(search(sc[k].args).value, sc[k].id, SearchToolName)
  {
    if calls != [] {
      var init, last := calls[..|calls| - 1], calls[|calls| - 1];
      ToolMessagesPairing(init, search);
      var sc0 := SearchCalls(init);
      assert SearchCalls(calls) == sc0 + (if last.name == SearchToolName then [last] else []);
      if ToolMessages(init, search).Err? {
        var k :| 0 <= k < |sc0| && search(sc0[k].args).Err?;
        assert SearchCalls(calls)[k] == sc0[k];
      }
    }
  }

  /** Running the tool node after the router chose `End` has nothing to do. */
  lemma RouterEndMeansNoToolResults(messages: seq<Message>, search: SearchTool)
    requires messages != [] && messages[|messages| - 1].Assistant?
    requires ToolsRouter(messages) == End
    ensures ToolMessages(messages[|messages| - 1].toolCalls, search) == Ok([])
  {
  }

  /**
   * tool_node: walks the newest message's tool calls in order, searching for
   * each search call and collecting a tool result for it.
   */
  method RunToolNode(messages: seq<Message>, search: SearchTool) returns (r: Result<seq<Message>, string>)
    requires messages != [] && messages[|messages| - 1].Assistant?
    ensures r == ToolMessages(messages[|messages| - 1].toolCalls, search)
    ensures r.Ok? ==> |r.value| == |SearchCalls(messages[|messages| - 1].toolCalls)|
    ensures r.Ok? ==> forall k :: 0 <= k < |r.value| ==>
              r.value[k].ToolResult? && r.value[k].toolCallId == SearchCalls(messages[|messages| - 1].toolCalls)[k].id
  {
    var calls := messages[|messages| - 1].toolCalls;
    var toolMessages: seq<Message> := [];
    var i := 0;
    while i < |calls|
      invariant 0 <= i <= |calls|
      invariant ToolMessages(calls[..i], search) == Ok(toolMessages)
    {
      var call := calls[i];
      assert calls[..i + 1][..i] == calls[..i];
      if call.name == SearchToolName {
        var searchResults := search(call.args);
        if searchResults.Err? {
          ToolMessagesKeepsFirstError(calls, i + 1, search);
          r := Err(searchResults.error);
          return;
        }
        toolMessages := toolMessages + [ToolResult(searchResults.value, call.id, call.name)];
      }
      i := i + 1;
    }
    assert calls[..i] == calls;
    ToolMessagesPairing(calls, search);
    r := Ok(toolMessages);
  }
}
