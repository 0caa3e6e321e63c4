/** The conversation messages shared by the reducer, the compaction planner and the tool-name codec. */
module Messages {

  datatype MessageRole = User | Assistant | ToolResult | System | Custom(name: string)

  datatype ContentBlock =
    | TextBlock(text: string)
    | ToolCallBlock(toolName: string)
    | ToolResultBlock(toolName: string)
    | OtherBlock(kind: string)

  datatype AgentMessage = AgentMessage(
    id: string,
    role: MessageRole,
    content: seq<ContentBlock>,
    metadata: map<string, string>)

  function Ids(messages: seq<AgentMessage>): (ids: seq<string>)
    ensures |ids| == |messages| && forall i :: 0 <= i < |ids| ==> ids[i] == messages[i].id
  {
    seq(|messages|, i requires 0 <= i < |messages| => messages[i].id)
  }

  function IdSet(ids: seq<string>): set<string> {
    set id | id in ids
  }

  predicate Distinct(ids: seq<string>) {
    forall i, j :: 0 <= i < j < |ids| ==> ids[i] != ids[j]
  }
}
