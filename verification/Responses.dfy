/** Parsed OpenAI Responses stream events, and the Anthropic stream events they become. */
module Responses {
  import opened Options

  /** What a finished web search says it did; a field that is absent or no string is "". */
  datatype Action = Action(kind: string, query: string, firstOfQueries: string, url: string, pattern: string,
                           sources: Option<seq<string>>)

  datatype Item =
    | FunctionCall(callId: string, id: string, name: string, arguments: Option<string>)
    | Reasoning
    | WebSearchCall(id: string, action: Action)
    | OtherItem

  datatype Citation = Citation(url: string, title: string, startIndex: Option<int>, endIndex: Option<int>)

  /** The fields of `event.response` the translator reads. */
  datatype Response = Response(id: string, model: string, status: string, incompleteReason: string)

  /** A delta that is absent or no string is "": both are ignored. An absent output_index is 0. */
  datatype Body =
    | Terminal
    | UpstreamError
    | ItemAdded(outputIndex: int, item: Item)
    | ItemDone(outputIndex: int, item: Item)
    | TextDelta(outputIndex: int, delta: string)
    | AnnotationAdded(outputIndex: int, citation: Option<Citation>)
    | ArgumentsDelta(outputIndex: int, delta: string)
    | ArgumentsDone(outputIndex: int, arguments: Option<string>)
    | ReasoningDelta(outputIndex: int, delta: string)
    | OtherBody

  datatype Event = Malformed | Event(response: Option<Response>, body: Body)

  /** Ids the upstream did not send are numbered by the translator. */
  datatype BlockId = Given(id: string) | Synthetic(number: nat)

  datatype Block =
    | TextBlock
    | ThinkingBlock
    | ToolUse(id: BlockId, name: string)
    | ServerToolUse(id: BlockId)
    | SearchResult(toolUseId: BlockId, urls: seq<string>)

  datatype SearchInput = NoInput | QueryInput(query: string) | UrlInput(url: string, pattern: string)

  datatype Delta =
    | Text(text: string)
    | Thinking(thinking: string)
    | InputJson(partialJson: string)
    | SearchJson(input: SearchInput)
    | Cited(url: string, title: string, citedText: string)

  datatype StopReason = StopToolUse | StopMaxTokens | StopEndTurn

  datatype Out =
    | MessageStart(id: string, model: string)
    | BlockStart(index: nat, block: Block)
    | BlockDelta(index: nat, delta: Delta)
    | BlockStop(index: nat)
    | MessageDelta(stopReason: StopReason)
    | MessageStop
}
