/**
 * The Responses -> Anthropic stream translator as a state and a function per helper. Each function returns
 * the new state and the events it emits, in order. The class in Translator.dfy works in place and is proved
 * against these; what the events mean is proved in WellFormed.dfy and ParallelCalls.dfy.
 */
module Translation {
  import opened Options
  import opened Responses

  datatype Kind = TextKind | ThinkingKind | ToolKind | SearchKind

  datatype OpenBlock = Closed | Open(kind: Kind, index: nat, outputIndex: int)

  datatype Placed = Placed(kind: Kind, index: nat)

  /** One function call: what has arrived for it, how much of that has gone out, whether it is finished. */
  datatype ToolCall = ToolCall(item: Option<Item>, args: string, sent: nat, done: bool)

  datatype State = State(
    started: bool, ended: bool, model: Option<string>,
    nextIndex: nat, open: OpenBlock, blocks: map<int, Placed>,
    sawToolCall: bool, syntheticSeq: nat,
    text: map<int, string>, searchIds: map<int, BlockId>,
    calls: map<int, ToolCall>, waiting: seq<int>)

  datatype Step = Step(state: State, out: seq<Out>)

  function Initial(requestModel: Option<string>): State {
    State(false, false, requestModel, 0, Closed, map[], false, 0, map[], map[], map[], [])
  }

  function MessageId(response: Option<Response>): string {
    if response.Some? && response.value.id != "" then
      if "msg_" <= response.value.id then response.value.id else "msg_" + response.value.id
    else "msg_responses_translate"
  }

  function ResolvedModel(s: State, response: Option<Response>): string {
    if s.model.Some? then s.model.value
    else if response.Some? && response.value.model != "" then response.value.model
    else "unknown"
  }

  function EnsureStarted(s: State, response: Option<Response>): Step {
    if s.started then Step(s, [])
    else
      var model := ResolvedModel(s, response);
      Step(s.(started := true, model := Some(model)), [MessageStart(MessageId(response), model)])
  }

  function CloseOpen(s: State): Step {
    if s.open.Open? then Step(s.(open := Closed), [BlockStop(s.open.index)]) else Step(s, [])
  }

  function OpenAs(s: State, kind: Kind, outputIndex: int, block: Block): Step {
    Step(s.(nextIndex := s.nextIndex + 1,
            open := Open(kind, s.nextIndex, outputIndex),
            blocks := s.blocks[outputIndex := Placed(kind, s.nextIndex)]),
         [BlockStart(s.nextIndex, block)])
  }

  predicate HasId(item: Option<Item>) {
    item.Some? && item.value.FunctionCall? && (item.value.callId != "" || item.value.id != "")
  }

  /** The tool_use block a call opens with; a call without ids gets the next synthetic one. */
  function ToolBlock(item: Option<Item>, syntheticSeq: nat): Block {
    if item.Some? && item.value.FunctionCall? then
      var fc := item.value;
      ToolUse(if fc.callId != "" then Given(fc.callId) else if fc.id != "" then Given(fc.id)
          else Synthetic(syntheticSeq),
              fc.name)
    else ToolUse(Synthetic(syntheticSeq), "")
  }

  function OpenTool(s: State, item: Option<Item>, outputIndex: int): Step {
    var begun := OpenAs(s, ToolKind, outputIndex, ToolBlock(item, s.syntheticSeq));
    Step(begun.state.(sawToolCall := true,
                       syntheticSeq := if HasId(item) then s.syntheticSeq else s.syntheticSeq + 1),
         begun.out)
  }

  /** The call at `outputIndex`, made if it is new, its item filled in if it had none. */
  function TouchCall(s: State, outputIndex: int, item: Option<Item>): (r: State)
    ensures outputIndex in r.calls
  {
    if outputIndex !in s.calls then s.(calls := s.calls[outputIndex := ToolCall(item, "", 0, false)])
    else if s.calls[outputIndex].item.None? then
      s.(calls := s.calls[outputIndex := s.calls[outputIndex].(item := item)])
    else s
  }

  /** The open block is a call still owed its arguments. */
  predicate InFlight(s: State) {
    s.open.Open? && s.open.kind == ToolKind && s.open.outputIndex in s.calls && !s.calls[s.open.outputIndex].done
  }

  predicate IsOpenTool(s: State, outputIndex: int) {
    s.open.Open? && s.open.kind == ToolKind && s.open.outputIndex == outputIndex
  }

  /** `args.slice(sent)`, empty past the end as in JavaScript. */
  function Unsent(call: ToolCall): string {
    if call.sent <= |call.args| then call.args[call.sent..] else ""
  }

  function SendArgs(s: State, outputIndex: int): (r: Step)
    requires outputIndex in s.calls
    ensures r.state.calls.Keys == s.calls.Keys && r.state.waiting == s.waiting
  {
    var call := s.calls[outputIndex];
    if !IsOpenTool(s, outputIndex) || |call.args| == call.sent then Step(s, [])
    else Step(s.(calls := s.calls[outputIndex := call.(sent := |call.args|)]),
              [BlockDelta(s.open.index, InputJson(Unsent(call)))])
  }

  /** Close what is open, open this call's block and send what it has. */
  function OpenCall(s: State, outputIndex: int): (r: Step)
    requires outputIndex in s.calls
    ensures r.state.calls.Keys == s.calls.Keys && r.state.waiting == s.waiting
  {
    var closed := CloseOpen(s);
    var begun := OpenTool(closed.state, s.calls[outputIndex].item, outputIndex);
    var sent := SendArgs(begun.state, outputIndex);
    Step(sent.state, closed.out + begun.out + sent.out)
  }

  /** Open the call's block, or queue it behind the call holding the open one. Once placed, only send. */
  function Place(s: State, outputIndex: int): (r: Step)
    requires outputIndex in s.calls
    ensures r.state.calls.Keys == s.calls.Keys
  {
    if outputIndex in s.blocks || outputIndex in s.waiting then SendArgs(s, outputIndex)
    else if InFlight(s) then Step(s.(waiting := s.waiting + [outputIndex]), [])
    else OpenCall(s, outputIndex)
  }

  /** One turn of the drain: the first waiting call gets the block, and gives it up again if it is finished. */
  function DrainOne(s: State): Step
    requires s.waiting != []
  {
    var k := s.waiting[0];
    var touched := TouchCall(s.(waiting := s.waiting[1..]), k, None);
    var begun := OpenCall(touched, k);
    if begun.state.calls[k].done then
      var closed := CloseOpen(begun.state);
      Step(closed.state, begun.out + closed.out)
    else begun
  }

  function Drain(s: State): Step
    decreases |s.waiting|
  {
    if s.waiting == [] || InFlight(s) then Step(s, [])
    else
      var one := DrainOne(s);
      var rest := Drain(one.state);
      Step(rest.state, one.out + rest.out)
  }

  function AllDone<K>(calls: map<K, ToolCall>): map<K, ToolCall> {
    map k | k in calls :: calls[k].(done := true)
  }

  /** Every call so far goes out with what it has, and the open block closes. */
  function Settle(s: State): Step {
    var drained := Drain(s.(calls := AllDone(s.calls)));
    var closed := CloseOpen(drained.state);
    Step(closed.state, drained.out + closed.out)
  }

  function OpenSearch(s: State, item: Item, outputIndex: int): Step
    requires item.WebSearchCall?
  {
    var id := if item.id != "" then Given(item.id) else Synthetic(s.syntheticSeq);
    var begun := OpenAs(s, SearchKind, outputIndex, ServerToolUse(id));
    Step(begun.state.(searchIds := s.searchIds[outputIndex := id],
                       syntheticSeq := if item.id != "" then s.syntheticSeq else s.syntheticSeq + 1),
         begun.out)
  }

  function SearchInputOf(a: Action): SearchInput {
    if a.kind == "search" || a.query != "" then QueryInput(if a.query != "" then a.query else a.firstOfQueries)
    else if a.url != "" then UrlInput(a.url, a.pattern)
    else NoInput
  }

  /** First occurrences of the non-empty entries, in order. */
  function Distinct(urls: seq<string>): seq<string> {
    if urls == [] then []
    else
      var init := Distinct(urls[..|urls| - 1]);
      var last := urls[|urls| - 1];
      if last == "" || last in init then init else init + [last]
  }

  function SearchUrls(a: Action): seq<string> {
    if a.sources.Some? then Distinct(a.sources.value) else if a.url != "" then [a.url] else []
  }

  predicate SearchPlaced(s: State, outputIndex: int) {
    outputIndex in s.blocks && s.blocks[outputIndex].kind == SearchKind
  }

  /** The result block that follows a search: started and stopped at once, listing the pages. */
  function ListPages(s: State, item: Item, outputIndex: int): Step
    requires item.WebSearchCall?
  {
    var id := if outputIndex in s.searchIds then s.searchIds[outputIndex] else Given("");
    Step(s.(nextIndex := s.nextIndex + 1),
         [BlockStart(s.nextIndex, SearchResult(id, SearchUrls(item.action))), BlockStop(s.nextIndex)])
  }

  function SendInput(s: State, item: Item, outputIndex: int): seq<Out>
    requires item.WebSearchCall?
  {
    if SearchPlaced(s, outputIndex)
    then [BlockDelta(s.blocks[outputIndex].index, SearchJson(SearchInputOf(item.action)))]
    else []
  }

  function FinishSearch(s: State, item: Item, outputIndex: int): Step
    requires item.WebSearchCall?
  {
    var closed := CloseOpen(s);
    var listed := ListPages(closed.state, item, outputIndex);
    Step(listed.state, SendInput(s, item, outputIndex) + (closed.out + listed.out))
  }

  function OpenThinking(s: State, outputIndex: int): Step {
    OpenAs(s, ThinkingKind, outputIndex, ThinkingBlock)
  }

  predicate IsOpen(s: State, kind: Kind, outputIndex: int) {
    s.open.Open? && s.open.kind == kind && s.open.outputIndex == outputIndex
  }

  /** Reuse or open the text block of `outputIndex`; it is the open block afterwards. */
  function EnsureText(s: State, outputIndex: int): (r: Step)
    ensures r.state.open.Open?
  {
    if IsOpen(s, TextKind, outputIndex) then Step(s, [])
    else
      var closed := CloseOpen(s);
      var begun := OpenAs(closed.state, TextKind, outputIndex, TextBlock);
      Step(begun.state, closed.out + begun.out)
  }

  function TextOf(s: State, outputIndex: int): string {
    if outputIndex in s.text then s.text[outputIndex] else ""
  }

  function OnText(s: State, outputIndex: int, delta: string): Step {
    if delta == "" then Step(s, [])
    else
      var r := EnsureText(s, outputIndex);
      Step(r.state.(text := s.text[outputIndex := TextOf(s, outputIndex) + delta]),
           r.out + [BlockDelta(r.state.open.index, Text(delta))])
  }

  /** JavaScript's `s.slice(from, to)` for a non-negative `from`: a negative `to` counts from the end. */
  function JsSlice(s: string, from: nat, to: int): string {
    var end := if to < 0 then |s| + to else if to < |s| then to else |s|;
    if from < end then s[from..end] else ""
  }

  function OnAnnotation(s: State, outputIndex: int, citation: Option<Citation>): Step {
    if citation.None? then Step(s, [])
    else
      var c := citation.value;
      var r := EnsureText(s, outputIndex);
      var from := if c.startIndex.Some? then c.startIndex.value else 0;
      var to := if c.endIndex.Some? then c.endIndex.value else from;
      var cited := JsSlice(TextOf(s, outputIndex), if from > 0 then from else 0, if from > to then from else to);
      Step(r.state, r.out + [BlockDelta(r.state.open.index, Cited(c.url, c.title, cited))])
  }

  /** The final arguments when they extend what the deltas carried, else what was streamed. */
  function CompletedArguments(have: string, final: Option<string>): (r: string)
    ensures have <= r
  {
    if final.Some? && |final.value| > |have| && have <= final.value then final.value else have
  }

  function SetArgs(s: State, outputIndex: int, args: string): State
    requires outputIndex in s.calls
  {
    s.(calls := s.calls[outputIndex := s.calls[outputIndex].(args := args)])
  }

  function OnArgumentsDelta(s: State, outputIndex: int, delta: string): Step {
    if delta == "" then Step(s, [])
    else
      var t := TouchCall(s, outputIndex, None);
      Place(SetArgs(t, outputIndex, t.calls[outputIndex].args + delta), outputIndex)
  }

  function OnArgumentsDone(s: State, outputIndex: int, arguments: Option<string>): Step {
    var t := TouchCall(s, outputIndex, None);
    Place(SetArgs(t, outputIndex, CompletedArguments(t.calls[outputIndex].args, arguments)), outputIndex)
  }

  function OnReasoning(s: State, outputIndex: int, delta: string): Step {
    if delta == "" then Step(s, [])
    else if IsOpen(s, ThinkingKind, outputIndex) then Step(s, [BlockDelta(s.open.index, Thinking(delta))])
    else if outputIndex in s.blocks && s.blocks[outputIndex].kind == ThinkingKind then
      Step(s, [BlockDelta(s.blocks[outputIndex].index, Thinking(delta))])
    else
      var begun := OpenThinking(s, outputIndex);
      Step(begun.state, begun.out + [BlockDelta(s.nextIndex, Thinking(delta))])
  }

  function OnItemAdded(s: State, outputIndex: int, item: Item): Step {
    if item.FunctionCall? then Place(TouchCall(s, outputIndex, Some(item)), outputIndex)
    else
      var settled := Settle(s);
      var begun := match item
        case Reasoning => OpenThinking(settled.state, outputIndex)
        case WebSearchCall(_, _) => OpenSearch(settled.state, item, outputIndex)
        case _ => Step(settled.state, []);
      Step(begun.state, settled.out + begun.out)
  }

  function CloseIfOpen(s: State, outputIndex: int): Step {
    if s.open.Open? && s.open.outputIndex == outputIndex then CloseOpen(s) else Step(s, [])
  }

  /** The call is finished: its block closes if it is the open one, and the waiting calls get their turn. */
  function FinishCall(s: State, outputIndex: int): Step
    requires outputIndex in s.calls
  {
    var done := s.(calls := s.calls[outputIndex := s.calls[outputIndex].(done := true)]);
    var closed := CloseIfOpen(done, outputIndex);
    var drained := Drain(closed.state);
    Step(drained.state, closed.out + drained.out)
  }

  function OnCallDone(s: State, outputIndex: int, item: Item): Step
    requires item.FunctionCall?
  {
    var t := TouchCall(s, outputIndex, Some(item));
    var placed := Place(SetArgs(t, outputIndex, CompletedArguments(t.calls[outputIndex].args, item.arguments)),
        outputIndex);
    var finished := FinishCall(placed.state, outputIndex);
    Step(finished.state, placed.out + finished.out)
  }

  function OnItemDone(s: State, outputIndex: int, item: Item): Step {
    match item
    case WebSearchCall(_, _) => FinishSearch(s, item, outputIndex)
    case FunctionCall(_, _, _, _) => OnCallDone(s, outputIndex, item)
    case _ => CloseIfOpen(s, outputIndex)
  }

  /** A tool call anywhere wins; an incomplete answer is max_tokens unless the content filter cut it. */
  function DeriveStopReason(response: Option<Response>, sawToolCall: bool): StopReason {
    if sawToolCall then StopToolUse
    else if response.Some? && response.value.status == "incomplete"
        && response.value.incompleteReason != "content_filter"
    then StopMaxTokens
    else StopEndTurn
  }

  function Finalize(s: State, response: Option<Response>): Step {
    var settled := Settle(s);
    Step(settled.state.(ended := true),
         settled.out + [MessageDelta(DeriveStopReason(response, settled.state.sawToolCall)), MessageStop])
  }

  /** What an event does once the message has started. */
  function Handle(s: State, response: Option<Response>, body: Body): Step {
    match body
    case Terminal => Finalize(s, response)
    case UpstreamError => Finalize(s, None)
    case ItemAdded(k, item) => OnItemAdded(s, k, item)
    case ItemDone(k, item) => OnItemDone(s, k, item)
    case TextDelta(k, delta) => OnText(s, k, delta)
    case AnnotationAdded(k, citation) => OnAnnotation(s, k, citation)
    case ArgumentsDelta(k, delta) => OnArgumentsDelta(s, k, delta)
    case ArgumentsDone(k, arguments) => OnArgumentsDone(s, k, arguments)
    case ReasoningDelta(k, delta) => OnReasoning(s, k, delta)
    case OtherBody => Step(s, [])
  }

  function Push(s: State, e: Event): Step {
    if s.ended || e.Malformed? then Step(s, [])
    else
      var started := EnsureStarted(s, e.response);
      var handled := Handle(started.state, e.response, e.body);
      Step(handled.state, started.out + handled.out)
  }

  function End(s: State): Step {
    if s.ended then Step(s, [])
    else
      var started := EnsureStarted(s, None);
      var final := Finalize(started.state, None);
      Step(final.state, started.out + final.out)
  }

  function PushAll(s: State, events: seq<Event>): Step
    decreases |events|
  {
    if events == [] then Step(s, [])
    else
      var one := Push(s, events[0]);
      var rest := PushAll(one.state, events[1..]);
      Step(rest.state, one.out + rest.out)
  }

  /** A whole stream: every event, then the end. */
  function Translate(s: State, events: seq<Event>): Step {
    var pushed := PushAll(s, events);
    var ended := End(pushed.state);
    Step(ended.state, pushed.out + ended.out)
  }
}
