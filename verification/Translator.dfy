/**
 * The translator as it runs: a closure over mutable state, here an object. Every helper returns the
 * events it is given with its own after them.
 */
module Translator {
  import opened Options
  import opened Responses
  import opened Translation

  lemma FewerWait(s: State)
    requires s.waiting != []
    ensures |DrainOne(s).state.waiting| < |s.waiting|
  {
    hide OpenCall;
  }

  method FinishAll<K>(calls: map<K, ToolCall>) returns (r: map<K, ToolCall>)
    ensures r == AllDone(calls)
  {
    r := calls;
    var rest := calls.Keys;
    while rest != {}
      invariant rest <= r.Keys
      invariant r.Keys == calls.Keys
      invariant forall k <- r :: r[k] == if k in rest then calls[k] else calls[k].(done := true)
      decreases rest
    {
      var k :| k in rest;
      r := r[k := r[k].(done := true)];
      rest := rest - {k};
    }
  }

  class ResponsesTranslator {
    var started: bool
    var ended: bool
    var model: Option<string>
    var nextIndex: nat
    var open: OpenBlock
    var blockByOutputIndex: map<int, Placed>
    var sawToolCall: bool
    var syntheticToolSeq: nat
    var textByOutputIndex: map<int, string>
    var searchIdByOutputIndex: map<int, BlockId>
    var toolCalls: map<int, ToolCall>
    var waitingTools: seq<int>

    ghost function View(): State
      reads this
    {
      State(started, ended, model, nextIndex, open, blockByOutputIndex, sawToolCall, syntheticToolSeq,
            textByOutputIndex, searchIdByOutputIndex, toolCalls, waitingTools)
    }

    constructor (requestModel: Option<string>)
      ensures View() == Initial(requestModel)
    {
      started, ended, model, nextIndex, open := false, false, requestModel, 0, Closed;
      blockByOutputIndex, sawToolCall, syntheticToolSeq := map[], false, 0;
      textByOutputIndex, searchIdByOutputIndex, toolCalls, waitingTools := map[], map[], map[], [];
    }

    method EnsureStarted(response: Option<Response>, events: seq<Out>) returns (r: seq<Out>)
      modifies this
      ensures var step := Translation.EnsureStarted(old(View()), response);
              View() == step.state && r == events + step.out
    {
      if started { return events; }
      started := true;
      var resolved := "unknown";
      if model.Some? {
        resolved := model.value;
      } else if response.Some? && response.value.model != "" {
        resolved := response.value.model;
      }
      model := Some(resolved);
      r := events + [MessageStart(MessageId(response), resolved)];
    }

    method CloseOpenBlock(events: seq<Out>) returns (r: seq<Out>)
      modifies this
      ensures var step := CloseOpen(old(View())); View() == step.state && r == events + step.out
    {
      r := events;
      if open.Open? {
        r := r + [BlockStop(open.index)];
        open := Closed;
      }
    }

    method StartBlock(kind: Kind, outputIndex: int, block: Block, events: seq<Out>) returns (r: seq<Out>)
      modifies this
      ensures var step := OpenAs(old(View()), kind, outputIndex, block); View() == step.state && r == events + step.out
    {
      var index := nextIndex;
      nextIndex := nextIndex + 1;
      open := Open(kind, index, outputIndex);
      blockByOutputIndex := blockByOutputIndex[outputIndex := Placed(kind, index)];
      r := events + [BlockStart(index, block)];
    }

    method OpenToolBlock(item: Option<Item>, outputIndex: int, events: seq<Out>) returns (r: seq<Out>)
      modifies this
      ensures var step := OpenTool(old(View()), item, outputIndex); View() == step.state && r == events + step.out
    {
      var block := ToolBlock(item, syntheticToolSeq);
      r := StartBlock(ToolKind, outputIndex, block, events);
      sawToolCall := true;
      if !HasId(item) { syntheticToolSeq := syntheticToolSeq + 1; }
    }

    method Touch(outputIndex: int, item: Option<Item>)
      modifies this
      ensures View() == TouchCall(old(View()), outputIndex, item)
    {
      if outputIndex !in toolCalls {
        toolCalls := toolCalls[outputIndex := ToolCall(item, "", 0, false)];
      } else if toolCalls[outputIndex].item.None? {
        toolCalls := toolCalls[outputIndex := toolCalls[outputIndex].(item := item)];
      }
    }

    method ToolInFlight() returns (b: bool)
      ensures b == InFlight(View())
    {
      b := open.Open? && open.kind == ToolKind && open.outputIndex in toolCalls && !toolCalls[open.outputIndex].done;
    }

    method SendToolArgs(outputIndex: int, events: seq<Out>) returns (r: seq<Out>)
      requires outputIndex in toolCalls
      modifies this
      ensures var step := SendArgs(old(View()), outputIndex); View() == step.state && r == events + step.out
    {
      r := events;
      var call := toolCalls[outputIndex];
      if !open.Open? || open.kind != ToolKind || open.outputIndex != outputIndex || |call.args| == call.sent { return; }
      r := r + [BlockDelta(open.index, InputJson(Unsent(call)))];
      toolCalls := toolCalls[outputIndex := call.(sent := |call.args|)];
    }

    method GiveBlock(outputIndex: int, events: seq<Out>) returns (r: seq<Out>)
      requires outputIndex in toolCalls
      modifies this
      ensures var step := OpenCall(old(View()), outputIndex); View() == step.state && r == events + step.out
    {
      r := CloseOpenBlock(events);
      r := OpenToolBlock(toolCalls[outputIndex].item, outputIndex, r);
      r := SendToolArgs(outputIndex, r);
    }

    method PlaceToolCall(outputIndex: int, events: seq<Out>) returns (r: seq<Out>)
      requires outputIndex in toolCalls
      modifies this
      ensures var step := Place(old(View()), outputIndex); View() == step.state && r == events + step.out
    {
      if outputIndex in blockByOutputIndex || outputIndex in waitingTools {
        r := SendToolArgs(outputIndex, events);
        return;
      }
      var inFlight := ToolInFlight();
      if inFlight {
        waitingTools := waitingTools + [outputIndex];
        return events;
      }
      r := GiveBlock(outputIndex, events);
    }

    /** The first waiting call gets the block, and gives it up again if it is finished. */
    method DrainTurn(events: seq<Out>) returns (r: seq<Out>)
      requires waitingTools != []
      modifies this
      ensures var step := DrainOne(old(View())); View() == step.state && r == events + step.out
    {
      hide OpenCall;
      var outputIndex := waitingTools[0];
      waitingTools := waitingTools[1..];
      Touch(outputIndex, None);
      r := GiveBlock(outputIndex, events);
      if toolCalls[outputIndex].done { r := CloseOpenBlock(r); }
    }

    method DrainToolCalls(events: seq<Out>) returns (r: seq<Out>)
      modifies this
      ensures var step := Drain(old(View())); View() == step.state && r == events + step.out
    {
      hide DrainOne;
      r := events;
      var inFlight := ToolInFlight();
      while waitingTools != [] && !inFlight
        invariant inFlight == InFlight(View())
        invariant Drain(View()).state == Drain(old(View())).state
        invariant r + Drain(View()).out == events + Drain(old(View())).out
        decreases |waitingTools|
      {
        ghost var before, sent := View(), r;
        FewerWait(before);
        r := DrainTurn(r);
        assert r + Drain(View()).out == sent + (DrainOne(before).out + Drain(View()).out);
        inFlight := ToolInFlight();
      }
    }

    method SettleToolCalls(events: seq<Out>) returns (r: seq<Out>)
      modifies this
      ensures var step := Settle(old(View())); View() == step.state && r == events + step.out
    {
      hide Drain;
      toolCalls := FinishAll(toolCalls);
      r := DrainToolCalls(events);
      r := CloseOpenBlock(r);
    }

    method OpenSearchBlock(item: Item, outputIndex: int, events: seq<Out>) returns (r: seq<Out>)
      requires item.WebSearchCall?
      modifies this
      ensures var step := OpenSearch(old(View()), item, outputIndex); View() == step.state && r == events + step.out
    {
      var id := if item.id != "" then Given(item.id) else Synthetic(syntheticToolSeq);
      r := StartBlock(SearchKind, outputIndex, ServerToolUse(id), events);
      if item.id == "" { syntheticToolSeq := syntheticToolSeq + 1; }
      searchIdByOutputIndex := searchIdByOutputIndex[outputIndex := id];
    }

    /** The pages to list: the non-empty sources, each once. */
    static method ListSources(sources: seq<string>) returns (results: seq<string>)
      ensures results == Distinct(sources)
    {
      results := [];
      var seen: set<string> := {};
      for i := 0 to |sources|
        invariant results == Distinct(sources[..i])
        invariant seen == set u | u in results
      {
        assert sources[..i + 1][..i] == sources[..i];
        if sources[i] != "" && sources[i] !in seen {
          seen := seen + {sources[i]};
          results := results + [sources[i]];
        }
      }
      assert sources[..|sources|] == sources;
    }

    method ListPagesBlock(item: Item, outputIndex: int, events: seq<Out>) returns (r: seq<Out>)
      requires item.WebSearchCall?
      modifies this
      ensures var step := ListPages(old(View()), item, outputIndex); View() == step.state && r == events + step.out
    {
      hide Distinct;
      var urls := if item.action.url != "" then [item.action.url] else [];
      if item.action.sources.Some? { urls := ListSources(item.action.sources.value); }
      var index := nextIndex;
      nextIndex := nextIndex + 1;
      var id := if outputIndex in searchIdByOutputIndex then searchIdByOutputIndex[outputIndex] else Given("");
      r := events + [BlockStart(index, SearchResult(id, urls))];
      r := r + [BlockStop(index)];
    }

    method FinishSearchBlock(item: Item, outputIndex: int, events: seq<Out>) returns (r: seq<Out>)
      requires item.WebSearchCall?
      modifies this
      ensures var step := FinishSearch(old(View()), item, outputIndex); View() == step.state && r == events + step.out
    {
      hide ListPages, SearchInputOf;
      r := events;
      if outputIndex in blockByOutputIndex && blockByOutputIndex[outputIndex].kind == SearchKind {
        r := r + [BlockDelta(blockByOutputIndex[outputIndex].index, SearchJson(SearchInputOf(item.action)))];
      }
      r := CloseOpenBlock(r);
      r := ListPagesBlock(item, outputIndex, r);
    }

    method EnsureTextBlock(outputIndex: int, events: seq<Out>) returns (index: nat, r: seq<Out>)
      modifies this
      ensures var step := EnsureText(old(View()), outputIndex);
              View() == step.state && r == events + step.out && index == step.state.open.index
    {
      if open.Open? && open.kind == TextKind && open.outputIndex == outputIndex { return open.index, events; }
      r := CloseOpenBlock(events);
      r := StartBlock(TextKind, outputIndex, TextBlock, r);
      index := open.index;
    }

    method OnText(outputIndex: int, delta: string, events: seq<Out>) returns (r: seq<Out>)
      requires delta != ""
      modifies this
      ensures var step := Translation.OnText(old(View()), outputIndex, delta);
              View() == step.state && r == events + step.out
    {
      var before := if outputIndex in textByOutputIndex then textByOutputIndex[outputIndex] else "";
      var index;
      index, r := EnsureTextBlock(outputIndex, events);
      textByOutputIndex := textByOutputIndex[outputIndex := before + delta];
      r := r + [BlockDelta(index, Text(delta))];
    }

    method OnCitation(outputIndex: int, c: Citation, events: seq<Out>) returns (r: seq<Out>)
      modifies this
      ensures var step := OnAnnotation(old(View()), outputIndex, Some(c));
              View() == step.state && r == events + step.out
    {
      hide EnsureText, JsSlice;
      var text := if outputIndex in textByOutputIndex then textByOutputIndex[outputIndex] else "";
      var index;
      index, r := EnsureTextBlock(outputIndex, events);
      var from := if c.startIndex.Some? then c.startIndex.value else 0;
      var to := if c.endIndex.Some? then c.endIndex.value else from;
      var cited := JsSlice(text, if from > 0 then from else 0, if from > to then from else to);
      r := r + [BlockDelta(index, Cited(c.url, c.title, cited))];
    }

    method ResolveThinkingBlock(outputIndex: int, delta: string, events: seq<Out>) returns (r: seq<Out>)
      modifies this
      requires delta != ""
      ensures var step := OnReasoning(old(View()), outputIndex, delta); View() == step.state && r == events + step.out
    {
      r := events;
      var index: nat;
      if open.Open? && open.kind == ThinkingKind && open.outputIndex == outputIndex {
        index := open.index;
      } else if outputIndex in blockByOutputIndex && blockByOutputIndex[outputIndex].kind == ThinkingKind {
        index := blockByOutputIndex[outputIndex].index;
      } else {
        index := nextIndex;
        r := StartBlock(ThinkingKind, outputIndex, ThinkingBlock, r);
      }
      r := r + [BlockDelta(index, Thinking(delta))];
    }

    method FinalizeStream(response: Option<Response>, events: seq<Out>) returns (r: seq<Out>)
      modifies this
      ensures var step := Finalize(old(View()), response); View() == step.state && r == events + step.out
    {
      r := SettleToolCalls(events);
      r := r + [MessageDelta(DeriveStopReason(response, sawToolCall))];
      r := r + [MessageStop];
      ended := true;
    }

    method OnItemAdded(outputIndex: int, item: Item, events: seq<Out>) returns (r: seq<Out>)
      modifies this
      ensures var step := Translation.OnItemAdded(old(View()), outputIndex, item);
              View() == step.state && r == events + step.out
    {
      if item.FunctionCall? {
        Touch(outputIndex, Some(item));
        r := PlaceToolCall(outputIndex, events);
        return;
      }
      r := SettleToolCalls(events);
      if item.Reasoning? {
        r := StartBlock(ThinkingKind, outputIndex, ThinkingBlock, r);
      } else if item.WebSearchCall? {
        r := OpenSearchBlock(item, outputIndex, r);
      }
    }

    method CloseOwnBlock(outputIndex: int, events: seq<Out>) returns (r: seq<Out>)
      modifies this
      ensures var step := CloseIfOpen(old(View()), outputIndex); View() == step.state && r == events + step.out
    {
      r := events;
      if open.Open? && open.outputIndex == outputIndex { r := CloseOpenBlock(r); }
    }

    /** Set a call's arguments and place it. */
    method Gather(outputIndex: int, args: string, events: seq<Out>) returns (r: seq<Out>)
      requires outputIndex in toolCalls
      modifies this
      ensures var step := Place(SetArgs(old(View()), outputIndex, args), outputIndex);
              View() == step.state && r == events + step.out
    {
      toolCalls := toolCalls[outputIndex := toolCalls[outputIndex].(args := args)];
      r := PlaceToolCall(outputIndex, events);
    }

    method FinishCall(outputIndex: int, events: seq<Out>) returns (r: seq<Out>)
      requires outputIndex in toolCalls
      modifies this
      ensures var step := Translation.FinishCall(old(View()), outputIndex);
              View() == step.state && r == events + step.out
    {
      hide Drain, CloseIfOpen;
      toolCalls := toolCalls[outputIndex := toolCalls[outputIndex].(done := true)];
      r := CloseOwnBlock(outputIndex, events);
      r := DrainToolCalls(r);
    }

    method OnCallDone(outputIndex: int, item: Item, events: seq<Out>) returns (r: seq<Out>)
      requires item.FunctionCall?
      modifies this
      ensures var step := Translation.OnCallDone(old(View()), outputIndex, item);
              View() == step.state && r == events + step.out
    {
      hide Place, Translation.FinishCall, CompletedArguments;
      Touch(outputIndex, Some(item));
      r := Gather(outputIndex, CompletedArguments(toolCalls[outputIndex].args, item.arguments), events);
      r := FinishCall(outputIndex, r);
    }

    method Dispatch(response: Option<Response>, body: Body, events: seq<Out>) returns (r: seq<Out>)
      modifies this
      ensures var step := Handle(old(View()), response, body); View() == step.state && r == events + step.out
    {
      hide Place, Drain, Settle, Finalize, FinishSearch, Translation.OnItemAdded, Translation.OnCallDone;
      hide CompletedArguments, EnsureText;
      r := events;
      match body
      case Terminal => r := FinalizeStream(response, r);
      case UpstreamError => r := FinalizeStream(None, r);
      case ItemAdded(k, item) => r := OnItemAdded(k, item, r);
      case ItemDone(k, item) =>
        if item.WebSearchCall? {
          r := FinishSearchBlock(item, k, r);
        } else if item.FunctionCall? {
          r := OnCallDone(k, item, r);
        } else {
          r := CloseOwnBlock(k, r);
        }
      case TextDelta(k, delta) =>
        if delta != "" { r := OnText(k, delta, r); }
      case AnnotationAdded(k, citation) =>
        if citation.Some? { r := OnCitation(k, citation.value, r); }
      case ArgumentsDelta(k, delta) =>
        if delta != "" {
          Touch(k, None);
          r := Gather(k, toolCalls[k].args + delta, r);
        }
      case ArgumentsDone(k, arguments) =>
        Touch(k, None);
        r := Gather(k, CompletedArguments(toolCalls[k].args, arguments), r);
      case ReasoningDelta(k, delta) =>
        if delta != "" { r := ResolveThinkingBlock(k, delta, r); }
      case OtherBody =>
    }

    method Push(event: Event) returns (events: seq<Out>)
      modifies this
      ensures var step := Translation.Push(old(View()), event); View() == step.state && events == step.out
    {
      events := [];
      if ended || event.Malformed? { return; }
      hide Handle, Translation.EnsureStarted;
      ghost var began := Translation.EnsureStarted(View(), event.response);
      assert Translation.Push(View(), event).out == began.out + Handle(began.state, event.response, event.body).out;
      assert Translation.Push(View(), event).state == Handle(began.state, event.response, event.body).state;
      hide Translation.Push;
      events := EnsureStarted(event.response, events);
      assert [] + began.out == began.out;
      events := Dispatch(event.response, event.body, events);
    }

    method End() returns (events: seq<Out>)
      modifies this
      ensures var step := Translation.End(old(View())); View() == step.state && events == step.out
    {
      events := [];
      if ended { return; }
      hide Finalize;
      events := EnsureStarted(None, events);
      events := FinalizeStream(None, events);
    }
  }

  /** The caller's loop: every upstream event, then the end. */
  method TranslateStream(requestModel: Option<string>, upstream: seq<Event>) returns (out: seq<Out>)
    ensures out == Translate(Initial(requestModel), upstream).out
  {
    hide Translation.Push, Translation.End;
    var t := new ResponsesTranslator(requestModel);
    out := [];
    ghost var s0 := Initial(requestModel);
    for i := 0 to |upstream|
      invariant PushAll(s0, upstream).state == PushAll(t.View(), upstream[i..]).state
      invariant PushAll(s0, upstream).out == out + PushAll(t.View(), upstream[i..]).out
    {
      var events := t.Push(upstream[i]);
      assert upstream[i..][1..] == upstream[i + 1..];
      out := out + events;
    }
    var closing := t.End();
    out := out + closing;
  }
}
