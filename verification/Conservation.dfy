/**
 * Nothing said is lost or made up: over any stream, whatever is interleaved, the text and the thoughts that go out
 * are those that came in, in order, and the stop reason agrees with the blocks the client saw.
 */
module Conservation {
  import opened Options
  import opened Responses
  import opened Translation
  import WellFormed

  /**
   * What a stretch of emitted events says: its text, its thoughts, whether a tool was called, the stop reason if any.
   */
  datatype Said = Said(text: string, thought: string, tool: bool, reason: Option<StopReason>)

  const NOTHING := Said("", "", false, None)

  function Saying(o: Out): Said {
    match o
    case BlockDelta(_, Text(t)) => NOTHING.(text := t)
    case BlockDelta(_, Thinking(t)) => NOTHING.(thought := t)
    case BlockStart(_, ToolUse(_, _)) => NOTHING.(tool := true)
    case MessageDelta(reason) => NOTHING.(reason := Some(reason))
    case _ => NOTHING
  }

  function Then(a: Said, b: Said): Said {
    Said(a.text + b.text, a.thought + b.thought, a.tool || b.tool, if b.reason.Some? then b.reason else a.reason)
  }

  function SaidBy(out: seq<Out>): Said {
    if out == [] then NOTHING else Then(SaidBy(out[..|out| - 1]), Saying(out[|out| - 1]))
  }

  lemma {:induction false} SaidConcat(a: seq<Out>, b: seq<Out>)
    ensures SaidBy(a + b) == Then(SaidBy(a), SaidBy(b))
  {
    if b == [] {
      assert a + b == a;
    } else {
      assert (a + b)[..|a + b| - 1] == a + b[..|b| - 1];
      SaidConcat(a, b[..|b| - 1]);
      var x, y, z := SaidBy(a), SaidBy(b[..|b| - 1]), Saying(b[|b| - 1]);
      assert x.text + y.text + z.text == x.text + (y.text + z.text);
      assert x.thought + y.thought + z.thought == x.thought + (y.thought + z.thought);
    }
  }

  lemma SaidOne(o: Out)
    ensures SaidBy([o]) == Saying(o)
  {
    assert [o][..0] == [];
  }

  /** What an event brings in, and the response the stream ended with; nothing after the end is heard. */
  datatype Heard = Heard(text: string, thought: string, response: Option<Response>)

  function Hearing(events: seq<Event>): Heard {
    if events == [] then Heard("", "", None)
    else
      var e, rest := events[0], Hearing(events[1..]);
      if e.Malformed? then rest
      else
        match e.body
        case Terminal => Heard("", "", e.response)
        case UpstreamError => Heard("", "", None)
        case TextDelta(_, delta) => rest.(text := delta + rest.text)
        case ReasoningDelta(_, delta) => rest.(thought := delta + rest.thought)
        case _ => rest
  }

  /** `r`, run from `s`, says just this, no stop reason yet, and the state knows whether a tool was called. */
  predicate Says(s: State, r: Step, text: string, thought: string) {
    var said := SaidBy(r.out);
    && said.text == text && said.thought == thought && said.reason.None?
    && (r.state.sawToolCall <==> s.sawToolCall || said.tool) && r.state.ended == s.ended
  }

  lemma SaysThen(s: State, first: Step, second: Step, text: string, thought: string)
    requires Says(s, first, "", "") && Says(first.state, second, text, thought)
    ensures Says(s, Step(second.state, first.out + second.out), text, thought)
  {
    SaidConcat(first.out, second.out);
  }

  lemma SilentState(s: State, t: State, r: Step, text: string, thought: string)
    requires s.sawToolCall == t.sawToolCall && s.ended == t.ended && Says(t, r, text, thought)
    ensures Says(s, r, text, thought)
  {
  }

  lemma CloseOpenSays(s: State)
    ensures Says(s, CloseOpen(s), "", "")
  {
    if s.open.Open? { SaidOne(BlockStop(s.open.index)); }
  }

  lemma OpenAsSays(s: State, kind: Kind, k: int, block: Block)
    requires !block.ToolUse?
    ensures Says(s, OpenAs(s, kind, k, block), "", "")
  {
    SaidOne(BlockStart(s.nextIndex, block));
  }

  lemma OpenToolSays(s: State, item: Option<Item>, k: int)
    ensures Says(s, OpenTool(s, item, k), "", "")
  {
    SaidOne(BlockStart(s.nextIndex, ToolBlock(item, s.syntheticSeq)));
  }

  lemma SendArgsSays(s: State, k: int)
    requires k in s.calls
    ensures Says(s, SendArgs(s, k), "", "")
  {
    if SendArgs(s, k).out != [] { SaidOne(SendArgs(s, k).out[0]); }
  }

  lemma OpenCallSays(s: State, k: int)
    requires k in s.calls
    ensures Says(s, OpenCall(s, k), "", "")
  {
    var closed := CloseOpen(s);
    var begun := OpenTool(closed.state, s.calls[k].item, k);
    CloseOpenSays(s);
    OpenToolSays(closed.state, s.calls[k].item, k);
    SendArgsSays(begun.state, k);
    hide Says, SaidBy, CloseOpen, OpenTool, SendArgs;
    SaysThen(s, closed, begun, "", "");
    SaysThen(s, Step(begun.state, closed.out + begun.out), SendArgs(begun.state, k), "", "");
  }

  lemma PlaceSays(s: State, k: int)
    requires k in s.calls
    ensures Says(s, Place(s, k), "", "")
  {
    SendArgsSays(s, k);
    OpenCallSays(s, k);
  }

  lemma DrainOneSays(s: State)
    requires s.waiting != []
    ensures Says(s, DrainOne(s), "", "")
  {
    var k := s.waiting[0];
    var touched := TouchCall(s.(waiting := s.waiting[1..]), k, None);
    OpenCallSays(touched, k);
    var begun := OpenCall(touched, k);
    SilentState(s, touched, begun, "", "");
    CloseOpenSays(begun.state);
    SaysThen(s, begun, CloseOpen(begun.state), "", "");
  }

  lemma {:induction false} DrainSays(s: State)
    ensures Says(s, Drain(s), "", "")
    decreases |s.waiting|
  {
    if s.waiting != [] && !InFlight(s) {
      DrainOneSays(s);
      DrainSays(DrainOne(s).state);
      hide Says;
      SaysThen(s, DrainOne(s), Drain(DrainOne(s).state), "", "");
    }
  }

  lemma SettleSays(s: State)
    ensures Says(s, Settle(s), "", "")
  {
    var done := s.(calls := AllDone(s.calls));
    DrainSays(done);
    SilentState(s, done, Drain(done), "", "");
    CloseOpenSays(Drain(done).state);
    SaysThen(s, Drain(done), CloseOpen(Drain(done).state), "", "");
  }

  lemma EnsureTextSays(s: State, k: int)
    ensures Says(s, EnsureText(s, k), "", "")
  {
    CloseOpenSays(s);
    OpenAsSays(CloseOpen(s).state, TextKind, k, TextBlock);
    SaysThen(s, CloseOpen(s), OpenAs(CloseOpen(s).state, TextKind, k, TextBlock), "", "");
  }

  /** A delta on the text block of `k`, opened if need be. */
  function DeltaAt(s: State, k: int, delta: Delta): Step {
    var r := EnsureText(s, k);
    Step(r.state, r.out + [BlockDelta(r.state.open.index, delta)])
  }

  lemma DeltaSays(s: State, k: int, delta: Delta)
    requires delta.Text? || delta.Cited?
    ensures Says(s, DeltaAt(s, k, delta), if delta.Text? then delta.text else "", "")
  {
    hide EnsureText;
    var r := EnsureText(s, k);
    EnsureTextSays(s, k);
    SaidOne(BlockDelta(r.state.open.index, delta));
    SaidConcat(r.out, [BlockDelta(r.state.open.index, delta)]);
  }

  lemma TextSays(s: State, k: int, delta: string)
    ensures Says(s, OnText(s, k, delta), delta, "")
  {
    hide EnsureText;
    if delta == "" { SaidNothing(); } else { DeltaSays(s, k, Text(delta)); }
  }

  lemma AnnotationSays(s: State, k: int, citation: Option<Citation>)
    ensures Says(s, OnAnnotation(s, k, citation), "", "")
  {
    if citation.None? {
      SaidNothing();
    } else {
      hide EnsureText, SaidBy, Says, JsSlice;
      var c := citation.value;
      var from := if c.startIndex.Some? then c.startIndex.value else 0;
      var to := if c.endIndex.Some? then c.endIndex.value else from;
      var cited := JsSlice(TextOf(s, k), if from > 0 then from else 0, if from > to then from else to);
      DeltaSays(s, k, Cited(c.url, c.title, cited));
    }
  }

  lemma ReasoningSays(s: State, k: int, delta: string)
    ensures Says(s, OnReasoning(s, k, delta), "", delta)
  {
    var r := OnReasoning(s, k, delta);
    if |r.out| == 1 {
      SaidOne(r.out[0]);
    } else if |r.out| == 2 {
      assert r.out == [r.out[0]] + [r.out[1]];
      SaidOne(r.out[0]);
      SaidOne(r.out[1]);
      SaidConcat([r.out[0]], [r.out[1]]);
    }
  }

  lemma ArgumentsSay(s: State, k: int, item: Option<Item>, args: string)
    ensures Says(s, Place(SetArgs(TouchCall(s, k, item), k, args), k), "", "")
  {
    hide Place, Says, TouchCall, SetArgs;
    var t := SetArgs(TouchCall(s, k, item), k, args);
    Gathers(s, k, item, args);
    PlaceSays(t, k);
    SaysUnseen(s, t, Place(t, k));
  }

  lemma Gathers(s: State, k: int, item: Option<Item>, args: string)
    ensures k in TouchCall(s, k, item).calls
    ensures var t := SetArgs(TouchCall(s, k, item), k, args); t == s.(calls := t.calls) && k in t.calls
  {
  }

  /** What a call has gathered says nothing by itself. */
  lemma SaysUnseen(s: State, t: State, r: Step)
    requires t == s.(calls := t.calls) && Says(t, r, "", "")
    ensures Says(s, r, "", "")
  {
    hide SaidBy;
  }

  lemma ItemAddedSays(s: State, k: int, item: Item)
    ensures Says(s, OnItemAdded(s, k, item), "", "")
  {
    if item.FunctionCall? {
      PlaceSays(TouchCall(s, k, Some(item)), k);
    } else {
      hide Settle;
      SettleSays(s);
      var settled := Settle(s);
      if item.Reasoning? {
        OpenAsSays(settled.state, ThinkingKind, k, ThinkingBlock);
        SaysThen(s, settled, OpenThinking(settled.state, k), "", "");
      } else if item.WebSearchCall? {
        var opened' := OpenSearch(settled.state, item, k);
        OpenAsSays(settled.state, SearchKind, k, opened'.out[0].block);
        SaysThen(s, settled, opened', "", "");
      } else {
        assert settled.out + [] == settled.out;
      }
    }
  }

  lemma SearchSays(s: State, k: int, item: Item)
    requires item.WebSearchCall?
    ensures Says(s, FinishSearch(s, item, k), "", "")
  {
    var input := SendInput(s, item, k);
    if input != [] { SaidOne(input[0]); }
    var closed := CloseOpen(s);
    CloseOpenSays(s);
    var listed := ListPages(closed.state, item, k);
    assert listed.out == [listed.out[0]] + [listed.out[1]];
    SaidOne(listed.out[0]);
    SaidOne(listed.out[1]);
    SaidConcat([listed.out[0]], [listed.out[1]]);
    SaysThen(s, closed, listed, "", "");
    SaysThen(s, Step(s, input), Step(listed.state, closed.out + listed.out), "", "");
  }

  lemma FinishCallSays(s: State, k: int)
    requires k in s.calls
    ensures Says(s, FinishCall(s, k), "", "")
  {
    hide Drain;
    var done := s.(calls := s.calls[k := s.calls[k].(done := true)]);
    CloseOpenSays(done);
    var closed := CloseIfOpen(done, k);
    DrainSays(closed.state);
    SaysThen(s, closed, Drain(closed.state), "", "");
  }

  lemma CallDoneSays(s: State, k: int, item: Item)
    requires item.FunctionCall?
    ensures Says(s, OnCallDone(s, k, item), "", "")
  {
    hide Place, FinishCall, Says;
    var t := TouchCall(s, k, Some(item));
    var args := CompletedArguments(t.calls[k].args, item.arguments);
    ArgumentsSay(s, k, Some(item), args);
    var placed := Place(SetArgs(t, k, args), k);
    FinishCallSays(placed.state, k);
    SaysThen(s, placed, FinishCall(placed.state, k), "", "");
  }

  function TextOfBody(body: Body): string {
    if body.TextDelta? then body.delta else ""
  }

  function ThoughtOfBody(body: Body): string {
    if body.ReasoningDelta? then body.delta else ""
  }

  /** An event that does not end the stream says exactly its own text or thought. */
  lemma HandleSays(s: State, response: Option<Response>, body: Body)
    requires !body.Terminal? && !body.UpstreamError?
    ensures Says(s, Handle(s, response, body), TextOfBody(body), ThoughtOfBody(body))
  {
    hide OnItemAdded, OnCallDone, FinishSearch, OnText, OnAnnotation, OnReasoning, Place, SaidBy;
    match body
    case ItemAdded(k, item) => ItemAddedSays(s, k, item);
    case ItemDone(k, item) =>
      if item.WebSearchCall? { SearchSays(s, k, item); }
      else if item.FunctionCall? { CallDoneSays(s, k, item); }
      else { CloseOpenSays(s); SaidNothing(); }
    case TextDelta(k, delta) => TextSays(s, k, delta);
    case AnnotationAdded(k, citation) => AnnotationSays(s, k, citation);
    case ArgumentsDelta(k, delta) =>
      SaidNothing();
      ArgumentsSay(s, k, None, TouchCall(s, k, None).calls[k].args + delta);
    case ArgumentsDone(k, arguments) =>
      ArgumentsSay(s, k, None, CompletedArguments(TouchCall(s, k, None).calls[k].args, arguments));
    case ReasoningDelta(k, delta) => ReasoningSays(s, k, delta);
    case OtherBody => SaidNothing();
  }

  lemma SaidNothing()
    ensures SaidBy([]) == NOTHING
  {
  }

  lemma StartSays(s: State, response: Option<Response>)
    ensures Says(s, EnsureStarted(s, response), "", "")
  {
    if !s.started { SaidOne(EnsureStarted(s, response).out[0]); }
  }

  /** The stop reason is read after the last waiting calls have got their blocks. */
  lemma FinalizeSays(s: State, response: Option<Response>)
    ensures var said := SaidBy(Finalize(s, response).out);
            && said.text == "" && said.thought == ""
            && said.reason == Some(DeriveStopReason(response, s.sawToolCall || said.tool))
  {
    hide Settle;
    SettleSays(s);
    var settled := Settle(s);
    var closing := [MessageDelta(DeriveStopReason(response, settled.state.sawToolCall)), MessageStop];
    assert closing == [closing[0]] + [closing[1]];
    SaidOne(closing[0]);
    SaidOne(closing[1]);
    SaidConcat([closing[0]], [closing[1]]);
    SaidConcat(settled.out, closing);
  }

  /** What a whole stream is to say, from a state that may have seen a tool call. */
  predicate Faithful(said: Said, heard: Heard, sawToolCall: bool) {
    && said.text == heard.text && said.thought == heard.thought
    && said.reason == Some(DeriveStopReason(heard.response, sawToolCall || said.tool))
  }

  lemma StartThenFinal(s: State, started: Option<Response>, response: Option<Response>)
    ensures var a := EnsureStarted(s, started); var b := Finalize(a.state, response);
            Faithful(SaidBy(a.out + b.out), Heard("", "", response), s.sawToolCall)
  {
    hide Finalize;
    StartSays(s, started);
    var a := EnsureStarted(s, started);
    FinalizeSays(a.state, response);
    SaidConcat(a.out, Finalize(a.state, response).out);
  }

  lemma TranslateUnfolds(s: State, events: seq<Event>)
    requires events != []
    ensures Translate(s, events).out == Push(s, events[0]).out + Translate(Push(s, events[0]).state, events[1..]).out
  {
    hide Push, End;
    var one, rest := Push(s, events[0]), PushAll(Push(s, events[0]).state, events[1..]);
    assert (one.out + rest.out) + End(rest.state).out == one.out + (rest.out + End(rest.state).out);
  }

  lemma PushSays(s: State, e: Event)
    requires !s.ended && e.Event? && !e.body.Terminal? && !e.body.UpstreamError?
    ensures Says(s, Push(s, e), TextOfBody(e.body), ThoughtOfBody(e.body)) && !Push(s, e).state.ended
  {
    hide Handle, Says;
    StartSays(s, e.response);
    var started := EnsureStarted(s, e.response);
    HandleSays(started.state, e.response, e.body);
    SaysThen(s, started, Handle(started.state, e.response, e.body), TextOfBody(e.body), ThoughtOfBody(e.body));
    SaysGoesOn(s, Push(s, e), TextOfBody(e.body), ThoughtOfBody(e.body));
  }

  lemma SaysGoesOn(s: State, r: Step, text: string, thought: string)
    requires Says(s, r, text, thought)
    ensures r.state.ended == s.ended
  {
  }

  /** The event that ends a stream says only what the waiting calls still had to, and the stop reason. */
  lemma EndingSays(s: State, events: seq<Event>)
    requires !s.ended && events != [] && events[0].Event? && (events[0].body.Terminal? || events[0].body.UpstreamError?)
    ensures Faithful(SaidBy(Translate(s, events).out), Hearing(events), s.sawToolCall)
  {
    hide Finalize, EnsureStarted, PushAll, SaidBy, Faithful;
    var e := events[0];
    var response := if e.body.Terminal? then e.response else None;
    StartThenFinal(s, e.response, response);
    PushEnds(s, e, response);
    TranslateUnfolds(s, events);
    WellFormed.EndedEmitsNothing(s, [e]);
    EndedTranslates(Push(s, e).state, events[1..]);
    assert Push(s, e).out + [] == Push(s, e).out;
  }

  lemma PushEnds(s: State, e: Event, response: Option<Response>)
    requires !s.ended && e.Event?
             && (if e.body.Terminal? then response == e.response else e.body.UpstreamError? && response == None)
    ensures var a := EnsureStarted(s, e.response);
            Push(s, e) == Step(Finalize(a.state, response).state, a.out + Finalize(a.state, response).out)
                && Push(s, e).state.ended
  {
    hide Settle;
  }

  lemma EndedTranslates(s: State, events: seq<Event>)
    requires s.ended
    ensures Translate(s, events).out == []
  {
    WellFormed.EndedPushes(s, events);
  }

  lemma {:induction false} RunSays(s: State, events: seq<Event>)
    requires !s.ended
    ensures Faithful(SaidBy(Translate(s, events).out), Hearing(events), s.sawToolCall)
    decreases |events|
  {
    if events == [] {
      hide Finalize, EnsureStarted, SaidBy, Faithful;
      StartThenFinal(s, None, None);
      assert [] + Translate(s, []).out == Translate(s, []).out;
      NothingLeft(s);
    } else if events[0].Malformed? {
      hide SaidBy, Faithful, End;
      RunSays(s, events[1..]);
      TranslateUnfolds(s, events);
      assert [] + Translate(s, events[1..]).out == Translate(s, events[1..]).out;
    } else if events[0].body.Terminal? || events[0].body.UpstreamError? {
      EndingSays(s, events);
    } else {
      hide Push, Translate, SaidBy, Hearing, Faithful, Says;
      PushSays(s, events[0]);
      RunSays(Push(s, events[0]).state, events[1..]);
      RunGoesOn(s, events);
    }
  }

  lemma RunGoesOn(s: State, events: seq<Event>)
    requires events != [] && events[0].Event? && !events[0].body.Terminal? && !events[0].body.UpstreamError?
    requires var one := Push(s, events[0]);
             && Says(s, one, TextOfBody(events[0].body), ThoughtOfBody(events[0].body))
             && Faithful(SaidBy(Translate(one.state, events[1..]).out), Hearing(events[1..]), one.state.sawToolCall)
    ensures Faithful(SaidBy(Translate(s, events).out), Hearing(events), s.sawToolCall)
  {
    hide Push, Translate, SaidBy;
    var one := Push(s, events[0]);
    TranslateUnfolds(s, events);
    SaidConcat(one.out, Translate(one.state, events[1..]).out);
    HearingUnfolds(events);
  }

  lemma HearingUnfolds(events: seq<Event>)
    requires events != [] && events[0].Event? && !events[0].body.Terminal? && !events[0].body.UpstreamError?
    ensures var rest := Hearing(events[1..]);
            Hearing(events) == Heard(TextOfBody(events[0].body) + rest.text,
                ThoughtOfBody(events[0].body) + rest.thought, rest.response)
  {
    var rest := Hearing(events[1..]);
    assert "" + rest.text == rest.text && "" + rest.thought == rest.thought;
  }

  lemma NothingLeft(s: State)
    requires !s.ended
    ensures var a := EnsureStarted(s, None); Translate(s, []).out == a.out + Finalize(a.state, None).out
  {
    hide Finalize;
    var a := EnsureStarted(s, None);
    assert [] + (a.out + Finalize(a.state, None).out) == a.out + Finalize(a.state, None).out;
  }

  /**
   * Over every stream, cut off anywhere: all the text that came in before its end goes out, in order and nothing
   * else; so do the thoughts; and the one stop reason is tool_use exactly when a tool_use block was started, else
   * what the ending event's status says.
   */
  lemma StreamIsFaithful(requestModel: Option<string>, events: seq<Event>)
    ensures var said, heard := SaidBy(Translate(Initial(requestModel), events).out), Hearing(events);
            && said.text == heard.text && said.thought == heard.thought
            && (said.reason == Some(StopToolUse) <==> said.tool)
            && (!said.tool ==> said.reason == Some(DeriveStopReason(heard.response, false)))
  {
    hide Translate;
    RunSays(Initial(requestModel), events);
  }

  /** The answer was cut short for its length: what an ending event says of itself. */
  predicate RanOut(response: Option<Response>) {
    response.Some? && response.value.status == "incomplete" && response.value.incompleteReason != "content_filter"
  }

  /**
   * The stop reason of every stream: tool_use when a tool_use block was started; else max_tokens when the event that
   * ended it says it is incomplete for any reason but the content filter, and end_turn in every other case, cut off
   * included.
   */
  lemma StopReasonMeans(requestModel: Option<string>, events: seq<Event>)
    ensures var said, heard := SaidBy(Translate(Initial(requestModel), events).out), Hearing(events);
            && (said.reason == Some(StopToolUse) <==> said.tool)
            && (said.reason == Some(StopMaxTokens) <==> !said.tool && RanOut(heard.response))
            && (said.reason == Some(StopEndTurn) <==> !said.tool && !RanOut(heard.response))
  {
    hide Translate, Hearing, SaidBy;
    StreamIsFaithful(requestModel, events);
  }
}
