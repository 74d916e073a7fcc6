/**
 * The grammar of an Anthropic stream, as an automaton over the emitted events, and the exact condition under
 * which the translator's output is accepted by it.
 */
module WellFormed {
  import opened Options
  import opened Responses
  import opened Translation

  /** Where a reader of the stream stands. `next` is the index the next block must carry. */
  datatype Phase =
    | BeforeStart
    | Between(next: nat)
    | Within(next: nat, kind: Option<Kind>)   // block next - 1 is open; without a kind it takes no delta
    | Ending                                  // after message_delta
    | Complete
    | Broken

  function KindOf(block: Block): Option<Kind> {
    match block
    case TextBlock => Some(TextKind)
    case ThinkingBlock => Some(ThinkingKind)
    case ToolUse(_, _) => Some(ToolKind)
    case ServerToolUse(_) => Some(SearchKind)
    case SearchResult(_, _) => None
  }

  predicate Fits(kind: Option<Kind>, delta: Delta) {
    match delta
    case Text(_) => kind == Some(TextKind)
    case Cited(_, _, _) => kind == Some(TextKind)
    case Thinking(_) => kind == Some(ThinkingKind)
    case InputJson(_) => kind == Some(ToolKind)
    case SearchJson(_) => kind == Some(SearchKind)
  }

  function Read(p: Phase, o: Out): Phase {
    match (p, o)
    case (BeforeStart, MessageStart(_, _)) => Between(0)
    case (Between(n), BlockStart(i, block)) => if i == n then Within(n + 1, KindOf(block)) else Broken
    case (Within(n, kind), BlockDelta(i, delta)) => if i + 1 == n && Fits(kind, delta) then p else Broken
    case (Within(n, _), BlockStop(i)) => if i + 1 == n then Between(n) else Broken
    case (Between(_), MessageDelta(_)) => Ending
    case (Ending, MessageStop) => Complete
    case _ => Broken
  }

  function ReadAll(p: Phase, out: seq<Out>): Phase
    decreases |out|
  {
    if out == [] then p else ReadAll(Read(p, out[0]), out[1..])
  }

  lemma {:induction false} ReadAllConcat(p: Phase, a: seq<Out>, b: seq<Out>)
    ensures ReadAll(p, a + b) == ReadAll(ReadAll(p, a), b)
    decreases |a|
  {
    if a == [] {
      assert a + b == b;
    } else {
      assert (a + b)[1..] == a[1..] + b;
      ReadAllConcat(Read(p, a[0]), a[1..], b);
    }
  }

  lemma ReadTwo(p: Phase, a: Out, b: Out)
    ensures ReadAll(p, [a, b]) == Read(Read(p, a), b)
  {
    assert [a, b][1..] == [b] && [b][1..] == [];
    assert ReadAll(p, [a, b]) == ReadAll(Read(p, a), [b]);
  }

  lemma {:induction false} BrokenStays(out: seq<Out>)
    ensures ReadAll(Broken, out) == Broken
  {
    if out != [] { BrokenStays(out[1..]); }
  }

  /** The phase a reader is in once it has read everything emitted to reach `s`. */
  function PhaseOf(s: State): Phase {
    if !s.started then BeforeStart
    else if s.ended then Complete
    else if s.open.Open? then Within(s.nextIndex, Some(s.open.kind))
    else Between(s.nextIndex)
  }

  /** The open block is the last one, and the block map names it under its own output index only. */
  ghost predicate Inv(s: State) {
    && (!s.started ==> s.open.Closed? && s.nextIndex == 0 && !s.ended)
    && (s.open.Open? ==>
          && s.open.index + 1 == s.nextIndex
          && s.open.outputIndex in s.blocks
          && s.blocks[s.open.outputIndex] == Placed(s.open.kind, s.open.index))
    && (forall k <- s.blocks :: s.blocks[k].index < s.nextIndex)
    && (s.open.Open? ==> forall k <- s.blocks :: s.blocks[k].index == s.open.index ==> k == s.open.outputIndex)
  }

  /** A running state: started, not ended. */
  ghost predicate Live(s: State) {
    Inv(s) && s.started && !s.ended
  }

  /** `r`, run from `s`, emits exactly what takes a reader from `s`'s phase to its own. */
  ghost predicate Tracks(s: State, r: Step) {
    Live(r.state) && ReadAll(PhaseOf(s), r.out) == PhaseOf(r.state)
  }

  lemma TracksThen(s: State, first: Step, second: Step)
    requires ReadAll(PhaseOf(s), first.out) == PhaseOf(first.state)
    ensures ReadAll(PhaseOf(s), first.out + second.out) == ReadAll(PhaseOf(first.state), second.out)
    ensures Tracks(first.state, second) ==> Tracks(s, Step(second.state, first.out + second.out))
  {
    ReadAllConcat(PhaseOf(s), first.out, second.out);
  }

  lemma NothingTracks(s: State)
    requires Live(s)
    ensures Tracks(s, Step(s, []))
  {
  }

  lemma CloseOpenTracks(s: State)
    requires Live(s)
    ensures Tracks(s, CloseOpen(s)) && CloseOpen(s).state.open.Closed?
  {
  }

  lemma CloseIfOpenTracks(s: State, k: int)
    requires Live(s)
    ensures Tracks(s, CloseIfOpen(s, k))
  {
    CloseOpenTracks(s);
  }

  lemma OpenAsTracks(s: State, kind: Kind, k: int, block: Block)
    requires Live(s) && s.open.Closed? && KindOf(block) == Some(kind)
    ensures Tracks(s, OpenAs(s, kind, k, block))
  {
  }

  lemma SendArgsTracks(s: State, k: int)
    requires Live(s) && k in s.calls
    ensures Tracks(s, SendArgs(s, k))
  {
  }

  lemma OpenCallTracks(s: State, k: int)
    requires Live(s) && k in s.calls
    ensures Tracks(s, OpenCall(s, k))
  {
    var closed := CloseOpen(s);
    CloseOpenTracks(s);
    var begun := OpenTool(closed.state, s.calls[k].item, k);
    OpenAsTracks(closed.state, ToolKind, k, ToolBlock(s.calls[k].item, s.syntheticSeq));
    var sent := SendArgs(begun.state, k);
    SendArgsTracks(begun.state, k);
    TracksThen(s, closed, begun);
    TracksThen(s, Step(begun.state, closed.out + begun.out), sent);
  }

  lemma PlaceTracks(s: State, k: int)
    requires Live(s) && k in s.calls
    ensures Tracks(s, Place(s, k))
  {
    SendArgsTracks(s, k);
    OpenCallTracks(s, k);
  }

  lemma DrainOneTracks(s: State)
    requires Live(s) && s.waiting != []
    ensures Tracks(s, DrainOne(s))
  {
    var k := s.waiting[0];
    var touched := TouchCall(s.(waiting := s.waiting[1..]), k, None);
    assert Live(touched) && PhaseOf(touched) == PhaseOf(s);
    OpenCallTracks(touched, k);
    var begun := OpenCall(touched, k);
    CloseOpenTracks(begun.state);
    TracksThen(s, begun, CloseOpen(begun.state));
  }

  lemma {:induction false} DrainTracks(s: State)
    requires Live(s)
    ensures Tracks(s, Drain(s))
    decreases |s.waiting|
  {
    hide InFlight, ReadAll, PhaseOf, Inv;
    if s.waiting != [] && !InFlight(s) {
      var one := DrainOne(s);
      DrainOneTracks(s);
      DrainTracks(one.state);
      TracksThen(s, one, Drain(one.state));
    } else {
      NothingTracks(s);
    }
  }

  lemma SettleTracks(s: State)
    requires Live(s)
    ensures Tracks(s, Settle(s)) && Settle(s).state.open.Closed?
  {
    var done := s.(calls := AllDone(s.calls));
    assert Live(done) && PhaseOf(done) == PhaseOf(s);
    DrainTracks(done);
    CloseOpenTracks(Drain(done).state);
    TracksThen(s, Drain(done), CloseOpen(Drain(done).state));
  }

  lemma EnsureTextTracks(s: State, k: int)
    requires Live(s)
    ensures Tracks(s, EnsureText(s, k)) && IsOpen(EnsureText(s, k).state, TextKind, k)
  {
    CloseOpenTracks(s);
    var closed := CloseOpen(s);
    OpenAsTracks(closed.state, TextKind, k, TextBlock);
    TracksThen(s, closed, OpenAs(closed.state, TextKind, k, TextBlock));
  }

  lemma ItemAddedTracks(s: State, k: int, item: Item)
    requires Live(s)
    ensures Tracks(s, OnItemAdded(s, k, item))
  {
    if item.FunctionCall? {
      PlaceTracks(TouchCall(s, k, Some(item)), k);
    } else {
      SettleTracks(s);
      var settled := Settle(s);
      if item.Reasoning? {
        OpenAsTracks(settled.state, ThinkingKind, k, ThinkingBlock);
        TracksThen(s, settled, OpenThinking(settled.state, k));
      } else if item.WebSearchCall? {
        OpenAsTracks(settled.state, SearchKind, k, OpenSearch(settled.state, item, k).out[0].block);
        TracksThen(s, settled, OpenSearch(settled.state, item, k));
      } else {
        assert settled.out + [] == settled.out;
      }
    }
  }

  lemma FinishCallTracks(s: State, k: int)
    requires Live(s) && k in s.calls
    ensures Tracks(s, FinishCall(s, k))
  {
    hide Drain, ReadAll;
    var done := s.(calls := s.calls[k := s.calls[k].(done := true)]);
    assert Live(done) && PhaseOf(done) == PhaseOf(s);
    CloseIfOpenTracks(done, k);
    var closed := CloseIfOpen(done, k);
    DrainTracks(closed.state);
    TracksThen(s, closed, Drain(closed.state));
  }

  lemma CallDoneTracks(s: State, k: int, item: Item)
    requires Live(s) && item.FunctionCall?
    ensures Tracks(s, OnCallDone(s, k, item))
  {
    hide Place, FinishCall, CompletedArguments, ReadAll;
    var t := TouchCall(s, k, Some(item));
    var grown := SetArgs(t, k, CompletedArguments(t.calls[k].args, item.arguments));
    assert Live(grown) && PhaseOf(grown) == PhaseOf(s);
    PlaceTracks(grown, k);
    var placed := Place(grown, k);
    FinishCallTracks(placed.state, k);
    TracksThen(s, placed, FinishCall(placed.state, k));
  }

  lemma TextTracks(s: State, k: int, delta: Delta)
    requires Live(s) && (delta.Text? || delta.Cited?)
    ensures var r := EnsureText(s, k);
            Tracks(s, Step(r.state, r.out + [BlockDelta(r.state.open.index, delta)]))
  {
    EnsureTextTracks(s, k);
    var r := EnsureText(s, k);
    TracksThen(s, r, Step(r.state, [BlockDelta(r.state.open.index, delta)]));
  }

  lemma FinalizeTracks(s: State, response: Option<Response>)
    requires Live(s)
    ensures var r := Finalize(s, response);
            Inv(r.state) && r.state.started && PhaseOf(r.state) == Complete && ReadAll(PhaseOf(s), r.out) == Complete
  {
    SettleTracks(s);
    var settled := Settle(s);
    var closing := [MessageDelta(DeriveStopReason(response, settled.state.sawToolCall)), MessageStop];
    ReadAllConcat(PhaseOf(s), settled.out, closing);
    ReadTwo(Between(settled.state.nextIndex), closing[0], closing[1]);
  }

  /**
   * What the translator needs of its input: a reasoning delta names the open thinking block, or opens one when
   * no block is open and it had none; a finished web search that has a block names the open one. Both are
   * checks on the state before the event.
   */
  predicate Disciplined(s: State, e: Event) {
    s.ended || e.Malformed? ||
    match e.body
    case ReasoningDelta(k, delta) =>
      || delta == ""
      || IsOpen(s, ThinkingKind, k)
      || (s.open.Closed? && !(k in s.blocks && s.blocks[k].kind == ThinkingKind))
    case ItemDone(k, WebSearchCall(_, _)) =>
      k in s.blocks && s.blocks[k].kind == SearchKind ==> IsOpen(s, SearchKind, k)
    case _ => true
  }

  lemma ReasoningReads(s: State, k: int, delta: string)
    requires Live(s)
    ensures Disciplined(s, Event(None, ReasoningDelta(k, delta))) ==> Tracks(s, OnReasoning(s, k, delta))
    ensures !Disciplined(s, Event(None, ReasoningDelta(k, delta))) ==>
            ReadAll(PhaseOf(s), OnReasoning(s, k, delta).out) == Broken
  {
    if delta != "" && !IsOpen(s, ThinkingKind, k) && !(k in s.blocks && s.blocks[k].kind == ThinkingKind) {
      ThinkingReads(s, k, delta);
    }
  }

  /** A thought that opens its own block: it must find none open. */
  lemma ThinkingReads(s: State, k: int, delta: string)
    requires Live(s)
    ensures var begun := OpenThinking(s, k);
            var r := Step(begun.state, begun.out + [BlockDelta(s.nextIndex, Thinking(delta))]);
            if s.open.Closed? then Tracks(s, r) else ReadAll(PhaseOf(s), r.out) == Broken
  {
    var begun := OpenThinking(s, k);
    ReadAllConcat(PhaseOf(s), begun.out, [BlockDelta(s.nextIndex, Thinking(delta))]);
    if s.open.Closed? { OpenAsTracks(s, ThinkingKind, k, ThinkingBlock); }
  }

  lemma ListPagesTracks(s: State, k: int, item: Item)
    requires Live(s) && s.open.Closed? && item.WebSearchCall?
    ensures Tracks(s, ListPages(s, item, k))
  {
    var out := ListPages(s, item, k).out;
    ReadTwo(PhaseOf(s), out[0], out[1]);
  }

  lemma SendInputReads(s: State, k: int, item: Item)
    requires Live(s) && item.WebSearchCall?
    ensures ReadAll(PhaseOf(s), SendInput(s, item, k))
            == if SearchPlaced(s, k) ==> IsOpen(s, SearchKind, k) then PhaseOf(s) else Broken
  {
    if SearchPlaced(s, k) {
      assert SendInput(s, item, k)[1..] == [];
    }
  }

  lemma SearchDoneReads(s: State, k: int, item: Item)
    requires Live(s) && item.WebSearchCall?
    ensures Disciplined(s, Event(None, ItemDone(k, item))) ==> Tracks(s, FinishSearch(s, item, k))
    ensures !Disciplined(s, Event(None, ItemDone(k, item))) ==>
            ReadAll(PhaseOf(s), FinishSearch(s, item, k).out) == Broken
  {
    hide ReadAll, ListPages, SendInput;
    var closed := CloseOpen(s);
    CloseOpenTracks(s);
    var listed := ListPages(closed.state, item, k);
    ListPagesTracks(closed.state, k, item);
    TracksThen(s, closed, listed);
    SendInputReads(s, k, item);
    ReadAllConcat(PhaseOf(s), SendInput(s, item, k), closed.out + listed.out);
    BrokenStays(closed.out + listed.out);
  }

  /** What a call has gathered is nothing a reader sees. */
  lemma CallsUnseen(s: State, t: State)
    requires Live(s) && t == s.(calls := t.calls)
    ensures Live(t) && PhaseOf(t) == PhaseOf(s)
  {
  }

  lemma GatheringTracks(s: State, k: int, args: string)
    requires Live(s)
    ensures Tracks(s, Place(SetArgs(TouchCall(s, k, None), k, args), k))
  {
    hide Place, ReadAll;
    var t := SetArgs(TouchCall(s, k, None), k, args);
    assert t == s.(calls := t.calls);
    CallsUnseen(s, t);
    PlaceTracks(t, k);
  }

  lemma ArgumentsTrack(s: State, k: int, delta: string, arguments: Option<string>)
    requires Live(s)
    ensures Tracks(s, OnArgumentsDelta(s, k, delta)) && Tracks(s, OnArgumentsDone(s, k, arguments))
  {
    hide Tracks, Live, Place, SetArgs;
    var t := TouchCall(s, k, None);
    NothingTracks(s);
    GatheringTracks(s, k, t.calls[k].args + delta);
    GatheringTracks(s, k, CompletedArguments(t.calls[k].args, arguments));
  }

  /** One event: tracked when it is disciplined, and broken for good when it is not. */
  lemma HandleReads(s: State, response: Option<Response>, body: Body)
    requires Live(s)
    ensures var r := Handle(s, response, body);
            if Disciplined(s, Event(response, body))
            then Inv(r.state) && r.state.started && ReadAll(PhaseOf(s), r.out) == PhaseOf(r.state)
            else ReadAll(PhaseOf(s), r.out) == Broken
  {
    hide Finalize, OnItemAdded, OnCallDone, FinishSearch, OnReasoning, EnsureText, OnArgumentsDelta, OnArgumentsDone;
    hide ReadAll;
    NothingTracks(s);
    match body
    case Terminal => FinalizeTracks(s, response);
    case UpstreamError => FinalizeTracks(s, None);
    case ItemAdded(k, item) => ItemAddedTracks(s, k, item);
    case ItemDone(k, item) =>
      match item {
        case WebSearchCall(_, _) => SearchDoneReads(s, k, item);
        case FunctionCall(_, _, _, _) => CallDoneTracks(s, k, item);
        case _ => CloseIfOpenTracks(s, k);
      }
    case TextDelta(k, delta) => TextTracks(s, k, Text(delta));
    case AnnotationAdded(k, citation) =>
      if citation.Some? {
        TextTracks(s, k, OnAnnotation(s, k, citation).out[|EnsureText(s, k).out|].delta);
      }
    case ArgumentsDelta(k, delta) => ArgumentsTrack(s, k, delta, None);
    case ArgumentsDone(k, arguments) => ArgumentsTrack(s, k, "", arguments);
    case ReasoningDelta(k, delta) => ReasoningReads(s, k, delta);
    case OtherBody =>
  }

  lemma StartTracks(s: State, response: Option<Response>)
    requires Inv(s) && !s.ended
    ensures Tracks(s, EnsureStarted(s, response))
  {
  }

  lemma PushReads(s: State, e: Event)
    requires Inv(s)
    ensures var r := Push(s, e);
            if Disciplined(s, e) then Inv(r.state) && ReadAll(PhaseOf(s), r.out) == PhaseOf(r.state)
            else ReadAll(PhaseOf(s), r.out) == Broken
  {
    if !s.ended && e.Event? {
      var started := EnsureStarted(s, e.response);
      StartTracks(s, e.response);
      HandleReads(started.state, e.response, e.body);
      TracksThen(s, started, Handle(started.state, e.response, e.body));
      assert Disciplined(s, e) == Disciplined(started.state, e);
    }
  }

  predicate DisciplinedRun(s: State, events: seq<Event>)
    decreases |events|
  {
    events == [] || (Disciplined(s, events[0]) && DisciplinedRun(Push(s, events[0]).state, events[1..]))
  }

  lemma {:induction false} PushAllReads(s: State, events: seq<Event>)
    requires Inv(s)
    ensures var r := PushAll(s, events);
            if DisciplinedRun(s, events) then Inv(r.state) && ReadAll(PhaseOf(s), r.out) == PhaseOf(r.state)
            else ReadAll(PhaseOf(s), r.out) == Broken
    decreases |events|
  {
    if events != [] {
      hide Push, ReadAll, PhaseOf, Disciplined, Inv;
      var one := Push(s, events[0]);
      var rest := PushAll(one.state, events[1..]);
      PushReads(s, events[0]);
      ReadAllConcat(PhaseOf(s), one.out, rest.out);
      if Disciplined(s, events[0]) {
        PushAllReads(one.state, events[1..]);
      } else {
        BrokenStays(rest.out);
      }
    }
  }

  lemma EndReads(s: State)
    requires Inv(s)
    ensures ReadAll(PhaseOf(s), End(s).out) == Complete
  {
    if !s.ended {
      hide Finalize;
      StartTracks(s, None);
      var started := EnsureStarted(s, None);
      FinalizeTracks(started.state, None);
      TracksThen(s, started, Finalize(started.state, None));
    }
  }

  lemma RunReads(s: State, events: seq<Event>)
    requires Inv(s)
    ensures ReadAll(PhaseOf(s), Translate(s, events).out) == if DisciplinedRun(s, events) then Complete else Broken
  {
    hide PushAll, End, DisciplinedRun;
    var pushed := PushAll(s, events);
    PushAllReads(s, events);
    ReadAllConcat(PhaseOf(s), pushed.out, End(pushed.state).out);
    if DisciplinedRun(s, events) {
      EndReads(pushed.state);
    } else {
      BrokenStays(End(pushed.state).out);
    }
  }

  /**
   * For every input and every way it is cut off, the whole output is one message_start, blocks numbered 0, 1, 2
   * and so on, each with a start, deltas that fit it and a stop before the next, one message_delta, one
   * message_stop and nothing more -- exactly when every event of the run is disciplined.
   */
  lemma WellFormedIffDisciplined(requestModel: Option<string>, events: seq<Event>)
    ensures ReadAll(BeforeStart, Translate(Initial(requestModel), events).out) == Complete
            <==> DisciplinedRun(Initial(requestModel), events)
  {
    RunReads(Initial(requestModel), events);
  }

  /** `end()` may be called again at no cost: an ended stream emits nothing for any input. */
  lemma EndedEmitsNothing(s: State, events: seq<Event>)
    ensures var ended := Translate(s, events).state; ended.ended && Translate(ended, events).out == []
  {
    var ended := Translate(s, events).state;
    EndedPushes(ended, events);
  }

  lemma {:induction false} EndedPushes(s: State, events: seq<Event>)
    requires s.ended
    ensures PushAll(s, events) == Step(s, [])
    decreases |events|
  {
    if events != [] { EndedPushes(s, events[1..]); }
  }

  /** The two ways to break the stream: a reasoning delta and a search result that do not name the open block. */
  lemma UndisciplinedRunsBreak()
    ensures var e := [Event(None, TextDelta(0, "a")), Event(None, ReasoningDelta(1, "b"))];
            ReadAll(BeforeStart, Translate(Initial(None), e).out) != Complete
    ensures var found := WebSearchCall("ws", Action("search", "q", "", "", "", None));
            var e := [Event(None, ItemAdded(0, found)), Event(None, TextDelta(1, "a")),
                Event(None, ItemDone(0, found))];
            ReadAll(BeforeStart, Translate(Initial(None), e).out) != Complete
  {
    TextThenReasoning();
    SearchThenText();
  }

  lemma TextThenReasoning()
    ensures var e := [Event(None, TextDelta(0, "a")), Event(None, ReasoningDelta(1, "b"))];
            ReadAll(BeforeStart, Translate(Initial(None), e).out) != Complete
  {
    var s := Initial(None);
    var t0, r1 := Event(None, TextDelta(0, "a")), Event(None, ReasoningDelta(1, "b"));
    var s1 := Push(s, t0).state;
    assert IsOpen(s1, TextKind, 0);
    assert [t0, r1][1..] == [r1];
    assert !DisciplinedRun(s1, [r1]);
    hide Push;
    WellFormedIffDisciplined(None, [t0, r1]);
  }

  lemma SearchThenText()
    ensures var found := WebSearchCall("ws", Action("search", "q", "", "", "", None));
            var e := [Event(None, ItemAdded(0, found)), Event(None, TextDelta(1, "a")),
                Event(None, ItemDone(0, found))];
            ReadAll(BeforeStart, Translate(Initial(None), e).out) != Complete
  {
    var s := Initial(None);
    var found := WebSearchCall("ws", Action("search", "q", "", "", "", None));
    var a0, t1, d0 := Event(None, ItemAdded(0, found)), Event(None, TextDelta(1, "a")), Event(None, ItemDone(0, found));
    var u1 := Push(s, a0).state;
    var u2 := Push(u1, t1).state;
    assert SearchPlaced(u2, 0) && IsOpen(u2, TextKind, 1);
    assert [a0, t1, d0][1..] == [t1, d0] && [t1, d0][1..] == [d0];
    assert !Disciplined(u2, d0);
    hide Push, Disciplined, SearchPlaced, IsOpen;
    assert !DisciplinedRun(u2, [d0]);
    assert !DisciplinedRun(u1, [t1, d0]);
    WellFormedIffDisciplined(None, [a0, t1, d0]);
  }
}
