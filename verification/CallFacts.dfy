/**
 * Over every stream, orderly or not, what the translator knows of a call is what that call's own events say, and every
 * call that opens bears the id and the name it is known by.
 */
module CallFacts {
  import opened Options
  import opened Responses
  import opened Translation
  import opened ParallelCalls

  datatype Fact = Fact(item: Option<Item>, args: string)

  /** A call never heard of has no item and no arguments. */
  function FactOf(s: State, k: int): Fact {
    if k in s.calls then Fact(s.calls[k].item, s.calls[k].args) else Fact(None, "")
  }

  /** What call `k` is: the item that the first event with one gives it, whether it adds the item or ends it. */
  function ItemOf(events: seq<Event>, k: int): Option<Item> {
    if events == [] then None
    else
      match events[0]
      case Event(_, ItemAdded(j, FunctionCall(callId, id, name, arguments))) =>
        if j == k then Some(FunctionCall(callId, id, name, arguments)) else ItemOf(events[1..], k)
      case Event(_, ItemDone(j, FunctionCall(callId, id, name, arguments))) =>
        if j == k then Some(FunctionCall(callId, id, name, arguments)) else ItemOf(events[1..], k)
      case _ => ItemOf(events[1..], k)
  }

  lemma {:induction false} ItemOneMore(events: seq<Event>, e: Event, k: int)
    ensures ItemOf(events + [e], k) == if ItemOf(events, k).Some? then ItemOf(events, k) else ItemOf([e], k)
    decreases |events|
  {
    if events == [] {
      assert events + [e] == [e];
    } else {
      assert (events + [e])[0] == events[0] && (events + [e])[1..] == events[1..] + [e];
      ItemOneMore(events[1..], e, k);
    }
  }

  // Nothing but a call's own events changes what is known of it.

  ghost predicate SameFacts(s: State, t: State) {
    forall k: int :: FactOf(s, k) == FactOf(t, k)
  }

  /** The block is a call's: its name, and its call id, else its item id, else one made up for it. */
  predicate Bears(block: Block, item: Option<Item>) {
    && block.ToolUse?
    && match item
       case Some(FunctionCall(callId, id, name, _)) =>
         block.name == name
         && if callId == "" then (if id == "" then block.id.Synthetic? else block.id == Given(id))
            else block.id == Given(callId)
       case _ => block.name == "" && block.id.Synthetic?
  }

  /** Every call that opens here is one the translator knows, under the name and the id it knows. */
  ghost predicate OpensKnown(s: State, out: seq<Out>) {
    forall o <- out :: o.BlockStart? && o.block.ToolUse? ==> exists k: int :: Bears(o.block, FactOf(s, k).item)
  }

  lemma OpensConcat(s: State, a: seq<Out>, b: seq<Out>)
    requires OpensKnown(s, a) && OpensKnown(s, b)
    ensures OpensKnown(s, a + b)
  {
  }

  ghost predicate Keeps(s: State, r: Step) {
    SameFacts(s, r.state) && OpensKnown(s, r.out)
  }

  lemma KeepsThen(s: State, a: Step, b: Step)
    requires Keeps(s, a) && Keeps(a.state, b)
    ensures Keeps(s, Step(b.state, a.out + b.out))
  {
  }

  lemma CloseKeeps(s: State, outputIndex: int)
    ensures Keeps(s, CloseOpen(s)) && Keeps(s, CloseIfOpen(s, outputIndex))
  {
  }

  lemma SendKeeps(s: State, k: int)
    requires k in s.calls
    ensures Keeps(s, SendArgs(s, k))
  {
  }

  lemma OpenToolKeeps(s: State, k: int)
    requires k in s.calls
    ensures Keeps(s, OpenTool(s, s.calls[k].item, k))
  {
    var r := OpenTool(s, s.calls[k].item, k);
    assert SameFacts(s, r.state);
    assert Bears(ToolBlock(s.calls[k].item, s.syntheticSeq), FactOf(s, k).item);
  }

  lemma OpenCallKeeps(s: State, k: int)
    requires k in s.calls
    ensures Keeps(s, OpenCall(s, k))
  {
    var closed := CloseOpen(s);
    var begun := OpenTool(closed.state, s.calls[k].item, k);
    CloseKeeps(s, k);
    OpenToolKeeps(closed.state, k);
    SendKeeps(begun.state, k);
    hide Keeps, SendArgs;
    KeepsThen(s, closed, begun);
    KeepsThen(s, Step(begun.state, closed.out + begun.out), SendArgs(begun.state, k));
  }

  lemma PlaceKeeps(s: State, k: int)
    requires k in s.calls
    ensures Keeps(s, Place(s, k))
  {
    SendKeeps(s, k);
    OpenCallKeeps(s, k);
    hide SendArgs, OpenCall;
  }

  lemma DrainOneKeeps(s: State)
    requires s.waiting != []
    ensures Keeps(s, DrainOne(s))
  {
    var k := s.waiting[0];
    var touched := TouchCall(s.(waiting := s.waiting[1..]), k, None);
    assert SameFacts(s, touched);
    OpenCallKeeps(touched, k);
    CloseKeeps(OpenCall(touched, k).state, k);
    hide OpenCall, CloseOpen;
  }

  lemma {:induction false} DrainKeeps(s: State)
    ensures Keeps(s, Drain(s))
    decreases |s.waiting|
  {
    if s.waiting != [] && !InFlight(s) {
      hide DrainOne, Keeps;
      DrainOneKeeps(s);
      DrainKeeps(DrainOne(s).state);
      KeepsThen(s, DrainOne(s), Drain(DrainOne(s).state));
    } else {
      assert Drain(s) == Step(s, []);
    }
  }

  lemma SettleKeeps(s: State)
    ensures Keeps(s, Settle(s))
  {
    var t := s.(calls := AllDone(s.calls));
    assert SameFacts(s, t);
    DrainKeeps(t);
    CloseKeeps(Drain(t).state, 0);
    hide Drain, CloseOpen, AllDone;
    KeepsThen(t, Drain(t), CloseOpen(Drain(t).state));
  }

  lemma OpenOtherKeeps(s: State, k: int)
    ensures Keeps(s, OpenThinking(s, k)) && Keeps(s, EnsureText(s, k))
  {
  }

  lemma SearchKeeps(s: State, item: Item, k: int)
    requires item.WebSearchCall?
    ensures Keeps(s, OpenSearch(s, item, k)) && Keeps(s, FinishSearch(s, item, k))
  {
    hide SearchInputOf, SearchUrls;
  }

  // What one event makes known.

  function FactAfter(f: Fact, e: Event, k: int): Fact {
    Fact(if f.item.Some? then f.item else ItemOf([e], k), if CallOf(e) == Some(k) then Fold(f.args, e) else f.args)
  }

  ghost predicate Learns(s: State, e: Event, t: State) {
    forall k: int :: FactOf(t, k) == FactAfter(FactOf(s, k), e, k)
  }

  ghost predicate Follows(s: State, e: Event, r: Step) {
    Learns(s, e, r.state) && OpensKnown(r.state, r.out)
  }

  lemma LearnsThenKeeps(s: State, e: Event, t: State, r: Step)
    requires Learns(s, e, t) && Keeps(t, r)
    ensures Follows(s, e, r)
  {
    hide FactAfter, FactOf, Bears;
  }

  /** An event of call `k` says nothing of any other, and of `k` the item it carries. */
  lemma ItemOfOne(e: Event, k: int)
    requires CallOf(e) == Some(k)
    ensures forall j: int :: j != k ==> ItemOf([e], j).None?
    ensures ItemOf([e], k) == if e.body.ItemAdded? || e.body.ItemDone? then Some(e.body.item) else None
  {
    assert [e][1..] == [];
  }

  /** So it is enough to see to `k`. */
  lemma LearnsOne(s: State, e: Event, k: int, t: State)
    requires CallOf(e) == Some(k)
    requires FactOf(t, k).item
             == if FactOf(s, k).item.None? && (e.body.ItemAdded? || e.body.ItemDone?) then Some(e.body.item)
                else FactOf(s, k).item
    requires FactOf(t, k).args == Fold(FactOf(s, k).args, e)
    requires forall j: int :: j != k ==> FactOf(t, j) == FactOf(s, j)
    ensures Learns(s, e, t)
  {
    ItemOfOne(e, k);
    hide ItemOf, Fold, FactOf;
  }

  lemma TouchFacts(s: State, k: int, item: Option<Item>)
    ensures var t := TouchCall(s, k, item);
            && FactOf(t, k) == Fact(if FactOf(s, k).item.None? then item else FactOf(s, k).item, FactOf(s, k).args)
            && t.calls[k].args == FactOf(t, k).args
            && forall j: int :: j != k ==> FactOf(t, j) == FactOf(s, j)
  {
    var t := TouchCall(s, k, item);
    if k !in s.calls {
      assert t.calls[k] == ToolCall(item, "", 0, false);
    } else if s.calls[k].item.None? {
      assert t.calls[k] == s.calls[k].(item := item);
    } else {
      assert t == s;
    }
  }

  lemma SetFacts(s: State, k: int, args: string)
    requires k in s.calls
    ensures var t := SetArgs(s, k, args);
            && FactOf(t, k) == FactOf(s, k).(args := args)
            && forall j: int :: j != k ==> FactOf(t, j) == FactOf(s, j)
  {
  }

  lemma TouchLearns(s: State, e: Event, k: int, item: Item)
    requires e.Event? && item.FunctionCall? && (e.body == ItemAdded(k, item) || e.body == ItemDone(k, item))
    ensures var t := TouchCall(s, k, Some(item));
            Learns(s, e, if e.body.ItemDone?
                         then SetArgs(t, k, CompletedArguments(t.calls[k].args, item.arguments)) else t)
  {
    var t := TouchCall(s, k, Some(item));
    var u := SetArgs(t, k, CompletedArguments(t.calls[k].args, item.arguments));
    TouchFacts(s, k, Some(item));
    SetFacts(t, k, CompletedArguments(t.calls[k].args, item.arguments));
    hide CompletedArguments, Learns, ItemOf, FactOf, SetArgs, TouchCall;
    LearnsOne(s, e, k, if e.body.ItemDone? then u else t);
  }

  lemma DeltaLearns(s: State, e: Event, k: int, delta: string)
    requires e.Event? && e.body == ArgumentsDelta(k, delta) && delta != ""
    ensures var t := TouchCall(s, k, None); Learns(s, e, SetArgs(t, k, t.calls[k].args + delta))
  {
    var t := TouchCall(s, k, None);
    TouchFacts(s, k, None);
    SetFacts(t, k, t.calls[k].args + delta);
    hide Learns, ItemOf, FactOf, SetArgs, TouchCall;
    LearnsOne(s, e, k, SetArgs(t, k, t.calls[k].args + delta));
  }

  lemma ArgumentsLearn(s: State, e: Event, k: int, arguments: Option<string>)
    requires e.Event? && e.body == ArgumentsDone(k, arguments)
    ensures var t := TouchCall(s, k, None); Learns(s, e, SetArgs(t, k, CompletedArguments(t.calls[k].args, arguments)))
  {
    var t := TouchCall(s, k, None);
    TouchFacts(s, k, None);
    SetFacts(t, k, CompletedArguments(t.calls[k].args, arguments));
    hide CompletedArguments, Learns, ItemOf, FactOf, SetArgs, TouchCall;
    LearnsOne(s, e, k, SetArgs(t, k, CompletedArguments(t.calls[k].args, arguments)));
  }

  lemma CallDoneFollows(s: State, e: Event, k: int, item: Item)
    requires e.Event? && item.FunctionCall? && e.body == ItemDone(k, item)
    ensures Follows(s, e, OnCallDone(s, k, item))
  {
    var touched := TouchCall(s, k, Some(item));
    var t := SetArgs(touched, k, CompletedArguments(touched.calls[k].args, item.arguments));
    TouchLearns(s, e, k, item);
    PlaceKeeps(t, k);
    var u := Place(t, k).state;
    FinishKeeps(u, k);
    hide Place, FinishCall, TouchCall, SetArgs, Learns, Keeps;
    KeepsThen(t, Place(t, k), FinishCall(u, k));
    LearnsThenKeeps(s, e, t, OnCallDone(s, k, item));
  }

  lemma FinishKeeps(s: State, k: int)
    requires k in s.calls
    ensures Keeps(s, FinishCall(s, k))
  {
    var done := s.(calls := s.calls[k := s.calls[k].(done := true)]);
    assert SameFacts(s, done);
    CloseKeeps(done, k);
    var closed := CloseIfOpen(done, k);
    DrainKeeps(closed.state);
    hide Drain, CloseIfOpen;
    KeepsThen(done, closed, Drain(closed.state));
  }

  /** An event that no call is concerned with changes nothing that is known. */
  lemma OthersFollow(s: State, e: Event, r: Step)
    requires e.Event? && CallOf(e).None? && Keeps(s, r)
    ensures Follows(s, e, r)
  {
    hide FactOf, Bears;
    forall k: int ensures ItemOf([e], k).None? {
    }
    assert Learns(s, e, s);
  }

  lemma HandleFollows(s: State, response: Option<Response>, body: Body)
    ensures Follows(s, Event(response, body), Handle(s, response, body))
  {
    var e := Event(response, body);
    match body
    case ItemAdded(k, FunctionCall(callId, id, name, arguments)) =>
      var item := FunctionCall(callId, id, name, arguments);
      TouchLearns(s, e, k, item);
      PlaceKeeps(TouchCall(s, k, Some(item)), k);
      hide Place, TouchCall, Learns, Keeps;
      LearnsThenKeeps(s, e, TouchCall(s, k, Some(item)), Place(TouchCall(s, k, Some(item)), k));
    case ItemDone(k, FunctionCall(callId, id, name, arguments)) =>
      CallDoneFollows(s, e, k, FunctionCall(callId, id, name, arguments));
    case ArgumentsDelta(k, delta) =>
      if delta != "" {
        DeltaLearns(s, e, k, delta);
        var touched := TouchCall(s, k, None);
        var t := SetArgs(touched, k, touched.calls[k].args + delta);
        PlaceKeeps(t, k);
        hide Place, Learns, Keeps;
        LearnsThenKeeps(s, e, t, Place(t, k));
      } else {
        OthersFollow(s, e, Step(s, []));
      }
    case ArgumentsDone(k, arguments) =>
      ArgumentsLearn(s, e, k, arguments);
      var touched := TouchCall(s, k, None);
      var t := SetArgs(touched, k, CompletedArguments(touched.calls[k].args, arguments));
      PlaceKeeps(t, k);
      hide Place, Learns, Keeps;
      LearnsThenKeeps(s, e, t, Place(t, k));
    case _ =>
      OtherHandled(s, response, body);
      OthersFollow(s, e, Handle(s, response, body));
  }

  lemma OtherHandled(s: State, response: Option<Response>, body: Body)
    requires CallOf(Event(response, body)).None? && !body.ArgumentsDelta?
    ensures Keeps(s, Handle(s, response, body))
  {
    SettleKeeps(s);
    hide Settle, OpenThinking, OpenSearch, EnsureText, FinishSearch, JsSlice;
    match body
    case ItemAdded(k, item) =>
      OpenOtherKeeps(Settle(s).state, k);
      if item.WebSearchCall? { SearchKeeps(Settle(s).state, item, k); }
    case ItemDone(k, item) =>
      if item.WebSearchCall? { SearchKeeps(s, item, k); }
      CloseKeeps(s, k);
    case TextDelta(k, _) => OpenOtherKeeps(s, k);
    case AnnotationAdded(k, _) => OpenOtherKeeps(s, k);
    case ReasoningDelta(k, _) => OpenOtherKeeps(s, k);
    case _ =>
  }

  // Over a stream.

  lemma PushFollows(s: State, e: Event)
    requires !s.ended && e.Event?
    ensures Follows(s, e, Push(s, e))
  {
    var started := EnsureStarted(s, e.response);
    assert forall k: int :: FactOf(started.state, k) == FactOf(s, k);
    HandleFollows(started.state, e.response, e.body);
    assert Push(s, e).out == started.out + Handle(started.state, e.response, e.body).out;
    hide Handle, FactOf, FactAfter, Bears;
  }

  /** Every call that opens here bears the id and the name of the item that a call has by some point of the stream. */
  ghost predicate OpensHeard(events: seq<Event>, out: seq<Out>) {
    forall o <- out :: o.BlockStart? && o.block.ToolUse? ==>
      exists n: nat, k: int :: n <= |events| && Bears(o.block, ItemOf(events[..n], k))
  }

  lemma HeardNow(events: seq<Event>, s: State, out: seq<Out>)
    requires OpensKnown(s, out) && forall k: int :: FactOf(s, k).item == ItemOf(events, k)
    ensures OpensHeard(events, out)
  {
    hide FactOf, Bears, ItemOf;
    forall o <- out | o.BlockStart? && o.block.ToolUse?
      ensures exists n: nat, k: int :: n <= |events| && Bears(o.block, ItemOf(events[..n], k))
    {
      var k: int :| Bears(o.block, FactOf(s, k).item);
      assert events[..|events|] == events;
      assert Bears(o.block, ItemOf(events[..|events|], k));
    }
  }

  lemma HeardBefore(events: seq<Event>, e: Event, out: seq<Out>)
    requires OpensHeard(events, out)
    ensures OpensHeard(events + [e], out)
  {
    hide Bears, ItemOf;
    forall o <- out | o.BlockStart? && o.block.ToolUse?
      ensures exists n: nat, k: int :: n <= |events + [e]| && Bears(o.block, ItemOf((events + [e])[..n], k))
    {
      var n: nat, k: int :| n <= |events| && Bears(o.block, ItemOf(events[..n], k));
      assert (events + [e])[..n] == events[..n];
    }
  }

  lemma HeardConcat(events: seq<Event>, a: seq<Out>, b: seq<Out>)
    requires OpensHeard(events, a) && OpensHeard(events, b)
    ensures OpensHeard(events, a + b)
  {
    hide Bears, ItemOf;
  }

  /** What is known of every call, after any events that do not end the stream. */
  ghost predicate Knows(events: seq<Event>, s: State) {
    !s.ended && forall k: int :: FactOf(s, k) == Fact(ItemOf(events, k), Arguments(events, k))
  }

  lemma PushKnows(events: seq<Event>, s: State, e: Event)
    requires Knows(events, s) && !Ends(e)
    ensures Knows(events + [e], Push(s, e).state) && OpensKnown(Push(s, e).state, Push(s, e).out)
  {
    GoesOn(s, e);
    if e.Event? {
      PushFollows(s, e);
      hide Push, FactOf, OpensKnown, ItemOf;
      forall k: int
        ensures FactOf(Push(s, e).state, k) == Fact(ItemOf(events + [e], k), Arguments(events + [e], k))
      {
        ItemOneMore(events, e, k);
        assert (events + [e])[..|events|] == events;
      }
    } else {
      forall k: int ensures Fact(ItemOf(events + [e], k), Arguments(events + [e], k)) == FactOf(s, k) {
        ItemOneMore(events, e, k);
        assert (events + [e])[..|events|] == events;
      }
    }
  }

  /**
   * Over every stream, whatever is interleaved and in whatever order it comes: of each call the translator knows
   * exactly the item that the first of its events with one gave it, late or not, and its own arguments; and every call
   * opened bears what was known of one.
   */
  lemma {:induction false} CallsAreKnown(requestModel: Option<string>, events: seq<Event>)
    requires forall e <- events :: !Ends(e)
    ensures Knows(events, PushAll(Initial(requestModel), events).state)
    ensures OpensHeard(events, PushAll(Initial(requestModel), events).out)
  {
    var s := Initial(requestModel);
    if events != [] {
      var before, e := events[..|events| - 1], events[|events| - 1];
      assert events == before + [e];
      CallsAreKnown(requestModel, before);
      var r := PushAll(s, before);
      hide PushAll, Push, OpensKnown, OpensHeard;
      PushKnows(before, r.state, e);
      HeardNow(events, Push(r.state, e).state, Push(r.state, e).out);
      HeardBefore(before, e, r.out);
      HeardConcat(events, r.out, Push(r.state, e).out);
      PushAllSnoc(s, before, e);
    }
  }

  lemma {:induction false} NoneEnds(events: seq<Event>)
    ensures forall e <- BeforeEnd(events) :: !Ends(e)
  {
    if events != [] && !Ends(events[0]) {
      NoneEnds(events[1..]);
    }
  }

  lemma ClosingKeeps(s: State, started: Option<Response>, response: Option<Response>)
    ensures OpensKnown(s, Closing(s, started, response))
  {
    var t := EnsureStarted(s, started).state;
    assert SameFacts(s, t);
    SettleKeeps(t);
    hide Settle, FactOf, Bears;
  }

  /** Over every whole stream, ended in any way or cut off: every call opened bears an id and a name it was given. */
  lemma EveryCallIsNamed(requestModel: Option<string>, events: seq<Event>)
    ensures OpensHeard(BeforeEnd(events), Translate(Initial(requestModel), events).out)
  {
    var s, heard := Initial(requestModel), BeforeEnd(events);
    NoneEnds(events);
    StreamCloses(s, events);
    CallsAreKnown(requestModel, heard);
    var pushed := PushAll(s, heard);
    hide PushAll, Closing, Translate, OpensHeard, OpensKnown, FactOf;
    var started, response :| Translate(s, events).out == pushed.out + Closing(pushed.state, started, response);
    ClosingKeeps(pushed.state, started, response);
    HeardNow(heard, pushed.state, Closing(pushed.state, started, response));
    HeardConcat(heard, pushed.out, Closing(pushed.state, started, response));
  }

  // Who waits.

  /** The open block is that of a call whose end has not come. */
  predicate CallIsOpen(s: State) {
    match s.open
    case Open(ToolKind, _, k) => k in s.calls && !s.calls[k].done
    case _ => false
  }

  lemma OpenCallOpens(s: State, k: int)
    requires k in s.calls
    ensures var r := OpenCall(s, k);
            && r.state.open == Open(ToolKind, s.nextIndex, k)
            && BlockStart(s.nextIndex, ToolBlock(s.calls[k].item, s.syntheticSeq)) in r.out
  {
    hide ToolBlock, Unsent;
  }

  /** A new call waits exactly behind an open call, whatever else is open; else its block is the next to open. */
  lemma WaitsBehindCalls(s: State, k: int)
    requires k in s.calls && k !in s.blocks && k !in s.waiting
    ensures var r := Place(s, k);
            if CallIsOpen(s) then r == Step(s.(waiting := s.waiting + [k]), [])
            else r.state.waiting == s.waiting && r.state.open == Open(ToolKind, s.nextIndex, k)
                 && exists block :: BlockStart(s.nextIndex, block) in r.out && Bears(block, s.calls[k].item)
  {
    OpenCallOpens(s, k);
    assert Bears(ToolBlock(s.calls[k].item, s.syntheticSeq), s.calls[k].item);
    hide OpenCall, Bears, ToolBlock;
  }

  /** When the waiting calls have had their turn, none waits but behind an open call. */
  lemma {:induction false} DrainStopsAtCalls(s: State)
    ensures Drain(s).state.waiting == [] || CallIsOpen(Drain(s).state)
    decreases |s.waiting|
  {
    if s.waiting != [] && !InFlight(s) {
      hide OpenCall;
      DrainStopsAtCalls(DrainOne(s).state);
    }
  }
}
