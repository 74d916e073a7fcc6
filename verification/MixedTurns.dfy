/**
 * A whole turn against a segment-by-segment specification: prose with its citations, thoughts, web searches and runs
 * of interleaved calls, in any order, wherever the stream is cut and however it ends. The message has each segment's
 * blocks in turn, and nothing else.
 */
module MixedTurns {
  import opened Options
  import opened Responses
  import opened Translation
  import opened Assembly
  import opened ParallelCalls

  // The segment side: what the events say, with no translator in sight.

  /** An item has the event that adds it, what comes of it, and at most one event that ends it. */
  datatype Segment =
    | Calls(events: seq<Event>)
    | Prose(key: int, added: Event, parts: seq<Event>, done: seq<Event>)
    | Thought(key: int, added: Event, parts: seq<Event>, done: seq<Event>)
    | Search(key: int, added: Event, parts: seq<Event>, done: seq<Event>)

  function EventsOf(seg: Segment): seq<Event> {
    if seg.Calls? then seg.events else [seg.added] + seg.parts + seg.done
  }

  function Flatten(segs: seq<Segment>): seq<Event> {
    if segs == [] then [] else Flatten(segs[..|segs| - 1]) + EventsOf(segs[|segs| - 1])
  }

  function KeysOf(seg: Segment): set<int> {
    if seg.Calls? then set a | a in Order(seg.events) :: a.key else {seg.key}
  }

  function Used(segs: seq<Segment>): set<int> {
    if segs == [] then {} else Used(segs[..|segs| - 1]) + KeysOf(segs[|segs| - 1])
  }

  predicate ProsePart(key: int, e: Event) {
    Silent(e) || (e.Event? && (e.body.TextDelta? || e.body.AnnotationAdded?) && e.body.outputIndex == key)
  }

  predicate ThoughtPart(key: int, e: Event) {
    Silent(e) || (e.Event? && e.body.ReasoningDelta? && e.body.outputIndex == key)
  }

  /** The events of one segment are of its item, and nothing else. */
  predicate WellMade(seg: Segment) {
    match seg
    case Calls(events) => Orderly(events)
    case Prose(key, added, parts, done) =>
      && added.Event? && added.body == ItemAdded(key, OtherItem)
      && (forall e <- parts :: ProsePart(key, e))
      && |done| <= 1 && forall e <- done :: e.Event? && e.body == ItemDone(key, OtherItem)
    case Thought(key, added, parts, done) =>
      && added.Event? && added.body == ItemAdded(key, Reasoning)
      && (forall e <- parts :: ThoughtPart(key, e))
      && |done| <= 1 && forall e <- done :: e.Event? && e.body == ItemDone(key, Reasoning)
    case Search(key, added, parts, done) =>
      && added.Event? && added.body.ItemAdded? && added.body.outputIndex == key && added.body.item.WebSearchCall?
      && (forall e <- parts :: Silent(e))
      && |done| <= 1
      && forall e <- done :: e.Event? && e.body.ItemDone? && e.body.outputIndex == key && e.body.item.WebSearchCall?
  }

  /** Segments of items of their own, the calls between two others taken together. */
  predicate TurnOf(segs: seq<Segment>) {
    segs == [] ||
    (var before, last := segs[..|segs| - 1], segs[|segs| - 1];
      && TurnOf(before) && WellMade(last) && KeysOf(last) !! Used(before)
      && (last.Calls? && before != [] ==> !before[|before| - 1].Calls?))
  }

  /** The part of the text so far that a citation quotes. */
  function Quoted(text: string, c: Citation): string {
    var from := if c.startIndex.Some? then c.startIndex.value else 0;
    var to := if c.endIndex.Some? then c.endIndex.value else from;
    JsSlice(text, if from > 0 then from else 0, if from > to then from else to)
  }

  /** What a part adds to the text so far. */
  function DeltaOf(text: string, e: Event): Delta
    requires e.Event? && !Silent(e) && (e.body.TextDelta? || e.body.AnnotationAdded?)
  {
    if e.body.TextDelta? then Text(e.body.delta)
    else Cited(e.body.citation.value.url, e.body.citation.value.title, Quoted(text, e.body.citation.value))
  }

  function ProseSoFar(a: Option<Assembled>): Assembled {
    if a.Some? then a.value else Started(Some(TextBlock))
  }

  /** The text block of a message, which starts with its first text or citation. */
  function ProseBlock(key: int, parts: seq<Event>): Option<Assembled>
    requires forall e <- parts :: ProsePart(key, e)
  {
    if parts == [] then None
    else
      var e := parts[|parts| - 1];
      assert e in parts && ProsePart(key, e);
      var before := ProseBlock(key, parts[..|parts| - 1]);
      if Silent(e) then before
      else Some(WithDelta(ProseSoFar(before), DeltaOf(ProseSoFar(before).text, e)))
  }

  function ThoughtOf(e: Event): string {
    match e
    case Event(_, ReasoningDelta(_, delta)) => delta
    case _ => ""
  }

  function ThoughtText(parts: seq<Event>): string {
    if parts == [] then "" else ThoughtText(parts[..|parts| - 1]) + ThoughtOf(parts[|parts| - 1])
  }

  function SearchId(item: Item, seq0: nat): BlockId
    requires item.WebSearchCall?
  {
    if item.id != "" then Given(item.id) else Synthetic(seq0)
  }

  /** The search with the input it ran with, and the pages it found, once it is done. */
  function SearchBlocks(seg: Segment, seq0: nat): seq<Assembled>
    requires seg.Search? && WellMade(seg)
  {
    var id := SearchId(seg.added.body.item, seq0);
    var asked := AskedBlock(id);
    if seg.done == [] then [asked]
    else
      assert seg.done[0] in seg.done;
      var action := seg.done[0].body.item.action;
      [WithDelta(asked, SearchJson(SearchInputOf(action))), Started(Some(SearchResult(id, SearchUrls(action))))]
  }

  function CallBlocks(events: seq<Event>, seq0: nat): seq<Assembled> {
    var order := Order(events);
    seq(|order|, i requires 0 <= i < |order| => BatchBlock(order, i, seq0, Arguments(events, order[i].key)))
  }

  /** The blocks of one segment, ids the upstream did not send numbered from `seq0`. */
  function BlocksOf(seg: Segment, seq0: nat): seq<Assembled>
    requires WellMade(seg)
  {
    match seg
    case Calls(events) => CallBlocks(events, seq0)
    case Prose(key, _, parts, _) => if ProseBlock(key, parts).Some? then [ProseBlock(key, parts).value] else []
    case Thought(_, _, parts, _) => [ThoughtBlock(ThoughtText(parts))]
    case Search(_, _, _, _) => SearchBlocks(seg, seq0)
  }

  /** How many ids a segment takes. */
  function IdsOf(seg: Segment): nat
    requires WellMade(seg)
  {
    match seg
    case Calls(events) => Unnamed(Order(events), |Order(events)|)
    case Search(_, added, _, _) => if added.body.item.id != "" then 0 else 1
    case _ => 0
  }

  function Ids(segs: seq<Segment>): nat
    requires TurnOf(segs)
  {
    if segs == [] then 0 else Ids(segs[..|segs| - 1]) + IdsOf(segs[|segs| - 1])
  }

  /** The blocks of a turn: those of its segments, one after the other. */
  function Blocks(segs: seq<Segment>): seq<Assembled>
    requires TurnOf(segs)
  {
    if segs == [] then []
    else
      var before := segs[..|segs| - 1];
      Blocks(before) + BlocksOf(segs[|segs| - 1], Ids(before))
  }

  function AsMap(blocks: seq<Assembled>): map<nat, Assembled> {
    map i: nat | i < |blocks| :: blocks[i]
  }

  lemma AsMapMore(blocks: seq<Assembled>, a: Assembled)
    ensures AsMap(blocks)[|blocks| := a] == AsMap(blocks + [a])
  {
  }

  lemma AsMapLast(blocks: seq<Assembled>, a: Assembled, c: Assembled)
    ensures AsMap(blocks + [a])[|blocks| := c] == AsMap(blocks + [c]) && |blocks| in AsMap(blocks + [a])
    ensures AsMap(blocks + [a])[|blocks|] == a
  {
  }

  // The translator's side, between segments.

  /** No call in flight, these blocks assembled, and nothing but these items known. */
  ghost predicate Rests(s: State, m: map<nat, Assembled>, blocks: seq<Assembled>, ids: nat, used: set<int>) {
    && Quiet(s) && m == AsMap(blocks) && s.nextIndex == |blocks| && s.syntheticSeq == ids
    && s.blocks.Keys <= used && s.calls.Keys <= used && s.text.Keys <= used
  }

  /** Settled: nothing is open either. */
  ghost predicate Settled(s: State, m: map<nat, Assembled>, blocks: seq<Assembled>, ids: nat, used: set<int>) {
    Rests(s, m, blocks, ids, used) && s.open.Closed?
  }

  lemma SettleRests(s: State, m: map<nat, Assembled>, blocks: seq<Assembled>, ids: nat, used: set<int>)
    requires Rests(s, m, blocks, ids, used)
    ensures Settled(Settle(s).state, AssembleAll(m, Settle(s).out), blocks, ids, used)
  {
    var t := s.(calls := AllDone(s.calls));
    assert Drain(t) == Step(t, []);
    assert Settle(s).out == CloseOpen(s).out;
    CloseOpenAssembles(s, m);
  }

  lemma StartRests(s: State, m: map<nat, Assembled>, blocks: seq<Assembled>, ids: nat, used: set<int>,
      response: Option<Response>)
    requires Rests(s, m, blocks, ids, used)
    ensures var r := EnsureStarted(s, response); Rests(r.state, AssembleAll(m, r.out), blocks, ids, used)
  {
    StartAssembles(s, response, m);
  }

  // A run of calls.

  lemma CloseOpenText(s: State)
    ensures CloseOpen(s).state.text == s.text
  {
  }

  lemma OpenCallText(s: State, k: int)
    requires k in s.calls
    ensures OpenCall(s, k).state.text == s.text
  {
  }

  lemma PlaceText(s: State, k: int)
    requires k in s.calls
    ensures Place(s, k).state.text == s.text
  {
    OpenCallText(s, k);
    hide OpenCall;
  }

  lemma DrainOneText(s: State)
    requires s.waiting != []
    ensures DrainOne(s).state.text == s.text
  {
    var touched := TouchCall(s.(waiting := s.waiting[1..]), s.waiting[0], None);
    assert touched.text == s.text;
    OpenCallText(touched, s.waiting[0]);
    CloseOpenText(OpenCall(touched, s.waiting[0]).state);
    hide OpenCall, TouchCall, CloseOpen;
  }

  lemma {:induction false} DrainText(s: State)
    ensures Drain(s).state.text == s.text
    decreases |s.waiting|
  {
    if s.waiting != [] && !InFlight(s) {
      DrainOneText(s);
      DrainText(DrainOne(s).state);
    }
  }

  lemma SettleText(s: State)
    ensures Settle(s).state.text == s.text
  {
    DrainText(s.(calls := AllDone(s.calls)));
    hide Drain;
  }

  lemma FinishText(s: State, k: int)
    requires k in s.calls
    ensures FinishCall(s, k).state.text == s.text
  {
    var done := s.(calls := s.calls[k := s.calls[k].(done := true)]);
    CloseOpenText(done);
    DrainText(CloseIfOpen(done, k).state);
    hide Drain;
  }

  lemma TouchText(s: State, k: int, item: Option<Item>, args: string)
    ensures TouchCall(s, k, item).text == s.text && SetArgs(TouchCall(s, k, item), k, args).text == s.text
  {
  }

  lemma GatherText(s: State, k: int, item: Option<Item>, args: string)
    ensures Place(SetArgs(TouchCall(s, k, item), k, args), k).state.text == s.text
    ensures Place(TouchCall(s, k, item), k).state.text == s.text
  {
    TouchText(s, k, item, args);
    PlaceText(SetArgs(TouchCall(s, k, item), k, args), k);
    PlaceText(TouchCall(s, k, item), k);
    hide Place, TouchCall, SetArgs;
  }

  lemma HandleText(s: State, e: Event)
    requires CallOf(e).Some?
    ensures Handle(s, e.response, e.body).state.text == s.text
  {
    var k := CallOf(e).value;
    hide Place, SetArgs, TouchCall, FinishCall, CompletedArguments;
    if e.body.ItemAdded? {
      GatherText(s, k, Some(e.body.item), "");
    } else if e.body.ArgumentsDelta? {
      GatherText(s, k, None, TouchCall(s, k, None).calls[k].args + e.body.delta);
    } else if e.body.ArgumentsDone? {
      GatherText(s, k, None, CompletedArguments(TouchCall(s, k, None).calls[k].args, e.body.arguments));
    } else {
      var c := TouchCall(s, k, Some(e.body.item));
      var args := CompletedArguments(c.calls[k].args, e.body.item.arguments);
      GatherText(s, k, Some(e.body.item), args);
      FinishText(Place(SetArgs(c, k, args), k).state, k);
    }
  }

  lemma CallText(s: State, e: Event)
    requires CallOf(e).Some? || Silent(e)
    ensures Push(s, e).state.text == s.text
  {
    if !s.ended && e.Event? {
      var t := EnsureStarted(s, e.response).state;
      assert t.text == s.text;
      if CallOf(e).Some? {
        hide Handle, EnsureStarted;
        HandleText(t, e);
      }
    }
  }

  lemma {:induction false} CallsText(s: State, events: seq<Event>)
    requires Orderly(events)
    ensures PushAll(s, events).state.text == s.text
  {
    if events != [] {
      var before, e := events[..|events| - 1], events[|events| - 1];
      CallsText(s, before);
      assert events == before + [e];
      PushAllSnoc(s, before, e);
      hide Push;
      CallText(PushAll(s, before).state, e);
    }
  }

  /** With no one waiting every call has its block, and nothing but the calls was added. */
  lemma MidFrame(s0: State, m0: map<nat, Assembled>, order: seq<Announcement>, s: State, m: map<nat, Assembled>)
    requires Mid(s0, m0, order, s, m) && s.waiting == []
    ensures !s.ended && s.syntheticSeq == s0.syntheticSeq + Unnamed(order, |order|)
    ensures forall k <- s.blocks :: k in s0.blocks || Announces(order, k)
    ensures forall k <- s.calls :: k in s0.calls || Announces(order, k)
  {
    hide Queue, Unnamed;
  }

  lemma SameKeys(calls: map<int, ToolCall>)
    ensures AllDone(calls).Keys == calls.Keys
  {
  }

  /** What a run of calls leaves once it is settled, beside its blocks. */
  lemma SettledFrame(s0: State, m0: map<nat, Assembled>, events: seq<Event>, s: State, m: map<nat, Assembled>)
    requires Tracked(s0, m0, events, s, m)
    ensures var r := Settle(s).state; var order := Order(events);
            && !r.ended && r.waiting == [] && r.open.Closed? && r.text == s.text
            && r.syntheticSeq == s0.syntheticSeq + Unnamed(order, |order|)
            && (forall k <- r.blocks :: k in s0.blocks || Announces(order, k))
            && (forall k <- r.calls :: k in s0.calls || Announces(order, k))
  {
    SettleText(s);
    KeyedOrder(events);
    hide AssembleAll, Drain, Order, Arguments, Finished, InFlight, Mid, Unnamed, AllDone, SameCalls, Announces;
    DrainAllDone(s0, m0, Order(events), s, m);
    var t := s.(calls := AllDone(s.calls));
    var r := Drain(t);
    CloseOpenState(r.state);
    if s.waiting == [] {
      MidFrame(s0, m0, Order(events), s, m);
      SameKeys(s.calls);
    } else {
      MidFrame(s0, m0, Order(events), r.state, AssembleAll(m, r.out));
    }
  }

  lemma BatchIsNext(s0: State, blocks: seq<Assembled>, events: seq<Event>, m: map<nat, Assembled>)
    requires s0.nextIndex == |blocks| && ShowsBatch(s0, AsMap(blocks), events, m)
    ensures m == AsMap(blocks + CallBlocks(events, s0.syntheticSeq))
  {
    hide Order, Arguments, BatchBlock;
    var all := blocks + CallBlocks(events, s0.syntheticSeq);
    forall i: nat ensures (i in m <==> i in AsMap(all)) && (i in m ==> m[i] == AsMap(all)[i]) {
      if |blocks| <= i < |all| { assert ShowsCall(s0, events, i - |blocks|, m); }
    }
  }

  lemma SettleCalls(s0: State, m0: map<nat, Assembled>, events: seq<Event>, s: State, m: map<nat, Assembled>,
      blocks: seq<Assembled>, ids: nat, used: set<int>)
    requires Rests(s0, m0, blocks, ids, used) && Orderly(events) && s.text == s0.text
    requires Tracked(s0, m0, events, s, m)
    ensures Settled(Settle(s).state, AssembleAll(m, Settle(s).out), blocks + BlocksOf(Calls(events), ids),
                ids + IdsOf(Calls(events)), used + KeysOf(Calls(events)))
  {
    hide Tracked, Order, Orderly, Settle, AssembleAll, CallBlocks, Unnamed;
    SettleShowsBatch(s0, m0, events, s, m);
    SettledFrame(s0, m0, events, s, m);
    BatchIsNext(s0, blocks, events, AssembleAll(m, Settle(s).out));
    BlocksCount(events, ids);
    AnnouncedKeys(events);
  }

  lemma BlocksCount(events: seq<Event>, ids: nat)
    ensures |CallBlocks(events, ids)| == |Order(events)|
  {
    hide Order, Arguments;
  }

  lemma AnnouncedKeys(events: seq<Event>)
    ensures forall k :: Announces(Order(events), k) <==> k in (set a | a in Order(events) :: a.key)
  {
    hide Order;
    forall k ensures Announces(Order(events), k) <==> k in (set a | a in Order(events) :: a.key) {
      if Announces(Order(events), k) {
        var i :| 0 <= i < |Order(events)| && Order(events)[i].key == k;
        assert Order(events)[i] in Order(events);
      }
    }
  }

  // One event of an item.

  lemma PushHandles(s: State, e: Event, m: map<nat, Assembled>)
    requires !s.ended && e.Event?
    ensures var started := EnsureStarted(s, e.response); var handled := Handle(started.state, e.response, e.body);
            && Push(s, e).state == handled.state
            && AssembleAll(m, Push(s, e).out) == AssembleAll(AssembleAll(m, started.out), handled.out)
  {
    hide Handle, EnsureStarted, AssembleAll;
    var started := EnsureStarted(s, e.response);
    AssembleConcat(m, started.out, Handle(started.state, e.response, e.body).out);
  }

  lemma SilentRests(s: State, e: Event, m: map<nat, Assembled>, blocks: seq<Assembled>, ids: nat, used: set<int>)
    requires Rests(s, m, blocks, ids, used) && Silent(e)
    ensures var r := Push(s, e);
            && Rests(r.state, AssembleAll(m, r.out), blocks, ids, used)
            && r.state.open == s.open && r.state.text == s.text && r.state.blocks == s.blocks
            && r.state.searchIds == s.searchIds && r.state.calls == s.calls
  {
    SilentPush(s, e, m);
    hide Push, AssembleAll;
  }

  // Prose.

  /** Within a message: nothing of it yet, or its one block open with what its parts say. */
  ghost predicate Telling(s: State, m: map<nat, Assembled>, key: int, a: Option<Assembled>, blocks: seq<Assembled>,
      ids: nat, used: set<int>) {
    && Rests(s, m, if a.Some? then blocks + [a.value] else blocks, ids, used + {key}) && key !in s.calls
    && match a
       case None => s.open.Closed? && key !in s.blocks && key !in s.text
       case Some(b) =>
         && s.open == Open(TextKind, |blocks|, key) && b.block == Some(TextBlock)
         && TextOf(s, key) == b.text
  }

  lemma EnsureTextTells(s: State, m: map<nat, Assembled>, key: int, a: Option<Assembled>, blocks: seq<Assembled>,
      ids: nat, used: set<int>)
    requires Telling(s, m, key, a, blocks, ids, used)
    ensures var r := EnsureText(s, key);
            && Telling(r.state, AssembleAll(m, r.out), key, Some(ProseSoFar(a)), blocks, ids, used)
            && r.state.text == s.text
  {
    if a.None? {
      assert EnsureText(s, key).out == [BlockStart(|blocks|, TextBlock)];
      AssembleOne(m, BlockStart(|blocks|, TextBlock));
      AsMapMore(blocks, Started(Some(TextBlock)));
    } else {
      AssembleNothing(m);
    }
  }

  /** One more delta for the open block. */
  lemma DeltaTells(s: State, t: State, m: map<nat, Assembled>, key: int, a: Assembled, delta: Delta,
      blocks: seq<Assembled>, ids: nat, used: set<int>)
    requires Telling(s, m, key, Some(a), blocks, ids, used) && (delta.Text? || delta.Cited?)
    requires t == s.(text := t.text) && t.text.Keys <= used + {key} && TextOf(t, key) == WithDelta(a, delta).text
    ensures Telling(t, AssembleAll(m, [BlockDelta(|blocks|, delta)]), key, Some(WithDelta(a, delta)), blocks, ids, used)
  {
    AssembleOne(m, BlockDelta(|blocks|, delta));
    AsMapLast(blocks, a, WithDelta(a, delta));
  }

  /** What a part does: the block made sure of, and one delta. */
  lemma HandleTells(s: State, key: int, e: Event)
    requires ProsePart(key, e) && !Silent(e)
    ensures var r := EnsureText(s, key); var delta := DeltaOf(TextOf(s, key), e);
            var after := Handle(s, e.response, e.body);
            && after.out == r.out + [BlockDelta(r.state.open.index, delta)]
            && after.state == r.state.(text := after.state.text)
            && after.state.text == if delta.Text? then s.text[key := TextOf(s, key) + delta.text] else r.state.text
  {
    hide JsSlice;
  }

  lemma SaidTells(s: State, m: map<nat, Assembled>, key: int, a: Option<Assembled>, e: Event, blocks: seq<Assembled>,
      ids: nat, used: set<int>)
    requires Telling(s, m, key, a, blocks, ids, used) && ProsePart(key, e) && !Silent(e)
    ensures var r := Handle(s, e.response, e.body); var soFar := ProseSoFar(a);
            Telling(r.state, AssembleAll(m, r.out), key, Some(WithDelta(soFar, DeltaOf(soFar.text, e))), blocks, ids,
                used)
  {
    var soFar := ProseSoFar(a);
    var r, after := EnsureText(s, key), Handle(s, e.response, e.body);
    assert TextOf(s, key) == soFar.text;
    var delta := DeltaOf(soFar.text, e);
    EnsureTextTells(s, m, key, a, blocks, ids, used);
    HandleTells(s, key, e);
    TextAfter(r.state, after.state, key, delta, used, soFar);
    hide Handle, EnsureText, AssembleAll, Rests, DeltaOf, WithDelta;
    AssembleConcat(m, r.out, [BlockDelta(|blocks|, delta)]);
    DeltaTells(r.state, after.state, AssembleAll(m, r.out), key, soFar, delta, blocks, ids, used);
  }

  lemma TextAfter(s: State, t: State, key: int, delta: Delta, used: set<int>, a: Assembled)
    requires delta.Text? || delta.Cited?
    requires t.text == (if delta.Text? then s.text[key := TextOf(s, key) + delta.text] else s.text)
    requires s.text.Keys <= used + {key} && TextOf(s, key) == a.text
    ensures t.text.Keys <= used + {key} && TextOf(t, key) == WithDelta(a, delta).text
  {
  }

  lemma ProsePartTells(s: State, m: map<nat, Assembled>, key: int, a: Option<Assembled>, e: Event,
      blocks: seq<Assembled>, ids: nat, used: set<int>)
    requires Telling(s, m, key, a, blocks, ids, used) && ProsePart(key, e)
    ensures var r := Push(s, e); var soFar := ProseSoFar(a);
            Telling(r.state, AssembleAll(m, r.out), key,
                if Silent(e) then a else Some(WithDelta(soFar, DeltaOf(soFar.text, e))), blocks, ids, used)
  {
    if Silent(e) {
      SilentRests(s, e, m, if a.Some? then blocks + [a.value] else blocks, ids, used + {key});
      hide Push, AssembleAll, Rests, Silent;
    } else {
      StartTells(s, m, key, a, blocks, ids, used, e.response);
      PushHandles(s, e, m);
      hide Telling, AssembleAll, Push, Handle, EnsureStarted;
      var started := EnsureStarted(s, e.response);
      SaidTells(started.state, AssembleAll(m, started.out), key, a, e, blocks, ids, used);
    }
  }

  lemma {:induction false} ProseTells(s: State, m: map<nat, Assembled>, key: int, parts: seq<Event>,
      blocks: seq<Assembled>, ids: nat, used: set<int>)
    requires Telling(s, m, key, None, blocks, ids, used) && forall e <- parts :: ProsePart(key, e)
    ensures var r := PushAll(s, parts);
            Telling(r.state, AssembleAll(m, r.out), key, ProseBlock(key, parts), blocks, ids, used)
  {
    hide Telling, Push, ProsePart, WithDelta;
    if parts == [] {
      AssembleNothing(m);
    } else {
      var before, e := parts[..|parts| - 1], parts[|parts| - 1];
      assert parts == before + [e] && e in parts;
      ProseTells(s, m, key, before, blocks, ids, used);
      hide AssembleAll;
      PushAllSnoc(s, before, e);
      var r := PushAll(s, before);
      ProsePartTells(r.state, AssembleAll(m, r.out), key, ProseBlock(key, before), e, blocks, ids, used);
      AssembleConcat(m, r.out, Push(r.state, e).out);
    }
  }

  lemma StartTells(s: State, m: map<nat, Assembled>, key: int, a: Option<Assembled>, blocks: seq<Assembled>, ids: nat,
      used: set<int>, response: Option<Response>)
    requires Telling(s, m, key, a, blocks, ids, used)
    ensures var r := EnsureStarted(s, response);
            Telling(r.state, AssembleAll(m, r.out), key, a, blocks, ids, used) && !s.ended
  {
    StartRests(s, m, if a.Some? then blocks + [a.value] else blocks, ids, used + {key}, response);
  }

  // Thoughts.

  function ThoughtBlock(text: string): Assembled {
    Started(Some(ThinkingBlock)).(thinking := text)
  }

  ghost predicate Muses(s: State, m: map<nat, Assembled>, key: int, text: string, blocks: seq<Assembled>, ids: nat,
      used: set<int>) {
    Rests(s, m, blocks + [ThoughtBlock(text)], ids, used + {key}) && s.open == Open(ThinkingKind, |blocks|, key)
  }

  lemma MusingGoesOn(s: State, m: map<nat, Assembled>, key: int, text: string, delta: string, blocks: seq<Assembled>,
      ids: nat, used: set<int>)
    requires Muses(s, m, key, text, blocks, ids, used)
    ensures Muses(s, AssembleAll(m, [BlockDelta(|blocks|, Thinking(delta))]), key, text + delta, blocks, ids, used)
  {
    AssembleOne(m, BlockDelta(|blocks|, Thinking(delta)));
    AsMapLast(blocks, ThoughtBlock(text), ThoughtBlock(text + delta));
  }

  lemma ThoughtPartMuses(s: State, m: map<nat, Assembled>, key: int, text: string, e: Event, blocks: seq<Assembled>,
      ids: nat, used: set<int>)
    requires Muses(s, m, key, text, blocks, ids, used) && ThoughtPart(key, e)
    ensures var r := Push(s, e);
            Muses(r.state, AssembleAll(m, r.out), key, text + ThoughtOf(e), blocks, ids, used)
  {
    if Silent(e) {
      SilentRests(s, e, m, blocks + [ThoughtBlock(text)], ids, used + {key});
      assert text + "" == text;
    } else {
      hide AssembleAll;
      var started := EnsureStarted(s, e.response);
      var n := AssembleAll(m, started.out);
      StartRests(s, m, blocks + [ThoughtBlock(text)], ids, used + {key}, e.response);
      PushHandles(s, e, m);
      hide Push;
      assert Handle(started.state, e.response, e.body)
             == Step(started.state, [BlockDelta(|blocks|, Thinking(e.body.delta))]);
      MusingGoesOn(started.state, n, key, text, e.body.delta, blocks, ids, used);
    }
  }

  lemma {:induction false} ThoughtMuses(s: State, m: map<nat, Assembled>, key: int, parts: seq<Event>,
      blocks: seq<Assembled>, ids: nat, used: set<int>)
    requires Muses(s, m, key, "", blocks, ids, used) && forall e <- parts :: ThoughtPart(key, e)
    ensures var r := PushAll(s, parts);
            Muses(r.state, AssembleAll(m, r.out), key, ThoughtText(parts), blocks, ids, used)
  {
    hide Muses, Push, ThoughtPart;
    if parts == [] {
      AssembleNothing(m);
    } else {
      var before, e := parts[..|parts| - 1], parts[|parts| - 1];
      assert parts == before + [e] && e in parts;
      ThoughtMuses(s, m, key, before, blocks, ids, used);
      hide AssembleAll;
      PushAllSnoc(s, before, e);
      var r := PushAll(s, before);
      ThoughtPartMuses(r.state, AssembleAll(m, r.out), key, ThoughtText(before), e, blocks, ids, used);
      AssembleConcat(m, r.out, Push(r.state, e).out);
    }
  }

  // Searches.

  function AskedBlock(id: BlockId): Assembled {
    Started(Some(ServerToolUse(id)))
  }

  ghost predicate Searches(s: State, m: map<nat, Assembled>, key: int, id: BlockId, blocks: seq<Assembled>, ids: nat,
      used: set<int>) {
    && Rests(s, m, blocks + [AskedBlock(id)], ids, used + {key}) && s.open == Open(SearchKind, |blocks|, key)
    && key in s.blocks && s.blocks[key] == Placed(SearchKind, |blocks|)
    && key in s.searchIds && s.searchIds[key] == id
  }

  lemma {:induction false} SearchGoesOn(s: State, m: map<nat, Assembled>, key: int, id: BlockId, parts: seq<Event>,
      blocks: seq<Assembled>, ids: nat, used: set<int>)
    requires Searches(s, m, key, id, blocks, ids, used) && forall e <- parts :: Silent(e)
    ensures var r := PushAll(s, parts); Searches(r.state, AssembleAll(m, r.out), key, id, blocks, ids, used)
  {
    hide Push, Silent, Rests;
    if parts == [] {
      AssembleNothing(m);
    } else {
      var before, e := parts[..|parts| - 1], parts[|parts| - 1];
      assert parts == before + [e] && e in parts;
      SearchGoesOn(s, m, key, id, before, blocks, ids, used);
      hide AssembleAll;
      PushAllSnoc(s, before, e);
      var r := PushAll(s, before);
      SilentRests(r.state, e, AssembleAll(m, r.out), blocks + [AskedBlock(id)], ids, used + {key});
      AssembleConcat(m, r.out, Push(r.state, e).out);
    }
  }

  /** The search is done: its input, and a block of its own for the pages. */
  lemma SearchFinishes(s: State, m: map<nat, Assembled>, key: int, id: BlockId, item: Item, blocks: seq<Assembled>,
      ids: nat, used: set<int>)
    requires Searches(s, m, key, id, blocks, ids, used) && item.WebSearchCall?
    ensures var r := FinishSearch(s, item, key);
            var asked := WithDelta(AskedBlock(id), SearchJson(SearchInputOf(item.action)));
            var pages := Started(Some(SearchResult(id, SearchUrls(item.action))));
            Rests(r.state, AssembleAll(m, r.out), blocks + [asked, pages], ids, used + {key})
  {
    hide SearchInputOf, SearchUrls;
    var asked := WithDelta(AskedBlock(id), SearchJson(SearchInputOf(item.action)));
    var pages := Started(Some(SearchResult(id, SearchUrls(item.action))));
    var out := FinishSearch(s, item, key).out;
    var a, b, c, d := BlockDelta(|blocks|, SearchJson(SearchInputOf(item.action))), BlockStop(|blocks|),
        BlockStart(|blocks| + 1, SearchResult(id, SearchUrls(item.action))), BlockStop(|blocks| + 1);
    assert out == [a, b, c, d];
    AssembleFour(m, a, b, c, d);
    hide AssembleAll;
    AsMapLast(blocks, AskedBlock(id), asked);
    AsMapMore(blocks + [asked], pages);
    assert blocks + [asked, pages] == blocks + [asked] + [pages];
  }

  lemma AssembleFour(m: map<nat, Assembled>, a: Out, b: Out, c: Out, d: Out)
    ensures AssembleAll(m, [a, b, c, d]) == Assemble(Assemble(Assemble(Assemble(m, a), b), c), d)
  {
    assert [a, b, c, d] == [a] + [b] + [c] + [d];
    AssembleConcat(m, [a] + [b] + [c], [d]);
    AssembleThree(m, [a], [b], [c]);
    AssembleOne(m, a);
    AssembleOne(Assemble(m, a), b);
    AssembleOne(Assemble(Assemble(m, a), b), c);
    AssembleOne(Assemble(Assemble(Assemble(m, a), b), c), d);
  }

  // From segment to segment.

  /** Where a turn's segments have led: to a state between calls, or into a run of them. */
  ghost predicate Stands(s: State, m: map<nat, Assembled>, segs: seq<Segment>)
    requires TurnOf(segs)
  {
    if segs == [] || !segs[|segs| - 1].Calls? then Rests(s, m, Blocks(segs), Ids(segs), Used(segs))
    else
      var before, last := segs[..|segs| - 1], segs[|segs| - 1];
      exists s0, m0 ::
        && Rests(s0, m0, Blocks(before), Ids(before), Used(before))
        && Tracked(s0, m0, last.events, s, m) && s.text == s0.text
  }

  lemma StandsSettles(s: State, m: map<nat, Assembled>, segs: seq<Segment>)
    requires TurnOf(segs) && Stands(s, m, segs)
    ensures Settled(Settle(s).state, AssembleAll(m, Settle(s).out), Blocks(segs), Ids(segs), Used(segs)) && !s.ended
  {
    hide Rests, Tracked, Settled, Settle, AssembleAll, BlocksOf, KeysOf, IdsOf;
    if segs == [] || !segs[|segs| - 1].Calls? {
      SettleRests(s, m, Blocks(segs), Ids(segs), Used(segs));
      RestsNotEnded(s, m, Blocks(segs), Ids(segs), Used(segs));
    } else {
      var before, last := segs[..|segs| - 1], segs[|segs| - 1];
      var s0, m0 :|
        && Rests(s0, m0, Blocks(before), Ids(before), Used(before))
        && Tracked(s0, m0, last.events, s, m) && s.text == s0.text;
      SettleCalls(s0, m0, last.events, s, m, Blocks(before), Ids(before), Used(before));
      NotEnded(s0, m0, last.events, s, m);
    }
  }

  lemma RestsNotEnded(s: State, m: map<nat, Assembled>, blocks: seq<Assembled>, ids: nat, used: set<int>)
    requires Rests(s, m, blocks, ids, used)
    ensures !s.ended
  {
  }

  lemma StartText(s: State, response: Option<Response>)
    ensures EnsureStarted(s, response).state.text == s.text
  {
  }

  lemma StandsStarts(s: State, m: map<nat, Assembled>, segs: seq<Segment>, response: Option<Response>)
    requires TurnOf(segs) && Stands(s, m, segs)
    ensures var r := EnsureStarted(s, response); Stands(r.state, AssembleAll(m, r.out), segs)
  {
    StartAssembles(s, response, m);
    StartText(s, response);
    hide Rests, Tracked, AssembleAll, EnsureStarted, TurnOf, Blocks, Ids, Used;
    if segs == [] || !segs[|segs| - 1].Calls? {
      StartRests(s, m, Blocks(segs), Ids(segs), Used(segs), response);
    } else {
      var before, last := segs[..|segs| - 1], segs[|segs| - 1];
      assert TurnOf(before) by { TurnBefore(segs); }
      var s0, m0 :|
        && Rests(s0, m0, Blocks(before), Ids(before), Used(before))
        && Tracked(s0, m0, last.events, s, m) && s.text == s0.text;
      StartedTracked(s0, m0, last.events, s, m, response);
    }
  }

  lemma TurnBefore(segs: seq<Segment>)
    requires TurnOf(segs) && segs != []
    ensures TurnOf(segs[..|segs| - 1])
  {
  }

  /** What an item begins with, once the calls before it are settled. */
  function Begin(s: State, key: int, item: Item): Step {
    match item
    case Reasoning => OpenThinking(s, key)
    case WebSearchCall(_, _) => OpenSearch(s, item, key)
    case _ => Step(s, [])
  }

  lemma HandleBegins(s: State, response: Option<Response>, key: int, item: Item)
    requires !item.FunctionCall?
    ensures var settled := Settle(s); var begun := Begin(settled.state, key, item);
            Handle(s, response, ItemAdded(key, item)) == Step(begun.state, settled.out + begun.out)
  {
    hide Settle, OpenThinking, OpenSearch;
  }

  lemma ItemBegins(s: State, m: map<nat, Assembled>, segs: seq<Segment>, e: Event)
    returns (t: State, n: map<nat, Assembled>)
    requires TurnOf(segs) && Stands(s, m, segs)
    requires e.Event? && e.body.ItemAdded? && !e.body.item.FunctionCall?
    ensures Settled(t, n, Blocks(segs), Ids(segs), Used(segs))
    ensures var begun := Begin(t, e.body.outputIndex, e.body.item);
            Push(s, e).state == begun.state && AssembleAll(m, Push(s, e).out) == AssembleAll(n, begun.out)
  {
    hide Stands, Settled, AssembleAll, Settle, EnsureStarted, Push, Handle, Begin, TurnOf, Blocks, Ids, Used;
    StandsSettles(s, m, segs);
    StandsStarts(s, m, segs, e.response);
    PushHandles(s, e, m);
    var started := EnsureStarted(s, e.response);
    StandsSettles(started.state, AssembleAll(m, started.out), segs);
    HandleBegins(started.state, e.response, e.body.outputIndex, e.body.item);
    var settled := Settle(started.state);
    t, n := settled.state, AssembleAll(AssembleAll(m, started.out), settled.out);
    AssembleConcat(AssembleAll(m, started.out), settled.out, Begin(t, e.body.outputIndex, e.body.item).out);
  }

  lemma ThoughtBegins(s: State, m: map<nat, Assembled>, key: int, blocks: seq<Assembled>, ids: nat, used: set<int>)
    requires Settled(s, m, blocks, ids, used) && key !in used
    ensures var r := OpenThinking(s, key); Muses(r.state, AssembleAll(m, r.out), key, "", blocks, ids, used)
  {
    AssembleOne(m, BlockStart(|blocks|, ThinkingBlock));
    AsMapMore(blocks, ThoughtBlock(""));
  }

  lemma SearchBegins(s: State, m: map<nat, Assembled>, key: int, item: Item, blocks: seq<Assembled>, ids: nat,
      used: set<int>)
    requires Settled(s, m, blocks, ids, used) && key !in used && item.WebSearchCall?
    ensures var r := OpenSearch(s, item, key);
            Searches(r.state, AssembleAll(m, r.out), key, SearchId(item, ids), blocks,
                if item.id != "" then ids else ids + 1, used)
  {
    var id := SearchId(item, ids);
    AssembleOne(m, BlockStart(|blocks|, ServerToolUse(id)));
    AsMapMore(blocks, AskedBlock(id));
  }

  lemma ProseBegins(s: State, m: map<nat, Assembled>, key: int, blocks: seq<Assembled>, ids: nat, used: set<int>)
    requires Settled(s, m, blocks, ids, used) && key !in used
    ensures Telling(s, m, key, None, blocks, ids, used)
  {
  }

  /** An item's end closes its block, if that is the open one. */
  lemma ItemEnds(s: State, m: map<nat, Assembled>, blocks: seq<Assembled>, ids: nat, used: set<int>, e: Event)
    requires Rests(s, m, blocks, ids, used)
    requires e.Event? && e.body.ItemDone? && (e.body.item.OtherItem? || e.body.item.Reasoning?)
    ensures var r := Push(s, e); Rests(r.state, AssembleAll(m, r.out), blocks, ids, used)
  {
    var started := EnsureStarted(s, e.response);
    var n := AssembleAll(m, started.out);
    StartRests(s, m, blocks, ids, used, e.response);
    PushHandles(s, e, m);
    hide AssembleAll, EnsureStarted, Push;
    CloseOpenAssembles(started.state, n);
    AssembleNothing(n);
  }

  lemma SearchEnds(s: State, m: map<nat, Assembled>, key: int, id: BlockId, e: Event, blocks: seq<Assembled>, ids: nat,
      used: set<int>)
    requires Searches(s, m, key, id, blocks, ids, used)
    requires e.Event? && e.body.ItemDone? && e.body.outputIndex == key && e.body.item.WebSearchCall?
    ensures var r := Push(s, e); var action := e.body.item.action;
            Rests(r.state, AssembleAll(m, r.out),
                blocks + [WithDelta(AskedBlock(id), SearchJson(SearchInputOf(action))),
                          Started(Some(SearchResult(id, SearchUrls(action))))], ids, used + {key})
  {
    var started := EnsureStarted(s, e.response);
    StartRests(s, m, blocks + [AskedBlock(id)], ids, used + {key}, e.response);
    PushHandles(s, e, m);
    assert Searches(started.state, AssembleAll(m, started.out), key, id, blocks, ids, used);
    hide AssembleAll, EnsureStarted, Push, Searches, Rests, SearchInputOf, SearchUrls, FinishSearch;
    SearchFinishes(started.state, AssembleAll(m, started.out), key, id, e.body.item, blocks, ids, used);
  }

  lemma {:induction false} PushAllConcat(s: State, a: seq<Event>, b: seq<Event>)
    ensures var first := PushAll(s, a); var more := PushAll(first.state, b);
            PushAll(s, a + b) == Step(more.state, first.out + more.out)
    decreases |b|
  {
    hide Push;
    if b == [] {
      assert a + b == a && PushAll(s, a).out + [] == PushAll(s, a).out;
    } else {
      var before, e := b[..|b| - 1], b[|b| - 1];
      assert b == before + [e] && a + b == (a + before) + [e];
      PushAllConcat(s, a, before);
      PushAllSnoc(s, a + before, e);
      PushAllSnoc(PushAll(s, a).state, before, e);
    }
  }

  lemma PushAllOne(s: State, e: Event)
    ensures PushAll(s, [e]) == Push(s, e)
  {
    hide Push;
    assert [e][1..] == [] && Push(s, e).out + [] == Push(s, e).out;
  }

  /** What is assembled of an item: of the event that adds it, its parts, and its end. */
  lemma ItemPushes(s: State, m: map<nat, Assembled>, added: Event, parts: seq<Event>, done: seq<Event>)
    ensures var one := Push(s, added); var some := PushAll(one.state, parts); var rest := PushAll(some.state, done);
            var all := PushAll(s, [added] + parts + done);
            && all.state == rest.state
            && AssembleAll(m, all.out) == AssembleAll(AssembleAll(AssembleAll(m, one.out), some.out), rest.out)
  {
    hide Push, AssembleAll;
    PushAllOne(s, added);
    hide PushAll;
    PushAllConcat(s, [added], parts);
    PushAllConcat(s, [added] + parts, done);
    var one := Push(s, added);
    var some := PushAll(one.state, parts);
    AssembleThree(m, one.out, some.out, PushAll(some.state, done).out);
  }

  lemma EndsOrNot(s: State, m: map<nat, Assembled>, done: seq<Event>)
    requires |done| <= 1
    ensures done == [] ==> PushAll(s, done).state == s && AssembleAll(m, PushAll(s, done).out) == m
    ensures done != [] ==> PushAll(s, done) == Push(s, done[0])
  {
    hide Push, AssembleAll;
    if done == [] {
      AssembleNothing(m);
    } else {
      assert done == [done[0]];
      PushAllOne(s, done[0]);
    }
  }

  lemma ProseStands(s: State, m: map<nat, Assembled>, segs: seq<Segment>, seg: Segment)
    requires TurnOf(segs) && Stands(s, m, segs) && WellMade(seg) && seg.Prose? && seg.key !in Used(segs)
    ensures var r := PushAll(s, EventsOf(seg));
            Rests(r.state, AssembleAll(m, r.out), Blocks(segs) + BlocksOf(seg, Ids(segs)), Ids(segs),
                Used(segs) + {seg.key})
  {
    hide Stands, Rests, Settled, Push, PushAll, AssembleAll, Blocks, Ids, Used, TurnOf, ProseBlock;
    var t, n := ItemBegins(s, m, segs, seg.added);
    ProseBegins(t, n, seg.key, Blocks(segs), Ids(segs), Used(segs));
    hide Telling;
    AssembleNothing(n);
    ProseTells(t, n, seg.key, seg.parts, Blocks(segs), Ids(segs), Used(segs));
    var some := PushAll(t, seg.parts);
    ToldRests(some.state, AssembleAll(n, some.out), seg.key, ProseBlock(seg.key, seg.parts), Blocks(segs), Ids(segs),
        Used(segs));
    ItemPushes(s, m, seg.added, seg.parts, seg.done);
    EndsOrNot(some.state, AssembleAll(n, some.out), seg.done);
    assert Blocks(segs) + [] == Blocks(segs);
    if seg.done != [] {
      assert seg.done[0] in seg.done;
      ItemEnds(some.state, AssembleAll(n, some.out), Blocks(segs) + BlocksOf(seg, Ids(segs)), Ids(segs),
          Used(segs) + {seg.key}, seg.done[0]);
    }
  }

  lemma ToldRests(s: State, m: map<nat, Assembled>, key: int, a: Option<Assembled>, blocks: seq<Assembled>, ids: nat,
      used: set<int>)
    requires Telling(s, m, key, a, blocks, ids, used)
    ensures Rests(s, m, if a.Some? then blocks + [a.value] else blocks, ids, used + {key})
  {
  }

  lemma ThoughtStands(s: State, m: map<nat, Assembled>, segs: seq<Segment>, seg: Segment)
    requires TurnOf(segs) && Stands(s, m, segs) && WellMade(seg) && seg.Thought? && seg.key !in Used(segs)
    ensures var r := PushAll(s, EventsOf(seg));
            Rests(r.state, AssembleAll(m, r.out), Blocks(segs) + BlocksOf(seg, Ids(segs)), Ids(segs),
                Used(segs) + {seg.key})
  {
    hide Stands, Rests, Settled, Push, PushAll, AssembleAll, Blocks, Ids, Used, TurnOf, ThoughtText, ThoughtBlock;
    var t, n := ItemBegins(s, m, segs, seg.added);
    ThoughtBegins(t, n, seg.key, Blocks(segs), Ids(segs), Used(segs));
    var begun := OpenThinking(t, seg.key);
    ThoughtMuses(begun.state, AssembleAll(n, begun.out), seg.key, seg.parts, Blocks(segs), Ids(segs), Used(segs));
    var some := PushAll(begun.state, seg.parts);
    var o := AssembleAll(AssembleAll(n, begun.out), some.out);
    ItemPushes(s, m, seg.added, seg.parts, seg.done);
    EndsOrNot(some.state, o, seg.done);
    if seg.done != [] {
      assert seg.done[0] in seg.done;
      ItemEnds(some.state, o, Blocks(segs) + BlocksOf(seg, Ids(segs)), Ids(segs), Used(segs) + {seg.key}, seg.done[0]);
    }
  }

  lemma SearchStands(s: State, m: map<nat, Assembled>, segs: seq<Segment>, seg: Segment)
    requires TurnOf(segs) && Stands(s, m, segs) && WellMade(seg) && seg.Search? && seg.key !in Used(segs)
    ensures var r := PushAll(s, EventsOf(seg));
            Rests(r.state, AssembleAll(m, r.out), Blocks(segs) + BlocksOf(seg, Ids(segs)), Ids(segs) + IdsOf(seg),
                Used(segs) + {seg.key})
  {
    hide Stands, Rests, Settled, Push, PushAll, AssembleAll, Blocks, Ids, Used, TurnOf, SearchInputOf, SearchUrls;
    var t, n := ItemBegins(s, m, segs, seg.added);
    var item := seg.added.body.item;
    SearchBegins(t, n, seg.key, item, Blocks(segs), Ids(segs), Used(segs));
    var begun, id := OpenSearch(t, item, seg.key), SearchId(item, Ids(segs));
    var ids := Ids(segs) + IdsOf(seg);
    SearchGoesOn(begun.state, AssembleAll(n, begun.out), seg.key, id, seg.parts, Blocks(segs), ids, Used(segs));
    var some := PushAll(begun.state, seg.parts);
    var o := AssembleAll(AssembleAll(n, begun.out), some.out);
    ItemPushes(s, m, seg.added, seg.parts, seg.done);
    EndsOrNot(some.state, o, seg.done);
    if seg.done != [] {
      assert seg.done[0] in seg.done;
      SearchEnds(some.state, o, seg.key, id, seg.done[0], Blocks(segs), ids, Used(segs));
    }
  }

  lemma CallsStand(s: State, m: map<nat, Assembled>, segs: seq<Segment>, seg: Segment)
    requires TurnOf(segs) && WellMade(seg) && seg.Calls? && KeysOf(seg) !! Used(segs)
    requires Rests(s, m, Blocks(segs), Ids(segs), Used(segs))
    ensures var r := PushAll(s, seg.events);
            Tracked(s, m, seg.events, r.state, AssembleAll(m, r.out)) && r.state.text == s.text
  {
    hide PushAll, AssembleAll, Blocks, Ids, Used, TurnOf, Order, Orderly, Tracked;
    AnnouncedKeys(seg.events);
    forall i | 0 <= i < |Order(seg.events)|
      ensures Order(seg.events)[i].key !in s.calls && Order(seg.events)[i].key !in s.blocks
    {
      assert Order(seg.events)[i] in Order(seg.events) && Order(seg.events)[i].key in KeysOf(seg);
    }
    RunTracked(s, m, seg.events);
    CallsText(s, seg.events);
  }

  /** A turn and one more segment. */
  lemma TurnMore(segs: seq<Segment>, seg: Segment)
    ensures TurnOf(segs + [seg]) <==>
            && TurnOf(segs) && WellMade(seg) && KeysOf(seg) !! Used(segs)
            && (seg.Calls? && segs != [] ==> !segs[|segs| - 1].Calls?)
    ensures Flatten(segs + [seg]) == Flatten(segs) + EventsOf(seg) && Used(segs + [seg]) == Used(segs) + KeysOf(seg)
    ensures TurnOf(segs + [seg]) ==>
              && Blocks(segs + [seg]) == Blocks(segs) + BlocksOf(seg, Ids(segs))
              && Ids(segs + [seg]) == Ids(segs) + IdsOf(seg)
  {
    hide WellMade, KeysOf, EventsOf, BlocksOf, IdsOf;
    assert (segs + [seg])[..|segs|] == segs;
  }

  lemma RestsStands(s: State, m: map<nat, Assembled>, segs: seq<Segment>, seg: Segment)
    requires TurnOf(segs + [seg]) && !seg.Calls?
    requires Rests(s, m, Blocks(segs + [seg]), Ids(segs + [seg]), Used(segs + [seg]))
    ensures Stands(s, m, segs + [seg])
  {
  }

  lemma TracksStands(s0: State, m0: map<nat, Assembled>, s: State, m: map<nat, Assembled>, segs: seq<Segment>,
      seg: Segment)
    requires TurnOf(segs + [seg]) && TurnOf(segs) && seg.Calls?
    requires Rests(s0, m0, Blocks(segs), Ids(segs), Used(segs))
    requires Tracked(s0, m0, seg.events, s, m) && s.text == s0.text
    ensures Stands(s, m, segs + [seg])
  {
    hide Rests, Tracked;
    assert (segs + [seg])[..|segs|] == segs;
  }

  lemma StandsBetween(s: State, m: map<nat, Assembled>, segs: seq<Segment>)
    requires TurnOf(segs) && Stands(s, m, segs) && (segs == [] || !segs[|segs| - 1].Calls?)
    ensures Rests(s, m, Blocks(segs), Ids(segs), Used(segs))
  {
  }

  lemma SegmentStands(s: State, m: map<nat, Assembled>, segs: seq<Segment>, seg: Segment)
    requires TurnOf(segs + [seg]) && TurnOf(segs) && Stands(s, m, segs)
    ensures var r := PushAll(s, EventsOf(seg)); Stands(r.state, AssembleAll(m, r.out), segs + [seg])
  {
    hide Rests, Tracked, AssembleAll, PushAll, BlocksOf, IdsOf, WellMade, Stands, TurnOf, Blocks, Ids, Used, KeysOf,
      EventsOf, Flatten;
    TurnMore(segs, seg);
    var r := PushAll(s, EventsOf(seg));
    if seg.Calls? {
      StandsBetween(s, m, segs);
      CallsStand(s, m, segs, seg);
      assert EventsOf(seg) == seg.events by { CallsEvents(seg); }
      TracksStands(s, m, r.state, AssembleAll(m, r.out), segs, seg);
    } else {
      OneKey(seg);
      match seg {
        case Prose(_, _, _, _) => ProseStands(s, m, segs, seg);
        case Thought(_, _, _, _) => ThoughtStands(s, m, segs, seg);
        case Search(_, _, _, _) => SearchStands(s, m, segs, seg);
      }
      RestsStands(r.state, AssembleAll(m, r.out), segs, seg);
    }
  }

  lemma CallsEvents(seg: Segment)
    requires seg.Calls?
    ensures EventsOf(seg) == seg.events
  {
  }

  lemma OneKey(seg: Segment)
    requires WellMade(seg) && !seg.Calls?
    ensures KeysOf(seg) == {seg.key} && (!seg.Search? ==> IdsOf(seg) == 0)
  {
  }

  lemma {:induction false} SegmentsStand(s: State, segs: seq<Segment>)
    requires TurnOf(segs) && Rests(s, map[], [], 0, {})
    ensures var r := PushAll(s, Flatten(segs)); Stands(r.state, AssembleAll(map[], r.out), segs)
  {
    hide AssembleAll, Stands, Rests, WellMade, KeysOf, EventsOf;
    if segs == [] {
      AssembleNothing(map[]);
      StandsFirst(s);
    } else {
      var before, last := segs[..|segs| - 1], segs[|segs| - 1];
      assert segs == before + [last];
      TurnMore(before, last);
      hide PushAll, TurnOf, Flatten;
      SegmentsStand(s, before);
      var r := PushAll(s, Flatten(before));
      SegmentStands(r.state, AssembleAll(map[], r.out), before, last);
      PushAllConcat(s, Flatten(before), EventsOf(last));
      AssembleConcat(map[], r.out, PushAll(r.state, EventsOf(last)).out);
    }
  }

  lemma StandsFirst(s: State)
    requires Rests(s, map[], [], 0, {})
    ensures Stands(s, map[], [])
  {
  }

  /** The closing settles what there is, and says nothing more. */
  lemma ClosingSettles(s: State, m: map<nat, Assembled>, segs: seq<Segment>, started: Option<Response>,
      response: Option<Response>)
    requires TurnOf(segs) && Stands(s, m, segs)
    ensures AssembleAll(m, Closing(s, started, response)) == AsMap(Blocks(segs))
  {
    StandsStarts(s, m, segs, started);
    var begun := EnsureStarted(s, started);
    var n := AssembleAll(m, begun.out);
    StandsSettles(begun.state, n, segs);
    hide Stands, AssembleAll, Settle, EnsureStarted, Blocks;
    var settled := Settle(begun.state);
    var closing := [MessageDelta(DeriveStopReason(response, settled.state.sawToolCall)), MessageStop];
    assert Closing(s, started, response) == begun.out + (settled.out + closing);
    AssembleConcat(m, begun.out, settled.out + closing);
    AssembleConcat(n, settled.out, closing);
    ClosingAssembles(AssembleAll(n, settled.out), closing);
  }

  lemma InitialRests(requestModel: Option<string>)
    ensures Rests(Initial(requestModel), map[], [], 0, {})
  {
    assert AsMap([]) == map[];
  }

  /**
   * A turn of prose, thoughts, searches and runs of interleaved calls, in any order, folds to exactly the blocks of its
   * segments, whether a terminal event or an error ended it, with anything after that, or it was cut off anywhere.
   */
  lemma TurnIsSegments(requestModel: Option<string>, events: seq<Event>, segs: seq<Segment>)
    requires TurnOf(segs) && BeforeEnd(events) == Flatten(segs)
    ensures AssembleAll(map[], Translate(Initial(requestModel), events).out) == AsMap(Blocks(segs))
  {
    var s := Initial(requestModel);
    InitialRests(requestModel);
    StreamCloses(s, events);
    hide PushAll, AssembleAll, Translate, Closing, Stands, Rests, Blocks, TurnOf;
    var started, response :|
      Translate(s, events).out
      == PushAll(s, Flatten(segs)).out + Closing(PushAll(s, Flatten(segs)).state, started, response);
    SegmentsStand(s, segs);
    var r := PushAll(s, Flatten(segs));
    ClosingSettles(r.state, AssembleAll(map[], r.out), segs, started, response);
    AssembleConcat(map[], r.out, Closing(r.state, started, response));
  }

  // A turn that is cut off is a turn.

  lemma {:induction false} OrderlyBefore(events: seq<Event>, n: nat)
    requires n <= |events| && Orderly(events)
    ensures Orderly(events[..n]) && KeysOf(Calls(events[..n])) <= KeysOf(Calls(events))
    decreases |events| - n
  {
    if n == |events| {
      assert events[..n] == events;
    } else {
      OrderlyBefore(events, n + 1);
      var longer := events[..n + 1];
      assert longer[..|longer| - 1] == events[..n];
      assert forall a <- Order(events[..n]) :: a in Order(longer);
    }
  }

  /** The first `n` events of a segment, of which there is at least one. */
  function Cut(seg: Segment, n: nat): Segment
    requires 0 < n <= |EventsOf(seg)|
  {
    if seg.Calls? then Calls(seg.events[..n])
    else
      var some := if n - 1 <= |seg.parts| then n - 1 else |seg.parts|;
      var parts, done := seg.parts[..some], seg.done[..n - 1 - some];
      match seg
      case Prose(key, added, _, _) => Prose(key, added, parts, done)
      case Thought(key, added, _, _) => Thought(key, added, parts, done)
      case Search(key, added, _, _) => Search(key, added, parts, done)
  }

  lemma CutIsMade(seg: Segment, n: nat)
    requires WellMade(seg) && 0 < n <= |EventsOf(seg)|
    ensures WellMade(Cut(seg, n)) && EventsOf(Cut(seg, n)) == EventsOf(seg)[..n]
    ensures KeysOf(Cut(seg, n)) <= KeysOf(seg) && Cut(seg, n).Calls? == seg.Calls?
  {
    if seg.Calls? { OrderlyBefore(seg.events, n); }
  }

  lemma CutFits(a: seq<Event>, b: seq<Event>, n: nat)
    requires |a| <= n <= |a + b|
    ensures (a + b)[..n] == a + b[..n - |a|]
  {
  }

  lemma CutLast(before: seq<Segment>, last: Segment, k: nat)
    requires TurnOf(before + [last]) && 0 < k <= |EventsOf(last)|
    ensures var cut := before + [Cut(last, k)];
            && TurnOf(cut) && Flatten(cut) == Flatten(before) + EventsOf(last)[..k]
            && Used(cut) <= Used(before + [last])
  {
    TurnMore(before, last);
    CutIsMade(last, k);
    TurnMore(before, Cut(last, k));
  }

  lemma LastSegment(segs: seq<Segment>)
    requires TurnOf(segs) && segs != []
    ensures var before, last := segs[..|segs| - 1], segs[|segs| - 1];
            && segs == before + [last] && TurnOf(before)
            && Flatten(segs) == Flatten(before) + EventsOf(last) && Used(before) <= Used(segs)
  {
    hide WellMade, KeysOf, EventsOf;
  }

  /** The cut falls in the last segment, after its first event. */
  lemma CutWithin(segs: seq<Segment>, n: nat) returns (cut: seq<Segment>)
    requires TurnOf(segs) && segs != [] && |Flatten(segs[..|segs| - 1])| < n <= |Flatten(segs)|
    ensures IsCut(segs, n, cut)
  {
    LastSegment(segs);
    hide WellMade, KeysOf, EventsOf, Cut, TurnOf, Flatten, Used, Blocks, Ids;
    var before, last := segs[..|segs| - 1], segs[|segs| - 1];
    var k := n - |Flatten(before)|;
    CutFits(Flatten(before), EventsOf(last), n);
    CutLast(before, last, k);
    cut := before + [Cut(last, k)];
  }

  predicate IsCut(segs: seq<Segment>, n: nat, cut: seq<Segment>)
    requires n <= |Flatten(segs)|
  {
    TurnOf(cut) && Flatten(cut) == Flatten(segs)[..n] && |cut| <= |segs| && Used(cut) <= Used(segs)
  }

  /** Or ahead of it. */
  lemma CutAhead(segs: seq<Segment>, n: nat, cut: seq<Segment>)
    requires TurnOf(segs) && segs != [] && n <= |Flatten(segs[..|segs| - 1])| && IsCut(segs[..|segs| - 1], n, cut)
    ensures n <= |Flatten(segs)| && IsCut(segs, n, cut)
  {
    LastSegment(segs);
    hide WellMade, KeysOf, EventsOf, TurnOf, Flatten, Used;
    CutShort(Flatten(segs[..|segs| - 1]), EventsOf(segs[|segs| - 1]), n);
  }

  lemma NothingCut()
    ensures TurnOf([]) && Flatten([]) == [] && IsCut([], 0, [])
  {
  }

  /** Cut off after any event, a turn is still one, of the segments so far and a part of the next. */
  lemma {:induction false} CutIsTurn(segs: seq<Segment>, n: nat) returns (cut: seq<Segment>)
    requires TurnOf(segs) && n <= |Flatten(segs)|
    ensures IsCut(segs, n, cut)
  {
    NothingCut();
    if segs != [] { LastSegment(segs); }
    hide IsCut, TurnOf, Flatten, EventsOf, Used;
    if segs == [] {
      cut := [];
    } else if n <= |Flatten(segs[..|segs| - 1])| {
      cut := CutIsTurn(segs[..|segs| - 1], n);
      CutAhead(segs, n, cut);
    } else {
      cut := CutWithin(segs, n);
    }
  }

  lemma CutShort(a: seq<Event>, b: seq<Event>, n: nat)
    requires n <= |a|
    ensures (a + b)[..n] == a[..n]
  {
  }

  lemma MadeGoesOn(seg: Segment)
    requires WellMade(seg)
    ensures forall e <- EventsOf(seg) :: !Ends(e)
  {
    if seg.Calls? {
      OrderlyGoesOn(seg.events);
    } else {
      forall e | e in EventsOf(seg) ensures !Ends(e) {
        assert e == seg.added || e in seg.parts || e in seg.done;
      }
    }
  }

  lemma {:induction false} TurnGoesOn(segs: seq<Segment>)
    requires TurnOf(segs)
    ensures forall e <- Flatten(segs) :: !Ends(e)
  {
    if segs != [] {
      hide WellMade, EventsOf;
      TurnGoesOn(segs[..|segs| - 1]);
      MadeGoesOn(segs[|segs| - 1]);
    }
  }

  /** What comes before the end of a turn is its segments, whether or not an end, and anything after it, follows. */
  lemma BeforeEndOfSegments(segs: seq<Segment>, after: seq<Event>)
    requires TurnOf(segs) && (after == [] || Ends(after[0]))
    ensures BeforeEnd(Flatten(segs) + after) == Flatten(segs)
  {
    TurnGoesOn(segs);
    BeforeEndSplits(Flatten(segs), after);
  }
}
