/**
 * Rewriting the model's tool calls back to the client's tools: over a whole response body, and event by event
 * over a stream. Tool inputs are values of any type `J` behind a kit of the operations the code applies to them.
 */
module ReverseMap {
  import opened Options

  const MAX_TOOL_PARTIAL: nat := 2_000_000

  /** What a client tool maps onto; `back` names its backward translation, `fields` its context fields, if any. */
  datatype Mapping = Mapping(ccTool: string, back: Option<nat>, fields: seq<string>, score: nat)

  datatype Entry = Entry(clientName: string, mapping: Mapping)

  type Lookup = map<string, Entry>

  /** JSON text and values, the backward translations, which may throw, and context injection, which may throw too. */
  datatype Kit<!J> = Kit(parse: string -> Option<J>, show: J -> string, isObject: J -> bool,
                         translate: (nat, J) -> Option<J>, inject: (seq<string>, J) -> Option<J>)

  /** Printed values parse back, translations give objects, and injection into an object succeeds. */
  ghost predicate Lawful<J(!new)>(kit: Kit<J>) {
    && (forall j :: kit.parse(kit.show(j)) == Some(j) && kit.show(j) != "")
    && (forall b, j :: kit.translate(b, j).Some? ==> kit.isObject(kit.translate(b, j).value))
    && (forall f, j :: kit.isObject(j) ==> kit.inject(f, j).Some?)
  }

  datatype Head = ToolHead(id: string, name: string) | OtherHead(raw: string)

  /** The events of a Messages stream, as far as the mapper looks: an index it cannot use is None. */
  datatype Event =
    | Start(index: Option<nat>, head: Head)
    | InputDelta(index: Option<nat>, json: string)
    | OtherDelta(index: Option<nat>, raw: string)
    | Stop(index: Option<nat>)
    | Other(raw: string)

  predicate Needs(m: Mapping) {
    m.back.Some? || m.fields != []
  }

  predicate AnyNeeds(lookup: Lookup) {
    exists name :: name in lookup && Needs(lookup[name].mapping)
  }

  /** A tool block whose input is held back until its end. */
  datatype Held = Held(entry: Entry, partial: string)

  /** The input a held block ends with; None when it does not parse, or translating it throws. */
  function Translate<J>(kit: Kit<J>, m: Mapping, partial: string): Option<string> {
    match kit.parse(if partial == "" then "{}" else partial)
    case None => None
    case Some(j) =>
      match (if m.back.Some? then kit.translate(m.back.value, j) else Some(j))
      case None => None
      case Some(t) =>
        match (if m.fields != [] then kit.inject(m.fields, t) else Some(t))
        case None => None
        case Some(u) => Some(kit.show(u))
  }

  datatype Mapped = Mapped(held: map<nat, Held>, out: seq<Event>)

  /** One event through the mapper: what is held after it, and what goes out for it. */
  function MapEvent<J>(kit: Kit<J>, lookup: Lookup, held: map<nat, Held>, e: Event): Mapped {
    match e
    case Start(index, ToolHead(id, name)) =>
      if name !in lookup then Mapped(held, [e])
      else
        var entry := lookup[name];
        var out := [Start(index, ToolHead(id, entry.clientName))];
        if index.Some? && Needs(entry.mapping) then Mapped(held[index.value := Held(entry, "")], out)
        else Mapped(held, out)
    case InputDelta(index, json) =>
      if index.None? || index.value !in held then Mapped(held, [e])
      else
        var h := held[index.value];
        if |h.partial| + |json| > MAX_TOOL_PARTIAL
        then Mapped(held - {index.value}, [InputDelta(index, h.partial + json)])
        else Mapped(held[index.value := h.(partial := h.partial + json)], [])
    case Stop(index) =>
      if index.None? || index.value !in held then Mapped(held, [e])
      else
        var h := held[index.value];
        var json := Translate(kit, h.entry.mapping, h.partial);
        Mapped(held - {index.value}, [InputDelta(index, if json.Some? then json.value else h.partial), e])
    case _ => Mapped(held, [e])
  }

  /** A whole stream through the mapper, which does nothing at all when no mapping needs translation. */
  function MapAll<J>(kit: Kit<J>, lookup: Lookup, events: seq<Event>): Mapped {
    if events == [] then Mapped(map[], [])
    else
      var before := MapAll(kit, lookup, events[..|events| - 1]);
      var last := MapEvent(kit, lookup, before.held, events[|events| - 1]);
      Mapped(last.held, before.out + last.out)
  }

  function MapStream<J>(kit: Kit<J>, lookup: Lookup, events: seq<Event>): seq<Event> {
    if AnyNeeds(lookup) then MapAll(kit, lookup, events).out else events
  }

  // Assembling a stream into the message it says.

  datatype Block = Block(head: Head, partial: string, others: seq<string>, stopped: bool)

  type Message = map<nat, Block>

  predicate IsOpen(m: Message, index: Option<nat>) {
    index.Some? && index.value in m && !m[index.value].stopped
  }

  function Assemble(m: Message, e: Event): Message {
    match e
    case Start(index, head) => if index.Some? then m[index.value := Block(head, "", [], false)] else m
    case InputDelta(index, json) =>
      if IsOpen(m, index) then m[index.value := m[index.value].(partial := m[index.value].partial + json)] else m
    case OtherDelta(index, raw) =>
      if IsOpen(m, index) then m[index.value := m[index.value].(others := m[index.value].others + [raw])] else m
    case Stop(index) => if IsOpen(m, index) then m[index.value := m[index.value].(stopped := true)] else m
    case Other(_) => m
  }

  function AssembleAll(events: seq<Event>): Message {
    if events == [] then map[] else Assemble(AssembleAll(events[..|events| - 1]), events[|events| - 1])
  }

  /** No block is started over while it is open. */
  predicate Disciplined(events: seq<Event>) {
    events == [] ||
    (var before, last := events[..|events| - 1], events[|events| - 1];
      Disciplined(before) && (last.Start? ==> !IsOpen(AssembleAll(before), last.index)))
  }

  /** What mapping a stream makes of one of its blocks. */
  function MapBlock<J>(kit: Kit<J>, lookup: Lookup, b: Block): Block {
    if !b.head.ToolHead? || b.head.name !in lookup then b
    else
      var entry := lookup[b.head.name];
      var renamed := b.(head := ToolHead(b.head.id, entry.clientName));
      if !Needs(entry.mapping) || |b.partial| > MAX_TOOL_PARTIAL then renamed
      else if !b.stopped then renamed.(partial := "")
      else
        var json := Translate(kit, entry.mapping, b.partial);
        if json.Some? then renamed.(partial := json.value) else renamed
  }

  function MapMessage<J>(kit: Kit<J>, lookup: Lookup, m: Message): Message {
    map i | i in m :: MapBlock(kit, lookup, m[i])
  }

  predicate ToTranslate(lookup: Lookup, b: Block) {
    b.head.ToolHead? && b.head.name in lookup && Needs(lookup[b.head.name].mapping)
  }

  predicate IsHeld(lookup: Lookup, b: Block) {
    ToTranslate(lookup, b) && !b.stopped && |b.partial| <= MAX_TOOL_PARTIAL
  }

  /**
   * The mapper holds back the input so far of every open tool block to translate; what else it holds is stale, left
   * over under a block started over the one it was held for.
   */
  ghost predicate Tracks(lookup: Lookup, held: map<nat, Held>, m: Message) {
    && (forall i <- m :: IsHeld(lookup, m[i]) ==> i in held && held[i] == Held(lookup[m[i].head.name], m[i].partial))
    && (forall i <- held :: i in m && !m[i].stopped && (IsHeld(lookup, m[i]) || !ToTranslate(lookup, m[i])))
  }

  predicate Stale(lookup: Lookup, held: map<nat, Held>, m: Message, index: Option<nat>) {
    index.Some? && index.value in held && index.value in m && !ToTranslate(lookup, m[index.value])
  }

  /** What goes out for a held input at its end. */
  function Flushed<J>(kit: Kit<J>, h: Held): string {
    var json := Translate(kit, h.entry.mapping, h.partial);
    if json.Some? then json.value else h.partial
  }

  /** The event is read against a stale hold: a fragment goes missing, or turns up, in a block it was not sent for. */
  predicate ReadsStale<J>(kit: Kit<J>, lookup: Lookup, held: map<nat, Held>, m: Message, e: Event) {
    match e
    case InputDelta(index, json) =>
      Stale(lookup, held, m, index) &&
      (var partial := held[index.value].partial;
        if |partial| + |json| > MAX_TOOL_PARTIAL then partial != "" else json != "")
    case Stop(index) => Stale(lookup, held, m, index) && Flushed(kit, held[index.value]) != ""
    case _ => false
  }

  predicate NoStaleReads<J>(kit: Kit<J>, lookup: Lookup, events: seq<Event>) {
    events == [] ||
    (var before, last := events[..|events| - 1], events[|events| - 1];
      && NoStaleReads(kit, lookup, before)
      && !ReadsStale(kit, lookup, MapAll(kit, lookup, before).held, AssembleAll(before), last))
  }

  function AssembleOut(m: Message, out: seq<Event>): Message
    requires |out| <= 2
  {
    if out == [] then m else if |out| == 1 then Assemble(m, out[0]) else Assemble(Assemble(m, out[0]), out[1])
  }

  lemma AssembleOneMore(events: seq<Event>, e: Event)
    ensures AssembleAll(events + [e]) == Assemble(AssembleAll(events), e)
  {
    assert (events + [e])[..|events|] == events;
  }

  lemma AssembleMore(events: seq<Event>, out: seq<Event>)
    requires |out| <= 2
    ensures AssembleAll(events + out) == AssembleOut(AssembleAll(events), out)
  {
    hide Assemble;
    if |out| == 0 {
      assert events + out == events;
    } else {
      AssembleOneMore(events, out[0]);
      if |out| == 2 {
        AssembleOneMore(events + [out[0]], out[1]);
        assert events + out == events + [out[0]] + [out[1]];
      } else {
        assert events + out == events + [out[0]];
      }
    }
  }

  /** A fragment of a held input: kept back, or, past the cap, sent with all that was kept back before it. */
  lemma HeldInputCommutes<J>(kit: Kit<J>, lookup: Lookup, held: map<nat, Held>, m: Message, i: nat, json: string)
    requires Tracks(lookup, held, m) && i in held && IsHeld(lookup, m[i])
    ensures var e := InputDelta(Some(i), json);
            AssembleOut(MapMessage(kit, lookup, m), MapEvent(kit, lookup, held, e).out)
                == MapMessage(kit, lookup, Assemble(m, e))
  {
    hide Translate;
    var e := InputDelta(Some(i), json);
    var mm, after := MapMessage(kit, lookup, m), Assemble(m, e);
    var b := after[i];
    assert b == m[i].(partial := m[i].partial + json) && after == m[i := b];
    if |b.partial| > MAX_TOOL_PARTIAL {
      var out := [InputDelta(Some(i), b.partial)];
      assert MapEvent(kit, lookup, held, e).out == out;
      assert mm[i].partial == "" && "" + b.partial == b.partial;
      assert AssembleOut(mm, out) == mm[i := MapBlock(kit, lookup, b)];
    } else {
      assert MapBlock(kit, lookup, b) == mm[i];
    }
  }

  /** The end of a held input: it goes out in one piece before the stop. */
  lemma HeldStopCommutes<J>(kit: Kit<J>, lookup: Lookup, held: map<nat, Held>, m: Message, i: nat)
    requires Tracks(lookup, held, m) && i in held && IsHeld(lookup, m[i])
    ensures var e := Stop(Some(i));
            AssembleOut(MapMessage(kit, lookup, m), MapEvent(kit, lookup, held, e).out)
                == MapMessage(kit, lookup, Assemble(m, e))
  {
    hide Translate;
    var e := Stop(Some(i));
    var mm, b := MapMessage(kit, lookup, m), m[i].(stopped := true);
    assert Assemble(m, e) == m[i := b];
    var json := Translate(kit, held[i].entry.mapping, m[i].partial);
    var text := if json.Some? then json.value else m[i].partial;
    assert mm[i].partial == "" && "" + text == text;
    assert MapBlock(kit, lookup, b) == mm[i].(partial := text, stopped := true);
    assert AssembleOut(mm, [InputDelta(Some(i), text), e]) == mm[i := MapBlock(kit, lookup, b)];
  }

  /** A block nothing is translated for is mapped fragment by fragment. */
  lemma PlainBlock<J>(kit: Kit<J>, lookup: Lookup, b: Block, partial: string, stopped: bool)
    requires !ToTranslate(lookup, b)
    ensures var c := MapBlock(kit, lookup, b);
            && c.partial == b.partial && c.stopped == b.stopped
            && MapBlock(kit, lookup, b.(partial := partial, stopped := stopped))
                  == c.(partial := partial, stopped := stopped)
  {
    hide Translate;
  }

  /**
   * A fragment read against a stale hold is lost, or joined by what was held, unless there is nothing to lose or join.
   */
  lemma StaleInputCommutesIff<J>(kit: Kit<J>, lookup: Lookup, held: map<nat, Held>, m: Message, i: nat, json: string)
    requires Tracks(lookup, held, m) && Stale(lookup, held, m, Some(i))
    ensures var e := InputDelta(Some(i), json);
            AssembleOut(MapMessage(kit, lookup, m), MapEvent(kit, lookup, held, e).out)
                == MapMessage(kit, lookup, Assemble(m, e))
            <==> !ReadsStale(kit, lookup, held, m, e)
  {
    hide Translate, MapBlock;
    var e := InputDelta(Some(i), json);
    var mm, b := MapMessage(kit, lookup, m), m[i];
    PlainBlock(kit, lookup, b, b.partial + json, false);
    var wanted := MapMessage(kit, lookup, Assemble(m, e));
    assert wanted == mm[i := mm[i].(partial := b.partial + json)];
    var out := MapEvent(kit, lookup, held, e).out;
    var got := AssembleOut(mm, out);
    if out == [] {
      assert |b.partial + json| == |b.partial| + |json|;
      if json == "" { assert b.partial + json == b.partial && got == wanted; } else { assert got[i] != wanted[i]; }
    } else {
      var partial := held[i].partial;
      assert got == mm[i := mm[i].(partial := b.partial + (partial + json))];
      if partial == "" {
        assert partial + json == json;
      } else {
        assert |got[i].partial| != |wanted[i].partial|;
      }
    }
  }

  /** So is a stop, unless what it flushes is empty. */
  lemma StaleStopCommutesIff<J>(kit: Kit<J>, lookup: Lookup, held: map<nat, Held>, m: Message, i: nat)
    requires Tracks(lookup, held, m) && Stale(lookup, held, m, Some(i))
    ensures var e := Stop(Some(i));
            AssembleOut(MapMessage(kit, lookup, m), MapEvent(kit, lookup, held, e).out)
                == MapMessage(kit, lookup, Assemble(m, e))
            <==> !ReadsStale(kit, lookup, held, m, e)
  {
    hide Translate, MapBlock;
    var e := Stop(Some(i));
    var mm, b := MapMessage(kit, lookup, m), m[i];
    PlainBlock(kit, lookup, b, b.partial, true);
    var wanted := MapMessage(kit, lookup, Assemble(m, e));
    assert wanted == mm[i := mm[i].(stopped := true)];
    var text := Flushed(kit, held[i]);
    var got := AssembleOut(mm, [InputDelta(Some(i), text), e]);
    assert got == mm[i := mm[i].(partial := b.partial + text, stopped := true)];
    if text == "" {
      assert b.partial + text == b.partial;
    } else {
      assert |got[i].partial| != |wanted[i].partial|;
    }
  }

  lemma EventTracks<J>(kit: Kit<J>, lookup: Lookup, held: map<nat, Held>, m: Message, e: Event)
    requires Tracks(lookup, held, m)
    ensures Tracks(lookup, MapEvent(kit, lookup, held, e).held, Assemble(m, e))
    ensures |MapEvent(kit, lookup, held, e).out| <= 2
  {
    hide Tracks, Assemble, Translate;
    if e.Start? {
      StartTracks(kit, lookup, held, m, e);
    } else if (e.InputDelta? || e.Stop?) && e.index.Some? && e.index.value in held {
      ReadTracks(kit, lookup, held, m, e, e.index.value);
    } else {
      PassTracks(lookup, held, m, e);
    }
  }

  lemma StartTracks<J>(kit: Kit<J>, lookup: Lookup, held: map<nat, Held>, m: Message, e: Event)
    requires Tracks(lookup, held, m) && e.Start?
    ensures Tracks(lookup, MapEvent(kit, lookup, held, e).held, Assemble(m, e))
  {
  }

  lemma ReadTracks<J>(kit: Kit<J>, lookup: Lookup, held: map<nat, Held>, m: Message, e: Event, i: nat)
    requires Tracks(lookup, held, m) && i in held && (e.InputDelta? || e.Stop?) && e.index == Some(i)
    ensures Tracks(lookup, MapEvent(kit, lookup, held, e).held, Assemble(m, e))
  {
    hide Translate;
    var n := Assemble(m, e);
    assert n == m[i := n[i]];
  }

  lemma PassTracks(lookup: Lookup, held: map<nat, Held>, m: Message, e: Event)
    requires Tracks(lookup, held, m) && !e.Start?
    requires (e.InputDelta? || e.Stop?) && e.index.Some? ==> e.index.value !in held
    ensures Tracks(lookup, held, Assemble(m, e))
  {
    if (e.InputDelta? || e.Stop? || e.OtherDelta?) && IsOpen(m, e.index) {
      var i := e.index.value;
      var n := Assemble(m, e);
      assert n == m[i := n[i]] && n[i].head == m[i].head && |m[i].partial| <= |n[i].partial|;
    }
  }

  /** One event, mapped and assembled, is the event assembled and then mapped, exactly when it reads no stale hold. */
  lemma EventCommutesIff<J>(kit: Kit<J>, lookup: Lookup, held: map<nat, Held>, m: Message, e: Event)
    requires Tracks(lookup, held, m)
    ensures var mapped := MapEvent(kit, lookup, held, e);
            && |mapped.out| <= 2
            && Tracks(lookup, mapped.held, Assemble(m, e))
            && (AssembleOut(MapMessage(kit, lookup, m), mapped.out) == MapMessage(kit, lookup, Assemble(m, e))
                <==> !ReadsStale(kit, lookup, held, m, e))
  {
    EventTracks(kit, lookup, held, m, e);
    if (e.InputDelta? || e.Stop?) && e.index.Some? && e.index.value in held {
      var i := e.index.value;
      if IsHeld(lookup, m[i]) {
        if e.InputDelta? {
          HeldInputCommutes(kit, lookup, held, m, i, e.json);
        } else {
          HeldStopCommutes(kit, lookup, held, m, i);
        }
      } else {
        if e.InputDelta? {
          StaleInputCommutesIff(kit, lookup, held, m, i, e.json);
        } else {
          StaleStopCommutesIff(kit, lookup, held, m, i);
        }
      }
    } else {
      PlainEventCommutes(kit, lookup, held, m, e);
    }
  }

  /** Everything else goes through, a start perhaps under another name. */
  lemma PlainEventCommutes<J>(kit: Kit<J>, lookup: Lookup, held: map<nat, Held>, m: Message, e: Event)
    requires Tracks(lookup, held, m)
    requires (e.InputDelta? || e.Stop?) && e.index.Some? ==> e.index.value !in held
    ensures var out := MapEvent(kit, lookup, held, e).out;
            |out| <= 2 && AssembleOut(MapMessage(kit, lookup, m), out) == MapMessage(kit, lookup, Assemble(m, e))
  {
    hide Tracks, Translate, MapMessage, Assemble;
    if e.Start? {
      StartCommutes(kit, lookup, held, m, e);
    } else {
      PassCommutes(kit, lookup, held, m, e);
    }
  }

  lemma StartCommutes<J>(kit: Kit<J>, lookup: Lookup, held: map<nat, Held>, m: Message, e: Event)
    requires e.Start?
    ensures var out := MapEvent(kit, lookup, held, e).out;
            |out| == 1 && Assemble(MapMessage(kit, lookup, m), out[0]) == MapMessage(kit, lookup, Assemble(m, e))
  {
    hide Translate;
    if e.index.Some? {
      var b := MapBlock(kit, lookup, Block(e.head, "", [], false));
      var mm := MapMessage(kit, lookup, m);
      assert Assemble(mm, MapEvent(kit, lookup, held, e).out[0]) == mm[e.index.value := b];
    }
  }

  /** An event that passes changes a block the mapping leaves alone but for its name, or that is past the cap. */
  lemma PassCommutes<J>(kit: Kit<J>, lookup: Lookup, held: map<nat, Held>, m: Message, e: Event)
    requires Tracks(lookup, held, m) && !e.Start?
    requires (e.InputDelta? || e.Stop?) && e.index.Some? ==> e.index.value !in held
    ensures Assemble(MapMessage(kit, lookup, m), e) == MapMessage(kit, lookup, Assemble(m, e))
  {
    hide Translate;
    if (e.InputDelta? || e.Stop? || e.OtherDelta?) && IsOpen(m, e.index) {
      var i := e.index.value;
      var mm, n := MapMessage(kit, lookup, m), Assemble(m, e);
      assert n == m[i := n[i]];
      assert Assemble(mm, e) == mm[i := MapBlock(kit, lookup, n[i])];
    }
  }

  lemma NothingCommutes<J>(kit: Kit<J>, lookup: Lookup)
    ensures Tracks(lookup, map[], map[]) && MapMessage(kit, lookup, map[]) == map[]
  {
  }

  /**
   * Mapping a stream and then assembling it gives, block by block, what `MapBlock` says of the assembled stream, as
   * long as no event is read against a stale hold: names are the client's; a translated input arrives whole; an input
   * past the cap, or one that does not parse or translate, arrives as exactly the concatenation of its fragments; one
   * cut off before its end does not arrive.
   */
  lemma {:induction false} StreamCommutes<J>(kit: Kit<J>, lookup: Lookup, events: seq<Event>)
    requires NoStaleReads(kit, lookup, events)
    ensures Tracks(lookup, MapAll(kit, lookup, events).held, AssembleAll(events))
    ensures AssembleAll(MapAll(kit, lookup, events).out) == MapMessage(kit, lookup, AssembleAll(events))
  {
    hide MapEvent, Assemble, MapBlock, MapMessage, Tracks, ReadsStale;
    if events == [] {
      NothingCommutes(kit, lookup);
    } else {
      var before, last := events[..|events| - 1], events[|events| - 1];
      StreamCommutes(kit, lookup, before);
      var mapped := MapAll(kit, lookup, before);
      EventCommutesIff(kit, lookup, mapped.held, AssembleAll(before), last);
      AssembleMore(mapped.out, MapEvent(kit, lookup, mapped.held, last).out);
    }
  }

  /** The assembled mapped stream is the mapping of the assembled stream. */
  predicate SaysMapped<J>(kit: Kit<J>, lookup: Lookup, events: seq<Event>) {
    AssembleAll(MapAll(kit, lookup, events).out) == MapMessage(kit, lookup, AssembleAll(events))
  }

  predicate SaysMappedThroughout<J>(kit: Kit<J>, lookup: Lookup, events: seq<Event>) {
    forall n :: 0 <= n <= |events| ==> SaysMapped(kit, lookup, events[..n])
  }

  lemma ThroughoutOneMore<J>(kit: Kit<J>, lookup: Lookup, before: seq<Event>, last: Event)
    ensures SaysMappedThroughout(kit, lookup, before + [last]) <==>
            SaysMappedThroughout(kit, lookup, before) && SaysMapped(kit, lookup, before + [last])
  {
    hide SaysMapped;
    var events := before + [last];
    assert events[..|events|] == events;
    forall n | 0 <= n <= |before| ensures events[..n] == before[..n] {}
    if SaysMappedThroughout(kit, lookup, events) {
      forall n | 0 <= n <= |before| ensures SaysMapped(kit, lookup, before[..n]) {
        assert SaysMapped(kit, lookup, events[..n]);
      }
    }
  }

  /** That condition is exact: the mapped stream says the right thing after every event if and only if none is. */
  lemma {:induction false} StreamCommutesIff<J>(kit: Kit<J>, lookup: Lookup, events: seq<Event>)
    ensures NoStaleReads(kit, lookup, events) <==> SaysMappedThroughout(kit, lookup, events)
  {
    hide MapEvent, Assemble, MapAll, MapMessage, Tracks, ReadsStale, AssembleAll;
    if events == [] {
      StreamCommutes(kit, lookup, []);
      assert events[..0] == [];
    } else {
      var before, last := events[..|events| - 1], events[|events| - 1];
      assert events == before + [last];
      StreamCommutesIff(kit, lookup, before);
      ThroughoutOneMore(kit, lookup, before, last);
      hide SaysMappedThroughout;
      if NoStaleReads(kit, lookup, before) {
        StreamCommutes(kit, lookup, before);
        LastCommutesIff(kit, lookup, before, last);
      }
    }
  }

  lemma LastCommutesIff<J>(kit: Kit<J>, lookup: Lookup, before: seq<Event>, last: Event)
    requires NoStaleReads(kit, lookup, before)
    ensures AssembleAll(MapAll(kit, lookup, before + [last]).out)
            == MapMessage(kit, lookup, AssembleAll(before + [last]))
            <==> NoStaleReads(kit, lookup, before + [last])
  {
    StreamCommutes(kit, lookup, before);
    hide MapEvent, Assemble, MapBlock, MapMessage, Tracks, ReadsStale;
    assert (before + [last])[..|before|] == before;
    var mapped := MapAll(kit, lookup, before);
    EventCommutesIff(kit, lookup, mapped.held, AssembleAll(before), last);
    AssembleMore(mapped.out, MapEvent(kit, lookup, mapped.held, last).out);
  }

  lemma DisciplinedStep<J>(kit: Kit<J>, lookup: Lookup, held: map<nat, Held>, m: Message, e: Event)
    requires Tracks(lookup, held, m) && HoldsNothingStale(lookup, held, m)
    requires e.Start? ==> !IsOpen(m, e.index)
    ensures !ReadsStale(kit, lookup, held, m, e)
    ensures HoldsNothingStale(lookup, MapEvent(kit, lookup, held, e).held, Assemble(m, e))
  {
    hide Translate;
  }

  predicate HoldsNothingStale(lookup: Lookup, held: map<nat, Held>, m: Message) {
    forall i <- held :: i in m && ToTranslate(lookup, m[i])
  }

  /** A stream that starts no block over while it is open leaves nothing stale to read. */
  lemma {:induction false} DisciplinedReadsNothingStale<J>(kit: Kit<J>, lookup: Lookup, events: seq<Event>)
    requires Disciplined(events)
    ensures NoStaleReads(kit, lookup, events)
    ensures HoldsNothingStale(lookup, MapAll(kit, lookup, events).held, AssembleAll(events))
  {
    hide MapEvent, ReadsStale, HoldsNothingStale, Tracks, Assemble;
    if events != [] {
      var before, last := events[..|events| - 1], events[|events| - 1];
      DisciplinedReadsNothingStale(kit, lookup, before);
      StreamCommutes(kit, lookup, before);
      DisciplinedStep(kit, lookup, MapAll(kit, lookup, before).held, AssembleAll(before), last);
    } else {
      NothingIsStale(lookup);
    }
  }

  lemma NothingIsStale(lookup: Lookup)
    ensures HoldsNothingStale(lookup, map[], map[])
  {
  }

  /** In a mapped stream a tool is renamed even when it has no backward translation, its input passing untouched. */
  lemma UntranslatedIsRenamed<J>(kit: Kit<J>, lookup: Lookup, events: seq<Event>, i: nat)
    requires NoStaleReads(kit, lookup, events) && i in AssembleAll(events)
    requires var b := AssembleAll(events)[i]; b.head.ToolHead? && b.head.name in lookup && !ToTranslate(lookup, b)
    ensures var b, mapped := AssembleAll(events)[i], AssembleAll(MapAll(kit, lookup, events).out);
            i in mapped && mapped[i] == b.(head := ToolHead(b.head.id, lookup[b.head.name].clientName))
  {
    StreamCommutes(kit, lookup, events);
    hide MapAll, AssembleAll;
  }

  /** The discipline is needed: a text block started over an open tool block has its deltas taken for tool input. */
  lemma RestartIsSwallowed<J>(kit: Kit<J>)
    requires kit.parse("x").None?
    ensures var lookup := map["Bash" := Entry("shell", Mapping("Bash", Some(0), [], 10))];
            var events := [Start(Some(0), ToolHead("t", "Bash")), Start(Some(0), OtherHead("text")),
                InputDelta(Some(0), "x")];
            AssembleAll(MapAll(kit, lookup, events).out) != MapMessage(kit, lookup, AssembleAll(events))
  {
    var lookup := map["Bash" := Entry("shell", Mapping("Bash", Some(0), [], 10))];
    var events := [Start(Some(0), ToolHead("t", "Bash")), Start(Some(0), OtherHead("text")), InputDelta(Some(0), "x")];
    assert events[..2][..1] == [events[0]] && events[..2] == [events[0], events[1]];
    assert AssembleAll(events)[0] == Block(OtherHead("text"), "x", [], false);
    var out := [Start(Some(0), ToolHead("t", "shell")), Start(Some(0), OtherHead("text"))];
    assert MapAll(kit, lookup, events[..2][..1]).out == out[..1];
    assert MapAll(kit, lookup, events[..2]).out == out;
    assert MapAll(kit, lookup, events).out == out + [];
    assert out[..1] == [out[0]];
    assert AssembleAll(out)[0] == Block(OtherHead("text"), "", [], false);
    assert MapMessage(kit, lookup, AssembleAll(events))[0].partial == "x";
  }

  // Agreement with the mapping of a whole body.

  /** A content block of a whole response body: for a tool call, its input as a value. */
  datatype Content<J> = ToolUse(id: string, name: string, input: Option<J>) | Plain(block: Block)

  /** What an assembled block says: its fragments together are the input's JSON, none at all the empty object. */
  function ContentOf<J>(kit: Kit<J>, b: Block): Content<J> {
    if b.head.ToolHead? then ToolUse(b.head.id, b.head.name, kit.parse(if b.partial == "" then "{}" else b.partial))
    else Plain(b)
  }

  /**
   * The rewrite of one block of a whole body: a translation that throws leaves the input, injection needs an object.
   */
  function RewriteBlock<J>(kit: Kit<J>, lookup: Lookup, c: Content<J>): Content<J> {
    if !c.ToolUse? || c.name !in lookup then c
    else
      var entry := lookup[c.name];
      var renamed := c.(name := entry.clientName);
      if c.input.None? || !kit.isObject(c.input.value) then renamed
      else
        var back := if entry.mapping.back.Some? then kit.translate(entry.mapping.back.value, c.input.value) else None;
        var input := if back.Some? then back.value else c.input.value;
        var injected := if entry.mapping.fields != [] then kit.inject(entry.mapping.fields, input) else Some(input);
        renamed.(input := if injected.Some? then injected else Some(input))
  }

  /** A tool input both mappers can translate: within the cap, an object, and the translation takes it. */
  predicate Translatable<J>(kit: Kit<J>, lookup: Lookup, b: Block) {
    b.head.ToolHead? && b.head.name in lookup && Needs(lookup[b.head.name].mapping) ==>
      var m := lookup[b.head.name].mapping;
      var j := kit.parse(if b.partial == "" then "{}" else b.partial);
      && |b.partial| <= 2_000_000
      && j.Some? && kit.isObject(j.value)
      && (m.back.Some? ==> kit.translate(m.back.value, j.value).Some?)
  }

  lemma BlockAgrees<J(!new)>(kit: Kit<J>, lookup: Lookup, b: Block)
    requires Lawful(kit) && b.stopped && Translatable(kit, lookup, b)
    ensures ContentOf(kit, MapBlock(kit, lookup, b)) == RewriteBlock(kit, lookup, ContentOf(kit, b))
  {
    if b.head.ToolHead? && b.head.name in lookup && Needs(lookup[b.head.name].mapping) {
      var m := lookup[b.head.name].mapping;
      var j := kit.parse(if b.partial == "" then "{}" else b.partial).value;
      var t := if m.back.Some? then kit.translate(m.back.value, j).value else j;
      var u := if m.fields != [] then kit.inject(m.fields, t).value else t;
      assert Translate(kit, m, b.partial) == Some(kit.show(u));
      assert kit.parse(kit.show(u)) == Some(u);
    }
  }

  /**
   * Streamed and whole-body mapping commute with assembly: when some mapping needs translation, every block of
   * the stream is finished and every input to be translated can be, the mapped stream assembles to the whole-body
   * mapping of what the stream assembles to.
   */
  lemma StreamAgreesWithBody<J(!new)>(kit: Kit<J>, lookup: Lookup, events: seq<Event>)
    requires Lawful(kit) && NoStaleReads(kit, lookup, events) && AnyNeeds(lookup)
    requires forall i <- AssembleAll(events) ::
               AssembleAll(events)[i].stopped && Translatable(kit, lookup, AssembleAll(events)[i])
    ensures var m, mapped := AssembleAll(events), AssembleAll(MapStream(kit, lookup, events));
            && mapped.Keys == m.Keys
            && forall i <- m :: ContentOf(kit, mapped[i]) == RewriteBlock(kit, lookup, ContentOf(kit, m[i]))
  {
    StreamCommutes(kit, lookup, events);
    var m := AssembleAll(events);
    forall i | i in m ensures ContentOf(kit, MapBlock(kit, lookup, m[i]))
        == RewriteBlock(kit, lookup, ContentOf(kit, m[i])) {
      BlockAgrees(kit, lookup, m[i]);
    }
  }

  /**
   * When no mapping needs translation the stream is passed through untouched while a whole body has its tool
   * names rewritten, so the two agree exactly when every mapped tool the message calls already bears the client's name.
   */
  lemma PassThroughAgreesIff<J>(kit: Kit<J>, lookup: Lookup, events: seq<Event>)
    requires !AnyNeeds(lookup)
    ensures var m, mapped := AssembleAll(events), AssembleAll(MapStream(kit, lookup, events));
            (mapped.Keys == m.Keys
             && forall i <- m :: ContentOf(kit, mapped[i]) == RewriteBlock(kit, lookup, ContentOf(kit, m[i])))
            <==> forall i <- m :: m[i].head.ToolHead? && m[i].head.name in lookup ==>
                lookup[m[i].head.name].clientName == m[i].head.name
  {
    var m := AssembleAll(events);
    forall i | i in m
      ensures ContentOf(kit, m[i]) == RewriteBlock(kit, lookup, ContentOf(kit, m[i])) <==>
              (m[i].head.ToolHead? && m[i].head.name in lookup ==> lookup[m[i].head.name].clientName == m[i].head.name)
    {
      if m[i].head.ToolHead? && m[i].head.name in lookup { assert !Needs(lookup[m[i].head.name].mapping); }
    }
  }

  lemma PassThroughKeepsName<J>(kit: Kit<J>)
    ensures var lookup := map["Bash" := Entry("shell", Mapping("Bash", None, [], 10))];
            var events := [Start(Some(0), ToolHead("t", "Bash")), Stop(Some(0))];
            && 0 in AssembleAll(events) && 0 in AssembleAll(MapStream(kit, lookup, events))
            && ContentOf(kit, AssembleAll(MapStream(kit, lookup, events))[0]).name == "Bash"
            && RewriteBlock(kit, lookup, ContentOf(kit, AssembleAll(events)[0])).name == "shell"
  {
    var lookup := map["Bash" := Entry("shell", Mapping("Bash", None, [], 10))];
    var events := [Start(Some(0), ToolHead("t", "Bash")), Stop(Some(0))];
    assert events[..1] == [events[0]];
    assert !AnyNeeds(lookup);
    assert AssembleAll(events)[0] == Block(ToolHead("t", "Bash"), "", [], true);
  }

  /**
   * A finished tool block the mapper gave up on, past the cap or for an input that does not parse or translate, is
   * assembled from the mapped stream with exactly the fragments that were sent, under the client's name.
   */
  lemma GivenUpKeepsFragments<J>(kit: Kit<J>, lookup: Lookup, events: seq<Event>, i: nat)
    requires NoStaleReads(kit, lookup, events) && i in AssembleAll(events)
    requires var b := AssembleAll(events)[i];
             && b.head.ToolHead? && b.head.name in lookup && b.stopped
             && (|b.partial| > 2_000_000 || Translate(kit, lookup[b.head.name].mapping, b.partial).None?)
    ensures var b, mapped := AssembleAll(events)[i], AssembleAll(MapAll(kit, lookup, events).out);
            && i in mapped && mapped[i].partial == b.partial && mapped[i].others == b.others && mapped[i].stopped
            && mapped[i].head == ToolHead(b.head.id, lookup[b.head.name].clientName)
  {
    StreamCommutes(kit, lookup, events);
    hide MapAll, AssembleAll, Translate;
  }

  /**
   * What a body's tool call becomes when the translation of its input throws, or nothing can be injected into it: the
   * name is the client's all the same, and the input goes out as far as it got.
   */
  lemma BrokenInputStays<J>(kit: Kit<J>, lookup: Lookup, c: Content<J>)
    requires c.ToolUse? && c.name in lookup && c.input.Some? && kit.isObject(c.input.value)
    ensures var m := lookup[c.name].mapping; var r := RewriteBlock(kit, lookup, c);
            && r.ToolUse? && r.name == lookup[c.name].clientName && r.id == c.id && r.input.Some?
            && (m.back.Some? && kit.translate(m.back.value, c.input.value).None? && m.fields == [] ==>
                  r.input == c.input)
            && (m.back.None? || kit.translate(m.back.value, c.input.value).None? ==>
                  m.fields != [] && kit.inject(m.fields, c.input.value).None? ==> r.input == c.input)
            && (m.fields != [] && m.back.Some? && kit.translate(m.back.value, c.input.value).Some? ==>
                  var t := kit.translate(m.back.value, c.input.value).value;
                  r.input == if kit.inject(m.fields, t).Some? then kit.inject(m.fields, t) else Some(t))
  {
  }
}
