/**
 * What a call's events mean for its block, read off the events' own fields: whatever a call streamed, its arguments in
 * full when they extend that, its name, and its id, which no other call has.
 */
module CallMeaning {
  import opened Options
  import opened Responses
  import opened Translation
  import opened Assembly
  import opened ParallelCalls

  /** The fragments of a call's arguments, one after the other. */
  function Streamed(events: seq<Event>, k: int): string {
    if events == [] then ""
    else
      Streamed(events[..|events| - 1], k)
      + match events[|events| - 1]
        case Event(_, ArgumentsDelta(j, delta)) => if j == k then delta else ""
        case _ => ""
  }

  /** The event carries this text as the whole arguments of call `k`. */
  predicate SaysInFull(e: Event, k: int, text: string) {
    match e
    case Event(_, ArgumentsDone(j, arguments)) => j == k && arguments == Some(text)
    case Event(_, ItemDone(j, FunctionCall(_, _, _, arguments))) => j == k && arguments == Some(text)
    case _ => false
  }

  predicate Streams(e: Event, k: int) {
    e.Event? && e.body.ArgumentsDelta? && e.body.outputIndex == k && e.body.delta != ""
  }

  /**
   * One event more: a fragment is added, a whole text stands when it goes on from what there is, nothing else counts.
   */
  lemma ArgumentsAfter(events: seq<Event>, e: Event, k: int)
    ensures Streams(e, k) ==> Arguments(events + [e], k) == Arguments(events, k) + e.body.delta
    ensures forall text :: SaysInFull(e, k, text) ==>
              Arguments(events + [e], k) == if Arguments(events, k) <= text then text else Arguments(events, k)
    ensures !Streams(e, k) && (forall text :: !SaysInFull(e, k, text)) ==>
              Arguments(events + [e], k) == Arguments(events, k)
  {
    assert (events + [e])[..|events|] == events;
    if e.Event? && e.body.ArgumentsDone? && e.body.arguments.Some? {
      assert SaysInFull(e, k, e.body.arguments.value) <==> e.body.outputIndex == k;
    }
    if e.Event? && e.body.ItemDone? && e.body.item.FunctionCall? && e.body.item.arguments.Some? {
      assert SaysInFull(e, k, e.body.item.arguments.value) <==> e.body.outputIndex == k;
    }
  }

  /** Never told in full, a call has what it streamed. */
  lemma {:induction false} ArgumentsStreamed(events: seq<Event>, k: int)
    requires forall e <- events, text :: !SaysInFull(e, k, text)
    ensures Arguments(events, k) == Streamed(events, k)
  {
    if events != [] {
      var before, e := events[..|events| - 1], events[|events| - 1];
      assert events == before + [e] && e in events;
      ArgumentsStreamed(before, k);
      hide Arguments;
      ArgumentsAfter(before, e, k);
    }
  }

  /** Told in full after all it streamed, a call has the whole text if that goes on from what it streamed. */
  lemma {:induction false} ArgumentsInFull(before: seq<Event>, after: seq<Event>, k: int, text: string)
    requires forall e <- before, t :: !SaysInFull(e, k, t)
    requires forall e <- after :: !Streams(e, k) && forall t :: SaysInFull(e, k, t) ==> t == text
    ensures var d := Streamed(before, k);
            Arguments(before + after, k)
            == if d <= text && exists e <- after :: SaysInFull(e, k, text) then text else d
    decreases |after|
  {
    if after == [] {
      assert before + after == before;
      ArgumentsStreamed(before, k);
    } else {
      var some, e := after[..|after| - 1], after[|after| - 1];
      assert after == some + [e] && before + after == (before + some) + [e];
      assert e in after && forall x :: x in after <==> x in some || x == e;
      ArgumentsInFull(before, some, k, text);
      hide Arguments, Streamed;
      ArgumentsAfter(before + some, e, k);
    }
  }

  // The message.

  lemma BatchAt(requestModel: Option<string>, events: seq<Event>, i: nat)
    requires Orderly(BeforeEnd(events)) && i < |Order(BeforeEnd(events))|
    ensures var calls := BeforeEnd(events); var m := AssembleAll(map[], Translate(Initial(requestModel), events).out);
            i in m && m[i] == BatchBlock(Order(calls), i, 0, Arguments(calls, Order(calls)[i].key))
  {
    hide AssembleAll, Translate, Orderly, Order, Arguments, BeforeEnd, BatchBlock;
    TurnIsBatch(requestModel, events);
  }

  /**
   * A call's block holds the whole text its final events carry, when that goes on from all its fragments, and exactly
   * its fragments when it does not, or when no final event carries any.
   */
  lemma FinalArgumentsArrive(requestModel: Option<string>, events: seq<Event>, i: nat, before: seq<Event>,
      after: seq<Event>, text: string)
    requires Orderly(BeforeEnd(events)) && i < |Order(BeforeEnd(events))| && BeforeEnd(events) == before + after
    requires var k := Order(BeforeEnd(events))[i].key;
             && (forall e <- before, t :: !SaysInFull(e, k, t))
             && forall e <- after :: !Streams(e, k) && forall t :: SaysInFull(e, k, t) ==> t == text
    ensures var k := Order(BeforeEnd(events))[i].key;
            var m := AssembleAll(map[], Translate(Initial(requestModel), events).out);
            i in m && m[i].json == if Streamed(before, k) <= text && exists e <- after :: SaysInFull(e, k, text)
                                   then text else Streamed(before, k)
  {
    BatchAt(requestModel, events, i);
    hide AssembleAll, Translate, Orderly, Order, Arguments, BeforeEnd, Streamed;
    ArgumentsInFull(before, after, Order(BeforeEnd(events))[i].key, text);
  }

  lemma AddedAndDone(call: Item)
    requires call.FunctionCall?
    ensures var added, done := Event(None, ItemAdded(0, call)), Event(None, ItemDone(0, call));
            Orderly([added, done]) && Order([added, done]) == [Announcement(0, call)] && Streamed([added], 0) == ""
  {
    var added, done := Event(None, ItemAdded(0, call)), Event(None, ItemDone(0, call));
    var one, both := [added], [added, done];
    assert one[..0] == [] && both[..1] == one;
    assert Order(one) == [Announcement(0, call)] && Order(one)[0].key == 0;
    assert CallOf(added) == Some(0) && Orderly([]) && !Finished([], 0);
    assert Orderly(one);
    assert forall e <- one :: e == added;
    assert !Finished(one, 0);
    assert Announces(Order(one), 0);
  }

  /** A call told of only when it is done has the arguments it is done with. */
  lemma DoneAloneArrives(requestModel: Option<string>, call: Item)
    requires call.FunctionCall? && call.arguments.Some?
    ensures var events := [Event(None, ItemAdded(0, call)), Event(None, ItemDone(0, call))];
            var m := AssembleAll(map[], Translate(Initial(requestModel), events).out);
            0 in m && m[0].json == call.arguments.value
  {
    var added, done := Event(None, ItemAdded(0, call)), Event(None, ItemDone(0, call));
    var events := [added, done];
    AddedAndDone(call);
    hide Orderly, Order, BeforeEnd, Translate, AssembleAll, Streamed;
    BeforeEndOfTurn(events, []);
    assert events + [] == events && events == [added] + [done];
    assert done in [done] && SaysInFull(done, 0, call.arguments.value);
    FinalArgumentsArrive(requestModel, events, 0, [added], [done], call.arguments.value);
  }

  // Ids and names.

  predicate Anonymous(item: Item) {
    item.FunctionCall? && item.callId == "" && item.id == ""
  }

  /** The calls before number `n` that came without an id. */
  function AnonymousBefore(order: seq<Announcement>, n: nat): nat
    requires n <= |order|
  {
    |set i: nat | i < n && Anonymous(order[i].item)|
  }

  lemma AnonymousOneMore(order: seq<Announcement>, n: nat)
    requires n < |order|
    ensures AnonymousBefore(order, n + 1) == AnonymousBefore(order, n) + if Anonymous(order[n].item) then 1 else 0
  {
    var some, all := set i: nat | i < n && Anonymous(order[i].item), set i: nat | i < n + 1 && Anonymous(order[i].item);
    assert all == if Anonymous(order[n].item) then some + {n} else some;
  }

  lemma {:induction false} UnnamedCounts(order: seq<Announcement>, n: nat)
    requires n <= |order| && Keyed(order)
    ensures Unnamed(order, n) == AnonymousBefore(order, n)
  {
    hide AnonymousBefore;
    if n > 0 {
      UnnamedCounts(order, n - 1);
      AnonymousOneMore(order, n - 1);
    } else {
      NoneBefore(order);
    }
  }

  lemma NoneBefore(order: seq<Announcement>)
    ensures AnonymousBefore(order, 0) == 0
  {
  }

  /**
   * A call keeps the name it was announced with, and the call id upstream gave it, or else its item id; one with
   * neither takes the number of calls without an id before it.
   */
  lemma CallsAreNamed(requestModel: Option<string>, events: seq<Event>, i: nat)
    requires Orderly(BeforeEnd(events)) && i < |Order(BeforeEnd(events))|
    ensures var order := Order(BeforeEnd(events)); var item := order[i].item;
            var m := AssembleAll(map[], Translate(Initial(requestModel), events).out);
            && item.FunctionCall? && i in m && m[i].block.Some? && m[i].block.value.ToolUse?
            && m[i].block.value.name == item.name
            && (item.callId != "" ==> m[i].block.value.id == Given(item.callId))
            && (item.callId == "" && item.id != "" ==> m[i].block.value.id == Given(item.id))
            && (Anonymous(item) ==> m[i].block.value.id == Synthetic(AnonymousBefore(order, i)))
            && m[i].text == "" && m[i].thinking == "" && m[i].inputs == [] && m[i].citations == []
  {
    BatchAt(requestModel, events, i);
    hide AssembleAll, Translate, Orderly, Order, Arguments, BeforeEnd;
    UnnamedCounts(Order(BeforeEnd(events)), i);
  }

  /** So no two calls without an id share one. */
  lemma SyntheticIdsDiffer(order: seq<Announcement>, i: nat, j: nat)
    requires i < j < |order| && Anonymous(order[i].item)
    ensures AnonymousBefore(order, i) < AnonymousBefore(order, j)
  {
    var some, all := set n: nat | n < i && Anonymous(order[n].item), set n: nat | n < j && Anonymous(order[n].item);
    assert some + {i} <= all && i !in some;
    SubsetCounts(some + {i}, all);
  }

  lemma SubsetCounts<T>(a: set<T>, b: set<T>)
    requires a <= b
    ensures |a| <= |b|
  {
    assert b == a + (b - a);
  }

  /** A call is announced by the first event there is of it, the one that adds its item. */
  lemma {:induction false} AnnouncedFirst(events: seq<Event>, i: nat) returns (n: nat)
    requires Orderly(events) && i < |Order(events)|
    ensures n < |events| && events[n].Event? && events[n].body == ItemAdded(Order(events)[i].key, Order(events)[i].item)
    ensures forall j :: 0 <= j < n ==> CallOf(events[j]) != Some(Order(events)[i].key)
  {
    var before, e := events[..|events| - 1], events[|events| - 1];
    assert events == before + [e];
    if i < |Order(before)| {
      n := AnnouncedFirst(before, i);
    } else {
      n := |before|;
      OrderGrows(before, e);
      forall j | 0 <= j < n ensures CallOf(events[j]) != Some(Order(events)[i].key) {
        NotYet(before, Order(events)[i].key, j);
      }
    }
  }

  /** Before a call is announced there is no event of it. */
  lemma {:induction false} NotYet(events: seq<Event>, k: int, j: nat)
    requires Orderly(events) && !Announces(Order(events), k) && j < |events|
    ensures CallOf(events[j]) != Some(k)
  {
    var before, e := events[..|events| - 1], events[|events| - 1];
    assert events == before + [e];
    OrderGrows(before, e);
    if e.Event? && e.body.ItemAdded? { AnnouncesMore(Order(before), Announcement(e.body.outputIndex, e.body.item)); }
    if j < |before| {
      NotYet(before, k, j);
    }
  }
}
