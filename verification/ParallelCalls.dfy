/**
 * Parallel function calls against a batch specification: however the events of any number of calls interleave,
 * and wherever the stream is cut, the calls come out as consecutive tool_use blocks in the order they were
 * announced, each carrying exactly its own arguments.
 */
module ParallelCalls {
  import opened Options
  import opened Responses
  import opened Translation
  import opened Assembly
  import Conservation

  // The batch side: what the events say, call by call, with no block in sight.

  /** The call an event concerns; an empty arguments delta concerns none. */
  function CallOf(e: Event): Option<int> {
    match e
    case Event(_, ItemAdded(k, FunctionCall(_, _, _, _))) => Some(k)
    case Event(_, ItemDone(k, FunctionCall(_, _, _, _))) => Some(k)
    case Event(_, ArgumentsDelta(k, delta)) => if delta == "" then None else Some(k)
    case Event(_, ArgumentsDone(k, _)) => Some(k)
    case _ => None
  }

  /** Events that carry nothing for any block. */
  predicate Silent(e: Event) {
    match e
    case Malformed => true
    case Event(_, OtherBody) => true
    case Event(_, ArgumentsDelta(_, delta)) => delta == ""
    case Event(_, TextDelta(_, delta)) => delta == ""
    case Event(_, ReasoningDelta(_, delta)) => delta == ""
    case Event(_, AnnotationAdded(_, citation)) => citation.None?
    case _ => false
  }

  /** A call's arguments once `e`, an event of that call, is read. */
  function Fold(args: string, e: Event): string {
    match e
    case Event(_, ArgumentsDelta(_, delta)) => args + delta
    case Event(_, ArgumentsDone(_, arguments)) => CompletedArguments(args, arguments)
    case Event(_, ItemDone(_, FunctionCall(_, _, _, arguments))) => CompletedArguments(args, arguments)
    case _ => args
  }

  /** The arguments of call `k`: its own events folded, whatever stands between them. */
  function Arguments(events: seq<Event>, k: int): string {
    if events == [] then ""
    else
      var before := Arguments(events[..|events| - 1], k);
      var e := events[|events| - 1];
      if CallOf(e) == Some(k) then Fold(before, e) else before
  }

  predicate Finished(events: seq<Event>, k: int) {
    exists e <- events :: CallOf(e) == Some(k) && e.body.ItemDone?
  }

  datatype Announcement = Announcement(key: int, item: Item)

  predicate Keyed(order: seq<Announcement>) {
    && (forall i :: 0 <= i < |order| ==> order[i].item.FunctionCall?)
    && (forall i, j :: 0 <= i < j < |order| ==> order[i].key != order[j].key)
  }

  predicate Announces(order: seq<Announcement>, k: int) {
    exists i :: 0 <= i < |order| && order[i].key == k
  }

  /** The calls in the order they first appear, each with the item that announced it. */
  function Order(events: seq<Event>): (order: seq<Announcement>)
    ensures Keyed(order)
  {
    if events == [] then []
    else
      var before := Order(events[..|events| - 1]);
      match events[|events| - 1]
      case Event(_, ItemAdded(k, FunctionCall(c, i, n, a))) =>
        if Announces(before, k) then before else before + [Announcement(k, FunctionCall(c, i, n, a))]
      case _ => before
  }

  /** Each call is added before anything else of it and gets nothing after its done; nothing but calls in between. */
  predicate Orderly(events: seq<Event>) {
    events == [] ||
    var before := events[..|events| - 1];
    var e := events[|events| - 1];
    && Orderly(before)
    && (match CallOf(e)
        case Some(k) => !Finished(before, k) && (Announces(Order(before), k) || e.body.ItemAdded?)
        case None => Silent(e))
  }

  /** How many of the first `n` calls came without an id, and so took a synthetic one. */
  function Unnamed(order: seq<Announcement>, n: nat): nat
    requires n <= |order|
  {
    if n == 0 then 0 else Unnamed(order, n - 1) + if HasId(Some(order[n - 1].item)) then 0 else 1
  }

  /** The block the batch specification gives call number `i`. */
  function BatchBlock(order: seq<Announcement>, i: nat, seq0: nat, args: string): Assembled
    requires i < |order|
  {
    Started(Some(ToolBlock(Some(order[i].item), seq0 + Unnamed(order, i)))).(json := args)
  }

  // The translator's side.

  /** A state between calls: no call is in flight or waiting. */
  ghost predicate Quiet(s: State) {
    !s.ended && s.waiting == [] && !InFlight(s) && (s.open.Open? ==> s.open.outputIndex in s.blocks)
  }

  ghost predicate Unknown(s: State, order: seq<Announcement>) {
    forall i :: 0 <= i < |order| ==> order[i].key !in s.calls && order[i].key !in s.blocks
  }

  function Opened(order: seq<Announcement>, s: State): int {
    |order| - |s.waiting|
  }

  /** Call number `i` has its block, and the block holds all the call has gathered. */
  ghost predicate Shown(s0: State, order: seq<Announcement>, i: nat, s: State, m: map<nat, Assembled>)
    requires i < |order|
  {
    var k := order[i].key;
    && k in s.calls && s.calls[k].item == Some(order[i].item)
    && s.calls[k].sent == |s.calls[k].args|
    && k in s.blocks && s.blocks[k] == Placed(ToolKind, s0.nextIndex + i)
    && s0.nextIndex + i in m
    && m[s0.nextIndex + i] == BatchBlock(order, i, s0.syntheticSeq, s.calls[k].args)
  }

  /** Call number `i` waits: it has no block and has sent nothing. */
  ghost predicate Waits(order: seq<Announcement>, i: nat, s: State)
    requires i < |order|
  {
    var k := order[i].key;
    && k in s.calls && s.calls[k].item == Some(order[i].item)
    && s.calls[k].sent == 0
    && k !in s.blocks
    && 0 <= i - Opened(order, s) < |s.waiting| && s.waiting[i - Opened(order, s)] == k
  }

  /** The one call that may still have its block open is the last one that got one. */
  ghost predicate LastOpen(s0: State, order: seq<Announcement>, s: State)
    requires 0 < Opened(order, s) <= |order|
  {
    var last := Opened(order, s) - 1;
    && order[last].key in s.calls
    && s.open == (if s.calls[order[last].key].done then Closed
          else Open(ToolKind, s0.nextIndex + last, order[last].key))
    && forall i :: 0 <= i < last ==> order[i].key in s.calls && s.calls[order[i].key].done
  }

  /** The queue: calls with a block come first, the others wait in order. */
  ghost predicate Queue(s0: State, order: seq<Announcement>, s: State, m: map<nat, Assembled>) {
    var n := Opened(order, s);
    && 0 <= n <= |order|
    && (forall i :: 0 <= i < n ==> Shown(s0, order, i, s, m))
    && (forall i :: n <= i < |order| ==> Waits(order, i, s))
    && (if n == 0 then order == [] && s.open == s0.open && !InFlight(s) else LastOpen(s0, order, s))
  }

  /** The counters, and that nothing but these calls was added since `s0`. */
  ghost predicate Frame(s0: State, m0: map<nat, Assembled>, order: seq<Announcement>, s: State,
      m: map<nat, Assembled>) {
    var n := Opened(order, s);
    && !s.ended
    && 0 <= n <= |order|
    && s.nextIndex == s0.nextIndex + n
    && s.syntheticSeq == s0.syntheticSeq + Unnamed(order, n)
    && (s.open.Open? ==> s.open.outputIndex in s.blocks)
    && (forall k <- s.blocks :: k in s0.blocks || Announces(order, k))
    && (forall k <- s.calls :: k in s0.calls || Announces(order, k))
    && (forall i: nat :: i < s0.nextIndex ==> (i in m <==> i in m0) && (i in m ==> m[i] == m0[i]))
    && (forall i: nat :: i in m ==> i in m0 || i < s.nextIndex)
  }

  /** Everything but the queue's progress. `m0` is what was assembled on reaching `s0`, `m` on reaching `s`. */
  ghost predicate Mid(s0: State, m0: map<nat, Assembled>, order: seq<Announcement>, s: State, m: map<nat, Assembled>) {
    Queue(s0, order, s, m) && Frame(s0, m0, order, s, m)
  }

  /** The translator holds for call `k` what the batch side folds. */
  ghost predicate Gathered(events: seq<Event>, k: int, s: State) {
    k in s.calls && s.calls[k].args == Arguments(events, k) && (s.calls[k].done <==> Finished(events, k))
  }

  /**
   * After `events`: as `Mid`, with each call's arguments and end as the batch side folds them, and no one waiting idly.
   */
  ghost predicate Tracked(s0: State, m0: map<nat, Assembled>, events: seq<Event>, s: State, m: map<nat, Assembled>) {
    var order := Order(events);
    && Mid(s0, m0, order, s, m)
    && (forall i :: 0 <= i < |order| ==> Gathered(events, order[i].key, s))
    && (s.waiting != [] ==> InFlight(s))
  }

  // What keeps a call where it is.

  lemma ShownKeeps(s0: State, order: seq<Announcement>, i: nat, s: State, m: map<nat, Assembled>, t: State,
      n: map<nat, Assembled>)
    requires i < |order| && Shown(s0, order, i, s, m)
    requires var k := order[i].key;
             k in s.calls && k in s.blocks ==>
               && k in t.calls && t.calls[k] == s.calls[k].(done := t.calls[k].done)
               && k in t.blocks && t.blocks[k] == s.blocks[k]
    requires s0.nextIndex + i in m ==> s0.nextIndex + i in n && n[s0.nextIndex + i] == m[s0.nextIndex + i]
    ensures Shown(s0, order, i, t, n)
  {
    hide BatchBlock;
  }

  lemma WaitsKeeps(order: seq<Announcement>, i: nat, s: State, t: State)
    requires i < |order| && Waits(order, i, s) && t.waiting == s.waiting
    requires var k := order[i].key;
             && (k in s.calls ==> k in t.calls && t.calls[k] == s.calls[k].(done := t.calls[k].done))
             && (k in t.blocks ==> k in s.blocks)
    ensures Waits(order, i, t)
  {
  }

  // Opening a waiting call's block.

  lemma CloseOpenAssembles(s: State, m: map<nat, Assembled>)
    ensures AssembleAll(m, CloseOpen(s).out) == m
  {
    if s.open.Open? { AssembleOne(m, BlockStop(s.open.index)); }
  }

  lemma SendArgsState(s: State, k: int)
    requires k in s.calls && IsOpenTool(s, k)
    ensures SendArgs(s, k).state == s.(calls := s.calls[k := s.calls[k].(sent := |s.calls[k].args|)])
  {
    if |s.calls[k].args| == s.calls[k].sent {
      assert s.calls[k := s.calls[k].(sent := |s.calls[k].args|)] == s.calls;
    }
  }

  /** Sending for the open call brings its block level with what it has gathered. */
  lemma SendArgsEffect(s: State, k: int, m: map<nat, Assembled>)
    requires k in s.calls && IsOpenTool(s, k) && s.open.index in m
    requires s.calls[k].sent <= |s.calls[k].args| && m[s.open.index].json == s.calls[k].args[..s.calls[k].sent]
    requires TakesInput(m[s.open.index].block)
    ensures var r := SendArgs(s, k); var call := s.calls[k];
            && r.state == s.(calls := s.calls[k := call.(sent := |call.args|)])
            && AssembleAll(m, r.out) == m[s.open.index := m[s.open.index].(json := call.args)]
  {
    var call := s.calls[k];
    assert call.args[..call.sent] + call.args[call.sent..] == call.args;
    if |call.args| == call.sent {
      assert call.args[..call.sent] == call.args;
      assert s.calls[k := call.(sent := |call.args|)] == s.calls;
      assert m[s.open.index := m[s.open.index].(json := call.args)] == m;
    } else {
      AssembleOne(m, SendArgs(s, k).out[0]);
    }
  }

  function OpenedState(s: State, k: int): State
    requires k in s.calls
  {
    var call := s.calls[k];
    s.(nextIndex := s.nextIndex + 1,
       open := Open(ToolKind, s.nextIndex, k),
       blocks := s.blocks[k := Placed(ToolKind, s.nextIndex)],
       sawToolCall := true,
       syntheticSeq := if HasId(call.item) then s.syntheticSeq else s.syntheticSeq + 1,
       calls := s.calls[k := call.(sent := |call.args|)])
  }

  lemma OpenCallState(s: State, k: int)
    requires k in s.calls && s.calls[k].sent == 0
    ensures OpenCall(s, k).state == OpenedState(s, k)
  {
    var b := OpenTool(CloseOpen(s).state, s.calls[k].item, k).state;
    OpenToolState(s, k);
    hide CloseOpen, OpenTool, SendArgs, OpenedState;
    SendArgsState(b, k);
    OpenedIsSent(s, k, b);
  }

  lemma CloseOpenState(s: State)
    ensures CloseOpen(s).state == s.(open := Closed)
  {
  }

  lemma OpenToolState(s: State, k: int)
    requires k in s.calls
    ensures var b := OpenTool(CloseOpen(s).state, s.calls[k].item, k).state;
            && IsOpenTool(b, k) && b.calls == s.calls && b == OpenedState(s, k).(calls := s.calls)
  {
    hide HasId, ToolBlock;
    CloseOpenState(s);
    hide CloseOpen;
  }

  lemma OpenedIsSent(s: State, k: int, b: State)
    requires k in s.calls && b == OpenedState(s, k).(calls := s.calls)
    ensures b.(calls := s.calls[k := s.calls[k].(sent := |s.calls[k].args|)]) == OpenedState(s, k)
  {
    hide HasId;
  }

  lemma AssembleThree(m: map<nat, Assembled>, a: seq<Out>, b: seq<Out>, c: seq<Out>)
    ensures AssembleAll(m, a + b + c) == AssembleAll(AssembleAll(AssembleAll(m, a), b), c)
  {
    AssembleConcat(m, a + b, c);
    AssembleConcat(m, a, b);
  }

  lemma OpenCallParts(s: State, k: int)
    requires k in s.calls
    ensures var closed := CloseOpen(s); var begun := OpenTool(closed.state, s.calls[k].item, k);
            && begun.out == [BlockStart(s.nextIndex, ToolBlock(s.calls[k].item, s.syntheticSeq))]
                  && begun.state.calls == s.calls
            && IsOpenTool(begun.state, k) && begun.state.open.index == s.nextIndex
            && OpenCall(s, k).out == closed.out + begun.out + SendArgs(begun.state, k).out
  {
    hide HasId, ToolBlock;
  }

  /** Opening the block of a call that has sent nothing: one new block, holding all the call has gathered. */
  lemma OpenCallAssembles(s: State, k: int, m: map<nat, Assembled>)
    requires k in s.calls && s.calls[k].sent == 0
    ensures AssembleAll(m, OpenCall(s, k).out)
            == m[s.nextIndex := Started(Some(ToolBlock(s.calls[k].item, s.syntheticSeq))).(json := s.calls[k].args)]
  {
    hide HasId;
    var call := s.calls[k];
    var block := ToolBlock(call.item, s.syntheticSeq);
    var closed := CloseOpen(s);
    var begun := OpenTool(closed.state, call.item, k);
    OpenCallParts(s, k);
    hide ToolBlock, AssembleAll, SendArgs, OpenCall, CloseOpen, OpenTool, HasId;
    var sent := SendArgs(begun.state, k);
    AssembleThree(m, closed.out, begun.out, sent.out);
    CloseOpenAssembles(s, m);
    AssembleOne(m, BlockStart(s.nextIndex, block));
    var shown := m[s.nextIndex := Started(Some(block))];
    assert call.args[..0] == "";
    SendArgsEffect(begun.state, k, shown);
    assert shown[s.nextIndex := Started(Some(block)).(json := call.args)]
           == m[s.nextIndex := Started(Some(block)).(json := call.args)];
  }

  function DrainedState(s: State): State
    requires s.waiting != [] && s.waiting[0] in s.calls
  {
    var k := s.waiting[0];
    var o := OpenedState(s.(waiting := s.waiting[1..]), k);
    if s.calls[k].done then o.(open := Closed) else o
  }

  /** One turn of the drain, spelt out: the first in line gets a block, kept open while the call is unfinished. */
  lemma DrainOneEffect(s: State, m: map<nat, Assembled>)
    requires s.waiting != [] && s.waiting[0] in s.calls
    requires s.calls[s.waiting[0]].item.Some? && s.calls[s.waiting[0]].sent == 0
    ensures DrainOne(s).state == DrainedState(s)
    ensures AssembleAll(m, DrainOne(s).out)
            == m[s.nextIndex := Started(Some(ToolBlock(s.calls[s.waiting[0]].item,
                s.syntheticSeq))).(json := s.calls[s.waiting[0]].args)]
  {
    var k := s.waiting[0];
    var t := s.(waiting := s.waiting[1..]);
    assert TouchCall(t, k, None) == t;
    OpenCallState(t, k);
    OpenCallAssembles(t, k, m);
    var begun := OpenCall(t, k);
    hide OpenCall, ToolBlock, HasId, AssembleAll;
    assert begun.state.calls[k].done == s.calls[k].done;
    CloseOpenAssembles(begun.state, AssembleAll(m, begun.out));
    AssembleConcat(m, begun.out, CloseOpen(begun.state).out);
  }

  /** With no call in flight, every call that has a block is finished. */
  lemma OpenedDone(s0: State, order: seq<Announcement>, s: State, m: map<nat, Assembled>)
    requires Queue(s0, order, s, m) && !InFlight(s)
    ensures forall i :: 0 <= i < Opened(order, s) ==> order[i].key in s.calls && s.calls[order[i].key].done
  {
    if Opened(order, s) > 0 { assert Shown(s0, order, Opened(order, s) - 1, s, m); }
  }

  /** The drain's turn gives call number `n` its block and leaves the others as they were. */
  lemma DrainedQueue(s0: State, order: seq<Announcement>, s: State, m: map<nat, Assembled>, r: State,
      m': map<nat, Assembled>)
    requires Queue(s0, order, s, m) && s.waiting != [] && !InFlight(s) && Keyed(order)
    requires s.waiting[0] in s.calls && r == DrainedState(s)
    requires s.nextIndex == s0.nextIndex + Opened(order, s)
    requires 0 <= Opened(order, s) < |order|
    requires m' == m[s.nextIndex := BatchBlock(order, Opened(order, s), s0.syntheticSeq, s.calls[s.waiting[0]].args)]
    ensures Queue(s0, order, r, m')
  {
    var n := Opened(order, s);
    OpenedDone(s0, order, s, m);
    assert Waits(order, n, s);
    DrainedShown(s0, order, s, r, m');
    DrainedLast(s0, order, s, r);
    hide LastOpen, InFlight, Shown, HasId, BatchBlock;
    forall i | 0 <= i < n ensures Shown(s0, order, i, r, m') { ShownKeeps(s0, order, i, s, m, r, m'); }
    forall i | n + 1 <= i < |order| ensures Waits(order, i, r) {
      assert Waits(order, i, s);
    }
  }

  lemma DrainedShown(s0: State, order: seq<Announcement>, s: State, r: State, m': map<nat, Assembled>)
    requires s.waiting != [] && s.waiting[0] in s.calls && r == DrainedState(s)
    requires 0 <= Opened(order, s) < |order| && Waits(order, Opened(order, s), s)
    requires s.nextIndex == s0.nextIndex + Opened(order, s) && s.nextIndex in m'
    requires m'[s.nextIndex] == BatchBlock(order, Opened(order, s), s0.syntheticSeq, s.calls[s.waiting[0]].args)
    ensures Shown(s0, order, Opened(order, s), r, m')
  {
    hide BatchBlock, HasId;
  }

  lemma DrainedLast(s0: State, order: seq<Announcement>, s: State, r: State)
    requires s.waiting != [] && s.waiting[0] in s.calls && r == DrainedState(s)
    requires 0 <= Opened(order, s) < |order| && s.waiting[0] == order[Opened(order, s)].key
    requires s.nextIndex == s0.nextIndex + Opened(order, s)
    requires forall i :: 0 <= i < Opened(order, s) ==> order[i].key in s.calls && s.calls[order[i].key].done
    ensures LastOpen(s0, order, r)
  {
    hide HasId;
  }

  lemma DrainOneMid(s0: State, m0: map<nat, Assembled>, order: seq<Announcement>, s: State, m: map<nat, Assembled>)
    requires Mid(s0, m0, order, s, m) && s.waiting != [] && !InFlight(s) && Keyed(order)
    ensures var r := DrainOne(s);
            && Mid(s0, m0, order, r.state, AssembleAll(m, r.out))
            && SameCalls(s, r.state)
            && r.state.waiting == s.waiting[1..]
  {
    hide DrainOne, AssembleAll, Queue, InFlight, ToolBlock;
    FirstWaits(s0, order, s, m);
    DrainOneEffect(s, m);
    var m' := AssembleAll(m, DrainOne(s).out);
    DrainedQueue(s0, order, s, m, DrainedState(s), m');
    DrainedFrame(s0, m0, order, s, m, BatchBlock(order, Opened(order, s), s0.syntheticSeq, s.calls[s.waiting[0]].args));
    hide Frame, DrainedState;
    assert SameCalls(s, DrainOne(s).state) && DrainOne(s).state.waiting == s.waiting[1..] by { DrainedCalls(s); }
  }

  lemma DrainedCalls(s: State)
    requires s.waiting != [] && s.waiting[0] in s.calls
    ensures SameCalls(s, DrainedState(s)) && DrainedState(s).waiting == s.waiting[1..]
  {
  }

  lemma DrainedFrame(s0: State, m0: map<nat, Assembled>, order: seq<Announcement>, s: State, m: map<nat, Assembled>,
      a: Assembled)
    requires Frame(s0, m0, order, s, m) && s.waiting != [] && s.waiting[0] in s.calls
    requires Opened(order, s) < |order| && s.waiting[0] == order[Opened(order, s)].key
    requires s.calls[s.waiting[0]].item == Some(order[Opened(order, s)].item)
    ensures Frame(s0, m0, order, DrainedState(s), m[s.nextIndex := a])
  {
  }

  lemma FirstWaits(s0: State, order: seq<Announcement>, s: State, m: map<nat, Assembled>)
    requires Queue(s0, order, s, m) && s.waiting != []
    ensures var n := Opened(order, s);
            0 <= n < |order| && s.waiting[0] == order[n].key && Waits(order, n, s)
  {
    assert Waits(order, Opened(order, s), s);
  }

  /** Calls keep their items, arguments and ends; only what was sent may differ. */
  ghost predicate SameCalls(s: State, t: State) {
    && s.calls.Keys == t.calls.Keys
    && forall k <- s.calls :: t.calls[k].item == s.calls[k].item && t.calls[k].args == s.calls[k].args
                              && t.calls[k].done == s.calls[k].done
  }

  /** The drain hands the block down the queue until an unfinished call holds it or no one waits. */
  lemma {:induction false} DrainMid(s0: State, m0: map<nat, Assembled>, order: seq<Announcement>, s: State,
      m: map<nat, Assembled>)
    requires Mid(s0, m0, order, s, m) && Keyed(order)
    ensures var r := Drain(s);
            && Mid(s0, m0, order, r.state, AssembleAll(m, r.out))
            && SameCalls(s, r.state)
            && (r.state.waiting != [] ==> InFlight(r.state))
    decreases |s.waiting|
  {
    hide DrainOne, InFlight, Mid, AssembleAll;
    if s.waiting != [] && !InFlight(s) {
      var one := DrainOne(s);
      DrainOneMid(s0, m0, order, s, m);
      DrainMid(s0, m0, order, one.state, AssembleAll(m, one.out));
      AssembleConcat(m, one.out, Drain(one.state).out);
    } else {
      assert AssembleAll(m, []) == m by { AssembleNothing(m); }
    }
  }

  lemma AssembleNothing(m: map<nat, Assembled>)
    ensures AssembleAll(m, []) == m
  {
  }

  // A call gathers more.

  /** `k` holds `args` now, and has sent them if its block is the open one. */
  function GrownState(s: State, k: int, args: string): State
    requires k in s.calls
  {
    s.(calls := s.calls[k := s.calls[k].(args := args, sent := if IsOpenTool(s, k) then |args| else s.calls[k].sent)])
  }

  function GrownBlocks(s: State, k: int, args: string, m: map<nat, Assembled>): map<nat, Assembled> {
    if IsOpenTool(s, k) && s.open.index in m then m[s.open.index := m[s.open.index].(json := args)] else m
  }

  lemma GrowEffect(s: State, k: int, args: string, m: map<nat, Assembled>)
    requires k in s.calls && s.calls[k].args <= args && (k in s.blocks || k in s.waiting)
    requires IsOpenTool(s, k) ==> s.open.index in m && s.calls[k].sent == |s.calls[k].args|
                                  && m[s.open.index].json == s.calls[k].args && TakesInput(m[s.open.index].block)
    ensures Place(SetArgs(s, k, args), k).state == GrownState(s, k, args)
    ensures AssembleAll(m, Place(SetArgs(s, k, args), k).out) == GrownBlocks(s, k, args, m)
  {
    var t := SetArgs(s, k, args);
    if IsOpenTool(s, k) {
      hide SendArgs, AssembleAll;
      SendArgsEffect(t, k, m);
    } else {
      AssembleNothing(m);
    }
  }

  lemma GrownQueue(s0: State, order: seq<Announcement>, s: State, m: map<nat, Assembled>, j: nat, args: string)
    requires Queue(s0, order, s, m) && Keyed(order) && j < |order|
    requires var k := order[j].key; var n := Opened(order, s);
             && k in s.calls && !s.calls[k].done && (IsOpenTool(s, k) <==> j == n - 1)
             && (IsOpenTool(s, k) ==> s.open.index == s0.nextIndex + j)
    ensures Queue(s0, order, GrownState(s, order[j].key, args), GrownBlocks(s, order[j].key, args, m))
  {
    hide ToolBlock, HasId;
    var k := order[j].key;
    var r := GrownState(s, k, args);
    var m' := GrownBlocks(s, k, args, m);
    var n := Opened(order, s);
    forall i | 0 <= i < n ensures Shown(s0, order, i, r, m') {
      assert Shown(s0, order, i, s, m);
    }
    forall i | n <= i < |order| ensures Waits(order, i, r) {
      assert Waits(order, i, s);
    }
  }

  lemma GrownMid(s0: State, m0: map<nat, Assembled>, order: seq<Announcement>, s: State, m: map<nat, Assembled>,
      j: nat, args: string)
    requires Mid(s0, m0, order, s, m) && Keyed(order) && j < |order|
    requires var k := order[j].key; k in s.calls && !s.calls[k].done
    ensures Mid(s0, m0, order, GrownState(s, order[j].key, args), GrownBlocks(s, order[j].key, args, m))
  {
    CallPosition(s0, m0, order, s, m, j);
    hide Queue, Frame;
    GrownQueue(s0, order, s, m, j, args);
    GrownFrame(s0, m0, order, s, m, order[j].key, args);
  }

  lemma GrownFrame(s0: State, m0: map<nat, Assembled>, order: seq<Announcement>, s: State, m: map<nat, Assembled>,
      k: int, args: string)
    requires Frame(s0, m0, order, s, m) && k in s.calls
    requires IsOpenTool(s, k) ==> s0.nextIndex <= s.open.index
    ensures Frame(s0, m0, order, GrownState(s, k, args), GrownBlocks(s, k, args, m))
  {
    hide Unnamed;
  }

  /** An unfinished call either holds the open block or waits. */
  lemma CallPosition(s0: State, m0: map<nat, Assembled>, order: seq<Announcement>, s: State, m: map<nat, Assembled>,
      j: nat)
    requires Mid(s0, m0, order, s, m) && Keyed(order) && j < |order|
    requires order[j].key in s.calls && !s.calls[order[j].key].done
    ensures var k := order[j].key; var n := Opened(order, s);
            && s.calls[k].item == Some(order[j].item)
            && (k in s.blocks || k in s.waiting)
            && (IsOpenTool(s, k) <==> j == n - 1) && (j < n ==> j == n - 1)
            && (IsOpenTool(s, k) ==> && s.open.index == s0.nextIndex + j && s.open.index in m
                                     && s.calls[k].sent == |s.calls[k].args|
                                     && m[s.open.index].json == s.calls[k].args
                                     && TakesInput(m[s.open.index].block))
  {
    var n := Opened(order, s);
    if j < n {
      assert Shown(s0, order, j, s, m);
      assert j == n - 1;
    } else {
      assert Waits(order, j, s);
      assert n != 0;
    }
  }

  // A new call.

  lemma {:induction false} UnnamedPrefix(order: seq<Announcement>, a: Announcement, n: nat)
    requires n <= |order|
    ensures Unnamed(order + [a], n) == Unnamed(order, n)
  {
    if n != 0 { UnnamedPrefix(order, a, n - 1); }
  }

  lemma BatchBlockPrefix(order: seq<Announcement>, a: Announcement, i: nat, seq0: nat, args: string)
    requires i < |order|
    ensures BatchBlock(order + [a], i, seq0, args) == BatchBlock(order, i, seq0, args)
  {
    UnnamedPrefix(order, a, i);
  }

  function AddedState(s: State, k: int, item: Item): State {
    s.(calls := s.calls[k := ToolCall(Some(item), "", 0, false)])
  }

  /** A call announced while another is in flight joins the queue. */
  lemma QueuedMid(s0: State, m0: map<nat, Assembled>, order: seq<Announcement>, s: State, m: map<nat, Assembled>,
      a: Announcement)
    requires Mid(s0, m0, order, s, m) && Keyed(order + [a]) && InFlight(s)
    requires a.key !in s.calls && a.key !in s.blocks
    ensures var t := AddedState(s, a.key, a.item);
            Mid(s0, m0, order + [a], t.(waiting := s.waiting + [a.key]), m)
  {
    hide ToolBlock, HasId;
    var t := AddedState(s, a.key, a.item);
    var r := t.(waiting := s.waiting + [a.key]);
    var order' := order + [a];
    var n := Opened(order, s);
    forall i | 0 <= i < n ensures Shown(s0, order', i, r, m) {
      assert Shown(s0, order, i, s, m);
      BatchBlockPrefix(order, a, i, s0.syntheticSeq, s.calls[order[i].key].args);
    }
    forall i | n <= i < |order'| ensures Waits(order', i, r) {
      if i < |order| { assert Waits(order, i, s); }
    }
    AnnouncesMore(order, a);
    UnnamedPrefix(order, a, n);
  }

  lemma AnnouncesMore(order: seq<Announcement>, a: Announcement)
    ensures forall k :: Announces(order + [a], k) <==> Announces(order, k) || k == a.key
  {
    forall k ensures Announces(order + [a], k) <==> Announces(order, k) || k == a.key {
      if Announces(order, k) {
        var i :| 0 <= i < |order| && order[i].key == k;
        assert (order + [a])[i].key == k;
      }
      assert (order + [a])[|order|] == a;
    }
  }

  function OpenedBlocks(s: State, a: Announcement, m: map<nat, Assembled>): map<nat, Assembled> {
    m[s.nextIndex := Started(Some(ToolBlock(Some(a.item), s.syntheticSeq))).(json := "")]
  }

  lemma OpenedQueue(s0: State, order: seq<Announcement>, s: State, m: map<nat, Assembled>, a: Announcement)
    requires Queue(s0, order, s, m) && Keyed(order + [a]) && s.waiting == [] && !InFlight(s)
    requires s.nextIndex == s0.nextIndex + |order| && s.syntheticSeq == s0.syntheticSeq + Unnamed(order, |order|)
    requires a.key !in s.calls && a.key !in s.blocks
    ensures Queue(s0, order + [a], OpenedState(AddedState(s, a.key, a.item), a.key), OpenedBlocks(s, a, m))
  {
    var r := OpenedState(AddedState(s, a.key, a.item), a.key);
    var m' := OpenedBlocks(s, a, m);
    var order' := order + [a];
    OpenedDone(s0, order, s, m);
    hide InFlight, LastOpen, OpenedBlocks, Shown, HasId;
    NewShown(s0, order, s, m, a);
    forall i | 0 <= i < |order| ensures Shown(s0, order', i, r, m') {
      OpenedShown(s0, order, s, m, a, i);
    }
    assert LastOpen(s0, order', r) by { OpenedLast(s0, order, s, a); }
  }

  lemma OpenedLast(s0: State, order: seq<Announcement>, s: State, a: Announcement)
    requires s.waiting == [] && s.nextIndex == s0.nextIndex + |order| && Keyed(order + [a])
    requires forall i :: 0 <= i < |order| ==> order[i].key in s.calls && s.calls[order[i].key].done
    ensures LastOpen(s0, order + [a], OpenedState(AddedState(s, a.key, a.item), a.key))
  {
    hide HasId;
    assert (order + [a])[|order|] == a;
  }

  lemma NewShown(s0: State, order: seq<Announcement>, s: State, m: map<nat, Assembled>, a: Announcement)
    requires s.nextIndex == s0.nextIndex + |order| && s.syntheticSeq == s0.syntheticSeq + Unnamed(order, |order|)
    ensures Shown(s0, order + [a], |order|, OpenedState(AddedState(s, a.key, a.item), a.key), OpenedBlocks(s, a, m))
  {
    hide HasId, ToolBlock;
    UnnamedPrefix(order, a, |order|);
    assert (order + [a])[|order|] == a;
  }

  /** A call that has its block already keeps it. */
  lemma OpenedShown(s0: State, order: seq<Announcement>, s: State, m: map<nat, Assembled>, a: Announcement, i: nat)
    requires i < |order| && Shown(s0, order, i, s, m) && a.key !in s.calls && s.nextIndex == s0.nextIndex + |order|
    ensures Shown(s0, order + [a], i, OpenedState(AddedState(s, a.key, a.item), a.key), OpenedBlocks(s, a, m))
  {
    hide HasId, ToolBlock, BatchBlock;
    BatchBlockPrefix(order, a, i, s0.syntheticSeq, s.calls[order[i].key].args);
    assert (order + [a])[i] == order[i];
  }

  /** A call announced when no one waits and none is in flight gets the next block at once. */
  lemma OpenedMid(s0: State, m0: map<nat, Assembled>, order: seq<Announcement>, s: State, m: map<nat, Assembled>,
      a: Announcement)
    requires Mid(s0, m0, order, s, m) && Keyed(order + [a]) && s.waiting == [] && !InFlight(s)
    requires a.key !in s.calls && a.key !in s.blocks
    ensures Mid(s0, m0, order + [a], OpenedState(AddedState(s, a.key, a.item), a.key), OpenedBlocks(s, a, m))
  {
    hide Queue, InFlight, ToolBlock;
    OpenedQueue(s0, order, s, m, a);
    UnnamedPrefix(order, a, |order|);
    AnnouncesMore(order, a);
  }

  /** What placing a new call leaves: the queue intact, the new call with nothing in it, the others as they were. */
  ghost predicate Announced(s0: State, m0: map<nat, Assembled>, order: seq<Announcement>, s: State,
      m: map<nat, Assembled>, a: Announcement, r: Step) {
    && Mid(s0, m0, order + [a], r.state, AssembleAll(m, r.out))
    && (r.state.waiting != [] ==> InFlight(r.state))
    && a.key in r.state.calls && r.state.calls[a.key].args == "" && !r.state.calls[a.key].done
    && forall k <- s.calls :: k in r.state.calls && r.state.calls[k] == s.calls[k]
  }

  lemma AddedInFlight(s: State, a: Announcement)
    requires a.key !in s.calls && (s.open.Open? ==> s.open.outputIndex != a.key)
    ensures InFlight(AddedState(s, a.key, a.item)) == InFlight(s)
    ensures TouchCall(s, a.key, Some(a.item)) == AddedState(s, a.key, a.item)
  {
  }

  /** The announcement of a new call: it is placed, at once or in the queue. */
  lemma AnnounceMid(s0: State, m0: map<nat, Assembled>, order: seq<Announcement>, s: State, m: map<nat, Assembled>,
      a: Announcement)
    requires Mid(s0, m0, order, s, m) && Keyed(order + [a]) && (s.waiting != [] ==> InFlight(s))
    requires a.key !in s.calls && a.key !in s.blocks
    ensures Announced(s0, m0, order, s, m, a, Place(TouchCall(s, a.key, Some(a.item)), a.key))
  {
    AddedInFlight(s, a);
    NotWaiting(s0, m0, order, s, m, a.key);
    if InFlight(s) { AnnouncedQueues(s0, m0, order, s, m, a); } else { AnnouncedOpens(s0, m0, order, s, m, a); }
  }

  lemma AnnouncedQueues(s0: State, m0: map<nat, Assembled>, order: seq<Announcement>, s: State,
      m: map<nat, Assembled>, a: Announcement)
    requires Mid(s0, m0, order, s, m) && Keyed(order + [a]) && InFlight(s)
    requires a.key !in s.calls && a.key !in s.blocks && a.key !in s.waiting
    ensures Announced(s0, m0, order, s, m, a, Place(AddedState(s, a.key, a.item), a.key))
  {
    AddedInFlight(s, a);
    QueuedMid(s0, m0, order, s, m, a);
    AssembleNothing(m);
    hide Mid, AssembleAll, InFlight;
    var t := AddedState(s, a.key, a.item);
    assert Place(t, a.key) == Step(t.(waiting := s.waiting + [a.key]), []);
    assert InFlight(t.(waiting := s.waiting + [a.key])) by { StillInFlight(t, s.waiting + [a.key]); }
  }

  lemma StillInFlight(s: State, waiting: seq<int>)
    ensures InFlight(s.(waiting := waiting)) == InFlight(s)
  {
  }

  lemma AnnouncedOpens(s0: State, m0: map<nat, Assembled>, order: seq<Announcement>, s: State,
      m: map<nat, Assembled>, a: Announcement)
    requires Mid(s0, m0, order, s, m) && Keyed(order + [a]) && s.waiting == [] && !InFlight(s)
    requires a.key !in s.calls && a.key !in s.blocks
    ensures Announced(s0, m0, order, s, m, a, Place(AddedState(s, a.key, a.item), a.key))
  {
    var t := AddedState(s, a.key, a.item);
    AddedInFlight(s, a);
    OpenedMid(s0, m0, order, s, m, a);
    OpenCallState(t, a.key);
    OpenCallAssembles(t, a.key, m);
    hide Mid, AssembleAll, OpenCall, InFlight;
    assert Place(t, a.key) == OpenCall(t, a.key);
  }

  lemma NotWaiting(s0: State, m0: map<nat, Assembled>, order: seq<Announcement>, s: State, m: map<nat, Assembled>,
      k: int)
    requires Mid(s0, m0, order, s, m) && k !in s.calls
    ensures k !in s.waiting
  {
    forall j | 0 <= j < |s.waiting| ensures s.waiting[j] != k {
      assert Waits(order, Opened(order, s) + j, s);
    }
  }

  // A call ends.

  function DoneState(s: State, k: int): State
    requires k in s.calls
  {
    s.(calls := s.calls[k := s.calls[k].(done := true)], open := if IsOpenTool(s, k) then Closed else s.open)
  }

  lemma DoneFrame(s0: State, m0: map<nat, Assembled>, order: seq<Announcement>, s: State, m: map<nat, Assembled>,
      k: int)
    requires Frame(s0, m0, order, s, m) && k in s.calls
    ensures Frame(s0, m0, order, DoneState(s, k), m)
  {
    hide Unnamed;
  }

  lemma DoneMid(s0: State, m0: map<nat, Assembled>, order: seq<Announcement>, s: State, m: map<nat, Assembled>, j: nat)
    requires Mid(s0, m0, order, s, m) && Keyed(order) && j < |order|
    requires order[j].key in s.calls && !s.calls[order[j].key].done
    ensures Mid(s0, m0, order, DoneState(s, order[j].key), m)
  {
    var n := Opened(order, s);
    var r := DoneState(s, order[j].key);
    CallPosition(s0, m0, order, s, m, j);
    assert n != 0 by { if j >= n { assert Waits(order, j, s); } }
    hide Shown, Waits, Frame;
    DoneFrame(s0, m0, order, s, m, order[j].key);
    forall i | 0 <= i < n ensures Shown(s0, order, i, r, m) { ShownKeeps(s0, order, i, s, m, r, m); }
    forall i | n <= i < |order| ensures Waits(order, i, r) { WaitsKeeps(order, i, s, r); }
    assert LastOpen(s0, order, r);
  }

  lemma CloseDone(s0: State, m0: map<nat, Assembled>, order: seq<Announcement>, s: State, m: map<nat, Assembled>,
      j: nat)
    requires Mid(s0, m0, order, s, m) && Keyed(order) && j < |order|
    requires order[j].key in s.calls && !s.calls[order[j].key].done
    ensures var k := order[j].key;
            var r := CloseIfOpen(s.(calls := s.calls[k := s.calls[k].(done := true)]), k);
            r.state == DoneState(s, k) && AssembleAll(m, r.out) == m
  {
    hide AssembleAll;
    var k := order[j].key;
    CallPosition(s0, m0, order, s, m, j);
    CloseOpenAssembles(s, m);
    AssembleNothing(m);
  }

  // One event, and a run of them.

  lemma BatchGrows(events: seq<Event>, e: Event)
    ensures forall k :: Arguments(events + [e], k)
                        == if CallOf(e) == Some(k) then Fold(Arguments(events, k), e) else Arguments(events, k)
    ensures forall k :: Finished(events + [e], k) <==> Finished(events, k) || (CallOf(e) == Some(k) && e.body.ItemDone?)
  {
    assert (events + [e])[..|events|] == events;
    forall k ensures Finished(events + [e], k) <==> Finished(events, k) || (CallOf(e) == Some(k) && e.body.ItemDone?) {
      assert forall x :: x in events + [e] <==> x in events || x == e;
    }
  }

  lemma OrderGrows(events: seq<Event>, e: Event)
    requires Orderly(events + [e])
    ensures Orderly(events)
    ensures match CallOf(e)
            case None => Silent(e) && Order(events + [e]) == Order(events)
            case Some(k) =>
              && !Finished(events, k)
              && if Announces(Order(events), k) then Order(events + [e]) == Order(events)
                 else e.body.ItemAdded? && Order(events + [e]) == Order(events) + [Announcement(k, e.body.item)]
  {
    assert (events + [e])[..|events|] == events;
  }

  lemma SilentPush(s: State, e: Event, m: map<nat, Assembled>)
    requires Silent(e) && !s.ended
    ensures var r := Push(s, e);
            && (r.state == s || r.state == EnsureStarted(s, e.response).state)
            && AssembleAll(m, r.out) == m
  {
    AssembleNothing(m);
    if e.Event? {
      var started := EnsureStarted(s, e.response);
      assert started.out + [] == started.out;
      if !s.started { AssembleOne(m, started.out[0]); }
    }
  }

  lemma StartedMid(s0: State, m0: map<nat, Assembled>, order: seq<Announcement>, s: State, m: map<nat, Assembled>,
      response: Option<Response>)
    requires Mid(s0, m0, order, s, m)
    ensures Mid(s0, m0, order, EnsureStarted(s, response).state, m)
  {
    hide Shown, Waits, Unnamed;
    var t := EnsureStarted(s, response).state;
    forall i | 0 <= i < Opened(order, s) ensures Shown(s0, order, i, t, m) { ShownKeeps(s0, order, i, s, m, t, m); }
    forall i | Opened(order, s) <= i < |order| ensures Waits(order, i, t) { WaitsKeeps(order, i, s, t); }
  }

  /** `r` continues from `s` with the calls' queue intact and their contents those of `t`. */
  ghost predicate Continues(s0: State, m0: map<nat, Assembled>, order: seq<Announcement>, t: State, r: Step,
      m: map<nat, Assembled>) {
    && Mid(s0, m0, order, r.state, AssembleAll(m, r.out))
    && (r.state.waiting != [] ==> InFlight(r.state))
    && SameCalls(t, r.state)
  }

  ghost predicate Unfinished(order: seq<Announcement>, s: State, j: nat) {
    && j < |order| && Keyed(order)
    && order[j].key in s.calls && !s.calls[order[j].key].done
    && (s.waiting != [] ==> InFlight(s))
  }

  lemma GatherStep(s0: State, m0: map<nat, Assembled>, order: seq<Announcement>, s: State, m: map<nat, Assembled>,
      j: nat, args: string)
    requires Mid(s0, m0, order, s, m) && Unfinished(order, s, j) && s.calls[order[j].key].args <= args
    ensures Continues(s0, m0, order, GrownState(s, order[j].key, args),
            Place(SetArgs(s, order[j].key, args), order[j].key), m)
  {
    hide Mid, AssembleAll, Place, SetArgs, GrownBlocks;
    var k := order[j].key;
    CallPosition(s0, m0, order, s, m, j);
    GrowEffect(s, k, args, m);
    GrownMid(s0, m0, order, s, m, j, args);
    GrownSame(s, k, args);
    hide IsOpenTool, InFlight, GrownState;
  }

  lemma GrownSame(s: State, k: int, args: string)
    requires k in s.calls
    ensures InFlight(GrownState(s, k, args)) == InFlight(s) && GrownState(s, k, args).waiting == s.waiting
    ensures SameCalls(GrownState(s, k, args), GrownState(s, k, args))
  {
  }

  lemma FinishStep(s0: State, m0: map<nat, Assembled>, order: seq<Announcement>, s: State, m: map<nat, Assembled>,
      j: nat)
    requires Mid(s0, m0, order, s, m) && Unfinished(order, s, j)
    ensures Continues(s0, m0, order, DoneState(s, order[j].key), FinishCall(s, order[j].key), m)
  {
    hide Mid, AssembleAll, Drain, InFlight;
    var k := order[j].key;
    CloseDone(s0, m0, order, s, m, j);
    DoneMid(s0, m0, order, s, m, j);
    DrainMid(s0, m0, order, DoneState(s, k), m);
    var closed := CloseIfOpen(s.(calls := s.calls[k := s.calls[k].(done := true)]), k);
    AssembleConcat(m, closed.out, Drain(closed.state).out);
  }

  lemma DoneStep(s0: State, m0: map<nat, Assembled>, order: seq<Announcement>, s: State, m: map<nat, Assembled>,
      j: nat, item: Item)
    requires Mid(s0, m0, order, s, m) && Unfinished(order, s, j) && item.FunctionCall?
    ensures var k := order[j].key;
            Continues(s0, m0, order,
                DoneState(GrownState(s, k, CompletedArguments(s.calls[k].args, item.arguments)), k),
                      OnCallDone(s, k, item), m)
  {
    hide Mid, AssembleAll, Place, FinishCall, InFlight, CompletedArguments;
    var k := order[j].key;
    CallPosition(s0, m0, order, s, m, j);
    assert TouchCall(s, k, Some(item)) == s;
    var args := CompletedArguments(s.calls[k].args, item.arguments);
    GatherStep(s0, m0, order, s, m, j, args);
    var placed := Place(SetArgs(s, k, args), k);
    var m' := AssembleAll(m, placed.out);
    FinishStep(s0, m0, order, placed.state, m', j);
    AssembleConcat(m, placed.out, FinishCall(placed.state, k).out);
  }

  /** An event of a call that is there already: what it has is placed, and its last event ends it. */
  lemma HandleCall(s: State, e: Event, k: int)
    requires k in s.calls && s.calls[k].item.Some? && CallOf(e) == Some(k)
    ensures if e.body.ItemDone?
            then e.body.item.FunctionCall? && Handle(s, e.response, e.body) == OnCallDone(s, k, e.body.item)
            else Handle(s, e.response, e.body) == Place(SetArgs(s, k, Fold(s.calls[k].args, e)), k)
  {
    hide Place, OnCallDone, CompletedArguments;
    if e.body.ItemAdded? { assert SetArgs(s, k, s.calls[k].args) == s; }
  }

  lemma FoldGrows(args: string, e: Event)
    ensures args <= Fold(args, e)
  {
  }

  lemma FoldEnds(args: string, e: Event)
    requires e.Event? && e.body.ItemDone? && e.body.item.FunctionCall?
    ensures Fold(args, e) == CompletedArguments(args, e.body.item.arguments)
  {
  }

  /** What an event of an announced, unfinished call does. */
  lemma CallStep(s0: State, m0: map<nat, Assembled>, order: seq<Announcement>, s: State, m: map<nat, Assembled>,
      j: nat, e: Event)
    requires Mid(s0, m0, order, s, m) && Unfinished(order, s, j) && CallOf(e) == Some(order[j].key)
    ensures var k := order[j].key;
            var grown := GrownState(s, k, Fold(s.calls[k].args, e));
            Continues(s0, m0, order, if e.body.ItemDone? then DoneState(grown, k)
                else grown, Handle(s, e.response, e.body), m)
  {
    var k := order[j].key;
    CallPosition(s0, m0, order, s, m, j);
    HandleCall(s, e, k);
    hide Mid, Continues, Place, OnCallDone, Handle, Fold, GrownState, DoneState, SetArgs, CompletedArguments;
    if e.body.ItemDone? {
      FoldEnds(s.calls[k].args, e);
      DoneStep(s0, m0, order, s, m, j, e.body.item);
    } else {
      FoldGrows(s.calls[k].args, e);
      GatherStep(s0, m0, order, s, m, j, Fold(s.calls[k].args, e));
    }
  }

  lemma StartAssembles(s: State, response: Option<Response>, m: map<nat, Assembled>)
    ensures AssembleAll(m, EnsureStarted(s, response).out) == m
  {
    AssembleNothing(m);
    if !s.started { AssembleOne(m, EnsureStarted(s, response).out[0]); }
  }

  lemma GatheredAfter(events: seq<Event>, e: Event, s: State, k: int, r: State, other: int)
    requires Gathered(events, k, s) && Gathered(events, other, s) && CallOf(e) == Some(k)
    requires var grown := GrownState(s, k, Fold(s.calls[k].args, e));
             SameCalls(if e.body.ItemDone? then DoneState(grown, k) else grown, r)
    ensures Gathered(events + [e], other, r)
  {
    hide Fold, Arguments, Finished;
    BatchGrows(events, e);
  }

  lemma OldCallFacts(s0: State, m0: map<nat, Assembled>, events: seq<Event>, e: Event, s: State,
      m: map<nat, Assembled>, j: nat)
    requires Tracked(s0, m0, events, s, m) && Orderly(events + [e])
    requires j < |Order(events)| && CallOf(e) == Some(Order(events)[j].key)
    ensures Mid(s0, m0, Order(events), s, m) && Unfinished(Order(events), s, j) && Order(events + [e]) == Order(events)
    ensures forall i :: 0 <= i < |Order(events)| ==> Gathered(events, Order(events)[i].key, s)
  {
    OrderGrows(events, e);
    KeyedOrder(events);
    hide Order, Orderly, Arguments, Mid, InFlight, Finished;
    assert Announces(Order(events), Order(events)[j].key);
    assert Gathered(events, Order(events)[j].key, s);
  }

  lemma OldCall(s0: State, m0: map<nat, Assembled>, events: seq<Event>, e: Event, s: State, m: map<nat, Assembled>,
      j: nat)
    requires Tracked(s0, m0, events, s, m) && Orderly(events + [e])
    requires j < |Order(events)| && CallOf(e) == Some(Order(events)[j].key)
    ensures var r := Handle(s, e.response, e.body); Tracked(s0, m0, events + [e], r.state, AssembleAll(m, r.out))
  {
    OldCallFacts(s0, m0, events, e, s, m, j);
    hide Order, Orderly, Fold, AssembleAll, Handle, Mid, InFlight, Unfinished, CallOf, GrownState, DoneState, SameCalls,
      Gathered;
    var order := Order(events);
    var k := order[j].key;
    CallStep(s0, m0, order, s, m, j, e);
    var r := Handle(s, e.response, e.body).state;
    forall i | 0 <= i < |order| ensures Gathered(events + [e], order[i].key, r) {
      GatheredAfter(events, e, s, k, r, order[i].key);
    }
  }

  lemma NewGathered(events: seq<Event>, e: Event, s: State, order: seq<Announcement>, a: Announcement, r: State, i: nat)
    requires i < |order + [a]| && Keyed(order + [a]) && CallOf(e) == Some(a.key) && e.body.ItemAdded?
    requires i < |order| ==> Gathered(events, order[i].key, s)
    requires Arguments(events, a.key) == "" && !Finished(events, a.key)
    requires a.key in r.calls && r.calls[a.key].args == "" && !r.calls[a.key].done
    requires forall k <- s.calls :: k in r.calls && r.calls[k] == s.calls[k]
    ensures Gathered(events + [e], (order + [a])[i].key, r)
  {
    hide Arguments, Finished;
    BatchGrows(events, e);
    if i < |order| { assert (order + [a])[i] == order[i] && (order + [a])[|order|] == a; }
  }

  lemma NewCall(s0: State, m0: map<nat, Assembled>, events: seq<Event>, e: Event, s: State, m: map<nat, Assembled>,
      k: int)
    requires Tracked(s0, m0, events, s, m) && Orderly(events + [e]) && Unknown(s0, Order(events + [e]))
    requires CallOf(e) == Some(k) && !Announces(Order(events), k)
    ensures var r := Handle(s, e.response, e.body); Tracked(s0, m0, events + [e], r.state, AssembleAll(m, r.out))
  {
    var order := Order(events);
    OrderGrows(events, e);
    var a := Announcement(k, e.body.item);
    NothingYet(events, k);
    assert (order + [a])[|order|] == a && Keyed(order + [a]);
    hide Order, Arguments, Finished, Orderly, Queue, AssembleAll, Place, TouchCall, InFlight;
    AnnounceMid(s0, m0, order, s, m, a);
    var r := Handle(s, e.response, e.body).state;
    hide Mid, Gathered;
    forall i | 0 <= i < |order + [a]| ensures Gathered(events + [e], (order + [a])[i].key, r) {
      NewGathered(events, e, s, order, a, r, i);
    }
  }

  /** One more event keeps the translator level with the batch side. */
  lemma PushTracked(s0: State, m0: map<nat, Assembled>, events: seq<Event>, e: Event, s: State, m: map<nat, Assembled>)
    requires Tracked(s0, m0, events, s, m) && Orderly(events + [e]) && Unknown(s0, Order(events + [e]))
    ensures var r := Push(s, e); Tracked(s0, m0, events + [e], r.state, AssembleAll(m, r.out))
  {
    OrderGrows(events, e);
    hide Tracked, Orderly, Order, Unknown;
    if e.Event? { StartedTracked(s0, m0, events, s, m, e.response); }
    if CallOf(e).None? {
      SilentTracked(s0, m0, events, e, s, m);
    } else {
      NotEnded(s0, m0, events, s, m);
      var started := EnsureStarted(s, e.response);
      StartAssembles(s, e.response, m);
      CallTracked(s0, m0, events, e, started.state, m);
      hide Handle, AssembleAll, EnsureStarted;
      AssembleConcat(m, started.out, Handle(started.state, e.response, e.body).out);
    }
  }

  lemma NotEnded(s0: State, m0: map<nat, Assembled>, events: seq<Event>, s: State, m: map<nat, Assembled>)
    requires Tracked(s0, m0, events, s, m)
    ensures !s.ended
  {
  }

  lemma CallTracked(s0: State, m0: map<nat, Assembled>, events: seq<Event>, e: Event, s: State, m: map<nat, Assembled>)
    requires Tracked(s0, m0, events, s, m) && Orderly(events + [e]) && Unknown(s0, Order(events + [e]))
    requires CallOf(e).Some?
    ensures var r := Handle(s, e.response, e.body); Tracked(s0, m0, events + [e], r.state, AssembleAll(m, r.out))
  {
    hide Tracked, Orderly, Order, Unknown, Handle;
    var order, k := Order(events), CallOf(e).value;
    if Announces(order, k) {
      var j :| 0 <= j < |order| && order[j].key == k;
      OldCall(s0, m0, events, e, s, m, j);
    } else {
      NewCall(s0, m0, events, e, s, m, k);
    }
  }

  lemma SilentTracked(s0: State, m0: map<nat, Assembled>, events: seq<Event>, e: Event, s: State,
      m: map<nat, Assembled>)
    requires Tracked(s0, m0, events, s, m) && CallOf(e).None? && Silent(e)
    requires e.Event? ==> Tracked(s0, m0, events, EnsureStarted(s, e.response).state, m)
    requires Order(events + [e]) == Order(events)
    ensures var r := Push(s, e); Tracked(s0, m0, events + [e], r.state, AssembleAll(m, r.out))
  {
    NotEnded(s0, m0, events, s, m);
    SilentPush(s, e, m);
    hide Order, Arguments, Finished, AssembleAll, Mid, Silent, Push, EnsureStarted;
    var r := Push(s, e).state;
    assert Tracked(s0, m0, events, r, m);
    BatchGrows(events, e);
    forall i | 0 <= i < |Order(events)| ensures Gathered(events + [e], Order(events)[i].key, r) {
      assert Gathered(events, Order(events)[i].key, r);
    }
  }

  lemma StartedTracked(s0: State, m0: map<nat, Assembled>, events: seq<Event>, s: State, m: map<nat, Assembled>,
      response: Option<Response>)
    requires Tracked(s0, m0, events, s, m)
    ensures Tracked(s0, m0, events, EnsureStarted(s, response).state, m)
  {
    hide Order, Arguments, Finished;
    StartedMid(s0, m0, Order(events), s, m, response);
    hide Mid;
    forall i | 0 <= i < |Order(events)|
        ensures Gathered(events, Order(events)[i].key, EnsureStarted(s, response).state) {
      assert Gathered(events, Order(events)[i].key, s);
    }
  }

  /** A call no event has announced has gathered nothing. */
  lemma {:induction false} NothingYet(events: seq<Event>, k: int)
    requires Orderly(events) && !Announces(Order(events), k)
    ensures Arguments(events, k) == "" && !Finished(events, k)
  {
    if events != [] {
      var before := events[..|events| - 1];
      var e := events[|events| - 1];
      assert events == before + [e];
      OrderGrows(before, e);
      BatchGrows(before, e);
      if e.Event? && e.body.ItemAdded? { AnnouncesMore(Order(before), Announcement(e.body.outputIndex, e.body.item)); }
      NothingYet(before, k);
    }
  }

  lemma {:induction false} PushAllSnoc(s: State, events: seq<Event>, e: Event)
    ensures var before := PushAll(s, events); var last := Push(before.state, e);
            PushAll(s, events + [e]) == Step(last.state, before.out + last.out)
    decreases |events|
  {
    hide Push;
    if events == [] {
      assert [e][1..] == [];
      assert PushAll(s, [e]).out == Push(s, e).out + [] == [] + Push(s, e).out;
    } else {
      assert (events + [e])[1..] == events[1..] + [e];
      PushAllSnoc(Push(s, events[0]).state, events[1..], e);
    }
  }

  lemma UnknownBefore(s: State, events: seq<Event>, e: Event)
    requires Orderly(events + [e]) && Unknown(s, Order(events + [e]))
    ensures Orderly(events) && Unknown(s, Order(events))
  {
    OrderGrows(events, e);
    forall i | 0 <= i < |Order(events)| ensures Order(events)[i].key !in s.calls && Order(events)[i].key !in s.blocks {
      assert Order(events + [e])[i] == Order(events)[i];
    }
  }

  lemma {:induction false} RunTracked(s0: State, m0: map<nat, Assembled>, events: seq<Event>)
    requires Quiet(s0) && Orderly(events) && Unknown(s0, Order(events))
    ensures var r := PushAll(s0, events); Tracked(s0, m0, events, r.state, AssembleAll(m0, r.out))
  {
    if events == [] {
      AssembleNothing(m0);
    } else {
      var before := events[..|events| - 1];
      var e := events[|events| - 1];
      assert events == before + [e];
      UnknownBefore(s0, before, e);
      RunTracked(s0, m0, before);
      hide Tracked, Push, AssembleAll, Orderly, Unknown;
      var r := PushAll(s0, before);
      PushTracked(s0, m0, before, e, r.state, AssembleAll(m0, r.out));
      PushAllSnoc(s0, before, e);
      AssembleConcat(m0, r.out, Push(r.state, e).out);
    }
  }

  // The end of the calls: whatever settles them, no call is left out.

  function EndedState(s: State, order: seq<Announcement>): State {
    s.(calls := AllDone(s.calls), open := if order == [] then s.open else Closed)
  }

  lemma EndedMid(s0: State, m0: map<nat, Assembled>, order: seq<Announcement>, s: State, m: map<nat, Assembled>)
    requires Mid(s0, m0, order, s, m)
    ensures Mid(s0, m0, order, EndedState(s, order), m)
  {
    hide Shown, Waits, Unnamed;
    var t := EndedState(s, order);
    forall i | 0 <= i < Opened(order, s) ensures Shown(s0, order, i, t, m) { ShownKeeps(s0, order, i, s, m, t, m); }
    forall i | Opened(order, s) <= i < |order| ensures Waits(order, i, t) { WaitsKeeps(order, i, s, t); }
  }

  /** Once every call is finished the drain leaves no one waiting. */
  lemma DrainEnded(s0: State, m0: map<nat, Assembled>, order: seq<Announcement>, s: State, m: map<nat, Assembled>)
    requires Mid(s0, m0, order, s, m) && Keyed(order)
    requires forall k <- s.calls :: s.calls[k].done
    ensures var r := Drain(s);
            Mid(s0, m0, order, r.state, AssembleAll(m, r.out)) && SameCalls(s, r.state) && r.state.waiting == []
  {
    hide Mid, Drain, AssembleAll;
    DrainMid(s0, m0, order, s, m);
  }

  lemma SameDrain(s: State, order: seq<Announcement>)
    requires s.waiting != [] && s.waiting[0] in s.calls
    ensures var t := s.(calls := AllDone(s.calls)); var u := EndedState(s, order);
            && !InFlight(t) && !InFlight(u) && DrainedState(t) == DrainedState(u) && SameCalls(t, u)
            && forall k <- t.calls :: t.calls[k].done
  {
    hide HasId;
  }

  /** Settling from a running call's state drains as if the open block had been closed first. */
  lemma DrainAllDone(s0: State, m0: map<nat, Assembled>, order: seq<Announcement>, s: State, m: map<nat, Assembled>)
    requires Mid(s0, m0, order, s, m) && Keyed(order)
    ensures var t := s.(calls := AllDone(s.calls)); var r := Drain(t);
            if s.waiting == [] then r == Step(t, [])
            else
              && Mid(s0, m0, order, r.state, AssembleAll(m, r.out)) && SameCalls(t, r.state)
              && r.state.waiting == []
  {
    var t := s.(calls := AllDone(s.calls));
    var u := EndedState(s, order);
    EndedMid(s0, m0, order, s, m);
    if s.waiting != [] {
      FirstWaits(s0, order, u, m);
      hide Mid, Queue, Frame, AssembleAll, DrainOne;
      SameDrain(s, order);
      DrainOneMid(s0, m0, order, u, m);
      DrainOneEffect(t, m);
      DrainOneEffect(u, m);
      hide EndedState, AllDone, InFlight, DrainedState;
      var one := DrainOne(t);
      DrainEnded(s0, m0, order, one.state, AssembleAll(m, one.out));
      AssembleConcat(m, one.out, Drain(one.state).out);
    }
  }

  ghost predicate ShowsCall(s0: State, events: seq<Event>, i: nat, m: map<nat, Assembled>)
    requires i < |Order(events)|
  {
    && s0.nextIndex + i in m
    && m[s0.nextIndex + i] == BatchBlock(Order(events), i, s0.syntheticSeq, Arguments(events, Order(events)[i].key))
  }

  /** The assembled blocks are the batch's, at consecutive indices from where the calls began. */
  ghost predicate ShowsBatch(s0: State, m0: map<nat, Assembled>, events: seq<Event>, m: map<nat, Assembled>) {
    var order := Order(events);
    && (forall i :: 0 <= i < |order| ==> ShowsCall(s0, events, i, m))
    && (forall i: nat :: i < s0.nextIndex ==> (i in m <==> i in m0) && (i in m ==> m[i] == m0[i]))
    && (forall i: nat :: i in m ==> i in m0 || i < s0.nextIndex + |order|)
  }

  lemma MidShowsBatch(s0: State, m0: map<nat, Assembled>, events: seq<Event>, s: State, m: map<nat, Assembled>)
    requires Mid(s0, m0, Order(events), s, m) && s.waiting == []
    requires forall i :: 0 <= i < |Order(events)| ==>
               Order(events)[i].key in s.calls
                   && s.calls[Order(events)[i].key].args == Arguments(events, Order(events)[i].key)
    ensures ShowsBatch(s0, m0, events, m)
  {
    hide BatchBlock, Order, Arguments;
    forall i | 0 <= i < |Order(events)| ensures ShowsCall(s0, events, i, m) {
      assert Shown(s0, Order(events), i, s, m);
    }
  }

  lemma SettleShowsBatch(s0: State, m0: map<nat, Assembled>, events: seq<Event>, s: State, m: map<nat, Assembled>)
    requires Tracked(s0, m0, events, s, m)
    ensures ShowsBatch(s0, m0, events, AssembleAll(m, Settle(s).out))
    ensures Settle(s).state.nextIndex == s0.nextIndex + |Order(events)|
  {
    hide AssembleAll, Drain, Order, Arguments, Finished, InFlight, Queue;
    var order := Order(events);
    var t := s.(calls := AllDone(s.calls));
    var r := Drain(t);
    KeyedOrder(events);
    DrainAllDone(s0, m0, order, s, m);
    CloseOpenAssembles(r.state, AssembleAll(m, r.out));
    AssembleConcat(m, r.out, CloseOpen(r.state).out);
    forall i | 0 <= i < |order|
        ensures order[i].key in s.calls && s.calls[order[i].key].args == Arguments(events, order[i].key) {
      assert Gathered(events, order[i].key, s);
    }
    if s.waiting == [] {
      AssembleNothing(m);
      MidShowsBatch(s0, m0, events, s, m);
    } else {
      MidShowsBatch(s0, m0, events, r.state, AssembleAll(m, r.out));
    }
  }

  lemma KeyedOrder(events: seq<Event>)
    ensures Keyed(Order(events))
  {
  }

  /**
   * The calls of a segment, from any state between calls: whatever their interleaving and wherever the segment
   * ends, once the calls are settled (by another item, a terminal event or the end of the stream) the blocks
   * from the next index on are the calls in the order announced, each with its own arguments in full, and no
   * earlier block has changed.
   */
  lemma CallsRefineBatch(s0: State, m0: map<nat, Assembled>, events: seq<Event>)
    requires Quiet(s0) && Orderly(events) && Unknown(s0, Order(events))
    ensures var pushed := PushAll(s0, events);
            var settled := Settle(pushed.state);
            && ShowsBatch(s0, m0, events, AssembleAll(m0, pushed.out + settled.out))
            && settled.state.nextIndex == s0.nextIndex + |Order(events)|
  {
    var pushed := PushAll(s0, events);
    hide AssembleAll, PushAll, Settle, Tracked, ShowsBatch, Order, Orderly;
    RunTracked(s0, m0, events);
    SettleShowsBatch(s0, m0, events, pushed.state, AssembleAll(m0, pushed.out));
    AssembleConcat(m0, pushed.out, Settle(pushed.state).out);
  }

  /** The message a turn of calls makes, from the batch side alone. */
  function Batch(events: seq<Event>): map<nat, Assembled> {
    var order := Order(events);
    map i: nat | i < |order| :: BatchBlock(order, i, 0, Arguments(events, order[i].key))
  }

  /** A terminal event, or an error in its place. */
  predicate Ends(e: Event) {
    e.Event? && (e.body.Terminal? || e.body.UpstreamError?)
  }

  /** The events before the one that ends the stream: all of them when it was cut off. */
  function BeforeEnd(events: seq<Event>): seq<Event> {
    if events == [] || Ends(events[0]) then [] else [events[0]] + BeforeEnd(events[1..])
  }

  lemma {:induction false} BeforeEndSplits(calls: seq<Event>, after: seq<Event>)
    requires (forall e <- calls :: !Ends(e)) && (after == [] || Ends(after[0]))
    ensures BeforeEnd(calls + after) == calls
  {
    if calls == [] {
      assert calls + after == after;
    } else {
      assert (calls + after)[1..] == calls[1..] + after;
      BeforeEndSplits(calls[1..], after);
    }
  }

  /** Calls hold no event that ends the stream. */
  lemma {:induction false} OrderlyGoesOn(events: seq<Event>)
    requires Orderly(events)
    ensures forall e <- events :: !Ends(e)
  {
    if events != [] {
      OrderlyGoesOn(events[..|events| - 1]);
      assert events == events[..|events| - 1] + [events[|events| - 1]];
    }
  }

  /**
   * Of a turn of calls, what comes before the end is the calls, whether or not an end, and anything after it, follows.
   */
  lemma BeforeEndOfTurn(calls: seq<Event>, after: seq<Event>)
    requires Orderly(calls) && (after == [] || Ends(after[0]))
    ensures BeforeEnd(calls + after) == calls
  {
    OrderlyGoesOn(calls);
    BeforeEndSplits(calls, after);
  }

  /** The closing a stream gets: the message is started if it was not, and finished. */
  function Closing(s: State, started: Option<Response>, response: Option<Response>): seq<Out> {
    EnsureStarted(s, started).out + Finalize(EnsureStarted(s, started).state, response).out
  }

  lemma EndCloses(s: State, events: seq<Event>)
    requires !s.ended && (events == [] || Ends(events[0]))
    ensures exists started, response :: Translate(s, events).out == Closing(s, started, response)
  {
    hide Finalize, EnsureStarted, PushAll;
    if events == [] {
      Conservation.NothingLeft(s);
      assert Translate(s, events).out == Closing(s, None, None);
    } else {
      var e := events[0];
      var response := if e.body.Terminal? then e.response else None;
      Conservation.PushEnds(s, e, response);
      Conservation.TranslateUnfolds(s, events);
      Conservation.EndedTranslates(Push(s, e).state, events[1..]);
      assert Push(s, e).out + [] == Push(s, e).out;
      assert Translate(s, events).out == Closing(s, e.response, response);
    }
  }

  /** Every stream is its events before the end, and one closing; nothing after the end is heard. */
  lemma {:induction false} StreamCloses(s: State, events: seq<Event>)
    requires !s.ended
    ensures exists started, response ::
              var pushed := PushAll(s, BeforeEnd(events));
              Translate(s, events).out == pushed.out + Closing(pushed.state, started, response)
    decreases |events|
  {
    hide Closing, Push, Translate;
    if events == [] || Ends(events[0]) {
      EndCloses(s, events);
      var started, response :| Translate(s, events).out == Closing(s, started, response);
      var pushed := PushAll(s, BeforeEnd(events));
      assert pushed == Step(s, []) && [] + Closing(s, started, response) == Closing(s, started, response);
      assert Translate(s, events).out == pushed.out + Closing(pushed.state, started, response);
    } else {
      var one, rest := Push(s, events[0]), BeforeEnd(events[1..]);
      GoesOn(s, events[0]);
      StreamCloses(one.state, events[1..]);
      var pushed := PushAll(one.state, rest);
      var started, response :|
        Translate(one.state, events[1..]).out == pushed.out + Closing(pushed.state, started, response);
      Conservation.TranslateUnfolds(s, events);
      assert BeforeEnd(events) == [events[0]] + rest && BeforeEnd(events)[1..] == rest;
      assert one.out + (pushed.out + Closing(pushed.state, started, response))
          == (one.out + pushed.out) + Closing(pushed.state, started, response);
      var whole := PushAll(s, BeforeEnd(events));
      assert whole == Step(pushed.state, one.out + pushed.out);
      assert Translate(s, events).out == whole.out + Closing(whole.state, started, response);
    }
  }

  lemma GoesOn(s: State, e: Event)
    requires !s.ended && !Ends(e)
    ensures !Push(s, e).state.ended
  {
    if e.Event? {
      hide Push;
      Conservation.PushSays(s, e);
    }
  }

  /** Settled and closed, the calls so far are the batch, whatever the closing says. */
  lemma ClosedIsBatch(s0: State, events: seq<Event>, started: Option<Response>, response: Option<Response>)
    requires s0.nextIndex == 0 && s0.syntheticSeq == 0 && Quiet(s0) && Orderly(events) && Unknown(s0, Order(events))
    ensures var pushed := PushAll(s0, events);
            AssembleAll(map[], pushed.out + Closing(pushed.state, started, response)) == Batch(events)
  {
    var pushed := PushAll(s0, events);
    hide PushAll, Drain, AssembleAll, Order, Arguments, BatchBlock, Orderly, Tracked, Unknown;
    RunTracked(s0, map[], events);
    var m := AssembleAll(map[], pushed.out);
    var begun := EnsureStarted(pushed.state, started);
    StartedTracked(s0, map[], events, pushed.state, m, started);
    StartAssembles(pushed.state, started, m);
    var settled := Settle(begun.state);
    hide Settle;
    SettleShowsBatch(s0, map[], events, begun.state, m);
    var closing := [MessageDelta(DeriveStopReason(response, settled.state.sawToolCall)), MessageStop];
    assert Closing(pushed.state, started, response) == begun.out + (settled.out + closing);
    AssembleConcat(map[], pushed.out, begun.out + (settled.out + closing));
    AssembleConcat(m, begun.out, settled.out + closing);
    AssembleConcat(m, settled.out, closing);
    ClosingAssembles(AssembleAll(m, settled.out), closing);
    BatchIsShown(s0, events, AssembleAll(m, settled.out));
  }

  /**
   * A turn of calls folds to exactly the batch message, whether a terminal event or an error ended it, with anything
   * after that, or it was cut off after any event.
   */
  lemma TurnIsBatch(requestModel: Option<string>, events: seq<Event>)
    requires Orderly(BeforeEnd(events))
    ensures AssembleAll(map[], Translate(Initial(requestModel), events).out) == Batch(BeforeEnd(events))
  {
    var s0 := Initial(requestModel);
    var calls := BeforeEnd(events);
    hide PushAll, AssembleAll, Order, Arguments, BatchBlock, Orderly, Translate, Closing;
    StreamCloses(s0, events);
    var started, response :|
      Translate(s0, events).out == PushAll(s0, calls).out + Closing(PushAll(s0, calls).state, started, response);
    ClosedIsBatch(s0, calls, started, response);
  }

  lemma BatchIsShown(s0: State, events: seq<Event>, m: map<nat, Assembled>)
    requires ShowsBatch(s0, map[], events, m) && s0.nextIndex == 0 && s0.syntheticSeq == 0
    ensures m == Batch(events)
  {
    hide Order, Arguments, BatchBlock;
    forall i: nat ensures i in m <==> i in Batch(events) {
      if i < |Order(events)| { assert ShowsCall(s0, events, i, m); }
    }
    forall i: nat | i in m ensures m[i] == Batch(events)[i] {
      assert ShowsCall(s0, events, i, m);
    }
  }

  lemma ClosingAssembles(m: map<nat, Assembled>, closing: seq<Out>)
    requires |closing| == 2 && closing[0].MessageDelta? && closing[1].MessageStop?
    ensures AssembleAll(m, closing) == m
  {
    assert closing == [closing[0]] + [closing[1]];
    AssembleConcat(m, [closing[0]], [closing[1]]);
    AssembleOne(m, closing[0]);
    AssembleOne(m, closing[1]);
  }

  /** The events of one call alone. */
  function OfCall(events: seq<Event>, k: int): seq<Event> {
    if events == [] then []
    else
      var before := OfCall(events[..|events| - 1], k);
      var e := events[|events| - 1];
      if CallOf(e) == Some(k) then before + [e] else before
  }

  lemma {:induction false} ArgumentsOfCall(events: seq<Event>, k: int)
    ensures Arguments(OfCall(events, k), k) == Arguments(events, k)
  {
    if events != [] {
      var before := events[..|events| - 1];
      var e := events[|events| - 1];
      ArgumentsOfCall(before, k);
      if CallOf(e) == Some(k) {
        assert (OfCall(before, k) + [e])[..|OfCall(before, k)|] == OfCall(before, k);
      }
    }
  }

  /** Two interleavings of the same calls, announced in the same order, make the same message, however they end. */
  lemma InterleavingIrrelevant(requestModel: Option<string>, a: seq<Event>, b: seq<Event>)
    requires Orderly(BeforeEnd(a)) && Orderly(BeforeEnd(b)) && Order(BeforeEnd(a)) == Order(BeforeEnd(b))
    requires forall k :: OfCall(BeforeEnd(a), k) == OfCall(BeforeEnd(b), k)
    ensures AssembleAll(map[], Translate(Initial(requestModel), a).out)
            == AssembleAll(map[], Translate(Initial(requestModel), b).out)
  {
    hide AssembleAll, Translate, Orderly, Order, Arguments, BeforeEnd;
    TurnIsBatch(requestModel, a);
    TurnIsBatch(requestModel, b);
    forall k ensures Arguments(BeforeEnd(a), k) == Arguments(BeforeEnd(b), k) {
      ArgumentsOfCall(BeforeEnd(a), k);
      ArgumentsOfCall(BeforeEnd(b), k);
    }
  }
}
