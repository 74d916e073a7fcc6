/**
 * Prompt-cache breakpoints: the client's are stripped, at most two go on the system prompt, and one rolling
 * breakpoint and one anchor on the last two user turns that can carry one.
 */
module CacheBreakpoints {
  import opened Options

  /** A text block whose text is missing or no string counts as an empty one. */
  datatype Kind = TextBlock(text: string) | OtherBlock

  datatype Block = Block(kind: Kind, payload: nat, stamped: bool)

  datatype Content = Bare(text: string) | Blocks(blocks: seq<Block>)

  datatype Message = Message(user: bool, content: Content)

  datatype Tool = Tool(name: string, stamped: bool)

  predicate IsEmptyText(b: Block) {
    b.kind.TextBlock? && b.kind.text == ""
  }

  function Stamped(b: Block): Block {
    b.(stamped := true)
  }

  /** The last block that is no empty text, where a turn's breakpoint goes. */
  function StampIndex(blocks: seq<Block>): (r: Option<nat>)
    ensures r.Some? ==> r.value < |blocks| && !IsEmptyText(blocks[r.value])
    ensures forall k :: 0 <= k < |blocks| && (r.Some? ==> r.value < k) ==> IsEmptyText(blocks[k])
  {
    if blocks == [] then None
    else if IsEmptyText(blocks[|blocks| - 1]) then StampIndex(blocks[..|blocks| - 1])
    else Some(|blocks| - 1)
  }

  /** A user turn of blocks with something to stamp. */
  predicate Stampable(m: Message) {
    m.user && m.content.Blocks? && StampIndex(m.content.blocks).Some?
  }

  function StampTurn(m: Message): Message
    requires Stampable(m)
  {
    var i := StampIndex(m.content.blocks).value;
    m.(content := Blocks(m.content.blocks[i := Stamped(m.content.blocks[i])]))
  }

  /** The last `left` stampable turns get a breakpoint each. */
  function Place(messages: seq<Message>, left: nat): (r: seq<Message>)
    ensures |r| == |messages|
  {
    if messages == [] || left == 0 then messages
    else
      var before, last := messages[..|messages| - 1], messages[|messages| - 1];
      if Stampable(last) then Place(before, left - 1) + [StampTurn(last)] else Place(before, left) + [last]
  }

  lemma PlaceLast(before: seq<Message>, last: Message, left: nat)
    requires left > 0
    ensures Place(before + [last], left) ==
            if Stampable(last) then Place(before, left - 1) + [StampTurn(last)] else Place(before, left) + [last]
  {
    assert (before + [last])[..|before|] == before;
  }

  lemma UpdateMiddle(head: seq<Message>, was: Message, tail: seq<Message>, now: Message)
    ensures var s := head + [was] + tail;
            s[|head|] == was && s[|head| := now] == head + ([now] + tail)
  {
  }

  function Turned(m: Message): Message {
    if Stampable(m) then StampTurn(m) else m
  }

  /** The walk back over the conversation: what is before `i` is as it was, and `left` turns are still to be stamped. */
  ghost predicate Walked(all: seq<Message>, messages: seq<Message>, i: nat, left: nat, tail: seq<Message>) {
    i <= |all| && messages == all[..i] + tail && Place(all, 2) == Place(all[..i], left) + tail
  }

  lemma WalkStarts(all: seq<Message>)
    ensures Walked(all, all, |all|, 2, [])
  {
    assert all[..|all|] == all;
  }

  lemma WalkStep(all: seq<Message>, messages: seq<Message>, i: nat, left: nat, tail: seq<Message>)
    requires Walked(all, messages, i + 1, left, tail) && left > 0
    ensures i < |messages| && i < |all| && messages[i] == all[i]
    ensures Walked(all, messages[i := Turned(all[i])], i, if Stampable(all[i]) then left - 1 else left,
                [Turned(all[i])] + tail)
  {
    hide Place, Stampable, StampTurn;
    var turn, placed := Turned(all[i]), Place(all[..i], if Stampable(all[i]) then left - 1 else left);
    assert all[..i + 1] == all[..i] + [all[i]];
    PlaceLast(all[..i], all[i], left);
    UpdateMiddle(all[..i], all[i], tail, turn);
    assert placed + [turn] + tail == placed + ([turn] + tail);
  }

  lemma WalkEnds(all: seq<Message>, messages: seq<Message>, i: nat, left: nat, tail: seq<Message>)
    requires Walked(all, messages, i, left, tail) && (i == 0 || left == 0)
    ensures messages == Place(all, 2)
  {
    PlaceNone(all, i, left);
  }

  lemma PlaceNone(all: seq<Message>, i: nat, left: nat)
    requires i <= |all| && (i == 0 || left == 0)
    ensures Place(all[..i], left) == all[..i]
  {
  }

  function UnstampAll(blocks: seq<Block>): (r: seq<Block>)
    ensures |r| == |blocks| && forall k :: 0 <= k < |blocks| ==> r[k] == blocks[k].(stamped := false)
  {
    seq(|blocks|, k requires 0 <= k < |blocks| => blocks[k].(stamped := false))
  }

  function StripTurn(m: Message): Message {
    if m.content.Blocks? then m.(content := Blocks(UnstampAll(m.content.blocks))) else m
  }

  function StripTurns(messages: seq<Message>): (r: seq<Message>)
    ensures |r| == |messages| && forall k :: 0 <= k < |messages| ==> r[k] == StripTurn(messages[k])
  {
    seq(|messages|, k requires 0 <= k < |messages| => StripTurn(messages[k]))
  }

  function UnstampTools(tools: seq<Tool>): (r: seq<Tool>)
    ensures |r| == |tools| && forall k :: 0 <= k < |tools| ==> r[k] == tools[k].(stamped := false)
  {
    seq(|tools|, k requires 0 <= k < |tools| => tools[k].(stamped := false))
  }

  /** A genuine client's own system: its last two blocks, the first never, get the breakpoints. */
  function GenuineSystem(system: seq<Block>, billing: string): (r: seq<Block>)
    ensures |r| == |system|
  {
    seq(|system|, k requires 0 <= k < |system| =>
      var b := if k == 0 then Block(TextBlock(billing), system[k].payload, false) else system[k];
      b.(stamped := k >= 1 && k >= |system| - 2))
  }

  /** The template's system: the billing tag, the agent identity, and the prompt. */
  function TemplateSystem(billing: string, identity: string, prompt: string): seq<Block> {
    [Block(TextBlock(billing), 0, false), Block(TextBlock(identity), 0, true), Block(TextBlock(prompt), 0, true)]
  }

  /** A genuine client's system keeps its blocks, but for the text of the first, which is the billing tag. */
  lemma GenuineSystemKeeps(system: seq<Block>, billing: string)
    ensures var r := GenuineSystem(system, billing);
            && (system != [] ==> r[0] == Block(TextBlock(billing), system[0].payload, false))
            && forall k :: 1 <= k < |system| ==>
                 && r[k].kind == system[k].kind && r[k].payload == system[k].payload
                 && (r[k].stamped <==> k >= |system| - 2)
  {
  }

  /** The billing tag carries no breakpoint; the identity and the prompt behind it carry one each. */
  lemma TemplateStamps(billing: string, identity: string, prompt: string)
    ensures var r := TemplateSystem(billing, identity, prompt);
            && |r| == 3 && (forall k :: 0 <= k < 3 ==> (r[k].stamped <==> k >= 1))
            && r[0].kind == TextBlock(billing) && r[1].kind == TextBlock(identity) && r[2].kind == TextBlock(prompt)
  {
  }

  /** A request on its way out: its parts are replaced and edited in place by the build and by the placement. */
  class CcRequest {
    var system: seq<Block>
    var tools: seq<Tool>
    var messages: seq<Message>

    constructor (system: seq<Block>, tools: seq<Tool>, messages: seq<Message>)
      ensures this.system == system && this.tools == tools && this.messages == messages
    {
      this.system, this.tools, this.messages := system, tools, messages;
    }

    /** The client's own breakpoints on the conversation go. */
    method StripMessages()
      modifies this`messages
      ensures messages == StripTurns(old(messages))
    {
      for n := 0 to |messages|
        invariant |messages| == |old(messages)|
        invariant forall k :: 0 <= k < n ==> messages[k] == StripTurn(old(messages)[k])
        invariant forall k :: n <= k < |messages| ==> messages[k] == old(messages)[k]
      {
        if messages[n].content.Blocks? {
          messages := messages[n := messages[n].(content := Blocks(UnstampAll(messages[n].content.blocks)))];
        }
      }
    }

    /** A genuine client's body: its system and conversation, restamped. */
    method BuildGenuine(billing: string)
      requires |system| >= 2
      modifies this`system, this`messages
      ensures system == GenuineSystem(old(system), billing) && messages == StripTurns(old(messages))
    {
      var copy := UnstampAll(system);
      copy := copy[0 := Block(TextBlock(billing), copy[0].payload, false)];
      var from := if |copy| - 2 > 1 then |copy| - 2 else 1;
      for n := from to |copy|
        invariant |copy| == |system|
        invariant forall k :: 0 <= k < |copy| && k != 0 ==> copy[k] == system[k].(stamped := from <= k < n)
        invariant copy[0] == Block(TextBlock(billing), system[0].payload, false)
      {
        copy := copy[n := Stamped(copy[n])];
      }
      system := copy;
      StripMessages();
    }

    /** Any other client's body, dressed in the template's system. */
    method BuildTemplate(billing: string, identity: string, prompt: string)
      modifies this`system, this`messages
      ensures system == TemplateSystem(billing, identity, prompt) && messages == StripTurns(old(messages))
    {
      system := TemplateSystem(billing, identity, prompt);
      StripMessages();
    }

    /** Tools lose any stray breakpoint; the last two user turns that can carry one get theirs, walking backward. */
    method ApplyCcPromptCaching()
      modifies this`tools, this`messages
      ensures tools == UnstampTools(old(tools))
      ensures messages == Place(old(messages), 2)
    {
      tools := UnstampTools(tools);
      ghost var all := messages;
      ghost var tail: seq<Message> := [];
      hide Walked, Place, Stampable, StampTurn, UnstampTools;
      WalkStarts(all);
      var stamped := 0;
      var i := |messages|;
      while i > 0 && stamped < 2
        invariant 0 <= stamped <= 2 && i >= 0 && tools == UnstampTools(old(tools))
        invariant Walked(all, messages, i, 2 - stamped, tail)
      {
        i := i - 1;
        WalkStep(all, messages, i, 2 - stamped, tail);
        ghost var turn := Turned(all[i]);
        var placed := StampTurnAt(i);
        if placed { stamped := stamped + 1; }
        tail := [turn] + tail;
      }
      WalkEnds(all, messages, i, 2 - stamped, tail);
    }

    /** Stamp one turn, if it is a user turn of blocks that are not all empty text. */
    method StampTurnAt(i: nat) returns (placed: bool)
      requires i < |messages|
      modifies this`messages
      ensures placed <==> Stampable(old(messages[i]))
      ensures messages == old(messages)[i := if placed then StampTurn(old(messages[i])) else old(messages[i])]
    {
      placed := false;
      var m := messages[i];
      if m.user && m.content.Blocks? && |m.content.blocks| > 0 {
        var at := FindStampable(m.content.blocks);
        if at >= 0 {
          messages := messages[i := m.(content := Blocks(m.content.blocks[at := Stamped(m.content.blocks[at])]))];
          placed := true;
        }
      }
    }

    /** Walk back past empty text blocks; -1 when there is nothing else. */
    method FindStampable(blocks: seq<Block>) returns (at: int)
      ensures at == if StampIndex(blocks).Some? then StampIndex(blocks).value else -1
    {
      at := |blocks| - 1;
      while at >= 0 && IsEmptyText(blocks[at])
        invariant -1 <= at < |blocks|
        invariant StampIndex(blocks) == StampIndex(blocks[..at + 1])
      {
        assert blocks[..at + 1][..at] == blocks[..at];
        at := at - 1;
      }
    }
  }

  // Budget and legality.

  function CountBlocks(blocks: seq<Block>): nat {
    if blocks == [] then 0 else CountBlocks(blocks[..|blocks| - 1]) + if blocks[|blocks| - 1].stamped then 1 else 0
  }

  function CountMessages(messages: seq<Message>): nat {
    if messages == [] then 0
    else
      var last := messages[|messages| - 1].content;
      CountMessages(messages[..|messages| - 1]) + if last.Blocks? then CountBlocks(last.blocks) else 0
  }

  function CountTools(tools: seq<Tool>): nat {
    if tools == [] then 0 else CountTools(tools[..|tools| - 1]) + if tools[|tools| - 1].stamped then 1 else 0
  }

  lemma {:induction false} CountNone(blocks: seq<Block>)
    requires forall b <- blocks :: !b.stamped
    ensures CountBlocks(blocks) == 0
  {
    if blocks != [] { CountNone(blocks[..|blocks| - 1]); }
  }

  lemma {:induction false} CountStamp(blocks: seq<Block>, i: nat)
    requires i < |blocks|
    ensures CountBlocks(blocks[i := Stamped(blocks[i])]) <= CountBlocks(blocks) + 1
  {
    if i < |blocks| - 1 {
      CountStamp(blocks[..|blocks| - 1], i);
      assert blocks[i := Stamped(blocks[i])][..|blocks| - 1] == blocks[..|blocks| - 1][i := Stamped(blocks[i])];
    } else {
      assert blocks[i := Stamped(blocks[i])][..i] == blocks[..i];
    }
  }

  /** Placement adds no more breakpoints than it was given. */
  lemma {:induction false} CountPlaced(messages: seq<Message>, left: nat)
    ensures CountMessages(Place(messages, left)) <= CountMessages(messages) + left
  {
    if messages != [] && left > 0 {
      var before, last := messages[..|messages| - 1], messages[|messages| - 1];
      CountPlaced(before, left);
      CountPlaced(before, left - 1);
      if Stampable(last) {
        CountStamp(last.content.blocks, StampIndex(last.content.blocks).value);
        assert Place(messages, left)[..|messages| - 1] == Place(before, left - 1);
      } else {
        assert Place(messages, left)[..|messages| - 1] == Place(before, left);
      }
    }
  }

  lemma {:induction false} CountStripped(messages: seq<Message>)
    ensures CountMessages(StripTurns(messages)) == 0
  {
    if messages != [] {
      CountStripped(messages[..|messages| - 1]);
      assert StripTurns(messages)[..|messages| - 1] == StripTurns(messages[..|messages| - 1]);
      var last := StripTurns(messages)[|messages| - 1].content;
      if last.Blocks? { CountNone(last.blocks); }
    }
  }

  lemma {:induction false} CountSystem(blocks: seq<Block>, n: nat)
    requires n <= |blocks| && forall k :: 0 <= k < |blocks| - n ==> !blocks[k].stamped
    ensures CountBlocks(blocks) <= n
    decreases |blocks|
  {
    if n == 0 {
      CountNone(blocks);
    } else {
      CountSystem(blocks[..|blocks| - 1], n - 1);
    }
  }

  lemma {:induction false} CountUnstampedTools(tools: seq<Tool>)
    requires forall t <- tools :: !t.stamped
    ensures CountTools(tools) == 0
  {
    if tools != [] { CountUnstampedTools(tools[..|tools| - 1]); }
  }

  /** No breakpoint on an empty text block of the conversation. */
  ghost predicate Legal(m: Message) {
    m.content.Blocks? ==> forall b <- m.content.blocks :: b.stamped ==> !IsEmptyText(b)
  }

  lemma StampIsLegal(m: Message)
    requires Legal(m) && Stampable(m)
    ensures Legal(StampTurn(m))
  {
  }

  lemma {:induction false} PlacedIsLegal(messages: seq<Message>, left: nat)
    requires forall m <- messages :: Legal(m)
    ensures forall m <- Place(messages, left) :: Legal(m)
  {
    if messages != [] && left > 0 {
      var before, last := messages[..|messages| - 1], messages[|messages| - 1];
      PlacedIsLegal(before, left);
      PlacedIsLegal(before, left - 1);
      assert last in messages;
      if Stampable(last) { StampIsLegal(last); }
    }
  }

  /**
   * On both build paths the breakpoints after placement number at most four: at most two on the system prompt,
   * none on a tool, at most two on the conversation, and none of those on an empty text block.
   */
  method PlaceBreakpoints(request: CcRequest, genuine: bool, billing: string, identity: string, prompt: string)
    requires genuine ==> |request.system| >= 2
    modifies request
    ensures CountBlocks(request.system) + CountTools(request.tools) + CountMessages(request.messages) <= 4
    ensures forall m <- request.messages :: Legal(m)
    ensures request.messages == Place(StripTurns(old(request.messages)), 2)
    ensures request.system == if genuine then GenuineSystem(old(request.system), billing)
            else TemplateSystem(billing, identity, prompt)
  {
    ghost var stripped := StripTurns(request.messages);
    if genuine {
      request.BuildGenuine(billing);
    } else {
      request.BuildTemplate(billing, identity, prompt);
    }
    CountSystem(request.system, 2);
    request.ApplyCcPromptCaching();
    CountUnstampedTools(request.tools);
    CountStripped(old(request.messages));
    CountPlaced(stripped, 2);
    PlacedIsLegal(stripped, 2);
  }

  /**
   * The system prompt is not looked at: on the genuine path a breakpoint sits on an empty text block exactly when
   * one of the client's last two system blocks, the first aside, is one.
   */
  lemma GenuineSystemLegalIff(system: seq<Block>, billing: string)
    requires |system| >= 2
    ensures (forall b <- GenuineSystem(system, billing) :: b.stamped ==> !IsEmptyText(b)) <==>
            (forall k :: 1 <= k < |system| && k >= |system| - 2 ==> !IsEmptyText(system[k]))
  {
    var r := GenuineSystem(system, billing);
    forall k | 1 <= k < |system| && k >= |system| - 2
        ensures r[k] in r && r[k].stamped && (IsEmptyText(r[k]) <==> IsEmptyText(system[k])) {}
  }

  /** A genuine client whose last system block is empty text: the breakpoint goes on it all the same. */
  lemma EmptySystemBlockIsStamped(billing: string, identity: Block)
    ensures var system := [identity, identity, Block(TextBlock(""), 0, false)];
            var stamped := GenuineSystem(system, billing)[2];
            stamped.stamped && IsEmptyText(stamped)
  {
  }

  // Lining up across turns.

  /** The turn that carries the rolling breakpoint. */
  predicate Rolling(messages: seq<Message>, k: nat) {
    k < |messages| && Stampable(messages[k]) && forall j :: k < j < |messages| ==> !Stampable(messages[j])
  }

  lemma {:induction false} PlaceSkips(messages: seq<Message>, more: seq<Message>, left: nat)
    requires forall m <- more :: !Stampable(m)
    ensures Place(messages + more, left) == Place(messages, left) + more
  {
    if more == [] {
      assert messages + more == messages;
    } else if left > 0 {
      var all := messages + more;
      assert all[..|all| - 1] == messages + more[..|more| - 1];
      PlaceSkips(messages, more[..|more| - 1], left);
      assert more == more[..|more| - 1] + [more[|more| - 1]];
    }
  }

  /** The rolling breakpoint goes on the last stampable turn, whatever is left for the others. */
  lemma PlaceRolls(messages: seq<Message>, k: nat, left: nat)
    requires Rolling(messages, k) && left > 0
    ensures Place(messages, left) == Place(messages[..k], left - 1) + [StampTurn(messages[k])] + messages[k + 1..]
  {
    assert messages == messages[..k + 1] + messages[k + 1..];
    PlaceSkips(messages[..k + 1], messages[k + 1..], left);
    assert messages[..k + 1][..k] == messages[..k];
  }

  /**
   * Extending a conversation by one stampable user turn, with whatever answers lie between, puts the anchor exactly
   * where the previous request's rolling breakpoint was: that turn goes out the same in both requests, and nothing
   * before it is stamped any more.
   */
  lemma AnchorIsPreviousRolling(messages: seq<Message>, between: seq<Message>, turn: Message, k: nat)
    requires Rolling(messages, k) && Stampable(turn) && forall m <- between :: !Stampable(m)
    ensures var next := Place(messages + between + [turn], 2);
            && next[k] == Place(messages, 2)[k] == StampTurn(messages[k])
            && next == messages[..k] + [StampTurn(messages[k])] + messages[k + 1..] + between + [StampTurn(turn)]
  {
    var all := messages + between + [turn];
    assert all[..|all| - 1] == messages + between;
    PlaceSkips(messages, between, 1);
    PlaceRolls(messages, k, 1);
    PlaceRolls(messages, k, 2);
  }

  // Where the breakpoints of the conversation go, said of its blocks.

  /** Block `j` is the last of a user turn's blocks that is no empty text. */
  predicate Carries(m: Message, j: nat) {
    && m.user && m.content.Blocks? && j < |m.content.blocks| && m.content.blocks[j].kind != TextBlock("")
    && forall i :: j < i < |m.content.blocks| ==> m.content.blocks[i].kind == TextBlock("")
  }

  predicate HasCarrier(m: Message) {
    m.content.Blocks? && exists j: nat :: j < |m.content.blocks| && Carries(m, j)
  }

  /** How many turns from `k` on have such a block. */
  function Carriers(messages: seq<Message>, k: nat): nat
    requires k <= |messages|
    decreases |messages| - k
  {
    if k == |messages| then 0 else (if HasCarrier(messages[k]) then 1 else 0) + Carriers(messages, k + 1)
  }

  lemma CarriesIsStampable(m: Message)
    ensures Stampable(m) <==> HasCarrier(m)
    ensures Stampable(m) ==> Carries(m, StampIndex(m.content.blocks).value)
  {
    if Stampable(m) {
      assert Carries(m, StampIndex(m.content.blocks).value);
    }
  }

  lemma {:induction false} CarriersMore(messages: seq<Message>, last: Message, k: nat)
    requires k <= |messages|
    ensures Carriers(messages + [last], k) == Carriers(messages, k) + if HasCarrier(last) then 1 else 0
    decreases |messages| - k
  {
    var all := messages + [last];
    hide HasCarrier;
    if k < |messages| {
      CarriersMore(messages, last, k + 1);
      assert all[k] == messages[k];
    } else {
      assert all[k] == last && Carriers(all, k + 1) == 0 && Carriers(messages, k) == 0;
    }
  }

  /** The turn with this one block stamped, and nothing else of it changed. */
  predicate StampedAt(m: Message, r: Message, j: nat) {
    && Carries(m, j) && r.user == m.user && r.content.Blocks? && |r.content.blocks| == |m.content.blocks|
    && forall i :: 0 <= i < |m.content.blocks| ==>
         && r.content.blocks[i].kind == m.content.blocks[i].kind
         && r.content.blocks[i].payload == m.content.blocks[i].payload
         && (r.content.blocks[i].stamped <==> m.content.blocks[i].stamped || i == j)
  }

  ghost predicate StampedOnce(m: Message, r: Message) {
    exists j: nat :: StampedAt(m, r, j)
  }

  lemma TurnIsStamped(m: Message)
    requires Stampable(m)
    ensures StampedOnce(m, StampTurn(m))
  {
    CarriesIsStampable(m);
    assert StampedAt(m, StampTurn(m), StampIndex(m.content.blocks).value);
  }

  /**
   * The last `left` turns that have such a block get one breakpoint more, on that block; every other turn goes out as
   * it came.
   */
  lemma {:induction false} PlacedWhere(messages: seq<Message>, left: nat, k: nat)
    requires k < |messages|
    ensures var r := Place(messages, left)[k];
            if HasCarrier(messages[k]) && Carriers(messages, k) <= left then StampedOnce(messages[k], r)
            else r == messages[k]
  {
    hide Stampable, StampedOnce, HasCarrier, StampTurn;
    var before, last := messages[..|messages| - 1], messages[|messages| - 1];
    assert messages == before + [last];
    CarriesIsStampable(last);
    CarriersMore(before, last, k);
    if left == 0 {
      assert HasCarrier(messages[k]) ==> Carriers(messages, k) >= 1;
    } else if k < |before| {
      assert before[k] == messages[k];
      PlacedWhere(before, if Stampable(last) then left - 1 else left, k);
    } else {
      if Stampable(last) { TurnIsStamped(last); }
      assert Carriers(before, k) == 0;
    }
  }
}
