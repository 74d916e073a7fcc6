/** The non-streaming answer to a turn: translate the stream, fold it, read the message. */
module Turn {
  import opened Options
  import opened Responses
  import opened Translation
  import opened Assembly
  import opened Assembler
  import opened ParallelCalls
  import opened Translator
  import MixedTurns

  /** What the batch specification says the message holds. */
  function BatchContent(events: seq<Event>, n: nat): seq<Assembled>
    requires n <= |Order(events)|
  {
    if n == 0 then []
    else
      BatchContent(events, n - 1)
      + [BatchBlock(Order(events), n - 1, 0, Arguments(events, Order(events)[n - 1].key))]
  }

  lemma {:induction false} ContentOfBatch(events: seq<Event>, n: nat)
    ensures Content(Batch(events), n) == BatchContent(events, if n < |Order(events)| then n else |Order(events)|)
  {
    hide Order, Arguments, BatchBlock;
    if n != 0 { ContentOfBatch(events, n - 1); }
  }

  lemma BatchCovers(events: seq<Event>, n: nat)
    requires forall i: nat <- Batch(events) :: i < n
    ensures |Order(events)| <= n
  {
    hide Order, Arguments, BatchBlock;
    assert n < |Order(events)| ==> n in Batch(events);
  }

  /**
   * Whatever the interleaving, and whether the turn was ended or cut off: every call, in the order announced, with its
   * own arguments.
   */
  method TurnMessage(requestModel: Option<string>, upstream: seq<Event>, fallbackModel: string)
      returns (message: Message)
    requires Orderly(BeforeEnd(upstream))
    ensures message.content == BatchContent(BeforeEnd(upstream), |Order(BeforeEnd(upstream))|)
  {
    hide Translate, Orderly, Order, AssembleAll, Batch, Arguments, BatchBlock, BeforeEnd;
    var out := TranslateStream(requestModel, upstream);
    var assembler := new MessageAssembler();
    assembler.Push(out);
    TurnIsBatch(requestModel, upstream);
    message := assembler.ReadMessage(fallbackModel);
    ghost var calls := BeforeEnd(upstream);
    BatchCovers(calls, |assembler.blocks|);
    ContentOfBatch(calls, |assembler.blocks|);
  }

  lemma {:induction false} ContentOfBlocks(blocks: seq<Assembled>, n: nat)
    ensures Content(MixedTurns.AsMap(blocks), n) == blocks[..if n < |blocks| then n else |blocks|]
  {
    if n != 0 { ContentOfBlocks(blocks, n - 1); }
  }

  lemma BlocksCover(blocks: seq<Assembled>, n: nat)
    requires forall i: nat <- MixedTurns.AsMap(blocks) :: i < n
    ensures |blocks| <= n
  {
    assert n < |blocks| ==> n in MixedTurns.AsMap(blocks);
  }

  /** The message of any turn is the blocks of its segments, in order, whether the turn was ended or cut off. */
  method MixedTurnMessage(requestModel: Option<string>, upstream: seq<Event>, fallbackModel: string,
      ghost segs: seq<MixedTurns.Segment>) returns (message: Message)
    requires MixedTurns.TurnOf(segs) && BeforeEnd(upstream) == MixedTurns.Flatten(segs)
    ensures message.content == MixedTurns.Blocks(segs)
  {
    hide Translate, AssembleAll, BeforeEnd, MixedTurns.Flatten, MixedTurns.Blocks, MixedTurns.AsMap, MixedTurns.TurnOf;
    var out := TranslateStream(requestModel, upstream);
    var assembler := new MessageAssembler();
    assembler.Push(out);
    MixedTurns.TurnIsSegments(requestModel, upstream, segs);
    message := assembler.ReadMessage(fallbackModel);
    ghost var blocks := MixedTurns.Blocks(segs);
    BlocksCover(blocks, |assembler.blocks|);
    ContentOfBlocks(blocks, |assembler.blocks|);
  }
}
