/** The assembler as it runs: a sparse array of blocks and the input fragments beside it. */
module Assembler {
  import opened Options
  import opened Responses
  import opened Assembly

  datatype Fragments = Fragments(json: string, inputs: seq<SearchInput>)

  datatype Message = Message(id: string, model: string, stopReason: Option<StopReason>, content: seq<Assembled>)

  /** The blocks of `m` below index `n`, in order, holes skipped. */
  function Content(m: map<nat, Assembled>, n: nat): seq<Assembled> {
    if n == 0 then [] else Content(m, n - 1) + if n - 1 in m then [m[n - 1]] else []
  }

  /** A block as the message shows it: its fragments are its input if it is a tool block, and nothing otherwise. */
  function Shown(block: Assembled, partial: Option<Fragments>): Assembled {
    if TakesInput(block.block) && partial.Some? then block.(json := partial.value.json, inputs := partial.value.inputs)
    else block
  }

  class MessageAssembler {
    var id: Option<string>
    var model: string
    var stopReason: Option<StopReason>
    var blocks: seq<Option<Assembled>>
    var partialJson: map<nat, Fragments>

    function Partial(i: nat): Option<Fragments>
      reads this
    {
      if i in partialJson then Some(partialJson[i]) else None
    }

    /** Blocks keep their text and citations; their input stands beside them until the message is read. */
    predicate Valid()
      reads this
    {
      forall i :: 0 <= i < |blocks| && blocks[i].Some? ==>
        && blocks[i].value.json == "" && blocks[i].value.inputs == []
        && (TakesInput(blocks[i].value.block) ==> i in partialJson)
    }

    ghost function View(): map<nat, Assembled>
      reads this
    {
      map i: nat | i < |blocks| && blocks[i].Some? :: Shown(blocks[i].value, Partial(i))
    }

    constructor ()
      ensures Valid() && View() == map[] && id == None
    {
      id, model, stopReason, blocks, partialJson := None, "", None, [], map[];
    }

    /** `blocks[index] = block` on a JavaScript array: writing past the end leaves holes. */
    method SetBlock(index: nat, block: Assembled)
      modifies this`blocks
      ensures |blocks| == if index < |old(blocks)| then |old(blocks)| else index + 1
      ensures blocks[index] == Some(block)
      ensures forall i :: 0 <= i < |blocks| && i != index ==>
                blocks[i] == if i < |old(blocks)| then old(blocks)[i] else None
    {
      while |blocks| <= index
        invariant |old(blocks)| <= |blocks| && (|blocks| <= index + 1 || |blocks| == |old(blocks)|)
        invariant forall i :: 0 <= i < |blocks| ==> blocks[i] == if i < |old(blocks)| then old(blocks)[i] else None
        decreases index + 1 - |blocks|
      {
        blocks := blocks + [None];
      }
      blocks := blocks[index := Some(block)];
    }

    method OnStart(index: nat, block: Block)
      requires Valid()
      modifies this`blocks, this`partialJson
      ensures Valid() && View() == Assemble(old(View()), BlockStart(index, block))
    {
      SetBlock(index, Started(Some(block)));
      if block.ToolUse? || block.ServerToolUse? {
        partialJson := partialJson[index := Fragments("", [])];
      }
      assert forall i: nat :: i != index ==> (i in View() <==> i in old(View()));
    }

    /** Make sure there is a block at `index`; one made here never started. */
    method EnsureBlock(index: nat)
      requires Valid()
      modifies this`blocks
      ensures Valid() && index < |blocks| && blocks[index].Some?
      ensures View() == old(View())[index := BlockAt(old(View()), index)]
    {
      if index >= |blocks| || blocks[index].None? {
        SetBlock(index, Started(None));
      }
      assert forall i: nat :: i != index ==> (i in View() <==> i in old(View()));
    }

    method ReplaceBlock(index: nat, b: Assembled)
      requires Valid() && index < |blocks| && blocks[index].Some?
      requires b.json == "" && b.inputs == [] && b.block == blocks[index].value.block
      modifies this`blocks
      ensures Valid() && View() == old(View())[index := Shown(b, old(Partial(index)))]
    {
      blocks := blocks[index := Some(b)];
      assert forall i: nat :: i != index ==> (i in View() <==> i in old(View()));
    }

    method ReplaceFragments(index: nat, f: Fragments)
      requires Valid() && index < |blocks| && blocks[index].Some?
      modifies this`partialJson
      ensures Valid() && View() == old(View())[index := Shown(blocks[index].value, Some(f))]
    {
      partialJson := partialJson[index := f];
      assert forall i: nat :: i in View() <==> i in old(View());
    }

    method OnFragment(index: nat, delta: Delta)
      requires Valid() && index < |blocks| && blocks[index].Some? && (delta.InputJson? || delta.SearchJson?)
      modifies this`partialJson
      ensures Valid() && View()
              == old(View())[index := WithDelta(old(Shown(blocks[index].value, Partial(index))), delta)]
    {
      var partial := if index in partialJson then partialJson[index] else Fragments("", []);
      assert TakesInput(blocks[index].value.block) ==> index in partialJson;
      hide Valid, View;
      if delta.InputJson? {
        ReplaceFragments(index, partial.(json := partial.json + delta.partialJson));
      } else {
        ReplaceFragments(index, partial.(inputs := partial.inputs + [delta.input]));
      }
    }

    method OnDelta(index: nat, delta: Delta)
      requires Valid()
      modifies this`blocks, this`partialJson
      ensures Valid() && View() == Assemble(old(View()), BlockDelta(index, delta))
    {
      EnsureBlock(index);
      var b := blocks[index].value;
      assert BlockAt(old(View()), index) == View()[index] == Shown(b, Partial(index));
      assert b.json == "" && b.inputs == [];
      if delta.InputJson? || delta.SearchJson? {
        hide Valid, View, BlockAt, Shown;
        OnFragment(index, delta);
      } else {
        ShownWith(b, Partial(index), delta);
        var next := match delta
          case Text(t) => b.(text := b.text + t)
          case Thinking(t) => b.(thinking := b.thinking + t)
          case _ => b.(citations := b.citations + [delta]);
        hide Valid, View, BlockAt, Shown;
        ReplaceBlock(index, next);
      }
    }

    /** What is no input reads the same with the fragments or without them. */
    static lemma ShownWith(b: Assembled, partial: Option<Fragments>, delta: Delta)
      requires !delta.InputJson? && !delta.SearchJson?
      ensures Shown(WithDelta(b, delta), partial) == WithDelta(Shown(b, partial), delta)
    {
    }

    method Push(events: seq<Out>)
      requires Valid()
      modifies this
      ensures Valid() && View() == AssembleAll(old(View()), events)
    {
      hide Valid, View, Assemble;
      for n := 0 to |events|
        invariant Valid()
        invariant AssembleAll(View(), events[n..]) == AssembleAll(old(View()), events)
      {
        ghost var before := View();
        assert events[n..][1..] == events[n + 1..];
        match events[n] {
          case MessageStart(startId, startModel) => StartMessage(startId, startModel);
          case BlockStart(index, block) => OnStart(index, block);
          case BlockDelta(index, delta) => OnDelta(index, delta);
          case MessageDelta(reason) => FinishMessage(reason);
          case _ =>
        }
        assert View() == Assemble(before, events[n]) by { OtherAssembles(before, events[n]); }
      }
    }

    static lemma OtherAssembles(m: map<nat, Assembled>, o: Out)
      ensures o.MessageStart? || o.MessageDelta? || o.BlockStop? || o.MessageStop? ==> Assemble(m, o) == m
    {
    }

    method StartMessage(startId: string, startModel: string)
      requires Valid()
      modifies this`id, this`model, this`stopReason
      ensures Valid() && View() == old(View()) && id == Some(startId) && model == startModel && stopReason == None
    {
      id, model, stopReason := Some(startId), startModel, None;
    }

    /** A stop reason before any message_start is dropped. */
    method FinishMessage(reason: StopReason)
      requires Valid()
      modifies this`stopReason
      ensures Valid() && View() == old(View())
      ensures stopReason == if id.Some? then Some(reason) else old(stopReason)
    {
      if id.Some? { stopReason := Some(reason); }
    }

    /** The message so far, its content the blocks in index order; without a message_start it gets stand-ins. */
    method ReadMessage(fallbackModel: string) returns (r: Message)
      requires Valid()
      ensures r.content == Content(View(), |blocks|)
      ensures forall i: nat <- View() :: i < |blocks|
      ensures id.Some? ==> r.id == id.value && r.model == model && r.stopReason == stopReason
      ensures id.None? ==> r.id == "msg_dario" && r.model == fallbackModel && r.stopReason == Some(StopEndTurn)
    {
      var content := [];
      for i := 0 to |blocks|
        invariant content == Content(View(), i)
      {
        if blocks[i].Some? { content := content + [Shown(blocks[i].value, Partial(i))]; }
      }
      r := if id.Some? then Message(id.value, model, stopReason, content)
           else Message("msg_dario", fallbackModel, Some(StopEndTurn), content);
    }
  }
}
