/** Folding an Anthropic stream back into the blocks of one message. */
module Assembly {
  import opened Options
  import opened Responses

  /** One block as far as it has been assembled; a delta for a block that never started makes one without a start. */
  datatype Assembled = Assembled(block: Option<Block>, text: string, thinking: string, json: string,
                                 inputs: seq<SearchInput>, citations: seq<Delta>)

  function Started(block: Option<Block>): Assembled {
    Assembled(block, "", "", "", [], [])
  }

  predicate TakesInput(block: Option<Block>) {
    block.Some? && (block.value.ToolUse? || block.value.ServerToolUse?)
  }

  /** Input fragments count only on a tool block: on any other they are gathered but never read. */
  function WithDelta(a: Assembled, d: Delta): Assembled {
    match d
    case Text(t) => a.(text := a.text + t)
    case Thinking(t) => a.(thinking := a.thinking + t)
    case InputJson(j) => if TakesInput(a.block) then a.(json := a.json + j) else a
    case SearchJson(i) => if TakesInput(a.block) then a.(inputs := a.inputs + [i]) else a
    case Cited(_, _, _) => a.(citations := a.citations + [d])
  }

  function BlockAt(m: map<nat, Assembled>, index: nat): Assembled {
    if index in m then m[index] else Started(None)
  }

  function Assemble(m: map<nat, Assembled>, o: Out): map<nat, Assembled> {
    match o
    case BlockStart(index, block) => m[index := Started(Some(block))]
    case BlockDelta(index, delta) => m[index := WithDelta(BlockAt(m, index), delta)]
    case _ => m
  }

  function AssembleAll(m: map<nat, Assembled>, out: seq<Out>): map<nat, Assembled>
    decreases |out|
  {
    if out == [] then m else AssembleAll(Assemble(m, out[0]), out[1..])
  }

  lemma {:induction false} AssembleConcat(m: map<nat, Assembled>, a: seq<Out>, b: seq<Out>)
    ensures AssembleAll(m, a + b) == AssembleAll(AssembleAll(m, a), b)
    decreases |a|
  {
    if a == [] {
      assert a + b == b;
    } else {
      assert (a + b)[1..] == a[1..] + b;
      AssembleConcat(Assemble(m, a[0]), a[1..], b);
    }
  }

  lemma AssembleOne(m: map<nat, Assembled>, o: Out)
    ensures AssembleAll(m, [o]) == Assemble(m, o)
  {
    assert [o][1..] == [];
  }

  // What a block gathers, read off the stream.

  /** The deltas of one block, in order. */
  function DeltasOf(out: seq<Out>, i: nat): seq<Delta> {
    if out == [] then []
    else
      match out[0]
      case BlockDelta(j, d) => (if i == j then [d] else []) + DeltasOf(out[1..], i)
      case _ => DeltasOf(out[1..], i)
  }

  function TextIn(ds: seq<Delta>): string {
    if ds == [] then "" else (if ds[0].Text? then ds[0].text else "") + TextIn(ds[1..])
  }

  function ThinkingIn(ds: seq<Delta>): string {
    if ds == [] then "" else (if ds[0].Thinking? then ds[0].thinking else "") + ThinkingIn(ds[1..])
  }

  function JsonIn(ds: seq<Delta>): string {
    if ds == [] then "" else (if ds[0].InputJson? then ds[0].partialJson else "") + JsonIn(ds[1..])
  }

  function InputsIn(ds: seq<Delta>): seq<SearchInput> {
    if ds == [] then [] else (if ds[0].SearchJson? then [ds[0].input] else []) + InputsIn(ds[1..])
  }

  function CitedIn(ds: seq<Delta>): seq<Delta> {
    if ds == [] then [] else (if ds[0].Cited? then [ds[0]] else []) + CitedIn(ds[1..])
  }

  /** Nothing in the stream starts the block over. */
  predicate GoesOn(out: seq<Out>, i: nat) {
    forall o <- out :: o.BlockStart? ==> o.index != i
  }

  /** From `a` to `b` the block has gathered these: the fragments of its input only if it is a tool block. */
  predicate Gathered(a: Assembled, b: Assembled, ds: seq<Delta>) {
    && b.block == a.block
    && b.text == a.text + TextIn(ds) && b.thinking == a.thinking + ThinkingIn(ds)
    && b.citations == a.citations + CitedIn(ds)
    && if a.block.Some? && (a.block.value.ToolUse? || a.block.value.ServerToolUse?)
       then b.json == a.json + JsonIn(ds) && b.inputs == a.inputs + InputsIn(ds)
       else b.json == a.json && b.inputs == a.inputs
  }

  lemma OneMoreIn(d: Delta, ds: seq<Delta>)
    ensures TextIn([d] + ds) == (if d.Text? then d.text else "") + TextIn(ds)
    ensures ThinkingIn([d] + ds) == (if d.Thinking? then d.thinking else "") + ThinkingIn(ds)
    ensures JsonIn([d] + ds) == (if d.InputJson? then d.partialJson else "") + JsonIn(ds)
    ensures InputsIn([d] + ds) == (if d.SearchJson? then [d.input] else []) + InputsIn(ds)
    ensures CitedIn([d] + ds) == (if d.Cited? then [d] else []) + CitedIn(ds)
  {
    assert ([d] + ds)[0] == d && ([d] + ds)[1..] == ds;
  }

  lemma GatheredFirst(a: Assembled, b: Assembled, d: Delta, ds: seq<Delta>)
    requires Gathered(WithDelta(a, d), b, ds)
    ensures Gathered(a, b, [d] + ds)
  {
    OneMoreIn(d, ds);
    hide TextIn, ThinkingIn, JsonIn, InputsIn, CitedIn;
  }

  /**
   * Until it is started over, a block gathers the text, the thoughts and the citations addressed to it, each in order,
   * and, on a tool block and no other, the fragments of its input.
   */
  lemma {:induction false} BlockGathers(m: map<nat, Assembled>, out: seq<Out>, i: nat)
    requires GoesOn(out, i)
    ensures Gathered(BlockAt(m, i), BlockAt(AssembleAll(m, out), i), DeltasOf(out, i))
    decreases |out|
  {
    if out != [] {
      BlockGathers(Assemble(m, out[0]), out[1..], i);
      if out[0].BlockDelta? && out[0].index == i {
        hide Gathered, WithDelta;
        GatheredFirst(BlockAt(m, i), BlockAt(AssembleAll(m, out), i), out[0].delta, DeltasOf(out[1..], i));
      } else {
        assert DeltasOf(out, i) == DeltasOf(out[1..], i);
      }
    }
  }
}
