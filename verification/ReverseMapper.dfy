/**
 * The streaming reverse mapper as the proxy runs it: text arrives in chunks, is cut into event groups at blank
 * lines, and each group goes out as it came, rewritten, or not at all.
 */
module ReverseMapper {
  import opened Options
  import opened Framing
  import opened ReverseMap

  /** JSON event payloads to events and back, and the trimming of a data line. */
  datatype Wire = Wire(decode: string -> Option<Event>, write: Event -> string, trim: string -> string)

  function LineEnd(text: string): (i: nat)
    ensures i <= |text| && (i < |text| ==> text[i] == '\n')
  {
    if text == "" || text[0] == '\n' then 0 else 1 + LineEnd(text[1..])
  }

  /** The payload of the first `data:` line; none gives the empty text. */
  function DataText(wire: Wire, group: string): string
    decreases |group|
  {
    if group == "" then ""
    else
      var end := LineEnd(group);
      if end >= 5 && group[..5] == "data:" then wire.trim(group[5..end])
      else if end == |group| then ""
      else DataText(wire, group[end + 1..])
  }

  function Read(wire: Wire, group: string): Option<Event> {
    var data := DataText(wire, group);
    if data == "" || data == "[DONE]" then None else wire.decode(data)
  }

  /** A group the mapper leaves as it came, bytes and all. */
  predicate Passes(lookup: Lookup, held: map<nat, Held>, e: Event) {
    match e
    case Start(_, head) => !head.ToolHead? || head.name !in lookup
    case InputDelta(index, _) => index.None? || index.value !in held
    case Stop(index) => index.None? || index.value !in held
    case _ => true
  }

  function WriteAll(wire: Wire, events: seq<Event>): seq<string> {
    if events == [] then [] else WriteAll(wire, events[..|events| - 1]) + [wire.write(events[|events| - 1])]
  }

  /** The groups that go out for one, and what is held after it. */
  datatype Grouped = Grouped(held: map<nat, Held>, groups: seq<string>)

  function MapGroup<J>(kit: Kit<J>, wire: Wire, lookup: Lookup, held: map<nat, Held>, group: string): Grouped {
    if group == "" then Grouped(held, [])
    else
      match Read(wire, group)
      case None => Grouped(held, [group])
      case Some(e) =>
        if Passes(lookup, held, e) then Grouped(held, [group])
        else
          var mapped := MapEvent(kit, lookup, held, e);
          Grouped(mapped.held, WriteAll(wire, mapped.out))
  }

  function MapGroups<J>(kit: Kit<J>, wire: Wire, lookup: Lookup, groups: seq<string>): Grouped {
    if groups == [] then Grouped(map[], [])
    else
      var before := MapGroups(kit, wire, lookup, groups[..|groups| - 1]);
      var last := MapGroup(kit, wire, lookup, before.held, groups[|groups| - 1]);
      Grouped(last.held, before.groups + last.groups)
  }

  /** Each group goes out with the blank line that ends it. */
  function Lines(groups: seq<string>): string {
    if groups == [] then "" else Lines(groups[..|groups| - 1]) + groups[|groups| - 1] + "\n\n"
  }

  lemma {:induction false} LinesConcat(a: seq<string>, b: seq<string>)
    ensures Lines(a + b) == Lines(a) + Lines(b)
  {
    if b == [] {
      assert a + b == a && Lines(a) + "" == Lines(a);
    } else {
      assert (a + b)[..|a + b| - 1] == a + b[..|b| - 1];
      LinesConcat(a, b[..|b| - 1]);
      var x, y, z := Lines(a), Lines(b[..|b| - 1]), b[|b| - 1];
      assert x + y + z + "\n\n" == x + (y + z + "\n\n");
    }
  }

  ghost function Cut(text: string): Framed {
    BlankLineSeparates();
    Split(BlankLine, text)
  }

  /** A whole response mapped at once, the last group however it ends. */
  ghost function MapText<J>(kit: Kit<J>, wire: Wire, lookup: Lookup, text: string): string {
    if AnyNeeds(lookup) then Sent(kit, wire, lookup, Cut(text).records + [Cut(text).rest]) else text
  }

  /** What has gone out once these groups have come in. */
  ghost function Sent<J>(kit: Kit<J>, wire: Wire, lookup: Lookup, groups: seq<string>): string {
    Lines(MapGroups(kit, wire, lookup, groups).groups)
  }

  /** The complete groups of a text, and what follows the last of them. */
  method CutGroups(text: string) returns (groups: seq<string>, rest: string)
    ensures Framed(groups, rest) == Cut(text)
  {
    BlankLineSeparates();
    hide Separator, BlankLine, Split;
    groups, rest := [], text;
    var at := Next(BlankLine, rest);
    while at < |rest|
      invariant at == Next(BlankLine, rest)
      invariant Cut(text).rest == Cut(rest).rest && Cut(text).records == groups + Cut(rest).records
      decreases |rest|
    {
      SplitUnfolds(BlankLine, rest);
      groups, rest := groups + [rest[..at]], After(BlankLine, rest);
      at := Next(BlankLine, rest);
    }
    SplitUnfolds(BlankLine, rest);
  }

  class StreamingReverseMapper<J> {
    const kit: Kit<J>
    const wire: Wire
    const lookup: Lookup
    const active: bool
    var groupBuffer: string
    var held: map<nat, Held>
    ghost var done: seq<string>

    ghost predicate Valid()
      reads this
    {
      active == AnyNeeds(lookup) && held == MapGroups(kit, wire, lookup, done).held
    }

    constructor (kit: Kit<J>, wire: Wire, lookup: Lookup)
      ensures this.kit == kit && this.wire == wire && this.lookup == lookup
      ensures Valid() && groupBuffer == "" && done == []
    {
      this.kit, this.wire, this.lookup := kit, wire, lookup;
      active := exists name :: name in lookup && Needs(lookup[name].mapping);
      groupBuffer, held, done := "", map[], [];
    }

    /** One event group: what goes out for it, in order. */
    method ProcessEventGroup(group: string) returns (out: string)
      requires Valid()
      modifies this`held, this`done
      ensures Valid() && done == old(done) + [group]
      ensures Sent(kit, wire, lookup, old(done)) + out == Sent(kit, wire, lookup, done)
    {
      ghost var before := done;
      var mapped := MapGroup(kit, wire, lookup, held, group);
      out := "";
      for n := 0 to |mapped.groups|
        invariant out == Lines(mapped.groups[..n])
      {
        assert mapped.groups[..n + 1][..n] == mapped.groups[..n];
        assert out + mapped.groups[n] + "\n\n" == Lines(mapped.groups[..n + 1]);
        out := out + mapped.groups[n] + "\n\n";
      }
      assert mapped.groups[..|mapped.groups|] == mapped.groups;
      held, done := mapped.held, done + [group];
      GoesOut(kit, wire, lookup, before, group);
    }

    /** Every complete group of the buffer, in order; the last, perhaps partial, one waits, or is flushed too. */
    method ProcessBuffer(flush: bool) returns (out: string)
      requires Valid()
      modifies this
      ensures Valid()
      ensures done == old(done) + Cut(old(groupBuffer)).records + (if flush then [Cut(old(groupBuffer)).rest] else [])
      ensures groupBuffer == if flush then "" else Cut(old(groupBuffer)).rest
      ensures Sent(kit, wire, lookup, old(done)) + out == Sent(kit, wire, lookup, done)
    {
      hide MapGroups, Sent, Cut;
      var parts, rest := CutGroups(groupBuffer);
      if flush { parts, rest := parts + [rest], ""; }
      groupBuffer := rest;
      out := "";
      assert Sent(kit, wire, lookup, done) + "" == Sent(kit, wire, lookup, done);
      for n := 0 to |parts|
        invariant Valid() && groupBuffer == rest && done == old(done) + parts[..n]
        invariant Sent(kit, wire, lookup, old(done)) + out == Sent(kit, wire, lookup, done)
      {
        var more := ProcessEventGroup(parts[n]);
        assert Sent(kit, wire, lookup, old(done)) + out + more == Sent(kit, wire, lookup, old(done)) + (out + more);
        out := out + more;
      }
    }

    /** A mapper with nothing to translate hands every chunk on as it came. */
    method Feed(chunk: string) returns (out: string)
      requires Valid()
      modifies this
      ensures Valid()
      ensures !active ==> out == chunk && groupBuffer == old(groupBuffer) && done == old(done)
      ensures active ==> done == old(done) + Cut(old(groupBuffer) + chunk).records
      ensures active ==> groupBuffer == Cut(old(groupBuffer) + chunk).rest
      ensures active ==> Sent(kit, wire, lookup, old(done)) + out == Sent(kit, wire, lookup, done)
    {
      hide MapGroups, Sent, Cut;
      if !active { return chunk; }
      groupBuffer := groupBuffer + chunk;
      out := ProcessBuffer(false);
    }

    method End() returns (out: string)
      requires Valid()
      modifies this
      ensures Valid() && (!active ==> out == "" && done == old(done))
      ensures active ==> done == old(done) + Cut(old(groupBuffer)).records + [Cut(old(groupBuffer)).rest]
      ensures active ==> Sent(kit, wire, lookup, old(done)) + out == Sent(kit, wire, lookup, done)
    {
      hide MapGroups, Sent, Cut;
      out := "";
      if active { out := ProcessBuffer(true); }
    }
  }

  lemma GoesOut<J>(kit: Kit<J>, wire: Wire, lookup: Lookup, done: seq<string>, group: string)
    ensures var last := MapGroup(kit, wire, lookup, MapGroups(kit, wire, lookup, done).held, group);
            && MapGroups(kit, wire, lookup, done + [group]).held == last.held
            && Sent(kit, wire, lookup, done) + Lines(last.groups) == Sent(kit, wire, lookup, done + [group])
  {
    assert (done + [group])[..|done|] == done;
    var before := MapGroups(kit, wire, lookup, done);
    LinesConcat(before.groups, MapGroup(kit, wire, lookup, before.held, group).groups);
  }

  /** Cutting chunk by chunk, each from what the ones before left over. */
  ghost function FeedCut(buffer: string, chunks: seq<string>): Framed {
    BlankLineSeparates();
    Feed(BlankLine, buffer, chunks)
  }

  lemma FeedCutUnfolds(buffer: string, chunks: seq<string>, n: nat)
    requires n < |chunks|
    ensures var first := Cut(buffer + chunks[n]); var more := FeedCut(first.rest, chunks[n + 1..]);
            FeedCut(buffer, chunks[n..]) == Framed(first.records + more.records, more.rest)
  {
    BlankLineSeparates();
    FeedUnfoldsAt(BlankLine, buffer, chunks, n);
  }

  lemma FeedCutIsCut(chunks: seq<string>)
    ensures FeedCut("", chunks) == Cut(Concat(chunks))
    ensures Cut(Cut(Concat(chunks)).rest) == Framed([], Cut(Concat(chunks)).rest)
  {
    BlankLineSeparates();
    SplitUnfolds(BlankLine, "");
    ChunksIrrelevant(BlankLine, "", chunks);
    assert "" + Concat(chunks) == Concat(chunks);
    SplitRest(BlankLine, Concat(chunks));
  }

  lemma FeedCutNone(buffer: string, chunks: seq<string>)
    ensures FeedCut(buffer, chunks[|chunks|..]) == Framed([], buffer)
  {
    BlankLineSeparates();
    FeedUnfolds(BlankLine, buffer, []);
  }

  /** However the response is cut into chunks, the text that goes out is that of one whole read. */
  method MapChunks<J>(kit: Kit<J>, wire: Wire, lookup: Lookup, chunks: seq<string>) returns (out: string)
    ensures out == MapText(kit, wire, lookup, Concat(chunks))
  {
    hide Cut, Sent, MapGroups, Concat, FeedCut;
    var mapper := new StreamingReverseMapper(kit, wire, lookup);
    out := "";
    MapNone(kit, wire, lookup, chunks);
    ghost var fed := FeedCut("", chunks);
    assert chunks[0..] == chunks;
    for n := 0 to |chunks|
      invariant mapper.Valid() && mapper.kit == kit && mapper.wire == wire && mapper.lookup == lookup
      invariant !mapper.active ==> out == Concat(chunks[..n])
      invariant mapper.active ==> fed.rest == FeedCut(mapper.groupBuffer, chunks[n..]).rest
      invariant mapper.active ==> fed.records == mapper.done + FeedCut(mapper.groupBuffer, chunks[n..]).records
      invariant mapper.active ==> out == Sent(kit, wire, lookup, mapper.done)
    {
      FeedCutUnfolds(mapper.groupBuffer, chunks, n);
      ConcatOneMore(chunks, n);
      var more := mapper.Feed(chunks[n]);
      out := out + more;
    }
    assert chunks[..|chunks|] == chunks;
    FeedCutNone(mapper.groupBuffer, chunks);
    FeedCutIsCut(chunks);
    var tail := mapper.End();
    out := out + tail;
  }

  lemma MapNone<J>(kit: Kit<J>, wire: Wire, lookup: Lookup, chunks: seq<string>)
    ensures Sent(kit, wire, lookup, []) == "" && Concat(chunks[..0]) == ""
  {
  }

  lemma {:induction false} ConcatOneMore(chunks: seq<string>, n: nat)
    requires n < |chunks|
    ensures Concat(chunks[..n + 1]) == Concat(chunks[..n]) + chunks[n]
    decreases n
  {
    if n == 0 {
      assert chunks[..1] == [chunks[0]] && [chunks[0]][1..] == [];
      assert chunks[0] + "" == chunks[0];
    } else {
      assert chunks[..n + 1][1..] == chunks[1..][..n] && chunks[..n][1..] == chunks[1..][..n - 1];
      ConcatOneMore(chunks[1..], n - 1);
    }
  }

  // What a client reads from the mapped text.

  /** A group of its own: not empty, and the first blank line after it is the one that ends it. */
  predicate Whole(group: string) {
    group != "" && Next(BlankLine, group + "\n\n") == |group|
  }

  /** Written events read back, and are groups of their own. */
  ghost predicate WireLawful(wire: Wire) {
    forall e :: Read(wire, wire.write(e)) == Some(e) && Whole(wire.write(e))
  }

  function ReadAll(wire: Wire, groups: seq<string>): seq<Event> {
    if groups == [] then []
    else
      var last := groups[|groups| - 1];
      var read := if last == "" then None else Read(wire, last);
      ReadAll(wire, groups[..|groups| - 1]) + if read.Some? then [read.value] else []
  }

  ghost function EventsOf(wire: Wire, text: string): seq<Event> {
    ReadAll(wire, Cut(text).records + [Cut(text).rest])
  }

  lemma {:induction false} ReadAllConcat(wire: Wire, a: seq<string>, b: seq<string>)
    ensures ReadAll(wire, a + b) == ReadAll(wire, a) + ReadAll(wire, b)
  {
    hide Read;
    if b == [] {
      assert a + b == a;
    } else {
      assert (a + b)[..|a + b| - 1] == a + b[..|b| - 1];
      ReadAllConcat(wire, a, b[..|b| - 1]);
    }
  }

  lemma {:induction false} WrittenReads(wire: Wire, events: seq<Event>)
    requires WireLawful(wire)
    ensures ReadAll(wire, WriteAll(wire, events)) == events
    ensures forall g <- WriteAll(wire, events) :: Whole(g)
  {
    hide Read, Whole;
    if events != [] {
      var before, last := events[..|events| - 1], events[|events| - 1];
      WrittenReads(wire, before);
      assert Read(wire, wire.write(last)) == Some(last) && Whole(wire.write(last));
      assert WriteAll(wire, events)[..|WriteAll(wire, events)| - 1] == WriteAll(wire, before);
      NotEmpty(wire.write(last));
    }
  }

  lemma NotEmpty(group: string)
    requires Whole(group)
    ensures group != ""
  {
  }

  lemma PassingIsMapping<J>(kit: Kit<J>, lookup: Lookup, held: map<nat, Held>, e: Event)
    requires Passes(lookup, held, e)
    ensures MapEvent(kit, lookup, held, e) == Mapped(held, [e])
  {
  }

  lemma ReadOne(wire: Wire, group: string)
    ensures ReadAll(wire, [group]) == (if group == "" || Read(wire, group).None? then [] else [Read(wire, group).value])
  {
    hide Read;
    assert [group][..0] == [];
  }

  /** One group mapped and read is the group read and mapped. */
  lemma GroupReads<J>(kit: Kit<J>, wire: Wire, lookup: Lookup, held: map<nat, Held>, group: string)
    requires WireLawful(wire) && (group == "" || Whole(group))
    ensures var mapped := MapGroup(kit, wire, lookup, held, group);
            && (forall g <- mapped.groups :: Whole(g))
            && (group == "" || Read(wire, group).None? ==> mapped.held == held && ReadAll(wire, mapped.groups) == [])
            && (group != "" && Read(wire, group).Some? ==>
                  MapEvent(kit, lookup, held, Read(wire, group).value)
                      == Mapped(mapped.held, ReadAll(wire, mapped.groups)))
  {
    hide Read, MapEvent, Passes, WireLawful, Whole;
    ReadOne(wire, group);
    if group != "" && Read(wire, group).Some? {
      var e := Read(wire, group).value;
      if Passes(lookup, held, e) {
        PassingIsMapping(kit, lookup, held, e);
      } else {
        WrittenReads(wire, MapEvent(kit, lookup, held, e).out);
      }
    }
  }

  lemma {:induction false} GroupsRead<J>(kit: Kit<J>, wire: Wire, lookup: Lookup, groups: seq<string>)
    requires WireLawful(wire) && forall g <- groups :: g == "" || Whole(g)
    ensures var mapped := MapGroups(kit, wire, lookup, groups);
            && (forall g <- mapped.groups :: Whole(g))
            && MapAll(kit, lookup, ReadAll(wire, groups)) == Mapped(mapped.held, ReadAll(wire, mapped.groups))
  {
    hide Read, MapGroup, MapEvent, WireLawful, Whole;
    if groups != [] {
      var before, last := groups[..|groups| - 1], groups[|groups| - 1];
      GroupsRead(kit, wire, lookup, before);
      var held := MapGroups(kit, wire, lookup, before).held;
      assert last == "" || Whole(last);
      GroupReads(kit, wire, lookup, held, last);
      ReadAllConcat(wire, MapGroups(kit, wire, lookup, before).groups, MapGroup(kit, wire, lookup, held, last).groups);
      var events, out := ReadAll(wire, groups), ReadAll(wire, MapGroups(kit, wire, lookup, groups).groups);
      if last != "" && Read(wire, last).Some? {
        assert events[..|events| - 1] == ReadAll(wire, before);
      } else {
        assert events == ReadAll(wire, before);
        assert out == ReadAll(wire, MapGroups(kit, wire, lookup, before).groups) + [];
      }
    }
  }

  /** A group followed by its blank line is cut off first. */
  lemma CutFirst(group: string, text: string)
    requires Whole(group)
    ensures Cut(group + "\n\n" + text) == Framed([group] + Cut(text).records, Cut(text).rest)
  {
    BlankLineSeparates();
    var g := group + "\n\n";
    AfterGroup(group);
    WholeEnds(group);
    hide Separator, Split, Next, After, BlankLine, Cut, Whole;
    CutAtFirst(g, |group|, text);
    assert g[..|group|] == group;
  }

  lemma CutAtFirst(g: string, n: nat, text: string)
    requires Separator(BlankLine) && Next(BlankLine, g) == n < |g| && After(BlankLine, g) == ""
    ensures Cut(g + text) == Framed([g[..n]] + Cut(text).records, Cut(text).rest)
  {
    hide Separator, Split, BlankLine, Next, After;
    AfterExtends(BlankLine, g, text);
    assert "" + text == text;
    SplitUnfolds(BlankLine, g + text);
    Within(g, text, 0, n);
  }

  lemma AfterGroup(group: string)
    requires Separator(BlankLine) && Whole(group)
    ensures After(BlankLine, group + "\n\n") == ""
  {
    hide Separator;
    assert (group + "\n\n")[|group|..] == "\n\n";
  }

  lemma WholeEnds(group: string)
    requires Whole(group)
    ensures Next(BlankLine, group + "\n\n") == |group|
  {
  }

  lemma {:induction false} CutLines(groups: seq<string>)
    requires forall g <- groups :: Whole(g)
    ensures Cut(Lines(groups)) == Framed(groups, "")
    decreases |groups|
  {
    if groups == [] {
      BlankLineSeparates();
    } else {
      hide Cut, Whole;
      var first, more := groups[0], groups[1..];
      CutLines(more);
      LinesConcat([first], more);
      assert [first] + more == groups && [first][..0] == [] && Lines([first]) == first + "\n\n";
      CutFirst(first, Lines(more));
    }
  }

  /** The text before the first blank line is a group of its own, or empty. */
  lemma FirstIsWhole(text: string)
    requires Next(BlankLine, text) < |text|
    ensures var group := text[..Next(BlankLine, text)]; group == "" || Whole(group)
  {
    var n := Next(BlankLine, text);
    BlankLineAt(text, n);
    PrefixNext(text, n + 2);
  }

  lemma BlankLineAt(text: string, n: nat)
    requires n <= |text| && BlankLine(text[n..]) > 0
    ensures n + 2 <= |text| && text[..n + 2] == text[..n] + "\n\n"
  {
    assert text[n] == text[n..][0] && text[n + 1] == text[n..][1];
  }

  lemma {:induction false} PrefixNext(text: string, k: nat)
    requires Next(BlankLine, text) + 2 <= k <= |text|
    ensures Next(BlankLine, text[..k]) == Next(BlankLine, text)
    decreases |text|
  {
    if BlankLine(text) == 0 {
      PrefixNext(text[1..], k - 1);
      assert text[..k][1..] == text[1..][..k - 1];
    }
  }

  lemma {:induction false} RecordsAreWhole(text: string)
    ensures forall g <- Cut(text).records :: g == "" || Whole(g)
    decreases |text|
  {
    BlankLineSeparates();
    hide Separator, Split, Whole, BlankLine;
    SplitUnfolds(BlankLine, text);
    if Next(BlankLine, text) < |text| {
      FirstIsWhole(text);
      RecordsAreWhole(After(BlankLine, text));
    }
  }

  // The last group, which may lack its blank line.

  /** One more newline at the end of a group changes nothing it says. */
  lemma {:induction false} NewlineSaysNothing(wire: Wire, group: string)
    requires group == "" || group[|group| - 1] != '\n'
    ensures DataText(wire, group + "\n") == DataText(wire, group)
    decreases |group|
  {
    if group == "" {
      assert group + "\n" == "\n";
      NewlineAlone(wire);
    } else {
      FirstLineStays(group);
      var end := LineEnd(group);
      if end < |group| {
        var more := group[end + 1..];
        assert more != "" && more[|more| - 1] == group[|group| - 1];
        NewlineSaysNothing(wire, more);
      }
    }
  }

  lemma NewlineAlone(wire: Wire)
    ensures DataText(wire, "\n") == ""
  {
    assert LineEnd("\n") == 0 && "\n"[1..] == "";
  }

  /** The first line of a longer group is the group's own, and what follows it is longer by as much. */
  lemma FirstLineStays(group: string)
    requires group != "" && group[|group| - 1] != '\n'
    ensures var longer := group + "\n"; var end := LineEnd(group);
            && LineEnd(longer) == end
            && (end >= 5 ==> longer[..5] == group[..5] && longer[5..end] == group[5..end])
            && (end < |group| ==> end + 1 < |group| && longer[end + 1..] == group[end + 1..] + "\n")
            && (end == |group| ==> longer[end + 1..] == "")
  {
    LineEndStays(group);
    var longer, end := group + "\n", LineEnd(group);
    hide LineEnd;
    if end >= 5 {
      Within(group, "\n", 0, 5);
      Within(group, "\n", 5, end);
    }
    if end < |group| { assert longer[end + 1..] == group[end + 1..] + "\n"; }
  }

  lemma Within(a: string, b: string, i: nat, j: nat)
    requires i <= j <= |a|
    ensures (a + b)[i..j] == a[i..j]
  {
  }

  lemma {:induction false} LineEndStays(group: string)
    ensures LineEnd(group + "\n") == LineEnd(group)
  {
    if group != "" && group[0] != '\n' {
      assert (group + "\n")[1..] == group[1..] + "\n";
      LineEndStays(group[1..]);
    }
  }

  lemma {:induction false} NoBlankIsWhole(group: string)
    requires group != "" && group[|group| - 1] != '\n' && Next(BlankLine, group) == |group|
    ensures Whole(group)
    decreases |group|
  {
    var g := group + "\n\n";
    if |group| == 1 {
      assert g[1..] == "\n\n";
    } else {
      assert g[1..] == group[1..] + "\n\n";
      NoBlankIsWhole(group[1..]);
    }
  }

  /** Text without a blank line, ending in a newline, has one newline there. */
  lemma {:induction false} OneNewline(group: string)
    requires group != "" && group[|group| - 1] == '\n' && Next(BlankLine, group) == |group|
    ensures var r := group[..|group| - 1]; Next(BlankLine, r) == |r| && (r == "" || r[|r| - 1] != '\n')
    decreases |group|
  {
    if |group| > 1 {
      var r := group[..|group| - 1];
      assert BlankLine(group) == 0 && r[1..] == group[1..][..|group| - 2];
      OneNewline(group[1..]);
      if |group| == 2 { assert r == [group[0]]; }
    }
  }

  /** What is cut from groups of their own and one more text is the groups, and then that text's own cut. */
  lemma {:induction false} CutAfterLines(groups: seq<string>, text: string)
    requires forall g <- groups :: Whole(g)
    ensures Cut(Lines(groups) + text) == Framed(groups + Cut(text).records, Cut(text).rest)
    decreases |groups|
  {
    hide Cut, Whole;
    if groups == [] {
      assert Lines([]) + text == text && [] + Cut(text).records == Cut(text).records;
    } else {
      var first, more := groups[0], groups[1..];
      CutAfterLines(more, text);
      LinesConcat([first], more);
      assert [first] + more == groups && [first][..0] == [] && Lines([first]) == first + "\n\n";
      CutFirst(first, Lines(more) + text);
      assert Lines(groups) + text == first + "\n\n" + (Lines(more) + text);
      assert [first] + (more + Cut(text).records) == groups + Cut(text).records;
    }
  }

  /** A group of its own, with its blank line, says what it says. */
  lemma WholeReads(wire: Wire, group: string)
    requires Whole(group)
    ensures EventsOf(wire, group + "\n\n") == ReadAll(wire, [group])
  {
    CutEmpty();
    CutFirst(group, "");
    hide Cut, Whole, Read;
    assert group + "\n\n" + "" == group + "\n\n";
    ReadAllConcat(wire, [group], [""]);
    ReadOne(wire, "");
    assert [group] + [] + [""] == [group] + [""];
  }

  /** A newline left over after a blank line says nothing. */
  lemma LeftNewlineReads(wire: Wire, r: string)
    requires r == "" || Whole(r)
    ensures EventsOf(wire, r + "\n\n" + "\n") == ReadAll(wire, [r])
  {
    CutNewline();
    if r == "" { CutThreeNewlines(); } else { CutFirst(r, "\n"); }
    hide Cut, Whole, Read;
    assert [r] + [] + ["\n"] == [r] + ["\n"];
    ReadAllConcat(wire, [r], ["\n"]);
    LoneNewline(wire);
    ReadOne(wire, "\n");
  }

  lemma SameReads(wire: Wire, r: string)
    requires r == "" || r[|r| - 1] != '\n'
    ensures ReadAll(wire, [r + "\n"]) == ReadAll(wire, [r])
  {
    ReadOne(wire, r);
    ReadOne(wire, r + "\n");
    NewlineSaysNothing(wire, r);
    hide DataText;
    if r == "" { LoneNewline(wire); assert r + "\n" == "\n"; }
  }

  /** A last group that ends in a newline goes out with three of them, and says what it said. */
  lemma TailReads(wire: Wire, rest: string)
    requires rest != "" && Next(BlankLine, rest) == |rest|
    ensures EventsOf(wire, rest + "\n\n") == ReadAll(wire, [rest])
  {
    hide Cut, Whole, Read, EventsOf, BlankLine;
    if rest[|rest| - 1] != '\n' {
      NoBlankIsWhole(rest);
      WholeReads(wire, rest);
    } else {
      var r := rest[..|rest| - 1];
      OneNewline(rest);
      assert rest == r + "\n" && rest + "\n\n" == r + "\n\n" + "\n";
      if r != "" { NoBlankIsWhole(r); }
      LeftNewlineReads(wire, r);
      SameReads(wire, r);
    }
  }

  lemma CutEmpty()
    ensures Cut("") == Framed([], "")
  {
    BlankLineSeparates();
    SplitUnfolds(BlankLine, "");
  }

  lemma CutNewline()
    ensures Cut("\n") == Framed([], "\n")
  {
    BlankLineSeparates();
    assert "\n"[1..] == "";
    SplitUnfolds(BlankLine, "\n");
  }

  lemma CutThreeNewlines()
    ensures Cut("" + "\n\n" + "\n") == Framed([""], "\n")
  {
    BlankLineSeparates();
    var s := "" + "\n\n" + "\n";
    assert s == "\n\n\n" && BlankLine(s) == 2 && s[2..] == "\n" && s[..0] == "";
    CutNewline();
    hide Separator;
    SplitUnfolds(BlankLine, s);
  }

  lemma LoneNewline(wire: Wire)
    ensures Read(wire, "\n").None?
  {
    NewlineSaysNothing(wire, "");
    assert "" + "\n" == "\n";
  }

  lemma {:induction false} RestHasNoBlank(text: string)
    ensures Next(BlankLine, Cut(text).rest) == |Cut(text).rest|
    decreases |text|
  {
    BlankLineSeparates();
    hide Separator, Split, BlankLine;
    SplitUnfolds(BlankLine, text);
    if Next(BlankLine, text) < |text| { RestHasNoBlank(After(BlankLine, text)); }
  }

  lemma WholeGroupsRead(wire: Wire, groups: seq<string>)
    requires forall g <- groups :: Whole(g)
    ensures EventsOf(wire, Lines(groups)) == ReadAll(wire, groups)
  {
    hide Cut, Whole, Read, Lines;
    CutLines(groups);
    ReadAllConcat(wire, groups, [""]);
    ReadOne(wire, "");
  }

  /** Groups of their own before a text change nothing of what is read from the text. */
  lemma ReadsAfterLines(wire: Wire, groups: seq<string>, text: string)
    requires forall g <- groups :: Whole(g)
    ensures EventsOf(wire, Lines(groups) + text) == ReadAll(wire, groups) + EventsOf(wire, text)
  {
    hide Cut, Whole, Read, Lines;
    CutAfterLines(groups, text);
    var cut := Cut(text);
    ReadAllConcat(wire, groups, cut.records + [cut.rest]);
    assert groups + cut.records + [cut.rest] == groups + (cut.records + [cut.rest]);
  }

  lemma OneLine(group: string)
    ensures Lines([group]) == group + "\n\n"
  {
    assert [group][..0] == [] && "" + group + "\n\n" == group + "\n\n";
  }

  /** The groups before the last are cut apart as they went out; the last, whatever it is, reads as it was. */
  lemma LastGroupReads(wire: Wire, groups: seq<string>, last: seq<string>)
    requires forall g <- groups :: Whole(g)
    requires (forall g <- last :: Whole(g)) || (|last| == 1 && last[0] != "" && Next(BlankLine, last[0]) == |last[0]|)
    ensures EventsOf(wire, Lines(groups + last)) == ReadAll(wire, groups + last)
  {
    hide Cut, Whole, Read, Lines, EventsOf, ReadAll, BlankLine, Next;
    if forall g <- last :: Whole(g) {
      WholeGroupsRead(wire, groups + last);
    } else {
      LinesConcat(groups, last);
      assert last == [last[0]];
      OneLine(last[0]);
      TailReads(wire, last[0]);
      ReadsAfterLines(wire, groups, last[0] + "\n\n");
      ReadAllConcat(wire, groups, last);
    }
  }

  /** Whatever goes out for a last group is groups of their own, or that group as it came. */
  lemma LastGroupGoesOut<J>(kit: Kit<J>, wire: Wire, lookup: Lookup, held: map<nat, Held>, rest: string)
    requires WireLawful(wire) && Next(BlankLine, rest) == |rest|
    ensures var out := MapGroup(kit, wire, lookup, held, rest).groups;
            (forall g <- out :: Whole(g)) || (|out| == 1 && out[0] != "" && Next(BlankLine, out[0]) == |out[0]|)
    ensures var mapped := MapGroup(kit, wire, lookup, held, rest);
            && (rest == "" || Read(wire, rest).None? ==> mapped.held == held && ReadAll(wire, mapped.groups) == [])
            && (rest != "" && Read(wire, rest).Some? ==>
                  MapEvent(kit, lookup, held, Read(wire, rest).value)
                      == Mapped(mapped.held, ReadAll(wire, mapped.groups)))
  {
    hide Read, MapEvent, Passes, WireLawful, Whole;
    ReadOne(wire, rest);
    if rest != "" && Read(wire, rest).Some? {
      var e := Read(wire, rest).value;
      if Passes(lookup, held, e) {
        PassingIsMapping(kit, lookup, held, e);
      } else {
        WrittenReads(wire, MapEvent(kit, lookup, held, e).out);
      }
    }
  }

  /**
   * What a client reads from a mapped response is the response's own events, mapped: however the response ends, no
   * group is merged with another, split, or lost.
   */
  lemma MappedTextReads<J>(kit: Kit<J>, wire: Wire, lookup: Lookup, text: string)
    requires WireLawful(wire)
    ensures EventsOf(wire, MapText(kit, wire, lookup, text)) == MapStream(kit, lookup, EventsOf(wire, text))
  {
    if AnyNeeds(lookup) {
      hide WireLawful, Whole, Cut, Read, MapEvent;
      RecordsAreWhole(text);
      RestHasNoBlank(text);
      MappedGroupsRead(kit, wire, lookup, Cut(text).records, Cut(text).rest);
    }
  }

  lemma MappedGroupsRead<J>(kit: Kit<J>, wire: Wire, lookup: Lookup, groups: seq<string>, rest: string)
    requires WireLawful(wire) && (forall g <- groups :: g == "" || Whole(g)) && Next(BlankLine, rest) == |rest|
    ensures EventsOf(wire, Sent(kit, wire, lookup, groups + [rest]))
            == MapAll(kit, lookup, ReadAll(wire, groups + [rest])).out
  {
    GroupsRead(kit, wire, lookup, groups);
    var before := MapGroups(kit, wire, lookup, groups);
    LastGroupGoesOut(kit, wire, lookup, before.held, rest);
    var last := MapGroup(kit, wire, lookup, before.held, rest);
    assert (groups + [rest])[..|groups|] == groups;
    assert MapGroups(kit, wire, lookup, groups + [rest]).groups == before.groups + last.groups;
    hide WireLawful, Whole, Cut, MapGroup, MapGroups, Lines, Read, MapEvent, EventsOf, MapAll, ReadAll, Next, BlankLine;
    LastGroupReads(wire, before.groups, last.groups);
    ReadAllConcat(wire, before.groups, last.groups);
    EventsGoOn(kit, wire, lookup, groups, rest, before, last);
  }

  /** The events of the groups and one more, mapped, are those of the groups mapped and then that one's. */
  lemma EventsGoOn<J>(kit: Kit<J>, wire: Wire, lookup: Lookup, groups: seq<string>, rest: string, before: Grouped,
      last: Grouped)
    requires MapAll(kit, lookup, ReadAll(wire, groups)) == Mapped(before.held, ReadAll(wire, before.groups))
    requires rest == "" || Read(wire, rest).None? ==> last.held == before.held && ReadAll(wire, last.groups) == []
    requires rest != "" && Read(wire, rest).Some? ==>
               MapEvent(kit, lookup, before.held, Read(wire, rest).value)
                   == Mapped(last.held, ReadAll(wire, last.groups))
    ensures MapAll(kit, lookup, ReadAll(wire, groups + [rest])).out
            == ReadAll(wire, before.groups) + ReadAll(wire, last.groups)
  {
    hide Read, MapEvent;
    ReadAllConcat(wire, groups, [rest]);
    ReadOne(wire, rest);
    var events := ReadAll(wire, groups + [rest]);
    if rest != "" && Read(wire, rest).Some? {
      assert events[..|events| - 1] == ReadAll(wire, groups);
    } else {
      assert events == ReadAll(wire, groups);
    }
  }

  /**
   * From text to text: the message a client assembles from the mapped response is, block by block, the mapping of the
   * message the response assembles to.
   */
  lemma MappedTextAssembles<J>(kit: Kit<J>, wire: Wire, lookup: Lookup, text: string)
    requires WireLawful(wire) && AnyNeeds(lookup) && NoStaleReads(kit, lookup, EventsOf(wire, text))
    ensures AssembleAll(EventsOf(wire, MapText(kit, wire, lookup, text)))
            == MapMessage(kit, lookup, AssembleAll(EventsOf(wire, text)))
  {
    MappedTextReads(kit, wire, lookup, text);
    hide EventsOf, MapText, MapMessage;
    StreamCommutes(kit, lookup, EventsOf(wire, text));
  }

  // What goes out as it came.

  /** No tool the lookup names is called in these groups. */
  predicate NamesNothing(wire: Wire, lookup: Lookup, groups: seq<string>) {
    forall g <- groups :: g != "" && Read(wire, g).Some? ==> !CallsMapped(lookup, Read(wire, g).value)
  }

  predicate CallsMapped(lookup: Lookup, e: Event) {
    e.Start? && e.head.ToolHead? && e.head.name in lookup
  }

  function NotEmptyOf(groups: seq<string>): seq<string> {
    if groups == [] then []
    else NotEmptyOf(groups[..|groups| - 1]) + if groups[|groups| - 1] == "" then [] else [groups[|groups| - 1]]
  }

  lemma {:induction false} UntouchedGroups<J>(kit: Kit<J>, wire: Wire, lookup: Lookup, groups: seq<string>)
    requires NamesNothing(wire, lookup, groups)
    ensures MapGroups(kit, wire, lookup, groups) == Grouped(map[], NotEmptyOf(groups))
  {
    hide Read;
    if groups != [] {
      var before, last := groups[..|groups| - 1], groups[|groups| - 1];
      assert last in groups && forall g <- before :: g in groups;
      UntouchedGroups(kit, wire, lookup, before);
    }
  }

  /**
   * A response that calls no mapped tool goes out byte for byte, but for groups without a character: each group as it
   * came, whatever its lines, with the blank line that ends it.
   */
  lemma UntouchedGoesAsItCame<J>(kit: Kit<J>, wire: Wire, lookup: Lookup, text: string)
    requires NamesNothing(wire, lookup, Cut(text).records + [Cut(text).rest])
    ensures MapText(kit, wire, lookup, text)
            == if AnyNeeds(lookup) then Lines(NotEmptyOf(Cut(text).records + [Cut(text).rest])) else text
  {
    hide Cut, NamesNothing, MapGroups, NotEmptyOf;
    UntouchedGroups(kit, wire, lookup, Cut(text).records + [Cut(text).rest]);
  }
}
