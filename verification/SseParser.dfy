/**
 * The buffered parser of Responses SSE records. What one record says is left to `parse`, which answers None for
 * comments, keep-alives, `[DONE]` and payloads that do not parse; `trim` strips the last, unterminated record.
 */
module SseParser {
  import opened Options
  import opened Framing

  function ParseAll<E>(parse: string -> Option<E>, records: seq<string>): seq<E> {
    if records == [] then []
    else (match parse(records[0]) case Some(e) => [e] case None => []) + ParseAll(parse, records[1..])
  }

  lemma {:induction false} ParseAllConcat<E>(parse: string -> Option<E>, a: seq<string>, b: seq<string>)
    ensures ParseAll(parse, a + b) == ParseAll(parse, a) + ParseAll(parse, b)
    decreases |a|
  {
    if a == [] {
      assert a + b == b;
    } else {
      assert (a + b)[1..] == a[1..] + b;
      ParseAllConcat(parse, a[1..], b);
    }
  }

  lemma ParseOne<E>(parse: string -> Option<E>, record: string)
    ensures ParseAll(parse, [record]) == match parse(record) case Some(e) => [e] case None => []
  {
    assert [record][1..] == [];
  }

  lemma ParseNone<E>(parse: string -> Option<E>)
    ensures ParseAll(parse, []) == []
  {
  }

  /** What the end of the stream adds: the unterminated record, if it is not blank. */
  function Tail<E>(parse: string -> Option<E>, trim: string -> string, rest: string): seq<E> {
    if trim(rest) == "" then [] else ParseAll(parse, [trim(rest)])
  }

  /** The complete records of a text, and what follows the last of them. */
  ghost function Cut(text: string): Framed {
    BlankLineCrSeparates();
    Split(BlankLineCr, text)
  }

  /** The events of a whole stream read at once. */
  ghost function ParseWhole<E>(parse: string -> Option<E>, trim: string -> string, text: string): seq<E> {
    ParseAll(parse, Cut(text).records) + Tail(parse, trim, Cut(text).rest)
  }

  /** Parse every complete record of `text`, in order; what follows the last one is left over. */
  method ParseComplete<E>(parse: string -> Option<E>, text: string) returns (events: seq<E>, rest: string)
    ensures rest == Cut(text).rest && events == ParseAll(parse, Cut(text).records)
  {
    BlankLineCrSeparates();
    hide Separator, BlankLineCr, Split, ParseAll;
    events, rest := [], text;
    ParseNone(parse);
    ghost var whole := Split(BlankLineCr, text);
    ghost var done := [];
    var at := Next(BlankLineCr, rest);
    while at < |rest|
      invariant at == Next(BlankLineCr, rest)
      invariant events == ParseAll(parse, done)
      invariant whole.rest == Split(BlankLineCr, rest).rest
      invariant whole.records == done + Split(BlankLineCr, rest).records
      decreases |rest|
    {
      var record := rest[..at];
      SplitUnfolds(BlankLineCr, rest);
      ParseAllConcat(parse, done, [record]);
      ParseOne(parse, record);
      done := done + [record];
      var parsed := parse(record);
      if parsed.Some? { events := events + [parsed.value]; }
      rest := After(BlankLineCr, rest);
      at := Next(BlankLineCr, rest);
    }
    SplitUnfolds(BlankLineCr, rest);
    assert done + [] == done;
  }

  class Parser<E> {
    const parse: string -> Option<E>
    const trim: string -> string
    var buffer: string

    constructor (parse: string -> Option<E>, trim: string -> string)
      ensures this.parse == parse && this.trim == trim && buffer == ""
    {
      this.parse, this.trim, buffer := parse, trim, "";
    }

    method Push(chunk: string) returns (events: seq<E>)
      modifies this`buffer
      ensures var framed := Cut(old(buffer) + chunk);
              buffer == framed.rest && events == ParseAll(parse, framed.records)
    {
      hide Cut, ParseAll;
      events, buffer := ParseComplete(parse, buffer + chunk);
    }

    method Flush() returns (events: seq<E>)
      modifies this`buffer
      ensures buffer == "" && events == Tail(parse, trim, old(buffer))
    {
      events := [];
      var rest := trim(buffer);
      buffer := "";
      if |rest| > 0 {
        var parsed := parse(rest);
        if parsed.Some? { events := [parsed.value]; }
        ParseOne(parse, rest);
      }
    }
  }

  /** What a cut of all the chunks comes to, after `n` of them gave the records `done` and left `buffer` over. */
  ghost predicate Fed(fed: Framed, done: seq<string>, buffer: string, chunks: seq<string>, n: nat) {
    BlankLineCrSeparates();
    n <= |chunks|
    && fed.rest == Feed(BlankLineCr, buffer, chunks[n..]).rest
    && fed.records == done + Feed(BlankLineCr, buffer, chunks[n..]).records
  }

  lemma FedNone(chunks: seq<string>)
    ensures Fed(Cut(Concat(chunks)), [], "", chunks, 0)
  {
    BlankLineCrSeparates();
    hide Feed, Separator, Split, Concat, BlankLineCr;
    SplitUnfolds(BlankLineCr, "");
    ChunksIrrelevant(BlankLineCr, "", chunks);
    AllChunks(chunks);
  }

  lemma AllChunks(chunks: seq<string>)
    ensures chunks[0..] == chunks && "" + Concat(chunks) == Concat(chunks)
    ensures forall records: seq<string> :: [] + records == records
  {
  }

  lemma FedMore(fed: Framed, done: seq<string>, buffer: string, chunks: seq<string>, n: nat)
    requires n < |chunks| && Fed(fed, done, buffer, chunks, n)
    ensures var first := Cut(buffer + chunks[n]); Fed(fed, done + first.records, first.rest, chunks, n + 1)
  {
    BlankLineCrSeparates();
    hide Feed, Separator, Split;
    FeedUnfoldsAt(BlankLineCr, buffer, chunks, n);
  }

  lemma FedAll(fed: Framed, done: seq<string>, buffer: string, chunks: seq<string>)
    requires Fed(fed, done, buffer, chunks, |chunks|)
    ensures fed == Framed(done, buffer)
  {
    BlankLineCrSeparates();
    hide Feed, Separator, Split;
    FeedUnfoldsAt(BlankLineCr, buffer, chunks, |chunks|);
    assert done + [] == done;
  }

  /** Chunks that cut the stream anywhere, even inside a separator, give the events of one whole read. */
  method ParseChunks<E>(parse: string -> Option<E>, trim: string -> string, chunks: seq<string>)
      returns (events: seq<E>)
    ensures events == ParseWhole(parse, trim, Concat(chunks))
  {
    hide Cut, Fed, ParseAll, Tail, Concat;
    ParseNone(parse);
    FedNone(chunks);
    var parser := new Parser(parse, trim);
    events := [];
    ghost var done := [];
    for n := 0 to |chunks|
      invariant parser.parse == parse && parser.trim == trim && events == ParseAll(parse, done)
      invariant Fed(Cut(Concat(chunks)), done, parser.buffer, chunks, n)
    {
      FedMore(Cut(Concat(chunks)), done, parser.buffer, chunks, n);
      ghost var first := Cut(parser.buffer + chunks[n]);
      var more := parser.Push(chunks[n]);
      ParseAllConcat(parse, done, first.records);
      done := done + first.records;
      events := events + more;
    }
    FedAll(Cut(Concat(chunks)), done, parser.buffer, chunks);
    var tail := parser.Flush();
    events := events + tail;
  }

  /** An end without a blank line: the trimmed rest is one more record, unless there is nothing in it. */
  lemma TailIsOneRecord<E>(parse: string -> Option<E>, trim: string -> string, rest: string)
    ensures trim(rest) != "" && parse(trim(rest)).Some? ==> Tail(parse, trim, rest) == [parse(trim(rest)).value]
    ensures trim(rest) == "" || parse(trim(rest)).None? ==> Tail(parse, trim, rest) == []
  {
    if trim(rest) != "" { ParseOne(parse, trim(rest)); }
  }
}
