/**
 * What the other segments of a turn mean, read off the events' own fields: what a text block says and what its
 * citations quote, what a search asked for and which pages it found, and the model the message names.
 */
module SegmentMeaning {
  import opened Options
  import opened Responses
  import opened Translation
  import opened Assembly
  import opened ParallelCalls
  import opened MixedTurns

  // Prose.

  /** The text of a message's parts, one fragment after the other. */
  function Told(parts: seq<Event>): string {
    if parts == [] then ""
    else
      Told(parts[..|parts| - 1])
      + match parts[|parts| - 1]
        case Event(_, TextDelta(_, delta)) => delta
        case _ => ""
  }

  predicate Cites(e: Event) {
    e.Event? && e.body.AnnotationAdded? && e.body.citation.Some?
  }

  /** How many of the parts cite something. */
  function CitesIn(parts: seq<Event>): nat {
    if parts == [] then 0 else CitesIn(parts[..|parts| - 1]) + if Cites(parts[|parts| - 1]) then 1 else 0
  }

  /** `quote` is the span the citation names of this text, as far as the text goes. */
  predicate Quotes(text: string, c: Citation, quote: string) {
    var start := if c.startIndex.Some? then c.startIndex.value else 0;
    var end := if c.endIndex.Some? then c.endIndex.value else start;
    && (0 <= start <= end <= |text| ==> quote == text[start..end])
    && (0 <= start <= |text| <= end ==> quote == text[start..])
    && (start <= 0 <= end <= |text| ==> quote == text[..end])
    && (start <= 0 && |text| <= end ==> quote == text)
    && (0 <= start && (end <= start || |text| <= start) ==> quote == "")
    && (start < 0 && end < 0 ==>
          && (-|text| <= end && start <= end ==> quote == text[..|text| + end])
          && (-|text| <= start && end <= start ==> quote == text[..|text| + start])
          && (start < -|text| && end < -|text| ==> quote == ""))
  }

  lemma QuotedQuotes(text: string, c: Citation)
    ensures Quotes(text, c, Quoted(text, c))
  {
  }

  /** Once something was said or cited there is a text block, and it says all that came. */
  lemma {:induction false} ProseSays(key: int, parts: seq<Event>)
    requires forall e <- parts :: ProsePart(key, e)
    ensures ProseBlock(key, parts).None? <==> Told(parts) == "" && CitesIn(parts) == 0
    ensures var a := ProseSoFar(ProseBlock(key, parts));
            && a.block == Some(TextBlock) && a.text == Told(parts) && |a.citations| == CitesIn(parts)
            && a.thinking == "" && a.json == "" && a.inputs == []
  {
    if parts != [] {
      var before, e := parts[..|parts| - 1], parts[|parts| - 1];
      assert e in parts && ProsePart(key, e) && forall x <- before :: x in parts;
      ProseSays(key, before);
      hide JsSlice, Quoted;
    }
  }

  /** The text block made of these parts has, as its citation number `n`, this one, with its span of `text` quoted. */
  predicate CitedAt(key: int, parts: seq<Event>, n: nat, text: string, c: Citation)
    requires forall e <- parts :: ProsePart(key, e)
  {
    && ProseBlock(key, parts).Some? && n < |ProseBlock(key, parts).value.citations|
    && var cited := ProseBlock(key, parts).value.citations[n];
    cited.Cited? && cited.url == c.url && cited.title == c.title && Quotes(text, c, cited.citedText)
  }

  lemma OneCitationMore(key: int, before: seq<Event>, e: Event)
    requires (forall x <- before + [e] :: ProsePart(key, x)) && forall x <- before :: ProsePart(key, x)
    requires Cites(e)
    ensures var a := ProseSoFar(ProseBlock(key, before)); var c := e.body.citation.value;
            ProseBlock(key, before + [e])
            == Some(a.(citations := a.citations + [Cited(c.url, c.title, Quoted(a.text, c))]))
  {
    var parts := before + [e];
    assert parts[..|parts| - 1] == before && e in parts;
    hide Quoted, ProseSoFar;
  }

  lemma CitedNow(key: int, before: seq<Event>, e: Event)
    requires (forall x <- before + [e] :: ProsePart(key, x)) && forall x <- before :: ProsePart(key, x)
    requires Cites(e)
    ensures CitedAt(key, before + [e], CitesIn(before), Told(before), e.body.citation.value)
  {
    OneCitationMore(key, before, e);
    ProseSays(key, before);
    QuotedQuotes(Told(before), e.body.citation.value);
    hide ProseBlock, Quoted, Quotes, Told, CitesIn;
  }

  lemma StaysCited(key: int, parts: seq<Event>, last: Event, n: nat, text: string, c: Citation)
    requires forall x <- parts + [last] :: ProsePart(key, x)
    requires forall x <- parts :: ProsePart(key, x)
    requires CitedAt(key, parts, n, text, c)
    ensures CitedAt(key, parts + [last], n, text, c)
  {
    var all := parts + [last];
    assert all[..|all| - 1] == parts && last in all && ProsePart(key, last);
    hide JsSlice, Quoted, Quotes;
  }

  /** A citation quotes the text that had come before it, whatever comes after it. */
  lemma {:induction false} CitationsQuote(key: int, before: seq<Event>, e: Event, after: seq<Event>)
    requires forall x <- before + [e] + after :: ProsePart(key, x)
    requires Cites(e)
    ensures CitedAt(key, before + [e] + after, CitesIn(before), Told(before), e.body.citation.value)
    decreases |after|
  {
    hide CitedAt;
    if after == [] {
      assert before + [e] + after == before + [e] && forall x <- before :: x in before + [e];
      CitedNow(key, before, e);
    } else {
      var some, last := after[..|after| - 1], after[|after| - 1];
      var parts := before + [e] + some;
      assert before + [e] + after == parts + [last];
      assert forall x <- parts :: x in parts + [last];
      CitationsQuote(key, before, e, some);
      StaysCited(key, parts, last, CitesIn(before), Told(before), e.body.citation.value);
    }
  }

  // Searches.

  /** What a search asks for: its query, or else the first of its queries; a page; or nothing at all. */
  predicate Asks(a: Action, input: SearchInput) {
    && (input.QueryInput? <==> a.query != "" || a.kind == "search")
    && (a.query != "" ==> input == QueryInput(a.query))
    && (input.QueryInput? && a.query == "" ==> input.query == a.firstOfQueries)
    && (input.UrlInput? ==> input.url == a.url && input.pattern == a.pattern)
    && (input.NoInput? <==> a.query == "" && a.kind != "search" && a.url == "")
  }

  /** The pages: every one found, or the one opened when nothing was searched. */
  ghost predicate Lists(a: Action, urls: seq<string>) {
    match a.sources
    case None => urls == if a.url == "" then [] else [a.url]
    case Some(found) => EachOnce(found, urls)
  }

  /** Where a page is first found; past the end when it is not. */
  function FirstAt(found: seq<string>, url: string): nat {
    if found == [] || found[0] == url then 0 else 1 + FirstAt(found[1..], url)
  }

  lemma {:induction false} FirstAtMore(found: seq<string>, last: string, url: string)
    ensures FirstAt(found, url) <= |found| && (FirstAt(found, url) < |found| <==> url in found)
    ensures FirstAt(found + [last], url) ==
            if url in found then FirstAt(found, url) else if url == last then |found| else |found| + 1
    decreases |found|
  {
    if found != [] {
      assert (found + [last])[1..] == found[1..] + [last];
      FirstAtMore(found[1..], last, url);
    }
  }

  /** Every page found, once, in the order first found. */
  ghost predicate EachOnce(found: seq<string>, urls: seq<string>) {
    && (forall url :: url in urls <==> url != "" && url in found)
    && (forall i, j :: 0 <= i < j < |urls| ==> urls[i] != urls[j])
    && forall i, j :: 0 <= i < j < |urls| ==> FirstAt(found, urls[i]) < FirstAt(found, urls[j])
  }

  lemma EachOnceMore(init: seq<string>, last: string, urls: seq<string>)
    requires EachOnce(init, urls)
    ensures EachOnce(init + [last], if last == "" || last in urls then urls else urls + [last])
  {
    forall url: string ensures FirstAt(init, url) < |init| <==> url in init
      ensures url in init ==> FirstAt(init + [last], url) == FirstAt(init, url)
      ensures url !in init && url == last ==> FirstAt(init + [last], url) == |init|
    {
      FirstAtMore(init, last, url);
    }
    hide FirstAt;
  }

  lemma {:induction false} DistinctIsEachOnce(found: seq<string>)
    ensures EachOnce(found, Distinct(found))
    decreases |found|
  {
    if found != [] {
      var init, last := found[..|found| - 1], found[|found| - 1];
      assert found == init + [last];
      DistinctIsEachOnce(init);
      hide EachOnce;
      EachOnceMore(init, last, Distinct(init));
    }
  }

  /**
   * A finished search is a call with what it asked for, then its pages under that call's id: upstream's, if it gave
   * one. One that never finished is the call alone.
   */
  lemma SearchesArrive(seg: Segment, ids: nat)
    requires seg.Search? && WellMade(seg)
    ensures var blocks := BlocksOf(seg, ids); var item := seg.added.body.item;
            && |blocks| == (if seg.done == [] then 1 else 2)
            && blocks[0].block.Some? && blocks[0].block.value.ServerToolUse?
            && blocks[0].block.value.id == (if item.id == "" then Synthetic(ids) else Given(item.id))
            && (seg.done == [] ==> blocks[0].inputs == [])
            && (seg.done != [] ==>
                  && |blocks[0].inputs| == 1 && seg.done[0] in seg.done
                  && Asks(seg.done[0].body.item.action, blocks[0].inputs[0])
                  && blocks[1].block.Some? && blocks[1].block.value.SearchResult?
                  && blocks[1].block.value.toolUseId == blocks[0].block.value.id
                  && Lists(seg.done[0].body.item.action, blocks[1].block.value.urls))
  {
    if seg.done != [] {
      assert seg.done[0] in seg.done;
      var action := seg.done[0].body.item.action;
      if action.sources.Some? { DistinctIsEachOnce(action.sources.value); }
      hide Distinct, EachOnce;
    }
  }

  // The start of the message.

  /** The response that the first event with anything to say carries. */
  function FirstHeard(events: seq<Event>): Option<Response> {
    if events == [] then None else if events[0].Malformed? then FirstHeard(events[1..]) else events[0].response
  }

  /**
   * A stream starts with the message: of the model that was asked for, or else the one upstream names first; under
   * upstream's id, marked as a message's.
   */
  lemma {:induction false} MessageNames(requestModel: Option<string>, events: seq<Event>)
    ensures var out := Translate(Initial(requestModel), events).out; var r := FirstHeard(events);
            && out != [] && out[0].MessageStart?
            && (requestModel.Some? ==> out[0].model == requestModel.value)
            && (requestModel.None? && r.Some? && r.value.model != "" ==> out[0].model == r.value.model)
            && (requestModel.None? && (r.None? || r.value.model == "") ==> out[0].model == "unknown")
            && (r.Some? && r.value.id != "" && "msg_" <= r.value.id ==> out[0].id == r.value.id)
            && (r.Some? && r.value.id != "" && !("msg_" <= r.value.id) ==> out[0].id == "msg_" + r.value.id)
            && (r.None? || r.value.id == "" ==> out[0].id == "msg_responses_translate")
    decreases |events|
  {
    hide Handle, Finalize;
    if events != [] {
      MessageNames(requestModel, events[1..]);
      assert events[0].Malformed? ==> Push(Initial(requestModel), events[0]) == Step(Initial(requestModel), []);
    }
  }
}
