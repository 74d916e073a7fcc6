/**
 * Cutting a character stream into records at separators, with chunks that do not line up with the records.
 * The separator is any head matcher that satisfies `Separator`; the two the repository uses are below.
 */
module Framing {
  datatype Framed = Framed(records: seq<string>, rest: string)

  /** The length of the separator a string starts with, 0 when it starts with none. */
  type Matcher = string -> nat

  /**
   * What makes cutting independent of the chunks: a match stays the same when more text follows, and text that
   * follows cannot complete a match that starts before one already there.
   */
  ghost predicate Separator(sep: Matcher) {
    && (forall s :: sep(s) <= |s|)
    && (forall s, t :: sep(s) > 0 ==> sep(s + t) == sep(s))
    && (forall s, t, i :: 0 <= i <= |s| && sep(s[i..]) > 0 && sep(s + t) > 0 ==> sep(s) > 0)
  }

  /** Where the first separator starts, |s| when there is none. */
  function Next(sep: Matcher, s: string): (i: nat)
    ensures i <= |s|
    ensures i < |s| ==> sep(s[i..]) > 0
  {
    if |s| == 0 then 0 else if sep(s) > 0 then 0 else 1 + Next(sep, s[1..])
  }

  /** What follows the first separator. */
  function After(sep: Matcher, s: string): (r: string)
    requires Separator(sep) && Next(sep, s) < |s|
    ensures |r| < |s|
  {
    var i := Next(sep, s);
    s[i + sep(s[i..])..]
  }

  /** Cut at the leftmost separator, again and again; what is left has none. */
  function Split(sep: Matcher, s: string): Framed
    requires Separator(sep)
    decreases |s|
  {
    if Next(sep, s) == |s| then Framed([], s)
    else
      var after := Split(sep, After(sep, s));
      Framed([s[..Next(sep, s)]] + after.records, after.rest)
  }

  lemma MatchFits(sep: Matcher, s: string)
    requires Separator(sep)
    ensures sep(s) <= |s|
  {
  }

  lemma MatchStays(sep: Matcher, s: string, t: string)
    requires Separator(sep) && sep(s) > 0
    ensures sep(s + t) == sep(s)
  {
  }

  lemma {:induction false} NextExtends(sep: Matcher, s: string, t: string)
    requires Separator(sep) && Next(sep, s) < |s|
    ensures Next(sep, s + t) == Next(sep, s)
    decreases |s|
  {
    if sep(s) == 0 {
      var i := Next(sep, s);
      assert sep(s + t) == 0 by {
        assert sep(s[i..]) > 0;
      }
      assert (s + t)[1..] == s[1..] + t;
      NextExtends(sep, s[1..], t);
    }
  }

  lemma AfterExtends(sep: Matcher, s: string, t: string)
    requires Separator(sep) && Next(sep, s) < |s|
    ensures Next(sep, s + t) == Next(sep, s) && After(sep, s + t) == After(sep, s) + t
  {
    NextExtends(sep, s, t);
    var i := Next(sep, s);
    MatchFits(sep, s[i..]);
    MatchStays(sep, s[i..], t);
    hide Separator, Next;
    var n := sep(s[i..]);
    LaterSlice(s, t, i);
    LaterSlice(s, t, i + n);
    assert sep((s + t)[i..]) == n;
  }

  lemma LaterSlice(s: string, t: string, i: nat)
    requires i <= |s|
    ensures (s + t)[i..] == s[i..] + t
  {
  }

  lemma SplitUnfolds(sep: Matcher, s: string)
    requires Separator(sep)
    ensures Next(sep, s) == |s| ==> Split(sep, s) == Framed([], s)
    ensures Next(sep, s) < |s| ==>
              Split(sep, s) == Framed([s[..Next(sep, s)]] + Split(sep, After(sep, s)).records,
                  Split(sep, After(sep, s)).rest)
  {
  }

  /** More text goes on from what the text so far left over. */
  lemma {:induction false} SplitConcat(sep: Matcher, s: string, t: string)
    requires Separator(sep)
    ensures var a := Split(sep, s); var b := Split(sep, a.rest + t);
            Split(sep, s + t) == Framed(a.records + b.records, b.rest)
    decreases |s|
  {
    hide Separator, Next, After, Split;
    var i := Next(sep, s);
    SplitUnfolds(sep, s);
    if i != |s| {
      AfterExtends(sep, s, t);
      SplitUnfolds(sep, s + t);
      assert (s + t)[..i] == s[..i];
      SplitConcat(sep, After(sep, s), t);
      var a := Split(sep, After(sep, s));
      var b := Split(sep, a.rest + t);
      assert [s[..i]] + (a.records + b.records) == ([s[..i]] + a.records) + b.records;
    }
  }

  function Concat(chunks: seq<string>): string {
    if chunks == [] then "" else chunks[0] + Concat(chunks[1..])
  }

  /** Feed the chunks one at a time, each to what the ones before left over. */
  function Feed(sep: Matcher, buffer: string, chunks: seq<string>): Framed
    requires Separator(sep)
    decreases |chunks|
  {
    if chunks == [] then Framed([], buffer)
    else
      var first := Split(sep, buffer + chunks[0]);
      var more := Feed(sep, first.rest, chunks[1..]);
      Framed(first.records + more.records, more.rest)
  }

  lemma FeedUnfolds(sep: Matcher, buffer: string, chunks: seq<string>)
    requires Separator(sep)
    ensures chunks == [] ==> Feed(sep, buffer, chunks) == Framed([], buffer)
    ensures chunks != [] ==>
              var first := Split(sep, buffer + chunks[0]);
              var more := Feed(sep, first.rest, chunks[1..]);
              Feed(sep, buffer, chunks) == Framed(first.records + more.records, more.rest)
  {
  }

  /** The same, from the chunk at `n` on. */
  lemma FeedUnfoldsAt(sep: Matcher, buffer: string, chunks: seq<string>, n: nat)
    requires Separator(sep) && n <= |chunks|
    ensures n == |chunks| ==> Feed(sep, buffer, chunks[n..]) == Framed([], buffer)
    ensures n < |chunks| ==>
              var first := Split(sep, buffer + chunks[n]);
              var more := Feed(sep, first.rest, chunks[n + 1..]);
              Feed(sep, buffer, chunks[n..]) == Framed(first.records + more.records, more.rest)
  {
    hide Separator, Split, Feed;
    FeedUnfolds(sep, buffer, chunks[n..]);
    if n < |chunks| { assert chunks[n..][1..] == chunks[n + 1..] && chunks[n..][0] == chunks[n]; }
  }

  lemma {:induction false} SplitRest(sep: Matcher, s: string)
    requires Separator(sep)
    ensures Split(sep, Split(sep, s).rest) == Framed([], Split(sep, s).rest)
    decreases |s|
  {
    hide Separator, Next, After;
    if Next(sep, s) != |s| { SplitRest(sep, After(sep, s)); }
  }

  /** However a string is cut into chunks, the records and the remainder are those of the whole. */
  lemma {:induction false} ChunksIrrelevant(sep: Matcher, buffer: string, chunks: seq<string>)
    requires Separator(sep) && Split(sep, buffer) == Framed([], buffer)
    ensures Feed(sep, buffer, chunks) == Split(sep, buffer + Concat(chunks))
    decreases |chunks|
  {
    hide Separator, Split;
    if chunks == [] {
      assert buffer + "" == buffer;
    } else {
      var first := Split(sep, buffer + chunks[0]);
      SplitRest(sep, buffer + chunks[0]);
      ChunksIrrelevant(sep, first.rest, chunks[1..]);
      SplitConcat(sep, buffer + chunks[0], Concat(chunks[1..]));
      assert buffer + chunks[0] + Concat(chunks[1..]) == buffer + Concat(chunks);
    }
  }

  /** `\n\n`, the cut of the reverse mapper. */
  function BlankLine(s: string): nat {
    if |s| >= 2 && s[0] == '\n' && s[1] == '\n' then 2 else 0
  }

  /** `\r?\n\r?\n`, the cut of the Responses record parser. */
  function BlankLineCr(s: string): nat {
    var a := if |s| >= 1 && s[0] == '\r' then 1 else 0;
    if |s| <= a || s[a] != '\n' then 0
    else
      var b := if |s| >= a + 2 && s[a + 1] == '\r' then a + 2 else a + 1;
      if |s| <= b || s[b] != '\n' then 0 else b + 1
  }

  lemma BlankLineSeparates()
    ensures Separator(BlankLine)
  {
    forall s: string, t: string, i | 0 <= i <= |s| && BlankLine(s[i..]) > 0 && BlankLine(s + t) > 0
      ensures BlankLine(s) > 0
    {
      assert (s + t)[0] == s[0] && (s + t)[1] == s[1];
    }
  }

  lemma BlankLineCrSeparates()
    ensures Separator(BlankLineCr)
  {
    forall s: string, t: string | BlankLineCr(s) > 0 ensures BlankLineCr(s + t) == BlankLineCr(s) {
      assert forall j :: 0 <= j < |s| ==> (s + t)[j] == s[j];
    }
    forall s: string, t: string, i | 0 <= i <= |s| && BlankLineCr(s[i..]) > 0 && BlankLineCr(s + t) > 0
      ensures BlankLineCr(s) > 0
    {
      assert forall j :: 0 <= j < |s| ==> (s + t)[j] == s[j];
      assert forall j :: 0 <= j < |s| - i ==> s[i..][j] == s[i + j];
    }
  }

  // What a cut is, said of the text itself.

  /** The text up to its first separator is the first record, and what follows it is cut the same; none is left. */
  ghost predicate Cuts(sep: Matcher, s: string, records: seq<string>, rest: string)
    decreases |records|
  {
    if records == [] then rest == s && forall i :: 0 <= i < |s| ==> sep(s[i..]) == 0
    else
      var i := |records[0]|;
      && i < |s| && records[0] == s[..i] && 0 < sep(s[i..]) <= |s| - i
      && (forall j :: 0 <= j < i ==> sep(s[j..]) == 0)
      && Cuts(sep, s[i + sep(s[i..])..], records[1..], rest)
  }

  lemma {:induction false} NextIsFirst(sep: Matcher, s: string)
    ensures forall j :: 0 <= j < Next(sep, s) ==> sep(s[j..]) == 0
  {
    if |s| > 0 && sep(s) == 0 {
      NextIsFirst(sep, s[1..]);
      forall j | 0 <= j < Next(sep, s) ensures sep(s[j..]) == 0 {
        if j == 0 { assert s[0..] == s; } else { assert s[j..] == s[1..][j - 1..]; }
      }
    }
  }

  lemma CutsMore(sep: Matcher, s: string, records: seq<string>, rest: string)
    requires Separator(sep) && Next(sep, s) < |s| && Cuts(sep, After(sep, s), records, rest)
    ensures Cuts(sep, s, [s[..Next(sep, s)]] + records, rest)
  {
    NextIsFirst(sep, s);
    var i := Next(sep, s);
    MatchFits(sep, s[i..]);
    hide Separator, Next;
    var all := [s[..i]] + records;
    assert all[1..] == records && |all[0]| == i;
  }

  /** Split cuts at every separator and nowhere else, and drops nothing but the separators. */
  lemma {:induction false} SplitCuts(sep: Matcher, s: string)
    requires Separator(sep)
    ensures Cuts(sep, s, Split(sep, s).records, Split(sep, s).rest)
    decreases |s|
  {
    SplitUnfolds(sep, s);
    NextIsFirst(sep, s);
    hide Separator, Split, Next, After;
    if Next(sep, s) < |s| {
      SplitCuts(sep, After(sep, s));
      hide Cuts;
      CutsMore(sep, s, Split(sep, After(sep, s)).records, Split(sep, After(sep, s)).rest);
    }
  }

  /** A record of the Responses stream ends at two newlines, each of which a carriage return may precede. */
  lemma BlankLineCrIs(s: string)
    ensures BlankLineCr(s) ==
            if "\n\n" <= s then 2
            else if "\n\r\n" <= s || "\r\n\n" <= s then 3
            else if "\r\n\r\n" <= s then 4
            else 0
  {
  }

  lemma BlankLineIs(s: string)
    ensures BlankLine(s) == if "\n\n" <= s then 2 else 0
  {
  }
}
