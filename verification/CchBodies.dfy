/**
 * The stamp on the JSON text of a body: no token lies across two of its keys and values, so stamping the text is
 * stamping one of them, the first that has a token.
 */
module CchBodies {
  import opened Options
  import opened CchStamp

  // A token lies within one piece of JSON text: no quote, comma, colon or brace stands in it.

  predicate Divides(c: char) {
    c == '"' || c == ',' || c == ':' || c == '{' || c == '}'
  }

  predicate Has(s: string) {
    FirstMatch(s, 0).Some?
  }

  lemma NoneIs(s: string)
    requires forall j :: 0 <= j <= |s| ==> !MatchAt(s, j)
    ensures FirstMatch(s, 0).None?
  {
  }

  /** No token is shorter than 27 characters. */
  lemma ShortHasNone(s: string)
    requires |s| < 27
    ensures !Has(s)
  {
    NoneIs(s);
  }

  lemma {:induction false} RunEndBefore(a: string, c: char, b: string, i: nat)
    requires i <= |a| && Divides(c)
    ensures RunEnd(a + [c] + b, i) == RunEnd(a, i)
    decreases |a| - i
  {
    assert (a + [c] + b)[i] == if i < |a| then a[i] else c;
    if i < |a| && IsEntrypoint(a[i]) { RunEndBefore(a, c, b, i + 1); }
  }

  lemma {:induction false} RunEndAfter(p: string, b: string, i: nat)
    requires i <= |b|
    ensures RunEnd(p + b, |p| + i) == |p| + RunEnd(b, i)
    decreases |b| - i
  {
    if i < |b| {
      assert (p + b)[|p| + i] == b[i];
      if IsEntrypoint(b[i]) { RunEndAfter(p, b, i + 1); }
    }
  }

  lemma AnchorUndivided(s: string, i: nat, d: nat)
    requires i <= d < i + |ANCHOR| <= |s| && Divides(s[d])
    ensures s[i..i + |ANCHOR|] != ANCHOR
  {
    assert s[i..i + |ANCHOR|][d - i] == s[d];
  }

  lemma HexTokenUndivided(s: string, e: nat, d: nat)
    requires e <= d < e + |TOKEN| + 6 <= |s| && Divides(s[d])
    ensures !HexToken(s, e)
  {
    if d < e + |TOKEN| { assert s[e..e + |TOKEN|][d - e] == s[d]; }
  }

  /** A token is its twelve characters. */
  lemma HexTokenSame(s: string, e: nat, t: string, d: nat)
    requires e + |TOKEN| + 6 <= |s| && d + |TOKEN| + 6 <= |t| && s[e..e + |TOKEN| + 6] == t[d..d + |TOKEN| + 6]
    ensures HexToken(s, e) <==> HexToken(t, d)
  {
    var n := |TOKEN|;
    var window := s[e..e + n + 6];
    assert s[e..e + n] == window[..n] && t[d..d + n] == window[..n];
    assert s[e + n + 5] == window[n + 5] && t[d + n + 5] == window[n + 5];
    assert forall j :: n <= j < n + 5 ==> s[e + j] == window[j] && t[d + j] == window[j];
    assert forall j :: e + n <= j < e + n + 5 ==> s[j] == window[j - e];
    assert forall j :: d + n <= j < d + n + 5 ==> t[j] == window[j - d];
    assert (forall j :: e + n <= j < e + n + 5 ==> IsHex(s[j])) <==> forall j :: n <= j < n + 5 ==> IsHex(window[j]);
    assert (forall j :: d + n <= j < d + n + 5 ==> IsHex(t[j])) <==> forall j :: n <= j < n + 5 ==> IsHex(window[j]);
  }

  lemma HexTokenBefore(a: string, c: char, b: string, e: nat)
    requires e <= |a| && Divides(c)
    ensures HexToken(a + [c] + b, e) <==> HexToken(a, e)
  {
    var s := a + [c] + b;
    if e + |TOKEN| + 6 <= |a| {
      assert s[e..e + |TOKEN| + 6] == a[e..e + |TOKEN| + 6];
      HexTokenSame(s, e, a, e);
    } else if e + |TOKEN| + 6 <= |s| {
      HexTokenUndivided(s, e, |a|);
    }
  }

  lemma MatchBefore(a: string, c: char, b: string, i: nat)
    requires i <= |a| && Divides(c)
    ensures MatchAt(a + [c] + b, i) <==> MatchAt(a, i)
    ensures MatchAt(a, i) ==> HexAt(a + [c] + b, i) == HexAt(a, i)
  {
    var s := a + [c] + b;
    if i + |ANCHOR| <= |a| {
      assert s[i..i + |ANCHOR|] == a[i..i + |ANCHOR|];
      RunEndBefore(a, c, b, i + |ANCHOR|);
      HexTokenBefore(a, c, b, ValueEnd(a, i));
    } else if i + |ANCHOR| <= |s| {
      AnchorUndivided(s, i, |a|);
    }
  }

  lemma MatchAfter(p: string, b: string, i: nat)
    ensures MatchAt(p + b, |p| + i) <==> MatchAt(b, i)
    ensures MatchAt(b, i) ==> HexAt(p + b, |p| + i) == |p| + HexAt(b, i)
  {
    if i + |ANCHOR| <= |b| {
      assert (p + b)[|p| + i..|p| + i + |ANCHOR|] == b[i..i + |ANCHOR|];
      RunEndAfter(p, b, i + |ANCHOR|);
      HexTokenAfter(p, b, ValueEnd(b, i));
    }
  }

  lemma HexTokenAfter(p: string, b: string, e: nat)
    ensures HexToken(p + b, |p| + e) <==> HexToken(b, e)
  {
    if e + |TOKEN| + 6 <= |b| {
      assert (p + b)[|p| + e..|p| + e + |TOKEN| + 6] == b[e..e + |TOKEN| + 6];
      HexTokenSame(p + b, |p| + e, b, e);
    }
  }

  /** The tokens of a divided text are those of its first part, and then those of its second. */
  lemma MatchesDivided(a: string, c: char, b: string)
    requires Divides(c)
    ensures forall j: nat :: j <= |a| ==> (MatchAt(a + [c] + b, j) <==> MatchAt(a, j))
    ensures forall j: nat :: |a| < j ==> (MatchAt(a + [c] + b, j) <==> MatchAt(b, j - |a| - 1))
  {
    hide MatchAt, HexAt;
    forall j: nat | j <= |a| ensures MatchAt(a + [c] + b, j) <==> MatchAt(a, j) { MatchBefore(a, c, b, j); }
    forall j: nat | |a| < j ensures MatchAt(a + [c] + b, j) <==> MatchAt(b, j - |a| - 1) {
      MatchAfter(a + [c], b, j - |a| - 1);
    }
  }

  lemma FirstInFirst(a: string, c: char, b: string)
    requires Divides(c) && Has(a)
    ensures var i := FirstMatch(a, 0).value;
            FirstMatch(a + [c] + b, 0) == Some(i) && MatchAt(a + [c] + b, i) && HexAt(a + [c] + b, i) == HexAt(a, i)
  {
    hide MatchAt, HexAt;
    var i := FirstMatch(a, 0).value;
    MatchesDivided(a, c, b);
    MatchBefore(a, c, b, i);
    FirstIs(a + [c] + b, i);
  }

  lemma FirstShifted(s: string, a: string, b: string, i: nat)
    requires !Has(a) && FirstMatch(b, 0) == Some(i)
    requires forall j: nat :: j <= |a| ==> (MatchAt(s, j) <==> MatchAt(a, j))
    requires forall j: nat :: |a| < j ==> (MatchAt(s, j) <==> MatchAt(b, j - |a| - 1))
    ensures FirstMatch(s, 0) == Some(|a| + 1 + i)
  {
    hide MatchAt;
    var k := |a| + 1 + i;
    forall j | 0 <= j < k ensures !MatchAt(s, j) {
      if j <= |a| { assert !MatchAt(a, j); } else { assert !MatchAt(b, j - |a| - 1); }
    }
    FirstIs(s, k);
  }

  lemma FirstInSecond(a: string, c: char, b: string, i: nat)
    requires Divides(c) && !Has(a) && FirstMatch(b, 0) == Some(i)
    ensures FirstMatch(a + [c] + b, 0) == Some(|a| + 1 + i)
  {
    hide MatchAt, HexAt, FirstMatch, Has;
    MatchesDivided(a, c, b);
    FirstShifted(a + [c] + b, a, b, i);
  }

  lemma FirstInNone(a: string, c: char, b: string)
    requires Divides(c) && !Has(a) && !Has(b)
    ensures !Has(a + [c] + b)
  {
    hide MatchAt;
    MatchesDivided(a, c, b);
    NoneIs(a + [c] + b);
  }

  /** The token of a divided text is that of its first part, or else that of its second. */
  lemma PutDivided(a: string, c: char, b: string, hex: string)
    requires Divides(c) && |hex| == 5
    ensures Has(a + [c] + b) <==> Has(a) || Has(b)
    ensures Put(a + [c] + b, hex) == if Has(a) then Put(a, hex) + [c] + b else a + [c] + Put(b, hex)
  {
    hide Put, FirstMatch;
    if Has(a) {
      PutInFirst(a, c, b, hex);
    } else if Has(b) {
      PutInSecond(a, c, b, FirstMatch(b, 0).value, hex);
    } else {
      FirstInNone(a, c, b);
      NoneIsKept(a + [c] + b, hex);
      NoneIsKept(b, hex);
    }
  }

  lemma PutInFirst(a: string, c: char, b: string, hex: string)
    requires Divides(c) && |hex| == 5 && Has(a)
    ensures Has(a + [c] + b) && Put(a + [c] + b, hex) == Put(a, hex) + [c] + b
  {
    hide FirstMatch, MatchAt, HexAt, Put;
    var i := FirstMatch(a, 0).value;
    FirstInFirst(a, c, b);
    PutSplices(a, i, hex);
    PutSplices(a + [c] + b, i, hex);
    SpliceFirst(a, [c] + b, HexAt(a, i), hex);
    assert a + ([c] + b) == a + [c] + b && Put(a, hex) + ([c] + b) == Put(a, hex) + [c] + b;
  }

  lemma PutInSecond(a: string, c: char, b: string, i: nat, hex: string)
    requires Divides(c) && |hex| == 5 && !Has(a) && FirstMatch(b, 0) == Some(i)
    ensures Has(a + [c] + b) && Put(a + [c] + b, hex) == a + [c] + Put(b, hex)
  {
    hide FirstMatch, MatchAt, HexAt, Put;
    var s := a + [c] + b;
    var k := |a + [c]| + i;
    FirstInSecond(a, c, b, i);
    MatchAfter(a + [c], b, i);
    PutSplices(s, k, hex);
    PutSplices(b, i, hex);
    hide Divides, Has, RunEnd, ValueEnd, HexToken;
    SpliceSecond(a + [c], b, HexAt(b, i), hex);
  }

  lemma PutSplices(s: string, i: nat, hex: string)
    requires |hex| == 5 && FirstMatch(s, 0) == Some(i)
    ensures MatchAt(s, i) && Put(s, hex) == s[..HexAt(s, i)] + hex + s[HexAt(s, i) + 5..]
  {
  }

  lemma SpliceFirst(a: string, b: string, h: nat, hex: string)
    requires h + 5 <= |a|
    ensures (a + b)[..h] + hex + (a + b)[h + 5..] == a[..h] + hex + a[h + 5..] + b
  {
    assert (a + b)[..h] == a[..h] && (a + b)[h + 5..] == a[h + 5..] + b;
  }

  lemma SpliceSecond(a: string, b: string, h: nat, hex: string)
    requires h + 5 <= |b|
    ensures (a + b)[..|a| + h] + hex + (a + b)[|a| + h + 5..] == a + (b[..h] + hex + b[h + 5..])
  {
    assert (a + b)[..|a| + h] == a + b[..h] && (a + b)[|a| + h + 5..] == b[h + 5..];
  }

  lemma NoneIsKept(s: string, hex: string)
    requires |hex| == 5 && !Has(s)
    ensures Put(s, hex) == s
  {
  }

  // Bodies as JSON text, keys and values as they stand in it.

  function Entry(e: (string, string)): string {
    "" + ['"'] + (e.0 + ['"'] + ("" + [':'] + e.1))
  }

  function Entries(b: Body<string>): string {
    if b == [] then "" else if |b| == 1 then Entry(b[0]) else Entry(b[0]) + [','] + Entries(b[1..])
  }

  function Show(b: Body<string>): string {
    "" + ['{'] + (Entries(b) + ['}'] + "")
  }

  predicate EntryHas(e: (string, string)) {
    Has(e.0) || Has(e.1)
  }

  function PutEntry(e: (string, string), hex: string): (string, string)
    requires |hex| == 5
  {
    if Has(e.0) then (Put(e.0, hex), e.1) else (e.0, Put(e.1, hex))
  }

  /** The stamp written into the first key or value that has a token. */
  function PutBody(b: Body<string>, hex: string): Body<string>
    requires |hex| == 5
  {
    if b == [] then []
    else if EntryHas(b[0]) then [PutEntry(b[0], hex)] + b[1..]
    else [b[0]] + PutBody(b[1..], hex)
  }

  predicate BodyHas(b: Body<string>) {
    exists i :: 0 <= i < |b| && EntryHas(b[i])
  }

  lemma EmptyPuts(hex: string)
    requires |hex| == 5
    ensures !Has("") && Put("", hex) == ""
  {
    ShortHasNone("");
  }

  lemma PutIsShown(e: (string, string), hex: string)
    requires |hex| == 5
    ensures Has(Entry(e)) <==> EntryHas(e)
    ensures Put(Entry(e), hex) == Entry(PutEntry(e, hex))
  {
    hide Has, Put;
    EmptyPuts(hex);
    var value := "" + [':'] + e.1;
    PutDivided("", ':', e.1, hex);
    PutDivided(e.0, '"', value, hex);
    PutDivided("", '"', e.0 + ['"'] + value, hex);
  }

  lemma {:induction false} PutEntriesShown(b: Body<string>, hex: string)
    requires |hex| == 5
    ensures Has(Entries(b)) <==> BodyHas(b)
    ensures Put(Entries(b), hex) == Entries(PutBody(b, hex))
  {
    hide Has, Put, Entry, PutEntry;
    if b == [] {
      EmptyPuts(hex);
    } else {
      PutIsShown(b[0], hex);
      assert BodyHas(b) <==> EntryHas(b[0]) || BodyHas(b[1..]) by { HeadOrTail(b); }
      assert b[..1] + b[1..] == b;
      if |b| == 1 {
        NoPutUnlessHas(b[0], hex);
        assert b[1..] == [];
      } else {
        PutEntriesShown(b[1..], hex);
        PutDivided(Entry(b[0]), ',', Entries(b[1..]), hex);
        PutBodyLength(b[1..], hex);
        var put := PutBody(b, hex);
        assert put[1..] == if EntryHas(b[0]) then b[1..] else PutBody(b[1..], hex);
      }
    }
  }

  lemma NoPutUnlessHas(e: (string, string), hex: string)
    requires |hex| == 5
    ensures !EntryHas(e) ==> PutEntry(e, hex) == e
  {
  }

  lemma HeadOrTail(b: Body<string>)
    requires b != []
    ensures BodyHas(b) <==> EntryHas(b[0]) || BodyHas(b[1..])
  {
    hide EntryHas;
    if BodyHas(b) && !EntryHas(b[0]) {
      var i :| 0 <= i < |b| && EntryHas(b[i]);
      assert b[1..][i - 1] == b[i];
    }
    if BodyHas(b[1..]) {
      var i :| 0 <= i < |b[1..]| && EntryHas(b[1..][i]);
      assert b[i + 1] == b[1..][i];
    }
  }

  lemma {:induction false} PutBodyLength(b: Body<string>, hex: string)
    requires |hex| == 5
    ensures |PutBody(b, hex)| == |b|
  {
    if b != [] { PutBodyLength(b[1..], hex); }
  }

  /** Stamping the text of a body is stamping the body. */
  lemma PutShown(b: Body<string>, hex: string)
    requires |hex| == 5
    ensures Has(Show(b)) <==> BodyHas(b)
    ensures Put(Show(b), hex) == Show(PutBody(b, hex))
  {
    hide Has, Put, Entries;
    EmptyPuts(hex);
    PutEntriesShown(b, hex);
    if !Has(Entries(b)) { NoneIsKept(Entries(b), hex); }
    PutDivided(Entries(b), '}', "", hex);
    PutDivided("", '{', Entries(b) + ['}'] + "", hex);
  }

  lemma NoEntries()
    ensures !BodyHas([])
  {
  }

  // Which entry the stamp goes to.

  function EntryCarried(e: (string, string)): Option<string> {
    if Has(e.0) then Carried(e.0) else Carried(e.1)
  }

  lemma CarriesWhatIsPut(text: string, hex: string)
    requires AllHex(hex) && Has(text)
    ensures Carried(Put(text, hex)) == Some(hex)
  {
    PutKeepsFirst(text, hex);
  }

  lemma HasCarries(s: string)
    ensures Has(s) <==> Carried(s).Some?
  {
  }

  lemma {:induction false} PutAtFirst(b: Body<string>, j: nat, hex: string)
    requires |hex| == 5 && j < |b| && EntryHas(b[j]) && forall i :: 0 <= i < j ==> !EntryHas(b[i])
    ensures PutBody(b, hex) == b[j := PutEntry(b[j], hex)]
  {
    hide EntryHas, PutEntry;
    if j > 0 {
      assert !EntryHas(b[0]);
      forall i | 0 <= i < j - 1 ensures !EntryHas(b[1..][i]) { assert b[1..][i] == b[i + 1]; }
      PutAtFirst(b[1..], j - 1, hex);
      assert b[j := PutEntry(b[j], hex)][1..] == b[1..][j - 1 := PutEntry(b[j], hex)];
    }
  }

  lemma FirstEntry(b: Body<string>, i: nat) returns (j: nat)
    requires i < |b| && EntryHas(b[i])
    ensures j <= i && EntryHas(b[j]) && forall k :: 0 <= k < j ==> !EntryHas(b[k])
  {
    hide EntryHas;
    j := 0;
    while !EntryHas(b[j])
      invariant j <= i && forall k :: 0 <= k < j ==> !EntryHas(b[k])
      decreases i - j
    {
      j := j + 1;
    }
  }

  lemma PutEntryCarries(e: (string, string), hex: string)
    requires AllHex(hex) && EntryHas(e)
    ensures EntryCarried(PutEntry(e, hex)) == Some(hex)
  {
    hide Put, FirstMatch, Carried;
    if Has(e.0) {
      CarriesWhatIsPut(e.0, hex);
      HasCarries(Put(e.0, hex));
    } else {
      CarriesWhatIsPut(e.1, hex);
      HasCarries(Put(e.1, hex));
    }
  }

  /**
   * The stamp goes to one entry, its key or its value, and leaves every other as it is, exactly when no entry ahead of
   * it has a token: so the billing header in `system` takes it if and only if nothing before `system` quotes one.
   */
  lemma OnlyHeaderIff(b: Body<string>, i: nat)
    requires i < |b| && EntryHas(b[i])
    ensures (forall hex | AllHex(hex) :: PutBody(b, hex) == b[i := PutEntry(b[i], hex)]) <==>
            forall j :: 0 <= j < i ==> !EntryHas(b[j])
  {
    hide EntryHas, PutEntry, PutBody;
    assert AllHex("00000") && AllHex("00001");
    var j := FirstEntry(b, i);
    forall hex | AllHex(hex) ensures PutBody(b, hex) == b[j := PutEntry(b[j], hex)] { PutAtFirst(b, j, hex); }
    if j < i && forall hex | AllHex(hex) :: PutBody(b, hex) == b[i := PutEntry(b[i], hex)] {
      PutAtOne(b, i, j, "00000");
      PutAtOne(b, i, j, "00001");
    }
  }

  lemma PutAtOne(b: Body<string>, i: nat, j: nat, hex: string)
    requires j < i < |b| && AllHex(hex) && EntryHas(b[j])
    requires b[j := PutEntry(b[j], hex)] == b[i := PutEntry(b[i], hex)]
    ensures EntryCarried(b[j]) == Some(hex)
  {
    PutEntryCarries(b[j], hex);
    hide EntryHas, PutEntry, EntryCarried;
    assert b[j := PutEntry(b[j], hex)][j] == b[i := PutEntry(b[i], hex)][j];
  }

  /** Text with a token that carries these characters. */
  function Tag(hex: string): string {
    "cc_entrypoint=cli; cch=" + hex + ";"
  }

  lemma TagMatches(hex: string)
    requires AllHex(hex)
    ensures FirstMatch(Tag(hex), 0) == Some(0) && HexAt(Tag(hex), 0) == 23
  {
    var s := Tag(hex);
    assert s[0..14] == ANCHOR;
    assert RunEnd(s, 17) == 17 && RunEnd(s, 16) == 17 && RunEnd(s, 15) == 17 && ValueEnd(s, 0) == 17;
    assert s[17..23] == TOKEN && s[23..28] == hex && s[28] == ';';
    assert MatchAt(s, 0);
    FirstIs(s, 0);
  }

  lemma TagCarries(was: string, hex: string)
    requires AllHex(was) && AllHex(hex)
    ensures Has(Tag(was)) && Carried(Tag(was)) == Some(was) && Put(Tag(was), hex) == Tag(hex)
  {
    TagMatches(was);
    hide FirstMatch, MatchAt, HexAt;
    var s := Tag(was);
    assert s[23..28] == was && s[..23] == Tag(hex)[..23] && s[28..] == ";" && Tag(hex)[23..] == hex + ";";
    assert Tag(hex) == Tag(hex)[..23] + hex + ";";
  }

  /** A conversation that quotes a billing header takes its stamp: the header keeps the characters it had. */
  lemma QuotedHeaderTakesStamp(was: string, hex: string)
    requires AllHex(was) && AllHex(hex)
    ensures Put(Show([("messages", Tag(was)), ("system", Tag(was))]), hex)
            == Show([("messages", Tag(hex)), ("system", Tag(was))])
  {
    var b := [("messages", Tag(was)), ("system", Tag(was))];
    TagCarries(was, hex);
    ShortHasNone("messages");
    hide FirstMatch, Put, Show, Tag;
    PutShown(b, hex);
    assert b[1..] == [("system", Tag(was))];
  }
}
