/**
 * The request-integrity stamp: five hex characters after an anchor in the billing header, replaced in place by a
 * hash of a projection of the body that leaves the stamp itself, and the fields a proxy rewrites, out.
 */
module CchStamp {
  import opened Options

  const ANCHOR := "cc_entrypoint="
  const TOKEN := "; cch="

  predicate IsEntrypoint(c: char) {
    'a' <= c <= 'z' || '0' <= c <= '9' || c == '-'
  }

  predicate IsHex(c: char) {
    '0' <= c <= '9' || 'a' <= c <= 'f' || 'A' <= c <= 'F'
  }

  /** Where the run of entrypoint characters from `i` ends. */
  function RunEnd(s: string, i: nat): (e: nat)
    requires i <= |s|
    ensures i <= e <= |s| && (e < |s| ==> !IsEntrypoint(s[e]))
    ensures forall j :: i <= j < e ==> IsEntrypoint(s[j])
    decreases |s| - i
  {
    if i == |s| || !IsEntrypoint(s[i]) then i else RunEnd(s, i + 1)
  }

  /** Where the entrypoint value ends, for an anchor at `i`. */
  function ValueEnd(s: string, i: nat): (e: nat)
    requires i + |ANCHOR| <= |s|
    ensures i + |ANCHOR| <= e <= |s|
  {
    RunEnd(s, i + |ANCHOR|)
  }

  predicate HexToken(s: string, e: nat) {
    && e + |TOKEN| + 6 <= |s| && s[e..e + |TOKEN|] == TOKEN
    && (forall j :: e + |TOKEN| <= j < e + |TOKEN| + 5 ==> IsHex(s[j]))
    && s[e + |TOKEN| + 5] == ';'
  }

  /** The anchor, an entrypoint of 1 to 32 characters, the token, five hex characters, and a semicolon to follow. */
  predicate MatchAt(s: string, i: nat) {
    && i + |ANCHOR| <= |s| && s[i..i + |ANCHOR|] == ANCHOR
    && 1 <= ValueEnd(s, i) - (i + |ANCHOR|) <= 32
    && HexToken(s, ValueEnd(s, i))
  }

  /** Where the first match from `i` on starts. */
  function FirstMatch(s: string, i: nat): (r: Option<nat>)
    ensures r.Some? ==> i <= r.value < |s| && MatchAt(s, r.value)
    ensures forall j :: i <= j && (r.Some? ==> j < r.value) ==> !MatchAt(s, j)
    decreases |s| - i
  {
    if i >= |s| then None else if MatchAt(s, i) then Some(i) else FirstMatch(s, i + 1)
  }

  /** Where its five hex characters start. */
  function HexAt(s: string, i: nat): (h: nat)
    requires MatchAt(s, i)
    ensures i + |ANCHOR| + 1 + |TOKEN| <= h && h + 6 <= |s|
  {
    ValueEnd(s, i) + |TOKEN|
  }

  /** Replace the five hex characters of the first token. */
  function Put(s: string, hex: string): (r: string)
    requires |hex| == 5
    ensures |r| == |s|
  {
    var m := FirstMatch(s, 0);
    if m.None? then s
    else
      var h := HexAt(s, m.value);
      s[..h] + hex + s[h + 5..]
  }

  predicate AllHex(hex: string) {
    |hex| == 5 && forall j :: 0 <= j < 5 ==> IsHex(hex[j])
  }

  /** A text that differs from `s` only in five hex characters at `h`, hex in both. */
  predicate SameBut(s: string, t: string, h: nat) {
    && |t| == |s| && h + 5 <= |s|
    && (forall j :: 0 <= j < |s| && !(h <= j < h + 5) ==> t[j] == s[j])
    && (forall j :: h <= j < h + 5 ==> IsHex(s[j]) && IsHex(t[j]))
  }

  lemma {:induction false} RunEndStays(s: string, t: string, i: nat, stop: nat)
    requires |t| == |s| && i <= stop < |s| && !IsEntrypoint(s[stop])
    requires forall j :: i <= j <= stop ==> t[j] == s[j]
    ensures RunEnd(t, i) == RunEnd(s, i) <= stop
    decreases |s| - i
  {
    if IsEntrypoint(s[i]) { RunEndStays(s, t, i + 1, stop); }
  }

  /** What stands right before the hex characters of a match. */
  lemma BeforeHex(s: string, i: nat)
    requires MatchAt(s, i)
    ensures var h := HexAt(s, i);
            && i + |ANCHOR| + 1 + |TOKEN| <= h && h + 6 <= |s|
            && s[h - 6] == ';' && s[h - 5] == ' ' && s[h - 2] == 'h' && s[h - 1] == '='
            && forall j :: h <= j < h + 5 ==> IsHex(s[j])
  {
    var e := ValueEnd(s, i);
    var token := s[e..e + |TOKEN|];
    assert token[0] == s[e] && token[1] == s[e + 1] && token[4] == s[e + 4] && token[5] == s[e + 5];
  }

  /** A token that ends in the hex characters at `h`, or before them, reads the same in both texts. */
  lemma TokenStays(s: string, t: string, h: nat, e: nat)
    requires SameBut(s, t, h) && 6 <= h && s[h - 6] == ';' && s[h - 5] == ' ' && s[h - 2] == 'h' && s[h - 1] == '='
    requires e <= h - 6
    ensures HexToken(t, e) <==> HexToken(s, e)
  {
    if e + |TOKEN| + 6 <= |s| {
      assert s[e..e + |TOKEN|] == t[e..e + |TOKEN|];
      if e + 6 < h && e + 10 >= h - 6 {
        assert !HexToken(s, e) by { Overlaps(s, h, e); }
        assert !HexToken(t, e) by { Overlaps(t, h, e); }
      }
    }
  }

  /**
   * Five hex characters cannot reach into the token before `h`: two of its characters that are no hex stand in the way.
   */
  lemma Overlaps(s: string, h: nat, e: nat)
    requires 6 <= h <= |s| && s[h - 6] == ';' && s[h - 5] == ' ' && s[h - 2] == 'h' && s[h - 1] == '='
    requires e + 6 < h && e + 10 >= h - 6
    ensures !HexToken(s, e)
  {
  }

  /** Changing the hex characters of a match neither makes nor breaks a match that starts no later. */
  lemma MatchStays(s: string, t: string, i: nat, j: nat)
    requires MatchAt(s, i) && j <= i && SameBut(s, t, HexAt(s, i))
    ensures MatchAt(t, j) <==> MatchAt(s, j)
    ensures MatchAt(s, j) ==> HexAt(t, j) == HexAt(s, j)
  {
    BeforeHex(s, i);
    var h := HexAt(s, i);
    if j + |ANCHOR| <= |s| {
      assert s[j..j + |ANCHOR|] == t[j..j + |ANCHOR|];
      RunEndStays(s, t, j + |ANCHOR|, h - 6);
      TokenStays(s, t, h, ValueEnd(s, j));
    }
  }

  lemma PutIsSameBut(s: string, hex: string)
    requires AllHex(hex) && FirstMatch(s, 0).Some?
    ensures SameBut(s, Put(s, hex), HexAt(s, FirstMatch(s, 0).value))
  {
    BeforeHex(s, FirstMatch(s, 0).value);
  }

  lemma FirstIs(s: string, i: nat)
    requires MatchAt(s, i) && forall j :: 0 <= j < i ==> !MatchAt(s, j)
    ensures FirstMatch(s, 0) == Some(i)
  {
    var first := FirstMatch(s, 0);
    assert first.Some? ==> MatchAt(s, first.value);
  }

  lemma PutThere(s: string, hex: string, h: nat)
    requires AllHex(hex) && h + 5 <= |s|
    ensures (s[..h] + hex + s[h + 5..])[h..h + 5] == hex
  {
  }

  /**
   * Stamping changes only the five hex characters of the first anchored token, keeps the length, and creates no
   * earlier match: the first token of the stamped text is the same one.
   */
  lemma PutKeepsFirst(s: string, hex: string)
    requires AllHex(hex)
    ensures FirstMatch(Put(s, hex), 0) == FirstMatch(s, 0)
    ensures var m := FirstMatch(s, 0);
            && (m.None? ==> Put(s, hex) == s)
            && (m.Some? ==>
                  && HexAt(Put(s, hex), m.value) == HexAt(s, m.value)
                  && SameBut(s, Put(s, hex), HexAt(s, m.value))
                  && Put(s, hex)[HexAt(s, m.value)..HexAt(s, m.value) + 5] == hex)
  {
    var m := FirstMatch(s, 0);
    if m.Some? {
      PutIsSameBut(s, hex);
      var t := Put(s, hex);
      hide MatchAt, HexAt, SameBut, AllHex, FirstMatch;
      forall j | 0 <= j <= m.value ensures MatchAt(t, j) <==> MatchAt(s, j) {
        MatchStays(s, t, m.value, j);
      }
      MatchStays(s, t, m.value, m.value);
      FirstIs(t, m.value);
      PutThere(s, hex, HexAt(s, m.value));
    }
  }

  /** The last stamp wins. */
  lemma PutTwice(s: string, a: string, b: string)
    requires AllHex(a) && AllHex(b)
    ensures Put(Put(s, a), b) == Put(s, b)
  {
    PutKeepsFirst(s, a);
    hide FirstMatch, MatchAt, HexAt;
    if FirstMatch(s, 0).Some? {
      var h := HexAt(s, FirstMatch(s, 0).value);
      PutKeepsFirst(s, b);
      PutKeepsFirst(Put(s, a), b);
    }
  }

  // The hash and what it is taken of.

  function HexDigit(d: nat): char
    requires d < 16
  {
    if d < 10 then '0' + d as char else 'a' + (d - 10) as char
  }

  /** Twenty bits as five lower-case hex characters, padded with zeros. */
  function Hex5(h: nat): (r: string)
    requires h < 0x100000
    ensures AllHex(r)
  {
    var a := h / 16;
    var b := a / 16;
    var c := b / 16;
    [HexDigit(c / 16), HexDigit(c % 16), HexDigit(b % 16), HexDigit(a % 16), HexDigit(h % 16)]
  }

  function DigitValue(c: char): int {
    if '0' <= c <= '9' then c as int - '0' as int else c as int - 'a' as int + 10
  }

  function HexValue(hex: string): int {
    if hex == "" then 0 else 16 * HexValue(hex[..|hex| - 1]) + DigitValue(hex[|hex| - 1])
  }

  /** The stamp's characters are the number, most significant first. */
  lemma Hex5IsValue(h: nat)
    requires h < 0x100000
    ensures HexValue(Hex5(h)) == h
  {
    var a := h / 16;
    var b := a / 16;
    var c := b / 16;
    MoreDigits("", c / 16);
    MoreDigits([HexDigit(c / 16)], c % 16);
    MoreDigits([HexDigit(c / 16), HexDigit(c % 16)], b % 16);
    MoreDigits([HexDigit(c / 16), HexDigit(c % 16), HexDigit(b % 16)], a % 16);
    MoreDigits([HexDigit(c / 16), HexDigit(c % 16), HexDigit(b % 16), HexDigit(a % 16)], h % 16);
    hide HexValue, HexDigit;
    var all := [HexDigit(c / 16), HexDigit(c % 16), HexDigit(b % 16), HexDigit(a % 16)] + [HexDigit(h % 16)];
    assert all == Hex5(h);
    assert [HexDigit(c / 16), HexDigit(c % 16), HexDigit(b % 16)] + [HexDigit(a % 16)]
        == [HexDigit(c / 16), HexDigit(c % 16), HexDigit(b % 16), HexDigit(a % 16)];
    assert "" + [HexDigit(c / 16)] == [HexDigit(c / 16)];
    assert [HexDigit(c / 16)] + [HexDigit(c % 16)] == [HexDigit(c / 16), HexDigit(c % 16)];
    assert [HexDigit(c / 16), HexDigit(c % 16)] + [HexDigit(b % 16)]
           == [HexDigit(c / 16), HexDigit(c % 16), HexDigit(b % 16)];
  }

  lemma MoreDigits(hex: string, d: nat)
    requires d < 16
    ensures HexValue(hex + [HexDigit(d)]) == 16 * HexValue(hex) + d && HexValue("") == 0
  {
    assert (hex + [HexDigit(d)])[..|hex|] == hex;
  }

  /** A body is its keys and values in the order they stand. */
  type Body<V> = seq<(string, V)>

  /** The JSON text of bodies, the empty string as a value, and the 64-bit hash of each version whose seed is known. */
  datatype Kit<!V> = Kit(parse: string -> Option<Body<V>>, show: Body<V> -> string, blank: V,
                         hash: string -> Option<string -> nat>)

  /** Assigning a key replaces its value where it stands, or adds it at the end. */
  function SetKey<V>(b: Body<V>, key: string, v: V): Body<V> {
    if b == [] then [(key, v)]
    else if b[0].0 == key then [(key, v)] + b[1..]
    else [b[0]] + SetKey(b[1..], key, v)
  }

  function DeleteKey<V>(b: Body<V>, key: string): Body<V> {
    if b == [] then []
    else if b[0].0 == key then DeleteKey(b[1..], key)
    else [b[0]] + DeleteKey(b[1..], key)
  }

  const FALLBACKS := "fallbacks"
  const CREDIT_TOKEN := "fallback_credit_token"
  const MAX_TOKENS := "max_tokens"
  const MODEL := "model"

  /** The model's value blanked, the other fields a proxy rewrites left out. */
  function Project<V>(kit: Kit<V>, b: Body<V>): Body<V> {
    DeleteKey(DeleteKey(DeleteKey(SetKey(b, MODEL, kit.blank), FALLBACKS), CREDIT_TOKEN), MAX_TOKENS)
  }

  /** The pre-image: the token zeroed in the text, the body projected. None stands for a text that does not parse. */
  function Material<V>(kit: Kit<V>, text: string): Option<string> {
    var body := kit.parse(Put(text, "00000"));
    if body.None? then None else Some(kit.show(Project(kit, body.value)))
  }

  /** The stamp of a text: nothing to stamp, five characters, or an exception. */
  datatype Answer = Unstamped | Stamped(cch: string) | Throws

  function CchForBody<V>(kit: Kit<V>, text: string, version: string): (r: Answer)
    ensures r.Stamped? ==> AllHex(r.cch)
  {
    if kit.hash(version).None? || FirstMatch(text, 0).None? then Unstamped
    else
      var material := Material(kit, text);
      if material.None? then Throws else Stamped(Hex5(kit.hash(version).value(material.value) % 0x100000))
  }

  /** The stamped text; none stands for an exception. */
  function Stamp<V>(kit: Kit<V>, text: string, version: string): Option<string> {
    match CchForBody(kit, text, version)
    case Unstamped => Some(text)
    case Stamped(cch) => Some(Put(text, cch))
    case Throws => None
  }

  /** Whatever is stamped, the pre-image is that of the original. */
  lemma MaterialIgnoresStamp<V>(kit: Kit<V>, text: string, hex: string, version: string)
    requires AllHex(hex)
    ensures Material(kit, Put(text, hex)) == Material(kit, text)
    ensures CchForBody(kit, Put(text, hex), version) == CchForBody(kit, text, version)
  {
    PutTwice(text, hex, "00000");
    PutKeepsFirst(text, hex);
  }

  /** The five characters where the first token has them. */
  function Carried(text: string): Option<string> {
    var m := FirstMatch(text, 0);
    if m.None? then None else Some(text[HexAt(text, m.value)..HexAt(text, m.value) + 5])
  }

  /**
   * A text that stamps carries the very stamp that is computed from it, and stamps again to itself. None without a
   * token or a seed is touched, and one with both throws exactly when, its stamp zeroed, it does not parse.
   */
  lemma StampIsConsistent<V>(kit: Kit<V>, text: string, version: string)
    ensures var t := Stamp(kit, text, version);
            t.Some? ==>
              && CchForBody(kit, t.value, version) == CchForBody(kit, text, version)
              && Stamp(kit, t.value, version) == t
              && |t.value| == |text|
              && (if CchForBody(kit, text, version).Stamped?
                    then Carried(t.value) == Some(CchForBody(kit, text, version).cch)
                  else t.value == text)
    ensures Stamp(kit, text, version).None? <==>
            kit.hash(version).Some? && Carried(text).Some? && kit.parse(Put(text, "00000")).None?
  {
    var cch := CchForBody(kit, text, version);
    if cch.Stamped? {
      hide FirstMatch, HexAt, Put, Material, Hex5;
      assert AllHex(cch.cch);
      MaterialIgnoresStamp(kit, text, cch.cch, version);
      PutKeepsFirst(text, cch.cch);
      PutTwice(text, cch.cch, cch.cch);
    }
  }

  /** What a proxy does to a body between computing the stamp and sending it. */
  datatype Rewrite<V> = SetField(key: string, value: V) | DropField(key: string)

  predicate Allowed<V>(r: Rewrite<V>) {
    match r
    case SetField(key, _) => key in {FALLBACKS, CREDIT_TOKEN, MAX_TOKENS, MODEL}
    case DropField(key) => key in {FALLBACKS, CREDIT_TOKEN, MAX_TOKENS}
  }

  function RewriteOne<V>(b: Body<V>, r: Rewrite<V>): Body<V> {
    match r
    case SetField(key, v) => SetKey(b, key, v)
    case DropField(key) => DeleteKey(b, key)
  }

  function RewriteAll<V>(b: Body<V>, rs: seq<Rewrite<V>>): Body<V> {
    if rs == [] then b else RewriteOne(RewriteAll(b, rs[..|rs| - 1]), rs[|rs| - 1])
  }

  lemma {:induction false} DeleteIgnoresSet<V>(b: Body<V>, key: string, v: V)
    ensures DeleteKey(SetKey(b, key, v), key) == DeleteKey(b, key)
  {
    if b != [] && b[0].0 != key {
      DeleteIgnoresSet(b[1..], key, v);
      assert SetKey(b, key, v)[1..] == SetKey(b[1..], key, v);
    } else {
      assert SetKey(b, key, v)[1..] == if b == [] then [] else b[1..];
    }
  }

  lemma {:induction false} DeletesCommute<V>(b: Body<V>, j: string, k: string)
    ensures DeleteKey(DeleteKey(b, j), k) == DeleteKey(DeleteKey(b, k), j)
  {
    if b != [] {
      DeletesCommute(b[1..], j, k);
      DeleteHead(b[0], DeleteKey(b[1..], j), k);
      DeleteHead(b[0], DeleteKey(b[1..], k), j);
    }
  }

  lemma DeleteHead<V>(head: (string, V), tail: Body<V>, k: string)
    ensures DeleteKey([head] + tail, k) == if head.0 == k then DeleteKey(tail, k) else [head] + DeleteKey(tail, k)
  {
    assert ([head] + tail)[1..] == tail;
  }

  lemma {:induction false} DeleteTwice<V>(b: Body<V>, k: string)
    ensures DeleteKey(DeleteKey(b, k), k) == DeleteKey(b, k)
  {
    if b != [] {
      DeleteTwice(b[1..], k);
      DeleteHead(b[0], DeleteKey(b[1..], k), k);
    }
  }

  lemma {:induction false} SetAndDeleteCommute<V>(b: Body<V>, j: string, v: V, k: string)
    requires j != k
    ensures DeleteKey(SetKey(b, j, v), k) == SetKey(DeleteKey(b, k), j, v)
  {
    if b == [] {
      assert DeleteKey([(j, v)], k) == [(j, v)] + DeleteKey([(j, v)][1..], k);
    } else if b[0].0 == j {
      DeleteHead((j, v), b[1..], k);
      assert ([b[0]] + DeleteKey(b[1..], k))[1..] == DeleteKey(b[1..], k);
    } else {
      SetAndDeleteCommute(b[1..], j, v, k);
      DeleteHead(b[0], SetKey(b[1..], j, v), k);
      if b[0].0 != k { assert ([b[0]] + DeleteKey(b[1..], k))[1..] == DeleteKey(b[1..], k); }
    }
  }

  lemma {:induction false} SetTwice<V>(b: Body<V>, k: string, v: V, u: V)
    ensures SetKey(SetKey(b, k, v), k, u) == SetKey(b, k, u)
  {
    if b != [] && b[0].0 != k {
      SetTwice(b[1..], k, v, u);
      assert SetKey(b, k, v)[1..] == SetKey(b[1..], k, v);
    }
  }

  lemma ProjectIgnores<V>(kit: Kit<V>, b: Body<V>, r: Rewrite<V>)
    requires Allowed(r)
    ensures Project(kit, RewriteOne(b, r)) == Project(kit, b)
  {
    hide SetKey, DeleteKey;
    if r.key == MODEL {
      SetTwice(b, MODEL, r.value, kit.blank);
    } else {
      ProjectDrops(kit, b, r.key);
      ProjectDrops(kit, RewriteOne(b, r), r.key);
      if r.SetField? { DeleteIgnoresSet(b, r.key, r.value); } else { DeleteTwice(b, r.key); }
    }
  }

  /** The projection is the same of a body without one of the fields it leaves out. */
  lemma ProjectDrops<V>(kit: Kit<V>, b: Body<V>, key: string)
    requires key in {FALLBACKS, CREDIT_TOKEN, MAX_TOKENS}
    ensures Project(kit, b) == Project(kit, DeleteKey(b, key))
  {
    hide SetKey, DeleteKey;
    SetAndDeleteCommute(b, MODEL, kit.blank, key);
    var c := SetKey(b, MODEL, kit.blank);
    DeleteTwice(c, key);
    DeletesCommute(c, key, FALLBACKS);
    DeletesCommute(DeleteKey(c, FALLBACKS), key, CREDIT_TOKEN);
    DeleteTwice(DeleteKey(c, FALLBACKS), key);
    DeleteTwice(DeleteKey(DeleteKey(c, FALLBACKS), CREDIT_TOKEN), key);
    DeletesCommute(DeleteKey(DeleteKey(c, FALLBACKS), CREDIT_TOKEN), key, MAX_TOKENS);
  }

  lemma {:induction false} ProjectIgnoresAll<V>(kit: Kit<V>, b: Body<V>, rs: seq<Rewrite<V>>)
    requires forall r <- rs :: Allowed(r)
    ensures Project(kit, RewriteAll(b, rs)) == Project(kit, b)
  {
    if rs != [] {
      ProjectIgnoresAll(kit, b, rs[..|rs| - 1]);
      ProjectIgnores(kit, RewriteAll(b, rs[..|rs| - 1]), rs[|rs| - 1]);
    }
  }

  // Which texts have a token.

  lemma HexChars(c: char)
    ensures IsHex(c) <==> c in "0123456789abcdefABCDEF"
  {
  }

  lemma EntrypointChars(c: char)
    ensures IsEntrypoint(c) <==> c in "abcdefghijklmnopqrstuvwxyz0123456789-"
  {
  }

  lemma {:induction false} RunsToEnd(s: string, i: nat, e: nat)
    requires i <= e <= |s| && (forall j :: i <= j < e ==> IsEntrypoint(s[j])) && (e == |s| || !IsEntrypoint(s[e]))
    ensures RunEnd(s, i) == e
    decreases e - i
  {
    if i < e { RunsToEnd(s, i + 1, e); }
  }

  /** The tag with this entrypoint and stamp. */
  function TagOf(entrypoint: string, hex: string): string {
    "cc_entrypoint=" + entrypoint + "; cch=" + hex + ";"
  }

  /** An entrypoint may have 1 to 32 characters: a tag with a longer one, or none, has no token of its own. */
  lemma EntrypointLengths(entrypoint: string, hex: string)
    requires AllHex(hex) && forall c <- entrypoint :: IsEntrypoint(c)
    ensures MatchAt(TagOf(entrypoint, hex), 0) <==> 1 <= |entrypoint| <= 32
    ensures MatchAt(TagOf(entrypoint, hex), 0) ==>
              && HexAt(TagOf(entrypoint, hex), 0) == 14 + |entrypoint| + 6
              && FirstMatch(TagOf(entrypoint, hex), 0) == Some(0)
  {
    var s, e := TagOf(entrypoint, hex), 14 + |entrypoint|;
    assert s[..14] == ANCHOR && s[0..14] == s[..14];
    assert forall j :: 14 <= j < e ==> s[j] == entrypoint[j - 14] && s[j] in entrypoint;
    assert s[e..e + 6] == TOKEN && s[e] == ';' && s[e + 6..e + 11] == hex && s[e + 11] == ';';
    assert forall j :: e + 6 <= j < e + 11 ==> s[j] == hex[j - e - 6];
    RunsToEnd(s, 14, e);
    hide RunEnd, IsEntrypoint, IsHex, FirstMatch;
    if 1 <= |entrypoint| <= 32 { FirstIs(s, 0); }
  }
}
