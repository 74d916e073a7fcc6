/**
 * The stamp over what a proxy does to a body, from the JSON text of the original, through its stamp, to the JSON text
 * that is sent with other fields in it: exactly when the stamp stays what it was, and exactly when a reader accepts it.
 */
module CchRewrites {
  import opened Options
  import opened CchStamp
  import opened CchBodies

  // The rewrites, which may or may not leave the token where it is.

  const REWRITTEN: set<string> := {FALLBACKS, CREDIT_TOKEN, MAX_TOKENS, MODEL}

  /** The first entry with a token under a key that is not in `skip`. */
  function FirstPast(b: Body<string>, skip: set<string>): (r: Option<(string, string)>)
    ensures r.Some? ==> r.value in b && r.value.0 !in skip && EntryHas(r.value)
  {
    if b == [] then None
    else if b[0].0 !in skip && EntryHas(b[0]) then Some(b[0])
    else FirstPast(b[1..], skip)
  }

  /** The stamp written into that entry. */
  function PutPast(b: Body<string>, skip: set<string>, hex: string): Body<string>
    requires |hex| == 5
  {
    if b == [] then []
    else if b[0].0 !in skip && EntryHas(b[0]) then [PutEntry(b[0], hex)] + b[1..]
    else [b[0]] + PutPast(b[1..], skip, hex)
  }

  /** The first token of a body stands in one of these fields. */
  predicate FirstIn(b: Body<string>, fields: set<string>) {
    var first := FirstPast(b, {});
    first.Some? && first.value.0 in fields
  }

  /** It stands in a field that a proxy rewrites, and the stamp leaves out. */
  predicate Mislaid(b: Body<string>) {
    FirstIn(b, REWRITTEN)
  }

  /** The five characters of the first token in any other field: those of the billing header. */
  function Header(b: Body<string>): Option<string> {
    var first := FirstPast(b, REWRITTEN);
    if first.Some? then EntryCarried(first.value) else None
  }

  /** An object has each field a proxy rewrites at most once. */
  predicate Tidy(b: Body<string>) {
    forall j, k :: 0 <= j < k < |b| && b[j].0 in REWRITTEN ==> b[j].0 != b[k].0
  }

  function Touched(rs: seq<Rewrite<string>>): set<string> {
    set r | r in rs :: r.key
  }

  lemma RewrittenHasNone(key: string)
    requires key in REWRITTEN
    ensures !Has(key)
  {
    ShortHasNone(key);
  }

  /** A stamped entry keeps its place among the keys: it is one that a rewrite names exactly when it was. */
  lemma PutEntryKeepsKey(e: (string, string), hex: string, key: string)
    requires AllHex(hex) && key in REWRITTEN
    ensures PutEntry(e, hex).0 == key <==> e.0 == key
  {
    RewrittenHasNone(key);
    PutKeepsFirst(e.0, hex);
  }

  lemma {:induction false} PutIsPutPast(b: Body<string>, skip: set<string>, hex: string)
    requires |hex| == 5 && !FirstIn(b, skip)
    ensures PutPast(b, skip, hex) == PutBody(b, hex) && FirstPast(b, skip) == FirstPast(b, {})
    ensures BodyHas(b) <==> FirstPast(b, {}).Some?
  {
    hide EntryHas, PutEntry;
    if b == [] {
      NoEntries();
    } else {
      hide BodyHas;
      HeadOrTail(b);
      if !EntryHas(b[0]) { PutIsPutPast(b[1..], skip, hex); }
    }
  }

  lemma {:induction false} HasIsFirst(b: Body<string>)
    ensures BodyHas(b) <==> FirstPast(b, {}).Some?
  {
    PutIsPutPast(b, {}, "00000");
  }

  // Rewriting passed-over fields and stamping past them, in either order.

  lemma {:induction false} SetPast(b: Body<string>, skip: set<string>, key: string, v: string, hex: string)
    requires AllHex(hex) && key in skip && skip <= REWRITTEN
    ensures PutPast(SetKey(b, key, v), skip, hex) == SetKey(PutPast(b, skip, hex), key, v)
    ensures FirstPast(SetKey(b, key, v), skip) == FirstPast(b, skip)
  {
    hide EntryHas, PutEntry;
    var after := SetKey(b, key, v);
    if b == [] {
      assert after[1..] == [];
    } else if b[0].0 == key {
      assert after[1..] == b[1..] && PutPast(b, skip, hex)[1..] == PutPast(b[1..], skip, hex);
    } else {
      SetPast(b[1..], skip, key, v, hex);
      assert after[1..] == SetKey(b[1..], key, v);
      PutEntryKeepsKey(b[0], hex, key);
      assert PutPast(b, skip, hex)[1..]
             == if b[0].0 !in skip && EntryHas(b[0]) then b[1..] else PutPast(b[1..], skip, hex);
    }
  }

  lemma {:induction false} DeletePast(b: Body<string>, skip: set<string>, key: string, hex: string)
    requires AllHex(hex) && key in skip && skip <= REWRITTEN
    ensures PutPast(DeleteKey(b, key), skip, hex) == DeleteKey(PutPast(b, skip, hex), key)
    ensures FirstPast(DeleteKey(b, key), skip) == FirstPast(b, skip)
  {
    hide EntryHas, PutEntry;
    if b != [] {
      DeletePast(b[1..], skip, key, hex);
      if b[0].0 == key {
        assert PutPast(b, skip, hex)[1..] == PutPast(b[1..], skip, hex);
      } else {
        assert ([b[0]] + DeleteKey(b[1..], key))[1..] == DeleteKey(b[1..], key);
        PutEntryKeepsKey(b[0], hex, key);
        assert PutPast(b, skip, hex)[1..]
             == if b[0].0 !in skip && EntryHas(b[0]) then b[1..] else PutPast(b[1..], skip, hex);
      }
    }
  }

  lemma {:induction false} RewritesPast(b: Body<string>, skip: set<string>, rs: seq<Rewrite<string>>, hex: string)
    requires AllHex(hex) && skip <= REWRITTEN && Touched(rs) <= skip
    ensures PutPast(RewriteAll(b, rs), skip, hex) == RewriteAll(PutPast(b, skip, hex), rs)
    ensures FirstPast(RewriteAll(b, rs), skip) == FirstPast(b, skip)
  {
    hide PutPast, FirstPast;
    if rs != [] {
      var before, r := rs[..|rs| - 1], rs[|rs| - 1];
      assert r in rs && r.key in Touched(rs);
      RewritesPast(b, skip, before, hex);
      if r.SetField? {
        SetPast(RewriteAll(b, before), skip, r.key, r.value, hex);
      } else {
        DeletePast(RewriteAll(b, before), skip, r.key, hex);
      }
    }
  }

  lemma ProjectPast(kit: Kit<string>, b: Body<string>, hex: string)
    requires AllHex(hex)
    ensures Project(kit, PutPast(b, REWRITTEN, hex)) == PutPast(Project(kit, b), REWRITTEN, hex)
    ensures Header(Project(kit, b)) == Header(b)
  {
    hide PutPast, FirstPast, SetKey, DeleteKey, EntryCarried;
    var c := SetKey(b, MODEL, kit.blank);
    SetPast(b, REWRITTEN, MODEL, kit.blank, hex);
    DeletePast(c, REWRITTEN, FALLBACKS, hex);
    DeletePast(DeleteKey(c, FALLBACKS), REWRITTEN, CREDIT_TOKEN, hex);
    DeletePast(DeleteKey(DeleteKey(c, FALLBACKS), CREDIT_TOKEN), REWRITTEN, MAX_TOKENS, hex);
  }

  lemma {:induction false} RewritesStayTidy(b: Body<string>, rs: seq<Rewrite<string>>)
    requires Tidy(b)
    ensures Tidy(RewriteAll(b, rs))
  {
    hide Tidy;
    if rs != [] {
      var before, r := rs[..|rs| - 1], rs[|rs| - 1];
      RewritesStayTidy(b, before);
      var c := RewriteAll(b, before);
      if r.SetField? { SetStaysTidy(c, r.key, r.value); } else { DeleteStaysTidy(c, r.key); }
    }
  }

  lemma TidyParts(head: (string, string), tail: Body<string>)
    ensures Tidy([head] + tail) <==> Tidy(tail) && (head.0 in REWRITTEN ==> forall e <- tail :: e.0 != head.0)
  {
    var b := [head] + tail;
    if Tidy(b) {
      forall e | e in tail && head.0 in REWRITTEN ensures e.0 != head.0 {
        var k :| 0 <= k < |tail| && tail[k] == e;
        assert b[k + 1] == e && b[0] == head;
      }
      forall j, k | 0 <= j < k < |tail| && tail[j].0 in REWRITTEN ensures tail[j].0 != tail[k].0 {
        assert b[j + 1] == tail[j] && b[k + 1] == tail[k];
      }
    }
  }

  lemma {:induction false} SetStaysTidy(b: Body<string>, key: string, v: string)
    requires Tidy(b)
    ensures Tidy(SetKey(b, key, v))
    ensures forall e <- SetKey(b, key, v) :: e.0 == key || e in b
  {
    if b != [] {
      hide Tidy;
      TidyParts(b[0], b[1..]);
      assert b == [b[0]] + b[1..];
      TidyParts((b[0].0, v), b[1..]);
      if b[0].0 != key {
        SetStaysTidy(b[1..], key, v);
        TidyParts(b[0], SetKey(b[1..], key, v));
      }
    }
  }

  lemma {:induction false} DeleteStaysTidy(b: Body<string>, key: string)
    requires Tidy(b)
    ensures Tidy(DeleteKey(b, key))
    ensures forall e <- DeleteKey(b, key) :: e in b
  {
    if b != [] {
      hide Tidy;
      TidyParts(b[0], b[1..]);
      assert b == [b[0]] + b[1..];
      DeleteStaysTidy(b[1..], key);
      if b[0].0 != key { TidyParts(b[0], DeleteKey(b[1..], key)); }
    }
  }

  // A token in a rewritten field: stamping it is one more rewrite of that field.

  predicate HasKey(b: Body<string>, key: string) {
    exists e <- b :: e.0 == key
  }

  lemma {:induction false} PutIsSet(b: Body<string>, hex: string)
    requires AllHex(hex) && Mislaid(b) && Tidy(b)
    ensures var e := FirstPast(b, {}).value;
            PutBody(b, hex) == SetKey(b, e.0, Put(e.1, hex)) && HasKey(b, e.0)
  {
    hide Tidy, Put;
    var e := FirstPast(b, {}).value;
    TidyParts(b[0], b[1..]);
    assert b == [b[0]] + b[1..];
    RewrittenHasNone(e.0);
    assert e in b;
    hide Has;
    if b[0] != e || !EntryHas(b[0]) {
      PutIsSet(b[1..], hex);
      assert e in b[1..];
    }
  }

  lemma {:induction false} SetsCommute(b: Body<string>, j: string, v: string, k: string, w: string)
    requires j != k && HasKey(b, k)
    ensures SetKey(SetKey(b, k, w), j, v) == SetKey(SetKey(b, j, v), k, w)
  {
    if b[0].0 == k {
      assert SetKey(b, k, w)[1..] == b[1..] && SetKey(b, j, v)[1..] == SetKey(b[1..], j, v);
    } else {
      assert HasKey(b[1..], k);
      assert SetKey(b, k, w)[1..] == SetKey(b[1..], k, w);
      if b[0].0 == j {
        assert SetKey(b, j, v)[1..] == b[1..];
      } else {
        SetsCommute(b[1..], j, v, k, w);
        assert SetKey(b, j, v)[1..] == SetKey(b[1..], j, v);
      }
    }
  }

  lemma {:induction false} SetHas(b: Body<string>, j: string, v: string, k: string)
    requires HasKey(b, k)
    ensures HasKey(SetKey(b, j, v), k)
  {
    if b[0].0 == j {
      assert SetKey(b, j, v)[0].0 == j;
      if j != k {
        var e :| e in b && e.0 == k;
        assert e in SetKey(b, j, v);
      }
    } else if b[0].0 == k {
      assert b[0] in SetKey(b, j, v);
    } else {
      assert HasKey(b[1..], k);
      SetHas(b[1..], j, v, k);
      var e :| e in SetKey(b[1..], j, v) && e.0 == k;
      assert e in SetKey(b, j, v);
    }
  }

  lemma {:induction false} DeleteHas(b: Body<string>, j: string, k: string)
    requires HasKey(b, k) && j != k
    ensures HasKey(DeleteKey(b, j), k)
  {
    if b[0].0 == k {
      assert b[0] in DeleteKey(b, j);
    } else {
      assert HasKey(b[1..], k);
      DeleteHas(b[1..], j, k);
      var e :| e in DeleteKey(b[1..], j) && e.0 == k;
      assert e in DeleteKey(b, j);
    }
  }

  /** What a field held before the rewrites is still to be seen only if none of them touches it. */
  lemma {:induction false} RewritesOverSet(b: Body<string>, k: string, w: string, rs: seq<Rewrite<string>>)
    requires HasKey(b, k)
    ensures if k in Touched(rs) then RewriteAll(SetKey(b, k, w), rs) == RewriteAll(b, rs)
            else RewriteAll(SetKey(b, k, w), rs) == SetKey(RewriteAll(b, rs), k, w) && HasKey(RewriteAll(b, rs), k)
  {
    if rs != [] {
      hide SetKey, DeleteKey, HasKey;
      var before, r := rs[..|rs| - 1], rs[|rs| - 1];
      assert rs == before + [r] && Touched(rs) == Touched(before) + {r.key};
      RewritesOverSet(b, k, w, before);
      var c := RewriteAll(b, before);
      if k !in Touched(before) {
        if r.key == k {
          if r.SetField? { SetTwice(c, k, w, r.value); } else { DeleteIgnoresSet(c, k, w); }
        } else if r.SetField? {
          SetsCommute(c, r.key, r.value, k, w);
          SetHas(c, r.key, r.value, k);
        } else {
          SetAndDeleteCommute(c, k, w, r.key);
          DeleteHas(c, r.key, k);
        }
      }
    }
  }

  // What the stamp is taken of, before and after.

  lemma CarriedIsPut(s: string, hex: string)
    requires AllHex(hex)
    ensures Put(s, hex) == s <==> Carried(s) == None || Carried(s) == Some(hex)
  {
    if Has(s) {
      PutKeepsFirst(s, hex);
      PutBack(s);
    }
  }

  lemma PutBack(s: string)
    requires Has(s)
    ensures |Carried(s).value| == 5 && Put(s, Carried(s).value) == s
  {
  }

  lemma PutEntryChanges(e: (string, string), hex: string)
    requires AllHex(hex) && EntryHas(e)
    ensures PutEntry(e, hex) == e <==> EntryCarried(e) == Some(hex)
  {
    hide FirstMatch, Put, Carried;
    CarriedIsPut(e.0, hex);
    CarriedIsPut(e.1, hex);
    HasCarries(e.0);
    HasCarries(e.1);
  }

  lemma HeadIs<T>(x: T, y: T, rest: seq<T>)
    ensures [x] + rest == [y] + rest <==> x == y
  {
    assert ([x] + rest)[0] == x && ([y] + rest)[0] == y;
  }

  lemma TailIs<T>(x: T, a: seq<T>, b: seq<T>)
    ensures [x] + a == [x] + b <==> a == b
  {
    assert ([x] + a)[1..] == a && ([x] + b)[1..] == b;
  }

  lemma {:induction false} PutPastChanges(b: Body<string>, skip: set<string>, hex: string)
    requires AllHex(hex)
    ensures PutPast(b, skip, hex) == b <==>
            FirstPast(b, skip).None? || EntryCarried(FirstPast(b, skip).value) == Some(hex)
  {
    hide EntryHas, PutEntry, EntryCarried;
    if b != [] {
      assert [b[0]] + b[1..] == b;
      if b[0].0 !in skip && EntryHas(b[0]) {
        PutEntryChanges(b[0], hex);
        HeadIs(PutEntry(b[0], hex), b[0], b[1..]);
      } else {
        PutPastChanges(b[1..], skip, hex);
        TailIs(b[0], PutPast(b[1..], skip, hex), b[1..]);
      }
    }
  }

  lemma ProjectOfPut(kit: Kit<string>, b: Body<string>, hex: string)
    requires AllHex(hex) && Tidy(b)
    ensures Project(kit, PutBody(b, hex))
            == if Mislaid(b) then Project(kit, b) else PutPast(Project(kit, b), REWRITTEN, hex)
  {
    hide Project, PutBody, PutPast, FirstPast, Tidy;
    if Mislaid(b) {
      PutIsSet(b, hex);
      var e := FirstPast(b, {}).value;
      ProjectIgnores(kit, b, SetField(e.0, Put(e.1, hex)));
    } else {
      PutIsPutPast(b, REWRITTEN, hex);
      ProjectPast(kit, b, hex);
    }
  }

  /**
   * The pre-image is that of the original exactly when the first token stood, and stands, in a rewritten field, or
   * neither stood nor stands in one; or when the billing header has nothing to zero.
   */
  lemma PreImageStaysIff(kit: Kit<string>, b: Body<string>, rs: seq<Rewrite<string>>, hex: string)
    requires AllHex(hex) && Tidy(b) && forall r <- rs :: Allowed(r)
    ensures var after := RewriteAll(b, rs);
            Project(kit, PutBody(after, hex)) == Project(kit, PutBody(b, hex)) <==>
            (Mislaid(b) <==> Mislaid(after)) || Header(b) == None || Header(b) == Some(hex)
  {
    hide Project, PutBody, PutPast, Mislaid, Tidy, FirstPast;
    ProjectIgnoresAll(kit, b, rs);
    RewritesStayTidy(b, rs);
    ProjectOfPut(kit, b, hex);
    ProjectOfPut(kit, RewriteAll(b, rs), hex);
    ProjectPast(kit, b, hex);
    PutPastChanges(Project(kit, b), REWRITTEN, hex);
    HeaderCarries(Project(kit, b));
  }

  lemma HeaderCarries(b: Body<string>)
    ensures Header(b).None? <==> FirstPast(b, REWRITTEN).None?
  {
    var first := FirstPast(b, REWRITTEN);
    if first.Some? {
      HasCarries(first.value.0);
      HasCarries(first.value.1);
    }
  }

  /** The JSON text of a body reads back as it. */
  ghost predicate Parses(kit: Kit<string>, b: Body<string>) {
    kit.parse(Show(b)) == Some(b)
  }

  /** Different bodies have different JSON texts. */
  predicate Tells(kit: Kit<string>, b: Body<string>, c: Body<string>) {
    b != c ==> kit.show(b) != kit.show(c)
  }

  /** The same parsing and printing, with a known seed that makes the hash this one. */
  function WithHash(kit: Kit<string>, hash: string -> nat): Kit<string> {
    kit.(hash := (version: string) => Some(hash))
  }

  lemma MaterialOfShown(kit: Kit<string>, b: Body<string>)
    requires Parses(kit, PutBody(b, "00000"))
    ensures Material(kit, Show(b)) == Some(kit.show(Project(kit, PutBody(b, "00000"))))
  {
    hide Put, PutBody, Show, Project;
    PutShown(b, "00000");
  }

  lemma TokenThere(b: Body<string>)
    ensures Has(Show(b)) <==> Mislaid(b) || Header(b).Some?
  {
    hide Has, Show, EntryCarried;
    PutShown(b, "00000");
    HasIsFirst(b);
    HeaderCarries(b);
    if !Mislaid(b) { PutIsPutPast(b, REWRITTEN, "00000"); }
  }

  /**
   * From text to text: setting and dropping model, fallbacks, fallback_credit_token and max_tokens, in any way and any
   * number of times, leaves the stamp of a body as it is, as long as the first token is in none of those fields, before
   * and after, or in one of them before and after, or the billing header has nothing to zero.
   */
  lemma RewritesKeepStamp(kit: Kit<string>, b: Body<string>, rs: seq<Rewrite<string>>, version: string)
    requires Tidy(b) && forall r <- rs :: Allowed(r)
    requires Parses(kit, PutBody(b, "00000")) && Parses(kit, PutBody(RewriteAll(b, rs), "00000"))
    requires (Mislaid(b) <==> Mislaid(RewriteAll(b, rs))) || Header(b) == Some("00000")
    ensures CchForBody(kit, Show(RewriteAll(b, rs)), version) == CchForBody(kit, Show(b), version)
  {
    hide Put, PutBody, Show, RewriteAll, Material, Parses, Project, FirstPast, Mislaid, Tidy;
    var after := RewriteAll(b, rs);
    MaterialOfShown(kit, b);
    MaterialOfShown(kit, after);
    PreImageStaysIff(kit, b, rs, "00000");
    SameHeader(kit, b, rs);
    TokenThere(b);
    TokenThere(after);
  }

  lemma SameHeader(kit: Kit<string>, b: Body<string>, rs: seq<Rewrite<string>>)
    requires forall r <- rs :: Allowed(r)
    ensures Header(RewriteAll(b, rs)) == Header(b)
  {
    hide FirstPast, RewriteAll;
    RewritesPast(b, REWRITTEN, rs, "00000");
  }

  lemma HashesDiffer()
    ensures Hex5(0) != Hex5(1)
  {
    Hex5IsValue(0);
    Hex5IsValue(1);
  }

  /** That condition is exact: otherwise there is a hash that gives the two texts different stamps. */
  lemma StampStaysIff(kit: Kit<string>, b: Body<string>, rs: seq<Rewrite<string>>, version: string)
    requires Tidy(b) && forall r <- rs :: Allowed(r)
    requires Parses(kit, PutBody(b, "00000")) && Parses(kit, PutBody(RewriteAll(b, rs), "00000"))
    requires Tells(kit, Project(kit, PutBody(b, "00000")), Project(kit, PutBody(RewriteAll(b, rs), "00000")))
    ensures (forall hash: string -> nat :: CchForBody(WithHash(kit, hash), Show(RewriteAll(b, rs)), version)
                                           == CchForBody(WithHash(kit, hash), Show(b), version))
            <==> ((Mislaid(b) <==> Mislaid(RewriteAll(b, rs))) || Header(b) == Some("00000"))
  {
    hide Put, PutBody, Show, RewriteAll, Project, FirstPast, Mislaid, Tidy, Header, FirstMatch, Hex5;
    var after := RewriteAll(b, rs);
    if (Mislaid(b) <==> Mislaid(after)) || Header(b) == Some("00000") {
      forall hash: string -> nat ensures CchForBody(WithHash(kit, hash), Show(after), version)
                                         == CchForBody(WithHash(kit, hash), Show(b), version)
      {
        SameProject(kit, hash, PutBody(b, "00000"));
        RewritesKeepStamp(WithHash(kit, hash), b, rs, version);
      }
    } else {
      var was, now := Project(kit, PutBody(b, "00000")), Project(kit, PutBody(after, "00000"));
      var hash := (s: string) => if s == kit.show(was) then 1 else 0;
      StampsDiffer(kit, b, rs, version, hash);
    }
  }

  lemma SameProject(kit: Kit<string>, hash: string -> nat, b: Body<string>)
    ensures Project(WithHash(kit, hash), b) == Project(kit, b) && (Parses(WithHash(kit, hash), b) <==> Parses(kit, b))
  {
  }

  lemma StampsDiffer(kit: Kit<string>, b: Body<string>, rs: seq<Rewrite<string>>, version: string, hash: string -> nat)
    requires Tidy(b) && forall r <- rs :: Allowed(r)
    requires Parses(kit, PutBody(b, "00000")) && Parses(kit, PutBody(RewriteAll(b, rs), "00000"))
    requires Tells(kit, Project(kit, PutBody(b, "00000")), Project(kit, PutBody(RewriteAll(b, rs), "00000")))
    requires (Mislaid(b) <==> !Mislaid(RewriteAll(b, rs))) && Header(b) != Some("00000")
    requires forall s :: hash(s) == if s == kit.show(Project(kit, PutBody(b, "00000"))) then 1 else 0
    ensures CchForBody(WithHash(kit, hash), Show(RewriteAll(b, rs)), version)
            != CchForBody(WithHash(kit, hash), Show(b), version)
  {
    hide Put, PutBody, Show, RewriteAll, Project, FirstPast, Mislaid, Tidy, Header, Hex5, FirstMatch, Parses;
    var after, k := RewriteAll(b, rs), WithHash(kit, hash);
    SameProject(kit, hash, PutBody(b, "00000"));
    SameProject(kit, hash, PutBody(after, "00000"));
    MaterialOfShown(k, b);
    MaterialOfShown(k, after);
    PreImageStaysIff(kit, b, rs, "00000");
    SameHeader(kit, b, rs);
    TokenThere(b);
    TokenThere(after);
    HashesDiffer();
  }

  // From the stamp to the reader.

  /** The text carries the very stamp that is computed from it. */
  predicate Accepted(kit: Kit<string>, text: string, version: string) {
    var cch := CchForBody(kit, text, version);
    cch.Stamped? && Carried(text) == Some(cch.cch)
  }

  /** A body stamped, and rewritten afterwards. */
  function Sent(kit: Kit<string>, b: Body<string>, rs: seq<Rewrite<string>>, version: string): string {
    var cch := CchForBody(kit, Show(b), version);
    Show(RewriteAll(if cch.Stamped? then PutBody(b, cch.cch) else b, rs))
  }

  lemma TouchedIsRewritten(rs: seq<Rewrite<string>>)
    requires forall r <- rs :: Allowed(r)
    ensures Touched(rs) <= REWRITTEN
  {
    forall key | key in Touched(rs) ensures key in REWRITTEN {
      var r :| r in rs && r.key == key;
      assert Allowed(r);
    }
  }

  /** The first token is where it was, whatever it carries. */
  lemma SameFirst(b: Body<string>, rs: seq<Rewrite<string>>, hex: string)
    requires AllHex(hex) && forall r <- rs :: Allowed(r)
    requires !FirstIn(b, Touched(rs)) && !FirstIn(RewriteAll(b, rs), Touched(rs))
    ensures RewriteAll(PutBody(b, hex), rs) == PutBody(RewriteAll(b, rs), hex)
    ensures Mislaid(b) <==> Mislaid(RewriteAll(b, rs))
  {
    hide PutBody, PutPast, FirstPast, RewriteAll;
    TouchedIsRewritten(rs);
    PutIsPutPast(b, Touched(rs), hex);
    PutIsPutPast(RewriteAll(b, rs), Touched(rs), hex);
    RewritesPast(b, Touched(rs), rs, hex);
  }

  /**
   * A body stamped first and rewritten afterwards goes out with a stamp that is the very one a reader computes from
   * what it receives, as long as the first token is in no field that these rewrites touch, before or after.
   */
  lemma StampSurvivesRewrites(kit: Kit<string>, b: Body<string>, rs: seq<Rewrite<string>>, version: string)
    requires Tidy(b) && forall r <- rs :: Allowed(r)
    requires Parses(kit, PutBody(b, "00000")) && Parses(kit, PutBody(RewriteAll(b, rs), "00000"))
    requires CchForBody(kit, Show(b), version).Stamped?
    requires !FirstIn(b, Touched(rs)) && !FirstIn(RewriteAll(b, rs), Touched(rs))
    ensures var cch := CchForBody(kit, Show(b), version).cch;
            && Stamp(kit, Show(b), version) == Some(Show(PutBody(b, cch)))
            && Carried(Sent(kit, b, rs, version)) == Some(cch) && Accepted(kit, Sent(kit, b, rs, version), version)
  {
    var cch := CchForBody(kit, Show(b), version).cch;
    var rewritten := Show(RewriteAll(b, rs));
    SameFirst(b, rs, cch);
    hide Put, PutBody, Show, Mislaid, RewriteAll, Material, Parses, FirstIn, Tidy, FirstMatch;
    PutShown(b, cch);
    PutShown(RewriteAll(b, rs), cch);
    RewritesKeepStamp(kit, b, rs, version);
    MaterialIgnoresStamp(kit, rewritten, cch, version);
    StampedHas(kit, rewritten, version);
    CarriesWhatIsPut(rewritten, cch);
  }

  lemma StampedHas(kit: Kit<string>, text: string, version: string)
    ensures CchForBody(kit, text, version).Stamped? ==> Has(text)
  {
  }

  /** That condition is exact too: otherwise what goes out carries five characters that no computing put there. */
  lemma StampSurvivesIff(kit: Kit<string>, b: Body<string>, rs: seq<Rewrite<string>>, version: string)
    requires Tidy(b) && (forall r <- rs :: Allowed(r)) && BodyHas(b)
    requires Parses(kit, PutBody(b, "00000")) && Parses(kit, PutBody(RewriteAll(b, rs), "00000"))
    ensures (forall hash: string -> nat ::
               Accepted(WithHash(kit, hash), Sent(WithHash(kit, hash), b, rs, version), version))
            <==> !FirstIn(b, Touched(rs)) && !FirstIn(RewriteAll(b, rs), Touched(rs))
  {
    hide Put, PutBody, Show, RewriteAll, Project, FirstPast, Mislaid, Tidy, FirstMatch, Hex5, Material, BodyHas,
      FirstIn, Accepted, Sent, Has;
    if !FirstIn(b, Touched(rs)) && !FirstIn(RewriteAll(b, rs), Touched(rs)) {
      forall hash: string -> nat
        ensures Accepted(WithHash(kit, hash), Sent(WithHash(kit, hash), b, rs, version), version)
      {
        Stamps(kit, hash, b, version);
        SameProject(kit, hash, PutBody(b, "00000"));
        SameProject(kit, hash, PutBody(RewriteAll(b, rs), "00000"));
        StampSurvivesRewrites(WithHash(kit, hash), b, rs, version);
      }
    } else {
      var carried := ForeignToken(b, rs);
      var n := if carried == Some(Hex5(0)) then 1 else 0;
      HashesDiffer();
      var hash := (s: string) => n;
      Stamps(kit, hash, b, version);
      Refused(kit, hash, b, rs, version, n, carried);
    }
  }

  lemma Stamps(kit: Kit<string>, hash: string -> nat, b: Body<string>, version: string)
    requires BodyHas(b) && Parses(kit, PutBody(b, "00000"))
    ensures CchForBody(WithHash(kit, hash), Show(b), version).Stamped?
  {
    hide Put, PutBody, Show, Project, Hex5;
    PutShown(b, "00000");
    MaterialOfShown(WithHash(kit, hash), b);
  }

  lemma Refused(kit: Kit<string>, hash: string -> nat, b: Body<string>, rs: seq<Rewrite<string>>, version: string,
      n: nat, carried: Option<string>)
    requires (forall s :: hash(s) == n) && n < 2 && carried != Some(Hex5(n))
    requires CchForBody(WithHash(kit, hash), Show(b), version).Stamped?
    requires forall hex | AllHex(hex) :: Carried(Show(RewriteAll(PutBody(b, hex), rs))) == carried
    ensures !Accepted(WithHash(kit, hash), Sent(WithHash(kit, hash), b, rs, version), version)
  {
    hide Put, PutBody, Show, RewriteAll, FirstMatch, Hex5, Material, Carried;
  }

  /** What goes out carries five characters that do not depend on the stamp. */
  lemma ForeignToken(b: Body<string>, rs: seq<Rewrite<string>>) returns (carried: Option<string>)
    requires Tidy(b) && forall r <- rs :: Allowed(r)
    requires FirstIn(b, Touched(rs)) || FirstIn(RewriteAll(b, rs), Touched(rs))
    ensures forall hex | AllHex(hex) :: Carried(Show(RewriteAll(PutBody(b, hex), rs))) == carried
  {
    hide PutBody, PutPast, RewriteAll, Carried, Show, Tidy;
    var after := RewriteAll(b, rs);
    TouchedIsRewritten(rs);
    carried := Carried(Show(after));
    forall hex | AllHex(hex) ensures Carried(Show(RewriteAll(PutBody(b, hex), rs))) == carried {
      if FirstIn(b, Touched(rs)) {
        PutIsSet(b, hex);
        var e := FirstPast(b, {}).value;
        RewritesOverSet(b, e.0, Put(e.1, hex), rs);
      } else {
        PutIsPutPast(b, Touched(rs), hex);
        RewritesPast(b, Touched(rs), rs, hex);
        FirstUnmoved(after, Touched(rs), hex);
        CarriedShown(after);
        CarriedShown(PutPast(after, Touched(rs), hex));
      }
    }
  }

  /** Stamping past the field of the first token leaves that token as it is. */
  lemma {:induction false} FirstUnmoved(b: Body<string>, skip: set<string>, hex: string)
    requires |hex| == 5 && FirstIn(b, skip)
    ensures FirstPast(PutPast(b, skip, hex), {}) == FirstPast(b, {})
  {
    hide EntryHas, PutEntry;
    if !EntryHas(b[0]) { FirstUnmoved(b[1..], skip, hex); }
    assert PutPast(b, skip, hex)[1..] == PutPast(b[1..], skip, hex);
  }

  /** The text of a body carries what the first of its entries with a token carries. */
  lemma CarriedShown(b: Body<string>)
    ensures var first := FirstPast(b, {});
            Carried(Show(b)) == if first.Some? then EntryCarried(first.value) else None
  {
    hide Show, PutBody, PutPast, FirstMatch, Put, Carried;
    var first := FirstPast(b, {});
    HasIsFirst(b);
    PutShown(b, "00000");
    HasCarries(Show(b));
    if first.Some? {
      HasCarries(first.value.0);
      HasCarries(first.value.1);
      var hex := EntryCarried(first.value).value;
      CarriedIsHex(first.value.0);
      CarriedIsHex(first.value.1);
      PutPastChanges(b, {}, hex);
      PutIsPutPast(b, {}, hex);
      PutShown(b, hex);
      CarriedIsPut(Show(b), hex);
    }
  }

  lemma CarriedIsHex(s: string)
    ensures Carried(s).Some? ==> AllHex(Carried(s).value)
  {
    if Has(s) { BeforeHex(s, FirstMatch(s, 0).value); }
  }

  // What the condition excludes.

  lemma FirstOfTwo(a: (string, string), c: (string, string), skip: set<string>)
    ensures FirstPast([a, c], skip) == if a.0 !in skip && EntryHas(a) then Some(a)
                                       else if c.0 !in skip && EntryHas(c) then Some(c) else None
  {
    hide EntryHas;
    assert [a, c][1..] == [c] && [c][1..] == [];
  }

  lemma OneRewrite(b: Body<string>, r: Rewrite<string>)
    ensures RewriteAll(b, [r]) == RewriteOne(b, r) && Touched([r]) == {r.key}
  {
    assert [r][..0] == [] && r in [r];
  }

  /**
   * A token that a rewrite puts in the model, ahead of a billing header, changes what the stamp is taken of, so a hash
   * gives another stamp; and it stands in a field the rewrite touched, so a hash has the reader refuse the old one.
   */
  lemma {:induction false} TokenInModelChangesPreImage(kit: Kit<string>, b: Body<string>, v: string)
    requires Tidy(b) && b != [] && b[0].0 == MODEL && !Mislaid(b) && Has(v)
    requires Header(b).Some? && Header(b) != Some("00000")
    ensures var after := RewriteAll(b, [SetField(MODEL, v)]);
            && Project(kit, PutBody(after, "00000")) != Project(kit, PutBody(b, "00000"))
            && FirstIn(after, Touched([SetField(MODEL, v)]))
  {
    var r := SetField(MODEL, v);
    OneRewrite(b, r);
    ShortHasNone(MODEL);
    assert FirstPast(SetKey(b, MODEL, v), {}) == Some((MODEL, v));
    hide Project, PutBody, RewriteAll, Tidy, Header, SetKey, FirstPast;
    PreImageStaysIff(kit, b, [r], "00000");
  }

  /** Such a body: a model, and a billing header behind it. */
  lemma HeaderBehindModel(header: string)
    requires AllHex(header)
    ensures var b := [(MODEL, "opus"), ("system", Tag(header))];
            Tidy(b) && !Mislaid(b) && Header(b) == Some(header)
  {
    var model, system := (MODEL, "opus"), ("system", Tag(header));
    TagCarries(header, header);
    ShortHasNone("opus");
    ShortHasNone(MODEL);
    ShortHasNone("system");
    hide Has, Carried, Tag, FirstPast;
    FirstOfTwo(model, system, {});
    FirstOfTwo(model, system, REWRITTEN);
  }
}
