/**
 * How late an input may arrive before the trace forgets. Whatever expires and whatever is evicted, every held key holds
 * the latest of all the inputs there ever were on it, as long as no input arrives more than a lifetime and one
 * millisecond behind one that arrived before it, and inputs of the same millisecond on one key arrive in the order of
 * dispatch; and neither condition can be relaxed.
 */
module CacheTraceLateness {
  import opened Options
  import opened CacheTrace

  /** No input went out more than `bound` before one that arrived earlier. */
  predicate LateBy(inputs: seq<Input>, bound: int) {
    forall i, j :: 0 <= i < j < |inputs| ==> inputs[i].at - inputs[j].at <= bound
  }

  /** What each held key holds went out no earlier than any input there ever was on that key. */
  predicate HoldsNewest(t: Trace, inputs: seq<Input>) {
    forall a <- inputs :: a.key in t.seen ==> t.seen[a.key].at >= a.at
  }

  predicate Covered(t: Trace, a: Input) {
    a.key in t.seen && t.seen[a.key].at >= a.at
  }

  predicate Outlived(inputs: seq<Input>, a: Input, ttl: int) {
    exists b <- inputs :: b.at - a.at > ttl
  }

  /** No room for anything that went out before `a`. */
  predicate Crowded(t: Trace, a: Input, maxKeys: nat) {
    |t.keys| == maxKeys && forall key <- t.seen :: t.seen[key].at >= a.at
  }

  /** Every input is covered by what its key holds, or long outlived, or the trace is full of later ones. */
  predicate Accounted(t: Trace, inputs: seq<Input>, maxKeys: nat, ttl: int) {
    forall a <- inputs :: Covered(t, a) || Outlived(inputs, a, ttl) || Crowded(t, a, maxKeys)
  }

  /** Everything in a trace kept whole is within the cap. */
  lemma KeptFits(t: Trace, u: Trace)
    requires Valid(t) && Valid(u) && |u.keys| < |t.keys|
    ensures exists key :: key in t.seen && key !in u.seen
  {
    if forall key <- t.seen :: key in u.seen {
      DistinctFit(t.keys, set k | k in u.keys);
      KeysCount(u.keys);
      assert false;
    }
  }

  /** An input older than everything in a full trace does not get in. */
  lemma CrowdedOut(t: Trace, a: Input, x: Input, maxKeys: nat, ttl: int)
    requires Valid(t) && Crowded(t, a, maxKeys) && x.at < a.at && x.key !in t.seen && ttl >= 0
    ensures x.key !in Remember(t, x, maxKeys, ttl).seen
  {
    InsertKeepsValid(t, x);
    WithoutRemoves(t.keys, x.key);
    var v := Insert(t, x);
    var u := Sweep(v, x.at, maxKeys, ttl);
    hide Sweep, Without, Valid;
    SweepDropsOnly(v, x.at, maxKeys, ttl);
    KeptFits(v, u);
    var key :| key in v.seen && key !in u.seen;
    assert key == x.key || (v.seen[key].at >= a.at && v.seen[x.key].at == x.at);
  }

  /** A key that was not held takes an input only if no earlier input on it went out later. */
  lemma NewKeyIsNewest(t: Trace, inputs: seq<Input>, a: Input, x: Input, maxKeys: nat, ttl: int)
    requires Valid(t) && Accounted(t, inputs, maxKeys, ttl) && LateBy(inputs + [x], ttl + 1) && ttl >= 0
    requires a in inputs && a.key == x.key && x.key !in t.seen && x.key in Remember(t, x, maxKeys, ttl).seen
    ensures x.at >= a.at
  {
    hide Remember, Valid;
    if Outlived(inputs, a, ttl) {
      var b :| b in inputs && b.at - a.at > ttl;
      var i :| 0 <= i < |inputs| && inputs[i] == b;
      assert (inputs + [x])[i] == b && (inputs + [x])[|inputs|] == x;
    } else if x.at < a.at {
      CrowdedOut(t, a, x, maxKeys, ttl);
    }
  }

  lemma RememberHoldsNewest(t: Trace, inputs: seq<Input>, x: Input, maxKeys: nat, ttl: int)
    requires Valid(t) && Accounted(t, inputs, maxKeys, ttl) && HoldsNewest(t, inputs)
    requires LateBy(inputs + [x], ttl + 1) && ttl >= 0
    ensures HoldsNewest(Remember(t, x, maxKeys, ttl), inputs + [x])
  {
    var u := Remember(t, x, maxKeys, ttl);
    forall a | a in inputs + [x] && a.key in u.seen ensures u.seen[a.key].at >= a.at {
      RememberIs(t, x, maxKeys, ttl, a.key);
      hide Remember, Valid, LateBy, Accounted;
      RecordStamps(x);
      if a in inputs && a.key == x.key && !Superseded(t, x) && x.key !in t.seen {
        NewKeyIsNewest(t, inputs, a, x, maxKeys, ttl);
      }
    }
  }

  /**
   * What a remembered input leaves of an entry: it is held, or a lifetime behind, or the trace is full of later ones.
   */
  lemma EntryFate(t: Trace, x: Input, maxKeys: nat, ttl: int, key: string)
    requires Valid(t) && !Superseded(t, x) && key in Insert(t, x).seen && ttl >= 0
    ensures var v, u := Insert(t, x), Remember(t, x, maxKeys, ttl);
            || key in u.seen
            || x.at - v.seen[key].at > ttl
            || (|u.keys| == maxKeys && (forall kept <- u.seen :: u.seen[kept].at >= v.seen[key].at))
  {
    InsertKeepsValid(t, x);
    hide Sweep, Without, Insert;
    SweepDropsOnly(Insert(t, x), x.at, maxKeys, ttl);
  }

  /**
   * A full trace stays full of later ones, unless one of them has expired, and then the input has been outlived too.
   */
  lemma CrowdedStays(t: Trace, a: Input, x: Input, maxKeys: nat, ttl: int)
    requires Valid(t) && Crowded(t, a, maxKeys) && !Superseded(t, x) && ttl >= 0
    ensures x.at - a.at > ttl || Crowded(Remember(t, x, maxKeys, ttl), a, maxKeys)
  {
    Inserted(t, x);
    var v := Insert(t, x);
    var u := Sweep(v, x.at, maxKeys, ttl);
    assert u == Remember(t, x, maxKeys, ttl);
    hide Sweep, Insert, Valid, Remember;
    if x.at - a.at <= ttl {
      SweepDropsOnly(v, x.at, maxKeys, ttl);
      assert forall key <- v.seen :: x.at - v.seen[key].at <= ttl;
      if x.key !in t.seen && x.at < a.at { CrowdedOut(t, a, x, maxKeys, ttl); }
    }
  }

  lemma Inserted(t: Trace, x: Input)
    requires Valid(t)
    ensures var v := Insert(t, x);
            && Valid(v) && |v.keys| == |t.keys| + (if x.key in t.seen then 0 else 1)
            && v.seen == t.seen[x.key := Record(x)] && v.seen[x.key].at == x.at
  {
    InsertKeepsValid(t, x);
    WithoutRemoves(t.keys, x.key);
  }

  lemma RememberAccounts(t: Trace, inputs: seq<Input>, x: Input, maxKeys: nat, ttl: int)
    requires Valid(t) && Accounted(t, inputs, maxKeys, ttl) && ttl >= 0
    requires HoldsNewest(Remember(t, x, maxKeys, ttl), inputs + [x])
    ensures Accounted(Remember(t, x, maxKeys, ttl), inputs + [x], maxKeys, ttl)
  {
    var u := Remember(t, x, maxKeys, ttl);
    forall a | a in inputs + [x] ensures Covered(u, a) || Outlived(inputs + [x], a, ttl) || Crowded(u, a, maxKeys) {
      OneAccounted(t, inputs, a, x, maxKeys, ttl);
    }
  }

  lemma OneAccounted(t: Trace, inputs: seq<Input>, a: Input, x: Input, maxKeys: nat, ttl: int)
    requires Valid(t) && Accounted(t, inputs, maxKeys, ttl) && a in inputs + [x] && ttl >= 0
    requires HoldsNewest(Remember(t, x, maxKeys, ttl), inputs + [x])
    ensures var u := Remember(t, x, maxKeys, ttl);
            Covered(u, a) || Outlived(inputs + [x], a, ttl) || Crowded(u, a, maxKeys)
  {
    var u := Remember(t, x, maxKeys, ttl);
    assert x in inputs + [x];
    if a in inputs && Outlived(inputs, a, ttl) {
      var b :| b in inputs && b.at - a.at > ttl;
      assert b in inputs + [x];
    } else if Superseded(t, x) {
    } else if a.key in u.seen {
    } else if a in inputs && Crowded(t, a, maxKeys) {
      CrowdedStays(t, a, x, maxKeys, ttl);
    } else {
      EntryFate(t, x, maxKeys, ttl, a.key);
    }
  }

  /**
   * Whatever expires and whatever is evicted: as long as no input arrives more than a lifetime and a millisecond behind
   * one that arrived before it, what each held key holds went out no earlier than any input there ever was on it.
   */
  lemma {:induction false} HeldIsNewestEver(inputs: seq<Input>, maxKeys: nat, ttl: int)
    requires LateBy(inputs, ttl + 1) && ttl >= 0
    ensures HoldsNewest(RememberAll(inputs, maxKeys, ttl), inputs)
    ensures Accounted(RememberAll(inputs, maxKeys, ttl), inputs, maxKeys, ttl)
  {
    if inputs != [] {
      var before, x := inputs[..|inputs| - 1], inputs[|inputs| - 1];
      assert inputs == before + [x];
      HeldIsNewestEver(before, maxKeys, ttl);
      var t := RememberAll(before, maxKeys, ttl);
      hide Remember, HoldsNewest, Accounted, LateBy;
      RememberHoldsNewest(t, before, x, maxKeys, ttl);
      RememberAccounts(t, before, x, maxKeys, ttl);
    }
  }

  // The same in the code's own order, by time and then by dispatch.

  /** Inputs on one key that went out in the same millisecond arrive in the order of dispatch. */
  predicate TiesInOrder(inputs: seq<Input>) {
    forall i, j :: 0 <= i < j < |inputs| && inputs[i].key == inputs[j].key && inputs[i].at == inputs[j].at ==>
      inputs[i].stamp <= inputs[j].stamp
  }

  /** No input there ever was on a held key went out later than what the key holds. */
  predicate HoldsLatest(t: Trace, inputs: seq<Input>) {
    forall a <- inputs :: a.key in t.seen ==> !Later(a.at, a.stamp, t.seen[a.key].at, t.seen[a.key].stamp)
  }

  lemma RememberHoldsLatest(t: Trace, inputs: seq<Input>, x: Input, maxKeys: nat, ttl: int)
    requires Valid(t) && HoldsLatest(t, inputs) && TiesInOrder(inputs + [x])
    requires HoldsNewest(Remember(t, x, maxKeys, ttl), inputs + [x])
    ensures HoldsLatest(Remember(t, x, maxKeys, ttl), inputs + [x])
  {
    var u, all := Remember(t, x, maxKeys, ttl), inputs + [x];
    forall a | a in all && a.key in u.seen ensures !Later(a.at, a.stamp, u.seen[a.key].at, u.seen[a.key].stamp) {
      RememberIs(t, x, maxKeys, ttl, a.key);
      hide Remember, Valid;
      RecordStamps(x);
      if a in inputs {
        var i :| 0 <= i < |inputs| && inputs[i] == a;
        assert all[i] == a && all[|inputs|] == x;
      }
    }
  }

  /**
   * Whatever expires and whatever is evicted: as long as no input arrives more than a lifetime and a millisecond late,
   * and ties arrive in order, no input there ever was on a held key went out later than what the key holds.
   */
  lemma {:induction false} HeldIsLatestEver(inputs: seq<Input>, maxKeys: nat, ttl: int)
    requires LateBy(inputs, ttl + 1) && TiesInOrder(inputs) && ttl >= 0
    ensures HoldsLatest(RememberAll(inputs, maxKeys, ttl), inputs)
  {
    if inputs != [] {
      var before, x := inputs[..|inputs| - 1], inputs[|inputs| - 1];
      assert inputs == before + [x];
      HeldIsLatestEver(before, maxKeys, ttl);
      HeldIsNewestEver(inputs, maxKeys, ttl);
      hide Remember, HoldsNewest, HoldsLatest, LateBy, TiesInOrder;
      RememberHoldsLatest(RememberAll(before, maxKeys, ttl), before, x, maxKeys, ttl);
    }
  }

  /** One millisecond more, and a trace with room for two keys can hold an older input than one it has dropped. */
  lemma LaterRegresses(maxKeys: nat, ttl: int) returns (inputs: seq<Input>)
    requires ttl >= 0 && maxKeys >= 2
    ensures LateBy(inputs, ttl + 2) && TiesInOrder(inputs)
    ensures !HoldsLatest(RememberAll(inputs, maxKeys, ttl), inputs)
  {
    var a, b := Input("k", "", "", [], 1, 0), Input("m", "", "", [], ttl + 2, 1);
    var c := Input("k", "", "", [], 0, 2);
    ExpiredCanRegress(a, b, c, maxKeys, ttl);
    hide RememberAll;
    inputs := [a, b, c];
    assert a in inputs;
  }

  /** With ties in order, a lifetime and a millisecond is exactly how late inputs may be. */
  lemma LatenessIff(maxKeys: nat, ttl: int, bound: int)
    requires ttl >= 0 && maxKeys >= 2
    ensures (forall inputs ::
               LateBy(inputs, bound) && TiesInOrder(inputs) ==> HoldsLatest(RememberAll(inputs, maxKeys, ttl), inputs))
            <==> bound <= ttl + 1
  {
    if bound <= ttl + 1 {
      forall inputs | LateBy(inputs, bound) && TiesInOrder(inputs)
        ensures HoldsLatest(RememberAll(inputs, maxKeys, ttl), inputs)
      {
        HeldIsLatestEver(inputs, maxKeys, ttl);
      }
    } else {
      var inputs := LaterRegresses(maxKeys, ttl);
      assert LateBy(inputs, bound);
    }
  }

  // Without ties in order: a trace filled with inputs of one millisecond forgets the first, and takes an older one.

  function Name(n: nat): (r: string)
    ensures |r| == n + 1 && r[0] == 'm'
  {
    if n == 0 then "m" else Name(n - 1) + "x"
  }

  function At0(key: string, stamp: nat): Input {
    Input(key, "", "", [], 0, stamp)
  }

  /** The key "k" twice dispatched, its second time, and `n` other keys. */
  function Filling(n: nat): seq<Input> {
    if n == 0 then [At0("k", 2)] else Filling(n - 1) + [At0(Name(n), 0)]
  }

  lemma {:induction false} FillingIsAt0(n: nat)
    ensures forall a <- Filling(n) :: a.at == 0
    ensures At0("k", 2) in Filling(n)
  {
    if n > 0 { FillingIsAt0(n - 1); }
  }

  predicate AllAt0(t: Trace) {
    forall key <- t.seen :: t.seen[key].at == 0
  }

  lemma {:induction false} NoneExpire(t: Trace, keys: seq<string>, ttl: int)
    requires AllAt0(t) && ttl >= 0
    ensures Expire(t, keys, 0, ttl) == t
  {
    if keys != [] { NoneExpire(t, keys[..|keys| - 1], ttl); }
  }

  lemma {:induction false} OldestOfEqual(keys: seq<string>, seen: map<string, Remembered>)
    requires keys != [] && forall key <- keys :: key in seen && seen[key].at == 0
    ensures Oldest(keys, seen) == keys[0]
  {
    var before := keys[..|keys| - 1];
    if before != [] {
      assert forall key <- before :: key in keys;
      OldestOfEqual(before, seen);
    }
  }

  /** One input of that millisecond, on a key that is not held: kept beside the others, or in the place of the first. */
  lemma RememberAt0(t: Trace, x: Input, maxKeys: nat, ttl: int)
    requires Valid(t) && AllAt0(t) && x.at == 0 && x.key !in t.seen && |t.keys| <= maxKeys && maxKeys > 0 && ttl >= 0
    ensures var u := Remember(t, x, maxKeys, ttl); AllAt0(u) && x.key in u.seen && u.seen[x.key] == Record(x)
    ensures var u := Remember(t, x, maxKeys, ttl);
            if |t.keys| < maxKeys then u == Trace(t.keys + [x.key], t.seen[x.key := Record(x)])
            else |u.keys| == maxKeys && u.seen == t.seen[x.key := Record(x)] - {t.keys[0]}
  {
    WithoutRemoves(t.keys, x.key);
    Inserted(t, x);
    var v := Insert(t, x);
    hide Insert, Valid, Without;
    assert v.keys == t.keys + [x.key] by { InsertAppends(t, x); }
    NoneExpire(v, v.keys, ttl);
    hide Expire;
    if |t.keys| < maxKeys {
      EvictFits(v, maxKeys);
    } else {
      EvictUnfolds(v, maxKeys);
      OldestOfEqual(v.keys, v.seen);
      EvictFits(Drop(v, v.keys[0]), maxKeys);
      assert v.keys[0] == t.keys[0] && t.keys[0] in t.keys;
      KeysHeld(t);
    }
  }

  lemma InsertAppends(t: Trace, x: Input)
    requires Valid(t) && x.key !in t.seen
    ensures Insert(t, x).keys == t.keys + [x.key]
  {
    WithoutRemoves(t.keys, x.key);
  }

  lemma KeysHeld(t: Trace)
    requires Valid(t)
    ensures forall key <- t.keys :: key in t.seen
  {
  }

  /** The first key, and `n` others with names no longer than these. */
  predicate Filled(t: Trace, n: nat) {
    AllAt0(t) && |t.keys| == n + 1 && t.keys[0] == "k" && forall key <- t.seen :: key == "k" || |key| <= n + 1
  }

  lemma FillStep(t: Trace, n: nat, maxKeys: nat, ttl: int)
    requires Valid(t) && 0 < n < maxKeys && Filled(t, n - 1) && ttl >= 0
    ensures Filled(Remember(t, At0(Name(n), 0), maxKeys, ttl), n)
  {
    var x := At0(Name(n), 0);
    hide Remember, Valid, Name;
    assert x.key != "k" && x.key !in t.seen;
    RememberAt0(t, x, maxKeys, ttl);
  }

  lemma FillStarts(maxKeys: nat, ttl: int)
    requires maxKeys > 0 && ttl >= 0
    ensures Filled(RememberAll(Filling(0), maxKeys, ttl), 0)
  {
    var k := At0("k", 2);
    assert RememberAll([], maxKeys, ttl) == Trace([], map[]) && [] + [k] == [k];
    RememberMore([], k, maxKeys, ttl);
    hide Remember, RememberAll;
    RememberAt0(Trace([], map[]), k, maxKeys, ttl);
  }

  lemma FillingMore(n: nat, maxKeys: nat, ttl: int)
    requires n > 0
    ensures RememberAll(Filling(n), maxKeys, ttl)
            == Remember(RememberAll(Filling(n - 1), maxKeys, ttl), At0(Name(n), 0), maxKeys, ttl)
  {
    hide Remember, RememberAll, Name;
    RememberMore(Filling(n - 1), At0(Name(n), 0), maxKeys, ttl);
  }

  lemma {:induction false} FillsUp(n: nat, maxKeys: nat, ttl: int)
    requires n < maxKeys && ttl >= 0
    ensures Filled(RememberAll(Filling(n), maxKeys, ttl), n)
  {
    hide Remember, Name, RememberAll, Filled, Filling;
    if n == 0 {
      FillStarts(maxKeys, ttl);
    } else {
      FillsUp(n - 1, maxKeys, ttl);
      FillingMore(n, maxKeys, ttl);
      FillStep(RememberAll(Filling(n - 1), maxKeys, ttl), n, maxKeys, ttl);
    }
  }

  /** One key more than fits, and the first is gone and comes back as whatever arrives on it. */
  lemma FilledForgets(t: Trace, c: Input, maxKeys: nat, ttl: int)
    requires Valid(t) && maxKeys > 0 && Filled(t, maxKeys - 1) && c.key == "k" && c.at == 0 && ttl >= 0
    ensures var u := Remember(t, At0(Name(maxKeys), 0), maxKeys, ttl);
            "k" in Remember(u, c, maxKeys, ttl).seen && Remember(u, c, maxKeys, ttl).seen["k"] == Record(c)
  {
    var x := At0(Name(maxKeys), 0);
    hide Remember, Valid, Name;
    assert x.key != "k" && x.key !in t.seen;
    RememberAt0(t, x, maxKeys, ttl);
    RememberAt0(Remember(t, x, maxKeys, ttl), c, maxKeys, ttl);
  }

  lemma TiesRegress(maxKeys: nat, ttl: int) returns (inputs: seq<Input>)
    requires ttl >= 0 && maxKeys > 0
    ensures LateBy(inputs, 0) && !HoldsLatest(RememberAll(inputs, maxKeys, ttl), inputs)
  {
    hide Remember, RememberAll, Name, Filled, Filling;
    var c := At0("k", 1);
    inputs := Filling(maxKeys) + [c];
    FillsUp(maxKeys - 1, maxKeys, ttl);
    FillingMore(maxKeys, maxKeys, ttl);
    RememberMore(Filling(maxKeys), c, maxKeys, ttl);
    FilledForgets(RememberAll(Filling(maxKeys - 1), maxKeys, ttl), c, maxKeys, ttl);
    RecordStamps(c);
    FillingIsAt0(maxKeys);
    assert At0("k", 2) in inputs;
  }

  /** Ties must arrive in order whatever the bound, unless it rules them out. */
  lemma TiesIff(maxKeys: nat, ttl: int, bound: int)
    requires ttl >= 0 && maxKeys > 0
    ensures (forall inputs :: LateBy(inputs, bound) ==> HoldsLatest(RememberAll(inputs, maxKeys, ttl), inputs))
            <==> bound < 0
  {
    if bound < 0 {
      forall inputs | LateBy(inputs, bound) ensures HoldsLatest(RememberAll(inputs, maxKeys, ttl), inputs) {
        HeldIsLatestEver(inputs, maxKeys, ttl);
      }
    } else {
      var inputs := TiesRegress(maxKeys, ttl);
      assert LateBy(inputs, bound);
    }
  }
}
