/**
 * The bounded trace of what each cache key last went out with: comparing a request with the previous one on its
 * key, and remembering, per key, the request that went out last, whatever order the requests are accepted in.
 */
module CacheTrace {
  import opened Options

  const CACHE_TRACE_MAX_ITEMS: nat := 2000

  datatype Input = Input(key: string, alias: string, prefix: string, items: seq<string>, at: int, stamp: nat)

  /** `items` are the first CACHE_TRACE_MAX_ITEMS of `count`; `at` and `stamp` order what went out. */
  datatype Remembered = Remembered(alias: string, prefix: string, items: seq<string>, count: nat, at: int, stamp: nat)

  function Kept(items: seq<string>): seq<string> {
    if |items| > CACHE_TRACE_MAX_ITEMS then items[..CACHE_TRACE_MAX_ITEMS] else items
  }

  function Record(input: Input): Remembered {
    Remembered(input.alias, input.prefix, Kept(input.items), |input.items|, input.at, input.stamp)
  }

  // Comparing on what was kept.

  datatype Compared = Compared(extended: Option<bool>, divergedAt: Option<nat>)

  /** The first index at which two inputs differ, of those that were kept; none when one goes on from the other. */
  predicate Diverges(previous: seq<string>, current: seq<string>, at: Option<nat>) {
    match at
    case Some(i) =>
      && i < |previous| && i < |current| && i < CACHE_TRACE_MAX_ITEMS
      && previous[i] != current[i] && previous[..i] == current[..i]
    case None => Kept(previous) <= Kept(current) || Kept(current) <= Kept(previous)
  }

  /**
   * Comparing the kept items is sound for the full inputs: a yes and a no mean what they say of the whole of both,
   * no answer is given only when the previous input was longer than what was kept of it and the kept part agrees,
   * and an index of divergence is the first one.
   */
  method CompareKept(prev: seq<string>, prevCount: nat, cur: seq<string>, curCount: nat,
                     ghost previous: seq<string>, ghost current: seq<string>) returns (r: Compared)
    requires prev == Kept(previous) && prevCount == |previous| && cur == Kept(current) && curCount == |current|
    ensures r.extended == Some(true) ==> previous < current
    ensures r.extended == Some(false) ==> !(previous < current)
    ensures r.extended.None? <==>
              |previous| > CACHE_TRACE_MAX_ITEMS && |current| > |previous| && Kept(current) == Kept(previous)
    ensures Diverges(previous, current, r.divergedAt)
  {
    var shared := if |prev| < |cur| then |prev| else |cur|;
    for i := 0 to shared
      invariant prev[..i] == cur[..i]
    {
      if prev[i] != cur[i] {
        assert previous[..i] == prev[..i] && current[..i] == cur[..i];
        return Compared(Some(false), Some(i));
      }
    }
    assert prev[..shared] == cur[..shared];
    if curCount <= prevCount {
      return Compared(Some(false), None);
    }
    return Compared(if |prev| < prevCount then None else Some(true), None);
  }

  // Remembering.

  /** Keys in the order they were last inserted, and what is remembered under each. */
  datatype Trace = Trace(keys: seq<string>, seen: map<string, Remembered>)

  predicate Distinct(keys: seq<string>) {
    forall j, k :: 0 <= j < k < |keys| ==> keys[j] != keys[k]
  }

  ghost predicate Valid(t: Trace) {
    Distinct(t.keys) && forall key :: key in t.seen <==> key in t.keys
  }

  /** Went out later: by time, then by the order of dispatch. */
  predicate Later(aAt: int, aStamp: nat, bAt: int, bStamp: nat) {
    aAt > bAt || (aAt == bAt && aStamp > bStamp)
  }

  function Without(keys: seq<string>, key: string): seq<string> {
    if keys == [] then [] else (if keys[0] == key then [] else [keys[0]]) + Without(keys[1..], key)
  }

  lemma {:induction false} WithoutRemoves(keys: seq<string>, key: string)
    ensures forall k :: k in Without(keys, key) <==> k in keys && k != key
    ensures Distinct(keys) ==> Distinct(Without(keys, key))
    ensures Distinct(keys) && key in keys ==> |Without(keys, key)| == |keys| - 1
    ensures key !in keys ==> Without(keys, key) == keys
  {
    if keys != [] {
      WithoutRemoves(keys[1..], key);
      var rest := Without(keys[1..], key);
      if Distinct(keys) {
        assert Distinct(keys[1..]) && keys[0] !in keys[1..];
        forall j, k | 0 <= j < k < |Without(keys, key)| ensures Without(keys, key)[j] != Without(keys, key)[k] {
          assert keys[0] != key ==> Without(keys, key)[k] in rest;
        }
      }
    }
  }

  function Drop(t: Trace, key: string): Trace {
    Trace(Without(t.keys, key), t.seen - {key})
  }

  /** The key, of those given, that went out earliest; the first inserted on a tie. */
  function Oldest(keys: seq<string>, seen: map<string, Remembered>): (k: string)
    requires keys != [] && forall key <- keys :: key in seen
    ensures k in keys && forall key <- keys :: seen[k].at <= seen[key].at
  {
    var before, last := keys[..|keys| - 1], keys[|keys| - 1];
    if before == [] then last
    else
      var k := Oldest(before, seen);
      if seen[last].at < seen[k].at then last else k
  }

  function Expire(t: Trace, keys: seq<string>, at: int, ttl: int): Trace {
    if keys == [] then t
    else
      var u := Expire(t, keys[..|keys| - 1], at, ttl);
      var key := keys[|keys| - 1];
      if key in t.seen && at - t.seen[key].at > ttl then Drop(u, key) else u
  }

  lemma ExpireOneMore(t: Trace, keys: seq<string>, n: nat, at: int, ttl: int)
    requires n < |keys|
    ensures var u := Expire(t, keys[..n], at, ttl);
            Expire(t, keys[..n + 1], at, ttl)
            == if keys[n] in t.seen && at - t.seen[keys[n]].at > ttl then Drop(u, keys[n]) else u
  {
    assert keys[..n + 1][..n] == keys[..n];
  }

  lemma DropKeepsValid(t: Trace, key: string)
    requires Valid(t)
    ensures Valid(Drop(t, key)) && |Drop(t, key).keys| <= |t.keys|
            && (key in t.seen ==> |Drop(t, key).keys| == |t.keys| - 1)
  {
    WithoutRemoves(t.keys, key);
  }

  /** What a sweep may leave: some of the entries, as they were. */
  predicate Within(u: Trace, t: Trace) {
    forall key <- u.seen :: key in t.seen && u.seen[key] == t.seen[key]
  }

  /** While over the cap, the earliest goes. */
  ghost function Evict(t: Trace, maxKeys: nat): (u: Trace)
    requires Valid(t)
    ensures Valid(u) && |u.keys| <= maxKeys && Within(u, t) && (|t.keys| <= maxKeys ==> u == t)
    decreases |t.keys|
  {
    if |t.keys| <= maxKeys then t
    else
      var key := Oldest(t.keys, t.seen);
      DropKeepsValid(t, key);
      Evict(Drop(t, key), maxKeys)
  }

  lemma {:induction false} ExpireExpires(t: Trace, keys: seq<string>, at: int, ttl: int)
    requires Valid(t)
    ensures var u := Expire(t, keys, at, ttl);
            && Valid(u) && |u.keys| <= |t.keys| && Within(u, t)
            && forall key :: key in u.seen <==> key in t.seen && !(key in keys && at - t.seen[key].at > ttl)
  {
    if keys != [] {
      var before := keys[..|keys| - 1];
      ExpireExpires(t, before, at, ttl);
      DropKeepsValid(Expire(t, before, at, ttl), keys[|keys| - 1]);
      assert keys == before + [keys[|keys| - 1]];
    }
  }

  ghost function Sweep(t: Trace, at: int, maxKeys: nat, ttl: int): (u: Trace)
    requires Valid(t)
    ensures Valid(u) && |u.keys| <= maxKeys && Within(u, t)
    ensures |t.keys| <= maxKeys && (forall key <- t.seen :: at - t.seen[key].at <= ttl) ==> u.seen == t.seen
  {
    ExpireExpires(t, t.keys, at, ttl);
    Evict(Expire(t, t.keys, at, ttl), maxKeys)
  }

  /** Nothing kept went out before anything dropped. */
  ghost predicate EarliestGone(t: Trace, u: Trace) {
    forall dropped, kept | dropped in t.seen && dropped !in u.seen && kept in u.seen && kept in t.seen ::
      t.seen[dropped].at <= t.seen[kept].at
  }

  /** What an eviction leaves: as many as fit, and none that went out before one it dropped. */
  lemma {:induction false} EvictsEarliest(t: Trace, maxKeys: nat)
    requires Valid(t)
    ensures EarliestGone(t, Evict(t, maxKeys)) && (|t.keys| > maxKeys ==> |Evict(t, maxKeys).keys| == maxKeys)
    decreases |t.keys|
  {
    hide Evict, Valid, EarliestGone;
    if |t.keys| > maxKeys {
      EvictUnfolds(t, maxKeys);
      var key := Oldest(t.keys, t.seen);
      EvictsEarliest(Drop(t, key), maxKeys);
      DropsOldest(t, Drop(t, key), Evict(t, maxKeys), key);
      if |Drop(t, key).keys| <= maxKeys { EvictFits(Drop(t, key), maxKeys); }
    } else {
      EvictFits(t, maxKeys);
    }
  }

  lemma EvictFits(t: Trace, maxKeys: nat)
    requires Valid(t) && |t.keys| <= maxKeys
    ensures Evict(t, maxKeys) == t && EarliestGone(t, t)
  {
  }

  lemma DropsOldest(t: Trace, d: Trace, u: Trace, key: string)
    requires d.seen == t.seen - {key} && key in t.seen && (forall k <- t.seen :: t.seen[key].at <= t.seen[k].at)
    requires Within(u, d) && EarliestGone(d, u)
    ensures EarliestGone(t, u)
  {
  }

  lemma EvictUnfolds(t: Trace, maxKeys: nat)
    requires Valid(t) && |t.keys| > maxKeys
    ensures (forall key <- t.keys :: key in t.seen) && (forall key <- t.seen :: key in t.keys)
    ensures var key := Oldest(t.keys, t.seen);
            Valid(Drop(t, key)) && Evict(t, maxKeys) == Evict(Drop(t, key), maxKeys)
                && |Drop(t, key).keys| == |t.keys| - 1
  {
    DropKeepsValid(t, Oldest(t.keys, t.seen));
  }

  lemma EarliestGoneMeans(t: Trace, u: Trace)
    requires EarliestGone(t, u)
    ensures forall dropped, kept | dropped in t.seen && dropped !in u.seen && kept in u.seen && kept in t.seen ::
              t.seen[dropped].at <= t.seen[kept].at
  {
  }

  lemma {:induction false} KeysCount(keys: seq<string>)
    ensures |set k | k in keys| <= |keys|
  {
    if keys != [] {
      KeysCount(keys[1..]);
      assert (set k | k in keys) == (set k | k in keys[1..]) + {keys[0]};
    }
  }

  /**
   * Exactly what a sweep drops: every entry that has expired, and, only when more than fit are left, entries none of
   * which went out after one it keeps.
   */
  lemma SweepDropsOnly(t: Trace, at: int, maxKeys: nat, ttl: int)
    requires Valid(t)
    ensures var u := Sweep(t, at, maxKeys, ttl);
            && (forall key <- t.seen :: at - t.seen[key].at > ttl ==> key !in u.seen)
            && (forall key <- t.seen :: at - t.seen[key].at <= ttl && key !in u.seen ==>
                  |u.keys| == maxKeys && forall kept <- u.seen :: t.seen[kept].at >= t.seen[key].at)
            && ((forall key <- t.seen :: at - t.seen[key].at <= ttl) ==>
                  |u.keys| == if |t.keys| <= maxKeys then |t.keys| else maxKeys)
  {
    ExpireExpires(t, t.keys, at, ttl);
    hide Expire, Evict, EarliestGone;
    var e := Expire(t, t.keys, at, ttl);
    EvictsEarliest(e, maxKeys);
    EarliestGoneMeans(e, Evict(e, maxKeys));
    if forall key <- t.seen :: at - t.seen[key].at <= ttl {
      DistinctFit(t.keys, set k | k in e.keys);
      KeysCount(e.keys);
    }
  }

  predicate Superseded(t: Trace, input: Input) {
    input.key in t.seen && Later(t.seen[input.key].at, t.seen[input.key].stamp, input.at, input.stamp)
  }

  /** The key moved to the end, with this input under it. */
  function Insert(t: Trace, input: Input): Trace {
    Trace(Without(t.keys, input.key) + [input.key], t.seen[input.key := Record(input)])
  }

  lemma InsertKeepsValid(t: Trace, input: Input)
    requires Valid(t)
    ensures Valid(Insert(t, input))
  {
    WithoutRemoves(t.keys, input.key);
  }

  ghost function Remember(t: Trace, input: Input, maxKeys: nat, ttl: int): (u: Trace)
    requires Valid(t)
    ensures Valid(u) && (|t.keys| <= maxKeys ==> |u.keys| <= maxKeys)
  {
    if Superseded(t, input) then t
    else
      InsertKeepsValid(t, input);
      Sweep(Insert(t, input), input.at, maxKeys, ttl)
  }

  ghost function RememberAll(inputs: seq<Input>, maxKeys: nat, ttl: int): (t: Trace)
    ensures Valid(t) && |t.keys| <= maxKeys
  {
    if inputs == [] then Trace([], map[])
    else Remember(RememberAll(inputs[..|inputs| - 1], maxKeys, ttl), inputs[|inputs| - 1], maxKeys, ttl)
  }

  // The trace holds the latest dispatch whatever the arrival order.

  /** `r` is what one of the inputs says, and none of them went out after it. */
  ghost predicate Latest(inputs: seq<Input>, r: Remembered) {
    && (exists i :: i in inputs && r == Record(i))
    && forall i <- inputs :: !Later(i.at, i.stamp, r.at, r.stamp)
  }

  function ForKey(inputs: seq<Input>, key: string): seq<Input> {
    if inputs == [] then []
    else ForKey(inputs[..|inputs| - 1], key) + if inputs[|inputs| - 1].key == key then [inputs[|inputs| - 1]] else []
  }

  /** The inputs on a key since the trace last held nothing under it. */
  ghost function SinceDrop(inputs: seq<Input>, key: string, maxKeys: nat, ttl: int): seq<Input> {
    if inputs == [] || key !in RememberAll(inputs, maxKeys, ttl).seen then []
    else
      var before, last := inputs[..|inputs| - 1], inputs[|inputs| - 1];
      SinceDrop(before, key, maxKeys, ttl) + if last.key == key then [last] else []
  }

  lemma RememberIs(t: Trace, input: Input, maxKeys: nat, ttl: int, key: string)
    requires Valid(t) && key in Remember(t, input, maxKeys, ttl).seen
    ensures var u := Remember(t, input, maxKeys, ttl);
            if input.key == key && !Superseded(t, input) then u.seen[key] == Record(input)
            else key in t.seen && u.seen[key] == t.seen[key]
  {
    hide Sweep;
    if !Superseded(t, input) { InsertKeepsValid(t, input); }
  }

  lemma LatestOneMore(since: seq<Input>, r: Remembered, input: Input)
    requires Latest(since, r)
    ensures !Later(input.at, input.stamp, r.at, r.stamp) ==> Latest(since + [input], r)
    ensures !Later(r.at, r.stamp, input.at, input.stamp) ==> Latest(since + [input], Record(input))
  {
    hide Record;
    var i :| i in since && r == Record(i);
    assert i in since + [input] && input in since + [input];
    RecordStamps(input);
  }

  lemma RecordStamps(input: Input)
    ensures Record(input).at == input.at && Record(input).stamp == input.stamp
  {
  }

  lemma LatestAlone(input: Input)
    ensures Latest([] + [input], Record(input))
  {
    assert input in [] + [input];
  }

  lemma RememberLatest(t: Trace, input: Input, maxKeys: nat, ttl: int, key: string, since: seq<Input>)
    requires Valid(t) && if key in t.seen then Latest(since, t.seen[key]) else since == []
    requires key in Remember(t, input, maxKeys, ttl).seen
    ensures Latest(since + if input.key == key then [input] else [], Remember(t, input, maxKeys, ttl).seen[key])
  {
    RememberIs(t, input, maxKeys, ttl, key);
    hide Remember, Latest, Valid, Record;
    if input.key != key {
      assert since + [] == since;
    } else if key in t.seen {
      LatestOneMore(since, t.seen[key], input);
    } else {
      LatestAlone(input);
    }
  }

  /**
   * After any sequence of inputs each held key maps to the one that went out last, by time and then by order of
   * dispatch, of its inputs since it was last dropped; and the trace is within its cap.
   */
  lemma {:induction false} HeldIsLatest(inputs: seq<Input>, maxKeys: nat, ttl: int, key: string)
    ensures var t := RememberAll(inputs, maxKeys, ttl); var since := SinceDrop(inputs, key, maxKeys, ttl);
            && |t.keys| <= maxKeys
            && if key in t.seen then Latest(since, t.seen[key]) else since == []
  {
    if inputs != [] {
      HeldIsLatest(inputs[..|inputs| - 1], maxKeys, ttl, key);
      var t := RememberAll(inputs[..|inputs| - 1], maxKeys, ttl);
      if key in RememberAll(inputs, maxKeys, ttl).seen {
        hide Remember, Latest;
        RememberLatest(t, inputs[|inputs| - 1], maxKeys, ttl, key,
            SinceDrop(inputs[..|inputs| - 1], key, maxKeys, ttl));
      }
    }
  }

  function KeysOf(inputs: seq<Input>): set<string> {
    set i | i in inputs :: i.key
  }

  /** Nothing can expire or be evicted: the inputs all lie within one lifetime and name no more keys than fit. */
  predicate NoDrops(inputs: seq<Input>, maxKeys: nat, ttl: int) {
    |KeysOf(inputs)| <= maxKeys && forall a <- inputs, b <- inputs :: a.at - b.at <= ttl
  }

  lemma {:induction false} DistinctFit(keys: seq<string>, all: set<string>)
    requires Distinct(keys) && forall k <- keys :: k in all
    ensures |keys| <= |all|
  {
    if keys != [] {
      var last := keys[|keys| - 1];
      DistinctFit(keys[..|keys| - 1], all - {last});
    }
  }

  lemma KeysGrow(inputs: seq<Input>)
    requires inputs != []
    ensures KeysOf(inputs[..|inputs| - 1]) <= KeysOf(inputs) && inputs[|inputs| - 1].key in KeysOf(inputs)
    ensures |KeysOf(inputs[..|inputs| - 1])| <= |KeysOf(inputs)|
  {
    SubsetFits(KeysOf(inputs[..|inputs| - 1]), KeysOf(inputs));
  }

  lemma {:induction false} SubsetFits(a: set<string>, b: set<string>)
    requires a <= b
    ensures |a| <= |b|
    decreases |a|
  {
    if a != {} {
      var x :| x in a;
      SubsetFits(a - {x}, b - {x});
    }
  }

  /** What a trace without drops holds: a key for every key seen, and its latest input. */
  ghost predicate HoldsLatest(t: Trace, inputs: seq<Input>) {
    && (forall key :: key in t.seen <==> key in KeysOf(inputs))
    && forall key <- t.seen :: Latest(ForKey(inputs, key), t.seen[key])
  }

  /** With every input within a lifetime and no more keys than fit, a step drops nothing. */
  lemma RememberDropsNothing(t: Trace, inputs: seq<Input>, input: Input, maxKeys: nat, ttl: int)
    requires Valid(t) && HoldsLatest(t, inputs) && NoDrops(inputs + [input], maxKeys, ttl)
    ensures Remember(t, input, maxKeys, ttl).seen == if Superseded(t, input) then t.seen
            else t.seen[input.key := Record(input)]
  {
    if !Superseded(t, input) {
      InsertKeepsValid(t, input);
      var u := Insert(t, input);
      assert input in inputs + [input] && forall i <- inputs :: i in inputs + [input];
      forall k | k in u.keys ensures k in KeysOf(inputs + [input]) {
        if k != input.key { assert k in t.seen; }
      }
      DistinctFit(u.keys, KeysOf(inputs + [input]));
      forall key | key in u.seen ensures input.at - u.seen[key].at <= ttl {
        if key != input.key {
          var i :| i in ForKey(inputs, key) && t.seen[key] == Record(i);
          ForKeyHas(inputs, key);
          assert i in inputs + [input];
        }
      }
    }
  }

  lemma {:induction false} ForKeyHas(inputs: seq<Input>, key: string)
    ensures forall i :: i in ForKey(inputs, key) <==> i in inputs && i.key == key
  {
    if inputs != [] {
      ForKeyHas(inputs[..|inputs| - 1], key);
      assert inputs == inputs[..|inputs| - 1] + [inputs[|inputs| - 1]];
    }
  }

  lemma {:induction false} AllHeldAreLatest(inputs: seq<Input>, maxKeys: nat, ttl: int)
    requires NoDrops(inputs, maxKeys, ttl)
    ensures HoldsLatest(RememberAll(inputs, maxKeys, ttl), inputs)
  {
    hide Remember, Latest;
    if inputs != [] {
      var before, last := inputs[..|inputs| - 1], inputs[|inputs| - 1];
      KeysGrow(inputs);
      assert inputs == before + [last];
      AllHeldAreLatest(before, maxKeys, ttl);
      var t := RememberAll(before, maxKeys, ttl);
      RememberDropsNothing(t, before, last, maxKeys, ttl);
      StillHoldsLatest(t, before, last, maxKeys, ttl);
    }
  }

  lemma StillHoldsLatest(t: Trace, before: seq<Input>, last: Input, maxKeys: nat, ttl: int)
    requires Valid(t) && HoldsLatest(t, before)
    requires Remember(t, last, maxKeys, ttl).seen == if Superseded(t, last) then t.seen
             else t.seen[last.key := Record(last)]
    ensures HoldsLatest(Remember(t, last, maxKeys, ttl), before + [last])
  {
    hide Remember, Valid, Latest, Record;
    var u := Remember(t, last, maxKeys, ttl);
    assert (before + [last])[..|before|] == before;
    assert KeysOf(before + [last]) == KeysOf(before) + {last.key};
    forall key | key in u.seen ensures Latest(ForKey(before + [last], key), u.seen[key]) {
      if key !in t.seen {
        assert forall i <- before :: i.key in KeysOf(before);
        NoneForKey(before, key);
      }
      RememberLatest(t, last, maxKeys, ttl, key, ForKey(before, key));
    }
  }

  lemma {:induction false} NoneForKey(inputs: seq<Input>, key: string)
    requires forall i <- inputs :: i.key != key
    ensures ForKey(inputs, key) == []
  {
    if inputs != [] { NoneForKey(inputs[..|inputs| - 1], key); }
  }

  /** Dispatch order tells two inputs on a key apart, unless they say the same. */
  predicate Stamped(inputs: seq<Input>) {
    forall a <- inputs, b <- inputs :: a.key == b.key && a.at == b.at && a.stamp == b.stamp ==> Record(a) == Record(b)
  }

  /** With nothing expired or evicted, the trace does not depend on the order the inputs arrive in. */
  lemma ArrivalOrderIrrelevant(a: seq<Input>, b: seq<Input>, maxKeys: nat, ttl: int)
    requires multiset(a) == multiset(b) && NoDrops(a, maxKeys, ttl) && Stamped(a)
    ensures RememberAll(a, maxKeys, ttl).seen == RememberAll(b, maxKeys, ttl).seen
  {
    hide RememberAll, Latest, Record;
    forall i: Input ensures i in a <==> i in b {
      assert i in multiset(a) <==> i in multiset(b);
    }
    assert KeysOf(a) == KeysOf(b);
    AllHeldAreLatest(a, maxKeys, ttl);
    AllHeldAreLatest(b, maxKeys, ttl);
    var t, u := RememberAll(a, maxKeys, ttl), RememberAll(b, maxKeys, ttl);
    forall key | key in t.seen ensures t.seen[key] == u.seen[key] {
      SameLatest(a, b, key, t.seen[key], u.seen[key]);
    }
  }

  lemma SameLatest(a: seq<Input>, b: seq<Input>, key: string, r: Remembered, s: Remembered)
    requires (forall i :: i in a <==> i in b) && Stamped(a)
    requires Latest(ForKey(a, key), r) && Latest(ForKey(b, key), s)
    ensures r == s
  {
    ForKeyHas(a, key);
    ForKeyHas(b, key);
    var i :| i in ForKey(a, key) && r == Record(i);
    var j :| j in ForKey(b, key) && s == Record(j);
    assert j in ForKey(a, key) && i in ForKey(b, key);
  }

  lemma RememberMore(inputs: seq<Input>, input: Input, maxKeys: nat, ttl: int)
    ensures RememberAll(inputs + [input], maxKeys, ttl)
            == Remember(RememberAll(inputs, maxKeys, ttl), input, maxKeys, ttl)
  {
    assert (inputs + [input])[..|inputs|] == inputs;
  }

  lemma OneRemembered(a: Input, maxKeys: nat, ttl: int)
    requires maxKeys > 0 && ttl >= 0
    ensures var t := RememberAll([a], maxKeys, ttl); t.seen == map[a.key := Record(a)]
  {
    var t0 := Trace([], map[]);
    assert RememberAll([], maxKeys, ttl) == t0 && [] + [a] == [a];
    RememberMore([], a, maxKeys, ttl);
    JustRemembered(t0, a, maxKeys, ttl);
    OnlyKnown(t0, a, maxKeys, ttl);
  }

  lemma FirstExpired(a: Input, b: Input, maxKeys: nat, ttl: int)
    requires a.key != b.key && b.at - a.at > ttl >= 0 && maxKeys >= 2
    ensures var t := RememberAll([a, b], maxKeys, ttl); a.key !in t.seen && |t.keys| < maxKeys
  {
    OneRemembered(a, maxKeys, ttl);
    var t := RememberAll([a], maxKeys, ttl);
    assert [a] + [b] == [a, b];
    RememberMore([a], b, maxKeys, ttl);
    OthersExpire(t, b, maxKeys, ttl, a.key);
    OnlyKnown(t, b, maxKeys, ttl);
    DistinctFit(Remember(t, b, maxKeys, ttl).keys, {b.key});
  }

  /** A drop forgets: an entry that has expired, because another key went out since, can come back as an older one. */
  lemma ExpiredCanRegress(a: Input, b: Input, c: Input, maxKeys: nat, ttl: int)
    requires a.key == c.key != b.key && Later(a.at, a.stamp, c.at, c.stamp)
    requires b.at - a.at > ttl >= 0 && maxKeys >= 2
    ensures var t := RememberAll([a, b, c], maxKeys, ttl); a.key in t.seen && t.seen[a.key] == Record(c)
  {
    FirstExpired(a, b, maxKeys, ttl);
    var t := RememberAll([a, b], maxKeys, ttl);
    assert [a, b] + [c] == [a, b, c];
    RememberMore([a, b], c, maxKeys, ttl);
    hide Remember, RememberAll;
    JustRemembered(t, c, maxKeys, ttl);
  }

  lemma OnlyKnown(t: Trace, input: Input, maxKeys: nat, ttl: int)
    requires Valid(t)
    ensures forall key :: key in Remember(t, input, maxKeys, ttl).seen ==> key in t.seen || key == input.key
  {
    InsertKeepsValid(t, input);
  }

  /** An input that is remembered drops whatever is too old for it. */
  lemma OthersExpire(t: Trace, input: Input, maxKeys: nat, ttl: int, key: string)
    requires Valid(t) && !Superseded(t, input) && key != input.key
             && (key in t.seen ==> input.at - t.seen[key].at > ttl)
    ensures key !in Remember(t, input, maxKeys, ttl).seen
  {
    InsertKeepsValid(t, input);
    var u := Insert(t, input);
    ExpireExpires(u, u.keys, input.at, ttl);
  }

  /** And stays itself, when what is left fits. */
  lemma JustRemembered(t: Trace, input: Input, maxKeys: nat, ttl: int)
    requires Valid(t) && !Superseded(t, input) && |t.keys| < maxKeys && ttl >= 0
    ensures input.key in Remember(t, input, maxKeys, ttl).seen
            && Remember(t, input, maxKeys, ttl).seen[input.key] == Record(input)
  {
    InsertKeepsValid(t, input);
    WithoutRemoves(t.keys, input.key);
    var u := Insert(t, input);
    ExpireExpires(u, u.keys, input.at, ttl);
  }

  /** What is held is what some input on that key said: seat, prefix, the first items, how many, and its place. */
  predicate SaysOf(r: Remembered, a: Input) {
    && r.alias == a.alias && r.prefix == a.prefix && r.at == a.at && r.stamp == a.stamp
    && r.count == |a.items| && r.items <= a.items && |r.items| == if |a.items| < 2000 then |a.items| else 2000
  }

  lemma {:induction false} HeldIsAnInput(inputs: seq<Input>, maxKeys: nat, ttl: int, key: string)
    requires key in RememberAll(inputs, maxKeys, ttl).seen
    ensures exists a :: a in inputs && a.key == key && SaysOf(RememberAll(inputs, maxKeys, ttl).seen[key], a)
  {
    if inputs != [] {
      var before, x := inputs[..|inputs| - 1], inputs[|inputs| - 1];
      assert inputs == before + [x];
      var t := RememberAll(before, maxKeys, ttl);
      RememberIs(t, x, maxKeys, ttl, key);
      hide Remember;
      if x.key == key && !Superseded(t, x) {
        assert SaysOf(Record(x), x);
      } else {
        HeldIsAnInput(before, maxKeys, ttl, key);
        var a :| a in before && a.key == key && SaysOf(t.seen[key], a);
        assert a in inputs;
      }
    }
  }
}
