/** The cache trace as the code keeps it: one map, updated in place, with its keys in insertion order. */
module CacheTracer {
  import opened Options
  import opened CacheTrace

  datatype Result = Result(items: nat, sinceMs: Option<int>, prevItems: Option<nat>, compared: Option<Compared>,
                           seatChanged: Option<bool>, prefixChanged: Option<bool>)

  /** A request as its caller hands it over: the stamp is not there until it has been looked up. */
  datatype Request = Request(key: string, alias: string, prefix: string, items: seq<string>, at: int,
      stamp: Option<nat>)

  class Tracer {
    const maxKeys: nat
    const ttlMs: int
    var keys: seq<string>
    var seen: map<string, Remembered>
    var dispatched: nat

    ghost predicate Fits()
      reads this
    {
      Valid(Trace(keys, seen)) && |keys| <= maxKeys
    }

    constructor (maxKeys: nat, ttlMs: int)
      ensures this.maxKeys == maxKeys && this.ttlMs == ttlMs && keys == [] && seen == map[] && dispatched == 0 && Fits()
    {
      this.maxKeys, this.ttlMs, keys, seen, dispatched := maxKeys, ttlMs, [], map[], 0;
    }

    /**
     * The comparison with what the key last went out with, when that is not too old, given the full input it was;
     * nothing is remembered but the order of dispatch.
     */
    method Peek(request: Request, ghost previous: seq<string>) returns (stamp: nat, r: Result)
      requires request.key in seen ==>
               seen[request.key].items == Kept(previous) && seen[request.key].count == |previous|
      modifies this`dispatched
      ensures request.stamp.Some? ==> stamp == request.stamp.value && dispatched == old(dispatched)
      ensures request.stamp.None? ==> stamp == dispatched == old(dispatched) + 1
      ensures r.items == |request.items|
      ensures var live := request.key in seen && request.at - seen[request.key].at <= ttlMs;
              && (live <==> r.sinceMs.Some?) && (live <==> r.prevItems.Some?) && (live <==> r.compared.Some?)
              && (live <==> r.seatChanged.Some?) && (live <==> r.prefixChanged.Some?)
              && (live ==>
                    && r.sinceMs.value == (if request.at < seen[request.key].at then 0
                          else request.at - seen[request.key].at)
                    && r.prevItems.value == |previous|
                    && (r.seatChanged.value <==> seen[request.key].alias != request.alias)
                    && (r.prefixChanged.value <==> seen[request.key].prefix != request.prefix)
                    && (r.compared.value.extended == Some(true) ==> previous < request.items)
                    && (r.compared.value.extended == Some(false) ==> !(previous < request.items))
                    && (r.compared.value.extended.None? <==>
                          && |previous| > CACHE_TRACE_MAX_ITEMS && |request.items| > |previous|
                          && Kept(request.items) == Kept(previous))
                    && Diverges(previous, request.items, r.compared.value.divergedAt))
    {
      if request.stamp.None? {
        dispatched := dispatched + 1;
        stamp := dispatched;
      } else {
        stamp := request.stamp.value;
      }
      if request.key !in seen || request.at - seen[request.key].at > ttlMs {
        return stamp, Result(|request.items|, None, None, None, None, None);
      }
      var prev := seen[request.key];
      var compared := CompareKept(prev.items, prev.count, Kept(request.items), |request.items|, previous,
          request.items);
      var since := request.at - prev.at;
      r := Result(|request.items|, Some(if since < 0 then 0 else since), Some(prev.count), Some(compared),
                  Some(prev.alias != request.alias), Some(prev.prefix != request.prefix));
    }

    /** Later inputs stand; an input that is remembered sweeps out what has expired, then what is over the cap. */
    method Remember(input: Input)
      requires Fits()
      modifies this`keys, this`seen
      ensures Fits() && Trace(keys, seen) == CacheTrace.Remember(Trace(old(keys), old(seen)), input, maxKeys, ttlMs)
    {
      if input.key in seen && Later(seen[input.key].at, seen[input.key].stamp, input.at, input.stamp) { return; }
      InsertKeepsValid(Trace(keys, seen), input);
      keys := Without(keys, input.key) + [input.key];
      seen := seen[input.key := Record(input)];
      Sweep(input.at);
    }

    method Sweep(at: int)
      requires Valid(Trace(keys, seen))
      modifies this`keys, this`seen
      ensures Fits() && Trace(keys, seen) == CacheTrace.Sweep(Trace(old(keys), old(seen)), at, maxKeys, ttlMs)
    {
      ExpireExpires(Trace(keys, seen), keys, at, ttlMs);
      hide Valid, Expire, Evict;
      DropExpired(at);
      DropOverCap();
    }

    method DropExpired(at: int)
      requires Valid(Trace(keys, seen))
      modifies this`keys, this`seen
      ensures Trace(keys, seen) == Expire(Trace(old(keys), old(seen)), old(keys), at, ttlMs)
    {
      ghost var t := Trace(keys, seen);
      var all := keys;
      for n := 0 to |all|
        invariant Trace(keys, seen) == Expire(t, all[..n], at, ttlMs)
        invariant forall k <- all[n..] :: k in seen && k in t.seen && seen[k] == t.seen[k]
      {
        hide Without, Expire;
        ExpireOneMore(t, all, n, at, ttlMs);
        assert all[n] == all[n..][0];
        if at - seen[all[n]].at > ttlMs {
          keys, seen := Without(keys, all[n]), seen - {all[n]};
        }
      }
      assert all[..|all|] == all;
    }

    method DropOverCap()
      requires Valid(Trace(keys, seen))
      modifies this`keys, this`seen
      ensures Fits() && Trace(keys, seen) == Evict(Trace(old(keys), old(seen)), maxKeys)
    {
      ghost var t := Trace(keys, seen);
      while |keys| > maxKeys
        invariant Valid(Trace(keys, seen)) && Evict(Trace(keys, seen), maxKeys) == Evict(t, maxKeys)
        decreases |keys|
      {
        hide Without;
        var oldest := FindOldest();
        DropKeepsValid(Trace(keys, seen), oldest);
        keys, seen := Without(keys, oldest), seen - {oldest};
      }
    }

    /** The earliest entry, the first inserted on a tie. */
    method FindOldest() returns (oldest: string)
      requires Valid(Trace(keys, seen)) && keys != []
      ensures oldest == Oldest(keys, seen)
    {
      assert forall k <- keys :: k in seen;
      hide Valid, Oldest;
      oldest := keys[0];
      OldestOne(keys, seen);
      for n := 1 to |keys|
        invariant oldest in seen && oldest == Oldest(keys[..n], seen)
      {
        OldestMore(keys, n, seen);
        if seen[keys[n]].at < seen[oldest].at { oldest := keys[n]; }
      }
      assert keys[..|keys|] == keys;
    }
  }

  lemma OldestOne(keys: seq<string>, seen: map<string, Remembered>)
    requires keys != [] && forall key <- keys :: key in seen
    ensures Oldest(keys[..1], seen) == keys[0]
  {
    assert keys[..1][..0] == [];
  }

  lemma OldestMore(keys: seq<string>, n: nat, seen: map<string, Remembered>)
    requires 0 < n < |keys| && forall key <- keys :: key in seen
    ensures keys[n] in seen && (forall key <- keys[..n] :: key in seen) && (forall key <- keys[..n + 1] :: key in seen)
    ensures Oldest(keys[..n + 1], seen) ==
            if seen[keys[n]].at < seen[Oldest(keys[..n], seen)].at then keys[n] else Oldest(keys[..n], seen)
  {
    assert keys[..n + 1][..n] == keys[..n] && keys[n] in keys;
  }

  /** Remembering inputs one by one, as they are accepted. */
  method RememberEach(inputs: seq<Input>, maxKeys: nat, ttlMs: int) returns (tracer: Tracer)
    ensures fresh(tracer) && tracer.maxKeys == maxKeys
    ensures Trace(tracer.keys, tracer.seen) == RememberAll(inputs, maxKeys, ttlMs)
  {
    tracer := new Tracer(maxKeys, ttlMs);
    for n := 0 to |inputs|
      invariant tracer.Fits() && tracer.maxKeys == maxKeys && tracer.ttlMs == ttlMs && fresh(tracer)
      invariant Trace(tracer.keys, tracer.seen) == RememberAll(inputs[..n], maxKeys, ttlMs)
    {
      assert inputs[..n + 1][..n] == inputs[..n];
      tracer.Remember(inputs[n]);
    }
    assert inputs[..|inputs|] == inputs;
  }
}
