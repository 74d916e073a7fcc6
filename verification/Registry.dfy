/**
 * One alias on the shared account registry: the scripts the service runs, each atomic, and what every sequence
 * of them keeps.
 */
module Registry {
  import opened Options
  import opened Credentials

  datatype Entry = Entry(record: Option<Record>, marker: Option<int>)

  /** The put script, branch by branch: refused under a marker, or when not newer than what is held. */
  function Put(e: Entry, c: Record): Entry {
    if e.marker.Some? && (c.grantedAt.None? || c.grantedAt.value <= e.marker.value) then e
    else if e.record.None? then Entry(Some(c), None)
    else
      var cur := e.record.value;
      if c.grantedAt.Some? && cur.grantedAt.Some? && c.grantedAt != cur.grantedAt then
        if c.grantedAt.value < cur.grantedAt.value then e else Entry(Some(c), None)
      else if c.expiresAt <= cur.expiresAt then e
      else Entry(Some(c), None)
  }

  /** The remove script: a later grant keeps the record; else it goes and the latest removal stays as the marker. */
  function Remove(e: Entry, at: int): Entry {
    if e.record.Some? && e.record.value.grantedAt.Some? && e.record.value.grantedAt.value > at then e
    else Entry(None, if e.marker.None? || at > e.marker.value then Some(at) else e.marker)
  }

  /** The service's script and the client's rule are one rule. */
  lemma PutFollowsClientRule(e: Entry, c: Record)
    ensures Put(e, c) == if GrantedAfter(c, e.marker) && (e.record.None? || CredentialsAreNewer(c, e.record.value))
                         then Entry(Some(c), None) else e
  {
  }

  datatype Op = PutOp(record: Record) | RemoveOp(at: int)

  function Apply(e: Entry, op: Op): Entry {
    match op
    case PutOp(c) => Put(e, c)
    case RemoveOp(at) => Remove(e, at)
  }

  function Run(e: Entry, ops: seq<Op>): Entry {
    if ops == [] then e else Apply(Run(e, ops[..|ops| - 1]), ops[|ops| - 1])
  }

  /** The removal at `t` still stands: a record granted after it is held, or a marker at least as late. */
  predicate Covers(e: Entry, t: int) {
    || (e.record.Some? && GrantedAfter(e.record.value, Some(t)))
    || (e.marker.Some? && e.marker.value >= t)
  }

  /** A record and a marker are never held together. */
  predicate Exclusive(e: Entry) {
    e.record.None? || e.marker.None?
  }

  lemma RemoveCovers(e: Entry, at: int)
    ensures Covers(Remove(e, at), at)
    ensures forall t :: Covers(e, t) ==> Covers(Remove(e, at), t)
    ensures Exclusive(e) ==> Exclusive(Remove(e, at))
  {
  }

  /**
   * A put keeps a standing removal exactly when the record carries a grant time, or is turned away: by a
   * marker, or by a record expiring no earlier. A record without a grant time that gets past both puts the
   * removed account back.
   */
  lemma PutKeepsRemovalIff(e: Entry, c: Record, t: int)
    requires Covers(e, t) && Exclusive(e)
    ensures Covers(Put(e, c), t) <==> c.grantedAt.Some? || e.marker.Some? || c.expiresAt <= e.record.value.expiresAt
    ensures Exclusive(Put(e, c))
  {
  }

  /** The failing case, spelt out: removed at 10, logged in again at 11, then an old record without a grant time. */
  lemma UngrantedPutRevives()
    ensures var ops := [RemoveOp(10), PutOp(Record(Some(11), 5, 0)), PutOp(Record(None, 6, 1))];
            !Covers(Run(Entry(None, None), ops), 10) && Run(Entry(None, None), ops).record == Some(Record(None, 6, 1))
  {
    var ops := [RemoveOp(10), PutOp(Record(Some(11), 5, 0)), PutOp(Record(None, 6, 1))];
    assert ops[..2] == [RemoveOp(10), PutOp(Record(Some(11), 5, 0))] && ops[..2][..1] == [RemoveOp(10)];
    assert Run(Entry(None, None), ops[..2][..1][..0]) == Entry(None, None);
    assert Run(Entry(None, None), ops[..2][..1]) == Entry(None, Some(10));
    assert Run(Entry(None, None), ops[..2]) == Entry(Some(Record(Some(11), 5, 0)), None);
  }

  /**
   * A published removal is permanent for older grants: over every run of puts of records that carry a grant
   * time and of removals, each removal in the run still stands at its end, although storing clears the marker.
   */
  lemma {:induction false} RemovalsArePermanent(e: Entry, ops: seq<Op>)
    requires Exclusive(e)
    requires forall op <- ops :: op.PutOp? ==> Granted(op.record)
    ensures Exclusive(Run(e, ops))
    ensures forall op <- ops :: op.RemoveOp? ==> Covers(Run(e, ops), op.at)
    ensures forall t :: Covers(e, t) ==> Covers(Run(e, ops), t)
  {
    if ops != [] {
      var last := ops[|ops| - 1];
      var before := Run(e, ops[..|ops| - 1]);
      RemovalsArePermanent(e, ops[..|ops| - 1]);
      assert forall op <- ops :: op in ops[..|ops| - 1] || op == last;
      forall t | Covers(before, t) ensures Covers(Apply(before, last), t) {
        if last.PutOp? { PutKeepsRemovalIff(before, last.record, t); } else { RemoveCovers(before, last.at); }
      }
      if last.RemoveOp? { RemoveCovers(before, last.at); }
    }
  }

  /** What a standing removal means: a put of a record granted no later than it changes nothing. */
  lemma CoveredPutRefused(e: Entry, c: Record, t: int)
    requires Covers(e, t) && Granted(c) && !GrantedAfter(c, Some(t))
    ensures Put(e, c) == e
  {
  }
}
