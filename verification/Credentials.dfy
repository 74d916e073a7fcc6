/** What the sync and the refresh lock need of an account's credentials: how they are ordered. */
module Credentials {
  import opened Options

  /** `token` stands for the access and refresh tokens and everything else a record carries. */
  datatype Record = Record(grantedAt: Option<int>, expiresAt: int, token: nat)

  /** A newer grant wins outright; same grant, or one side without a grant time: the later expiry wins. */
  predicate CredentialsAreNewer(candidate: Record, current: Record) {
    if candidate.grantedAt.Some? && current.grantedAt.Some? && candidate.grantedAt != current.grantedAt
    then candidate.grantedAt.value > current.grantedAt.value
    else candidate.expiresAt > current.expiresAt
  }

  /** Whether a record outlives a removal: granted after it. A record with no grant time predates any. */
  predicate GrantedAfter(r: Record, removedAt: Option<int>) {
    removedAt.None? || (r.grantedAt.Some? && r.grantedAt.value > removedAt.value)
  }

  /** The later of two removals, either of which may not have happened. */
  function RemovalTime(marker: Option<int>, local: Option<int>): Option<int> {
    if marker.None? then local
    else if local.None? then marker
    else if marker.value < local.value then local else marker
  }

  predicate Granted(r: Record) {
    r.grantedAt.Some?
  }

  /** Equal as far as the order sees. */
  predicate Same(a: Record, b: Record) {
    a.grantedAt == b.grantedAt && a.expiresAt == b.expiresAt
  }

  /** Among records that carry a grant time, newer is a strict order, total up to grant and expiry. */
  lemma NewerIsAnOrder(a: Record, b: Record, c: Record)
    requires Granted(a) && Granted(b) && Granted(c)
    ensures !CredentialsAreNewer(a, a)
    ensures CredentialsAreNewer(a, b) && CredentialsAreNewer(b, c) ==> CredentialsAreNewer(a, c)
    ensures !CredentialsAreNewer(a, b) && !CredentialsAreNewer(b, a) <==> Same(a, b)
  {
  }

  /** Without grant times it is no order: three records can each be newer than the next, all the way round. */
  lemma NewerCanCycle()
    ensures var a, b, c := Record(Some(1), 10, 0), Record(None, 5, 1), Record(Some(2), 3, 2);
            CredentialsAreNewer(a, b) && CredentialsAreNewer(b, c) && CredentialsAreNewer(c, a)
  {
  }

  /**
   * Exactly when two steps of "newer" fail to add up: the grants disagree with the expiries across a record without
   * one.
   */
  lemma NewerTransitiveIff(a: Record, b: Record, c: Record)
    requires CredentialsAreNewer(a, b) && CredentialsAreNewer(b, c)
    ensures CredentialsAreNewer(a, c) <==>
            !( || (b.grantedAt.None? && a.grantedAt.Some? && c.grantedAt.Some? && a.grantedAt.value < c.grantedAt.value)
               || ((a.grantedAt.None? || c.grantedAt.None?) && a.expiresAt <= c.expiresAt))
  {
  }

  lemma OutlivesLater(r: Record, a: Option<int>, b: Option<int>)
    ensures GrantedAfter(r, RemovalTime(a, b)) <==> GrantedAfter(r, a) && GrantedAfter(r, b)
  {
  }
}
