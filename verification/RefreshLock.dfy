/**
 * Refreshing single-use refresh tokens from any number of instances under the shared lock. Every refresh at the
 * token endpoint retires the token it was shown, so an instance must never show one a peer has already spent.
 * The lock service is modelled by its contract: acquire and release each happen at once, and acquire hands the
 * cached credentials to any caller they are newer than.
 */
module RefreshLock {
  import opened Options
  import opened Credentials

  const MAX_ATTEMPTS: nat := 8

  datatype Caller =
    | Waiting(creds: Record, attempts: nat)
    | Checked(creds: Record, attempts: nat)   // only a service that acquires in two commands
    | Holding(creds: Record)
    | Direct(creds: Record)                   // refreshing without the lock
    | Refreshed(updated: Record)
    | Unlocked(updated: Record)               // only a service that releases in two commands
    | Failed
    | Done

  /** `issued` is every record there has ever been, `live` those whose refresh token is still good. */
  datatype World = World(issued: set<Record>, live: set<Record>, cached: Option<Record>, lock: Option<nat>,
                         callers: map<nat, Caller>)

  datatype Step =
    | LoginStep(record: Record)
    | BeginStep(k: nat, record: Record)
    | AcquireStep(k: nat, serve: bool)        // serve: adopted credentials have life enough to be handed back
    | PresentStep(k: nat, outcome: Outcome)
    | ReleaseStep(k: nat)
    // What the lock cannot cover:
    | UnreachableStep(k: nat)                 // the service does not answer and the token is near its end
    | ExhaustStep(k: nat)                     // eight attempts without a lock
    | LapseStep                               // a lease runs out before its release
    | LostReleaseStep(k: nat)
    | CheckStep(k: nat)                       // an acquire cut in two: the cached credentials are read first,
    | LockStep(k: nat)                        // and the lock is taken later
    | UnlockStep(k: nat)                      // a release cut in two: the lock is given up first,
    | StoreStep(k: nat)                       // and the credentials are cached later

  /** The token endpoint rotates the token, turns the call away, or rotates it without its answer arriving. */
  datatype Outcome = Rotated(expiresAt: int, token: nat) | Refused | Lost(expiresAt: int, token: nat)

  predicate CachedIsNewer(w: World, r: Record) {
    w.cached.Some? && CredentialsAreNewer(w.cached.value, r)
  }

  function WithCaller(w: World, k: nat, c: Caller): World {
    w.(callers := w.callers[k := c])
  }

  /** Newer credentials are adopted, served or refreshed further; else the lock is taken, or waited for. */
  function Acquire(w: World, k: nat, c: Caller, serve: bool): World
    requires c.Waiting?
  {
    if CachedIsNewer(w, c.creds) then
      WithCaller(w, k, if serve then Done else Waiting(w.cached.value, c.attempts + 1))
    else if w.lock.None? then WithCaller(w.(lock := Some(k)), k, Holding(c.creds))
    else WithCaller(w, k, Waiting(c.creds, c.attempts + 1))
  }

  /** What a rotation makes of a record: whatever the endpoint answers, under the old grant. */
  function Rotate(r: Record, expiresAt: int, token: nat): Record {
    Record(r.grantedAt, expiresAt, token)
  }

  /** The token shown is spent, and what the endpoint made of it is the good one. */
  function Spend(w: World, r: Record, expiresAt: int, token: nat): World {
    w.(live := w.live - {r} + {Rotate(r, expiresAt, token)})
  }

  function Present(w: World, k: nat, c: Caller, outcome: Outcome): World
    requires c.Holding? || c.Direct?
  {
    match outcome
    case Rotated(expiresAt, token) =>
      var updated := Rotate(c.creds, expiresAt, token);
      WithCaller(Spend(w, c.creds, expiresAt, token).(issued := w.issued + {updated}), k,
                 if c.Holding? then Refreshed(updated) else Done)
    case Refused => WithCaller(w, k, if c.Holding? then Failed else Done)
    case Lost(expiresAt, token) =>
      WithCaller(Spend(w, c.creds, expiresAt, token), k, if c.Holding? then Failed else Done)
  }

  /** Only the holder of the lock releases it; what it refreshed is kept for the others. */
  function Release(w: World, k: nat, c: Caller): World {
    var u := WithCaller(w, k, Done);
    if w.lock != Some(k) then u else u.(lock := None, cached := if c.Refreshed? then Some(c.updated) else w.cached)
  }

  function Unlock(w: World, k: nat, c: Caller): World {
    if w.lock != Some(k) then WithCaller(w, k, Done)
    else WithCaller(w.(lock := None), k, if c.Refreshed? then Unlocked(c.updated) else Done)
  }

  predicate Finished(w: World, k: nat) {
    k in w.callers && (w.callers[k].Refreshed? || w.callers[k].Failed?)
  }

  predicate Presents(w: World, k: nat) {
    k in w.callers && (w.callers[k].Holding? || w.callers[k].Direct?)
  }

  predicate Waits(w: World, k: nat) {
    k in w.callers && w.callers[k].Waiting?
  }

  /** A step that is not enabled changes nothing. */
  function Do(w: World, s: Step): World {
    match s
    case LoginStep(r) => w.(issued := w.issued + {r}, live := w.live + {r})
    case BeginStep(k, r) => if k !in w.callers && r in w.issued then WithCaller(w, k, Waiting(r, 0)) else w
    case AcquireStep(k, serve) =>
      if Waits(w, k) && w.callers[k].attempts < MAX_ATTEMPTS then Acquire(w, k, w.callers[k], serve) else w
    case PresentStep(k, outcome) => if Presents(w, k) then Present(w, k, w.callers[k], outcome) else w
    case ReleaseStep(k) => if Finished(w, k) then Release(w, k, w.callers[k]) else w
    case UnreachableStep(k) => if Waits(w, k) then WithCaller(w, k, Direct(w.callers[k].creds)) else w
    case ExhaustStep(k) =>
      if Waits(w, k) && w.callers[k].attempts >= MAX_ATTEMPTS then WithCaller(w, k, Direct(w.callers[k].creds)) else w
    case LapseStep => w.(lock := None)
    case LostReleaseStep(k) => if Finished(w, k) then WithCaller(w, k, Done) else w
    case CheckStep(k) =>
      if Waits(w, k) && !CachedIsNewer(w, w.callers[k].creds)
      then WithCaller(w, k, Checked(w.callers[k].creds, w.callers[k].attempts)) else w
    case LockStep(k) =>
      if k in w.callers && w.callers[k].Checked? && w.lock.None?
      then WithCaller(w.(lock := Some(k)), k, Holding(w.callers[k].creds)) else w
    case UnlockStep(k) => if Finished(w, k) then Unlock(w, k, w.callers[k]) else w
    case StoreStep(k) =>
      if k in w.callers && w.callers[k].Unlocked?
      then WithCaller(w.(cached := Some(w.callers[k].updated)), k, Done) else w
  }

  function Run(w: World, steps: seq<Step>): World {
    if steps == [] then w else Do(Run(w, steps[..|steps| - 1]), steps[|steps| - 1])
  }

  /** Any accounts, all their tokens good, nobody refreshing yet. */
  predicate Initial(w: World) {
    w.issued <= w.live && w.cached.None? && w.lock.None? && w.callers == map[]
  }

  /**
   * The service answers, each of its two calls happening at once; releases land before their leases lapse, rotations
   * are heard of, nobody runs out of attempts.
   */
  predicate Orderly(s: Step) {
    match s
    case PresentStep(_, outcome) => !outcome.Lost?
    case LoginStep(_) => true
    case BeginStep(_, _) => true
    case AcquireStep(_, _) => true
    case ReleaseStep(_) => true
    case _ => false
  }

  /** A rotation in this step, if there is one, gives a strictly later expiry. */
  predicate Prolongs(w: World, s: Step) {
    s.PresentStep? && s.outcome.Rotated? && Presents(w, s.k) ==> s.outcome.expiresAt > w.callers[s.k].creds.expiresAt
  }

  predicate RotationsProlong(w: World, steps: seq<Step>) {
    steps == [] ||
    (RotationsProlong(w, steps[..|steps| - 1]) && Prolongs(Run(w, steps[..|steps| - 1]), steps[|steps| - 1]))
  }

  /** "Newer" ranks these records: of any third record, the newer is newer or the older is older. */
  ghost predicate Ranked(records: set<Record>) {
    forall a <- records, b <- records, c <- records ::
      CredentialsAreNewer(a, c) ==> CredentialsAreNewer(a, b) || CredentialsAreNewer(b, c)
  }

  /** It does when all of them carry a grant time, and when none does. */
  lemma UniformIsRanked(records: set<Record>)
    requires (forall r <- records :: Granted(r)) || (forall r <- records :: !Granted(r))
    ensures Ranked(records)
  {
  }

  predicate PresentsGood(w: World, s: Step) {
    s.PresentStep? && Presents(w, s.k) ==> w.callers[s.k].creds in w.live
  }

  /** Every token shown in the run was good when it was shown. */
  predicate OnlyGoodPresented(w: World, steps: seq<Step>) {
    steps == [] ||
    (OnlyGoodPresented(w, steps[..|steps| - 1]) && PresentsGood(Run(w, steps[..|steps| - 1]), steps[|steps| - 1]))
  }

  // What every orderly step keeps.

  /** The one caller that has the lock: its token is good, or what replaced it is about to be cached. */
  ghost predicate HolderFits(w: World) {
    w.lock.Some? ==>
      && w.lock.value in w.callers
      && match w.callers[w.lock.value]
         case Holding(creds) => creds in w.issued && creds in w.live && !CachedIsNewer(w, creds)
         case Refreshed(updated) => updated in w.issued && !CachedIsNewer(w, updated)
         case Failed => true
         case _ => false
  }

  /** A spent record is one the cache beats, or the one the holder has just replaced. */
  predicate Superseded(w: World, r: Record) {
    || CachedIsNewer(w, r)
    || (w.lock.Some? && w.lock.value in w.callers && w.callers[w.lock.value].Refreshed?
        && CredentialsAreNewer(w.callers[w.lock.value].updated, r))
  }

  ghost predicate CallersFit(w: World) {
    forall k <- w.callers ::
      match w.callers[k]
      case Waiting(creds, _) => creds in w.issued
      case Holding(_) => w.lock == Some(k)
      case Refreshed(_) => w.lock == Some(k)
      case Failed => w.lock == Some(k)
      case Done => true
      case _ => false
  }

  ghost predicate Fits(w: World) {
    && HolderFits(w)
    && (w.cached.Some? ==> w.cached.value in w.issued)
    && (forall r <- w.issued :: r in w.live || Superseded(w, r))
    && CallersFit(w)
  }

  lemma AcquireKeeps(w: World, k: nat, serve: bool)
    requires Fits(w) && Waits(w, k)
    ensures Fits(Acquire(w, k, w.callers[k], serve))
  {
    var v := Acquire(w, k, w.callers[k], serve);
    assert w.lock != Some(k);
    forall r | r in v.issued ensures r in v.live || Superseded(v, r) {
      assert r in w.live || Superseded(w, r);
    }
  }

  lemma PresentKeeps(w: World, k: nat, outcome: Outcome)
    requires Fits(w) && k in w.callers && w.callers[k].Holding? && !outcome.Lost?
    requires outcome.Rotated? ==> outcome.expiresAt > w.callers[k].creds.expiresAt
    ensures Fits(Present(w, k, w.callers[k], outcome))
  {
    var v := Present(w, k, w.callers[k], outcome);
    forall r | r in v.issued ensures r in v.live || Superseded(v, r) {
      if r in w.issued { assert r in w.live || CachedIsNewer(w, r); }
    }
  }

  lemma ReleaseKeeps(w: World, k: nat)
    requires Fits(w) && Finished(w, k) && Ranked(w.issued)
    ensures Fits(Release(w, k, w.callers[k]))
  {
    var c := w.callers[k];
    var v := Release(w, k, c);
    forall r | r in v.issued ensures r in v.live || Superseded(v, r) {
      assert r in w.live || Superseded(w, r);
      if c.Refreshed? && CachedIsNewer(w, r) {
        assert CredentialsAreNewer(w.cached.value, c.updated) || CredentialsAreNewer(c.updated, r);
      }
    }
  }

  lemma LoginKeeps(w: World, r: Record)
    requires Fits(w)
    ensures Fits(Do(w, LoginStep(r)))
  {
    var v := Do(w, LoginStep(r));
    forall q | q in v.issued ensures q in v.live || Superseded(v, q) {
      if q in w.issued { assert q in w.live || Superseded(w, q); }
    }
  }

  lemma BeginKeeps(w: World, k: nat, r: Record)
    requires Fits(w)
    ensures Fits(Do(w, BeginStep(k, r)))
  {
    var v := Do(w, BeginStep(k, r));
    forall q | q in v.issued ensures q in v.live || Superseded(v, q) {
      assert q in w.live || Superseded(w, q);
    }
  }

  lemma DoKeeps(w: World, s: Step)
    requires Fits(w) && Orderly(s) && Prolongs(w, s) && Ranked(w.issued)
    ensures Fits(Do(w, s)) && PresentsGood(w, s)
  {
    hide Ranked;
    match s
    case LoginStep(r) => LoginKeeps(w, r);
    case BeginStep(k, r) => BeginKeeps(w, k, r);
    case AcquireStep(k, serve) => if Waits(w, k) { AcquireKeeps(w, k, serve); }
    case PresentStep(k, outcome) => if Presents(w, k) { PresentKeeps(w, k, outcome); }
    case ReleaseStep(k) => if Finished(w, k) { ReleaseKeeps(w, k); }
  }

  lemma IssuedGrows(w: World, s: Step)
    ensures w.issued <= Do(w, s).issued
  {
  }

  lemma FewerAreRanked(some: set<Record>, all: set<Record>)
    requires some <= all && Ranked(all)
    ensures Ranked(some)
  {
  }

  /**
   * Every refresh shows a good refresh token: over every interleaving of logins and refreshes on any number of
   * instances, whichever of the records ever issued each starts from, as long as the service answers, releases land in
   * time, rotations are heard of and give a strictly later expiry, nobody runs out of attempts, and "newer" ranks the
   * records issued in the run.
   */
  lemma {:induction false} NoSpentTokenIsPresented(w: World, steps: seq<Step>)
    requires Initial(w) && (forall s <- steps :: Orderly(s)) && RotationsProlong(w, steps)
    requires Ranked(Run(w, steps).issued)
    ensures OnlyGoodPresented(w, steps) && Fits(Run(w, steps))
  {
    if steps != [] {
      var before, last := steps[..|steps| - 1], steps[|steps| - 1];
      IssuedGrows(Run(w, before), last);
      FewerAreRanked(Run(w, before).issued, Run(w, steps).issued);
      NoSpentTokenIsPresented(w, before);
      DoKeeps(Run(w, before), last);
    }
  }

  lemma RunOneMore(w: World, steps: seq<Step>, s: Step)
    ensures Run(w, steps + [s]) == Do(Run(w, steps), s)
    ensures OnlyGoodPresented(w, steps + [s]) ==> PresentsGood(Run(w, steps), s)
    ensures RotationsProlong(w, steps + [s]) <==> RotationsProlong(w, steps) && Prolongs(Run(w, steps), s)
  {
    assert (steps + [s])[..|steps|] == steps;
  }

  function WholeRefresh(k: nat, r: Record, expiresAt: int, token: nat): seq<Step> {
    [BeginStep(k, r), AcquireStep(k, true), PresentStep(k, Rotated(expiresAt, token)), ReleaseStep(k)]
  }

  /** A caller on its own, when nothing cached is newer, refreshes: its token is replaced, the result cached. */
  lemma RefreshedAlone(w: World, steps: seq<Step>, k: nat, r: Record, expiresAt: int, token: nat)
    requires var v := Run(w, steps); v.lock.None? && k !in v.callers && r in v.issued && !CachedIsNewer(v, r)
    ensures var v, q := Run(w, steps), Rotate(r, expiresAt, token);
            Run(w, steps + WholeRefresh(k, r, expiresAt, token)) ==
              World(v.issued + {q}, v.live - {r} + {q}, Some(q), None, v.callers[k := Done])
    ensures RotationsProlong(w, steps + WholeRefresh(k, r, expiresAt, token)) <==>
            RotationsProlong(w, steps) && expiresAt > r.expiresAt
  {
    var s := WholeRefresh(k, r, expiresAt, token);
    RunOneMore(w, steps, s[0]);
    RunOneMore(w, steps + [s[0]], s[1]);
    RunOneMore(w, steps + [s[0]] + [s[1]], s[2]);
    RunOneMore(w, steps + [s[0]] + [s[1]] + [s[2]], s[3]);
    assert steps + [s[0]] + [s[1]] + [s[2]] + [s[3]] == steps + s;
    AloneWorld(Run(w, steps), k, r, expiresAt, token);
  }

  lemma AloneWorld(v: World, k: nat, r: Record, expiresAt: int, token: nat)
    requires v.lock.None? && k !in v.callers && r in v.issued && !CachedIsNewer(v, r)
    ensures var s, q := WholeRefresh(k, r, expiresAt, token), Rotate(r, expiresAt, token);
            var v2 := Do(Do(v, s[0]), s[1]);
            && Presents(v2, k) && v2.callers[k].creds == r
            && Do(Do(v2, s[2]), s[3]) == World(v.issued + {q}, v.live - {r} + {q}, Some(q), None, v.callers[k := Done])
  {
    var s := WholeRefresh(k, r, expiresAt, token);
    assert Do(Do(Do(Do(v, s[0]), s[1]), s[2]), s[3]).callers == v.callers[k := Done];
  }

  // Adopting what a peer refreshed.

  /**
   * What an acquire does to its caller: handed newer credentials it is done with them, or goes on with nothing less;
   * else it goes on with its own, as the holder of a lock that was free, or waiting for one that was not.
   */
  predicate AcquireHeeds(w: World, s: Step) {
    s.AcquireStep? && Waits(w, s.k) && w.callers[s.k].attempts < MAX_ATTEMPTS ==>
      var was, v := w.callers[s.k], Do(w, s);
      && s.k in v.callers && v.cached == w.cached && v.live == w.live && v.issued == w.issued
      && (forall j <- w.callers :: j != s.k ==> j in v.callers && v.callers[j] == w.callers[j])
      && (v.callers[s.k].Waiting? ==> !CachedIsNewer(v, v.callers[s.k].creds)
                                      && v.callers[s.k].attempts == was.attempts + 1)
      && (v.callers[s.k].Holding? <==> w.lock.None? && !CachedIsNewer(w, was.creds))
      && (v.callers[s.k].Holding? ==> v.lock == Some(s.k) && v.callers[s.k].creds == was.creds)
      && (!v.callers[s.k].Holding? ==> v.lock == w.lock)
      && (v.callers[s.k].Waiting? ==>
            Some(v.callers[s.k].creds) == if CachedIsNewer(w, was.creds) then w.cached else Some(was.creds))
      && (v.callers[s.k].Done? <==> s.serve && CachedIsNewer(w, was.creds))
      && (v.callers[s.k].Done? || v.callers[s.k].Waiting? || v.callers[s.k].Holding?)
  }

  lemma NotNewerThanItself(r: Record)
    ensures !CredentialsAreNewer(r, r)
  {
  }

  lemma StepHeeds(w: World, s: Step)
    ensures AcquireHeeds(w, s)
  {
    if w.cached.Some? { NotNewerThanItself(w.cached.value); }
  }

  predicate AcquiresHeed(w: World, steps: seq<Step>) {
    steps == [] ||
    (AcquiresHeed(w, steps[..|steps| - 1]) && AcquireHeeds(Run(w, steps[..|steps| - 1]), steps[|steps| - 1]))
  }

  /**
   * Over every run, whatever else goes wrong in it: after each acquire a caller that was handed credentials no longer
   * holds any that the cache beats.
   */
  lemma {:induction false} AdoptedIsNotBeaten(w: World, steps: seq<Step>)
    ensures AcquiresHeed(w, steps)
  {
    hide AcquireHeeds;
    if steps != [] {
      AdoptedIsNotBeaten(w, steps[..|steps| - 1]);
      StepHeeds(Run(w, steps[..|steps| - 1]), steps[|steps| - 1]);
    }
  }

  function AdoptingRefresh(k: nat, r: Record, expiresAt: int, token: nat): seq<Step> {
    [BeginStep(k, r), AcquireStep(k, false), AcquireStep(k, true), PresentStep(k, Rotated(expiresAt, token)),
     ReleaseStep(k)]
  }

  /**
   * A caller on its own, with newer credentials cached that are near their end, refreshes those and never its own: the
   * cached token is replaced, its rotation cached.
   */
  lemma AdoptedAlone(w: World, steps: seq<Step>, k: nat, r: Record, expiresAt: int, token: nat)
    requires var v := Run(w, steps); v.lock.None? && k !in v.callers && r in v.issued && CachedIsNewer(v, r)
    ensures var v := Run(w, steps); var c := v.cached.value; var q := Rotate(c, expiresAt, token);
            Run(w, steps + AdoptingRefresh(k, r, expiresAt, token)) ==
              World(v.issued + {q}, v.live - {c} + {q}, Some(q), None, v.callers[k := Done])
  {
    var s := AdoptingRefresh(k, r, expiresAt, token);
    FiveSteps(k, r, expiresAt, token);
    hide AdoptingRefresh, Do, OnlyGoodPresented, RotationsProlong, Prolongs, PresentsGood;
    RunOneMore(w, steps, s[0]);
    RunOneMore(w, steps + [s[0]], s[1]);
    RunOneMore(w, steps + [s[0]] + [s[1]], s[2]);
    RunOneMore(w, steps + [s[0]] + [s[1]] + [s[2]], s[3]);
    RunOneMore(w, steps + [s[0]] + [s[1]] + [s[2]] + [s[3]], s[4]);
    assert steps + [s[0]] + [s[1]] + [s[2]] + [s[3]] + [s[4]] == steps + s;
    AdoptedWorld(Run(w, steps), k, r, expiresAt, token);
  }

  lemma FiveSteps(k: nat, r: Record, expiresAt: int, token: nat)
    ensures |AdoptingRefresh(k, r, expiresAt, token)| == 5
  {
  }

  lemma AdoptedWorld(v: World, k: nat, r: Record, expiresAt: int, token: nat)
    requires v.lock.None? && k !in v.callers && r in v.issued && CachedIsNewer(v, r)
    ensures var s, c := AdoptingRefresh(k, r, expiresAt, token), v.cached.value; var q := Rotate(c, expiresAt, token);
            Do(Do(Do(Do(Do(v, s[0]), s[1]), s[2]), s[3]), s[4])
            == World(v.issued + {q}, v.live - {c} + {q}, Some(q), None, v.callers[k := Done])
  {
    var s, c := AdoptingRefresh(k, r, expiresAt, token), v.cached.value;
    NotNewerThanItself(c);
    var v3 := Do(Do(Do(v, s[0]), s[1]), s[2]);
    assert v3 == v.(lock := Some(k), callers := v.callers[k := Holding(c)]);
    assert Do(Do(v3, s[3]), s[4]).callers == v.callers[k := Done];
  }

  // What a caller without the lock may do, and a service that answers in two commands.

  /** A release by a caller that does not hold the lock leaves the lock and the cached credentials alone. */
  lemma OnlyHolderReleases(w: World, k: nat)
    requires w.lock != Some(k)
    ensures var v := Do(w, ReleaseStep(k)); v.lock == w.lock && v.cached == w.cached && v.live == w.live
    ensures var v := Do(w, UnlockStep(k)); v.lock == w.lock && v.cached == w.cached && v.live == w.live
  {
  }

  /** A refresh without the lock rotates the token and is over: nothing is cached of it, and no lock is given up. */
  lemma DirectCachesNothing(w: World, k: nat, outcome: Outcome)
    requires k in w.callers && w.callers[k].Direct?
    ensures var v := Do(w, PresentStep(k, outcome));
            && v.callers[k].Done? && v.cached == w.cached && v.lock == w.lock
            && (outcome.Refused? ==> v.live == w.live && v.issued == w.issued)
            && (!outcome.Refused? ==>
                  var creds := w.callers[k].creds;
                  v.live == w.live - {creds} + {Record(creds.grantedAt, outcome.expiresAt, outcome.token)})
  {
  }

  /** Eight attempts, and no more: the ninth is a refresh without the lock, and none comes sooner. */
  lemma EightAttempts(w: World, k: nat, serve: bool)
    requires Waits(w, k)
    ensures w.callers[k].attempts >= 8 ==>
              Do(w, AcquireStep(k, serve)) == w && Do(w, ExhaustStep(k)).callers[k] == Direct(w.callers[k].creds)
    ensures w.callers[k].attempts < 8 ==>
              Do(w, ExhaustStep(k)) == w && Do(w, AcquireStep(k, serve)) != w
  {
    if w.callers[k].attempts < 8 { StepHeeds(w, AcquireStep(k, serve)); }
  }

  /** With nothing in between, the two commands of an acquire that takes the lock are that acquire. */
  lemma TwoCommandsAcquire(w: World, k: nat, serve: bool)
    requires Waits(w, k) && w.callers[k].attempts < MAX_ATTEMPTS
    ensures var v := Do(Do(w, CheckStep(k)), LockStep(k));
            && (v.callers[k].Holding? <==> Do(w, AcquireStep(k, serve)).callers[k].Holding?)
            && (v.callers[k].Holding? ==> v == Do(w, AcquireStep(k, serve)))
            && (!v.callers[k].Holding? ==> v.lock == w.lock)
  {
    var v := Do(Do(w, CheckStep(k)), LockStep(k));
    if v.callers[k].Holding? { assert v.callers == Do(w, AcquireStep(k, serve)).callers; }
  }

  /** And so are the two of a release. */
  lemma TwoCommandsRelease(w: World, k: nat)
    requires Finished(w, k)
    ensures Do(Do(w, UnlockStep(k)), StoreStep(k)) == Do(w, ReleaseStep(k))
  {
    var v := Do(Do(w, UnlockStep(k)), StoreStep(k));
    assert v.callers == w.callers[k := Done] == Do(w, ReleaseStep(k)).callers;
  }

  /** A login may be refreshed from then on, and takes nothing from anyone. */
  lemma LoginsCanBegin(w: World, k: nat, r: Record)
    requires k !in w.callers
    ensures var v := Do(Do(w, LoginStep(r)), BeginStep(k, r));
            && v.callers == w.callers[k := Waiting(r, 0)] && r in v.live && w.live <= v.live && w.issued <= v.issued
            && v.cached == w.cached && v.lock == w.lock
  {
  }

  /** A lost release ends the refresh and leaves the lock taken; a refresh still under way has none to lose. */
  lemma LostReleaseKeepsLock(w: World, k: nat)
    ensures var v := Do(w, LostReleaseStep(k));
            && v.lock == w.lock && v.cached == w.cached && v.live == w.live && v.issued == w.issued
            && (k in w.callers && (w.callers[k].Refreshed? || w.callers[k].Failed?) ==> v.callers[k].Done?)
            && (k !in w.callers || w.callers[k].Waiting? || w.callers[k].Holding? || w.callers[k].Direct? ==> v == w)
  {
  }
}
