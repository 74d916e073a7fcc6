/**
 * One ChatGPT seat on one instance: its file, which refreshes, logins, removals and the shared registry all
 * write, and the refreshes that are asked for it. A refresh spans awaits, so everything else may happen between
 * its request, its answer, the weighing of the answer against the file, and its end.
 */
module CodexSeats {
  import opened Options
  import opened Credentials

  const REFRESH_FAILURE_TTL_MS: int := 60_000
  const REFRESH_BUFFER_MS: int := 30 * 60 * 1000

  /** Credentials, and which login they descend from, which the code cannot see. */
  datatype Seat = Seat(login: nat, record: Record)

  /**
   * The file after a refresh that began from `before` answered `updated`: a file that has gone stays gone, one
   * that changed to another grant or to a later expiry stands, any other takes the answer.
   */
  function Commit(file: Option<Seat>, before: Seat, updated: Seat): Option<Seat> {
    if file.None? then None
    else
      var current := file.value.record;
      var changed := current.token != before.record.token;
      if changed && (current.grantedAt != before.record.grantedAt || CredentialsAreNewer(current, updated.record))
      then file else Some(updated)
  }

  /** A registry record is written unless a removal here came after the registry was read, or the file is as new. */
  predicate SavesShared(file: Option<Seat>, removal: Option<int>, creds: Seat, fetchedAt: int, removedAt: Option<int>) {
    && (removal.None? || removal.value < fetchedAt)
    && (file.None? || !GrantedAfter(file.value.record, removedAt)
          || CredentialsAreNewer(creds.record, file.value.record))
  }

  function RemoveShared(file: Option<Seat>, removedAt: int): Option<Seat> {
    if file.None? || GrantedAfter(file.value.record, Some(removedAt)) then file else None
  }

  datatype Refresh =
    | Requesting(before: Seat)
    | Answered(before: Seat, updated: Seat)
    | Settled(recovered: bool)   // committed, or the seat was gone
    | Over

  /** `retryAt` is when a remembered failure stops holding refreshes back; `requests` counts token requests sent. */
  datatype World = World(file: Option<Seat>, removal: Option<int>, retryAt: Option<int>, inflight: Option<nat>,
                         refreshes: map<nat, Refresh>, requests: nat, now: int)

  datatype Step =
    | FreshStep(k: nat, creds: Seat)                  // a request asks for fresh credentials
    | ForceStep(k: nat, creds: Seat)                  // the backend turned the token away
    | AnswerStep(k: nat, record: Record)              // the token endpoint answers
    | FailStep(k: nat)                                // or does not
    | CommitStep(k: nat)
    | EndStep(k: nat)
    | SaveStep(creds: Seat, fetchedAt: int, removedAt: Option<int>)
    | DropStep(since: int)
    | RemoveStep
    | LoginStep(seat: Seat)
    | Tick(ms: nat)

  predicate NeedsRefresh(creds: Seat, now: int) {
    now >= creds.record.expiresAt - REFRESH_BUFFER_MS
  }

  /** One in flight at a time, and a remembered failure short-circuits. */
  function RefreshNow(w: World, k: nat, creds: Seat): World {
    if k in w.refreshes || w.inflight.Some? || (w.retryAt.Some? && w.now < w.retryAt.value) then w
    else w.(refreshes := w.refreshes[k := Requesting(creds)], inflight := Some(k), requests := w.requests + 1)
  }

  function Do(w: World, s: Step): World {
    match s
    case FreshStep(k, creds) => if !NeedsRefresh(creds, w.now) then w.(retryAt := None) else RefreshNow(w, k, creds)
    case ForceStep(k, creds) => RefreshNow(w, k, creds)
    case AnswerStep(k, record) =>
      if k in w.refreshes && w.refreshes[k].Requesting? then
        var before := w.refreshes[k].before;
        w.(refreshes := w.refreshes[k := Answered(before,
            Seat(before.login, record.(grantedAt := before.record.grantedAt)))])
      else w
    case FailStep(k) =>
      if k in w.refreshes && w.refreshes[k].Requesting? then
        w.(refreshes := w.refreshes[k := Over], inflight := None, retryAt := Some(w.now + REFRESH_FAILURE_TTL_MS))
      else w
    case CommitStep(k) =>
      if k in w.refreshes && w.refreshes[k].Answered? then
        w.(file := Commit(w.file, w.refreshes[k].before, w.refreshes[k].updated),
           refreshes := w.refreshes[k := Settled(w.file.Some?)])
      else w
    case EndStep(k) =>
      if k in w.refreshes && w.refreshes[k].Settled? then
        w.(refreshes := w.refreshes[k := Over], inflight := None, retryAt := if w.refreshes[k].recovered then None
            else w.retryAt)
      else w
    case SaveStep(creds, fetchedAt, removedAt) =>
      if SavesShared(w.file, w.removal, creds, fetchedAt, removedAt) then w.(file := Some(creds), retryAt := None)
      else w
    case DropStep(since) =>
      var file := RemoveShared(w.file, since);
      w.(file := file, retryAt := if file == w.file then w.retryAt else None)
    case RemoveStep => if w.file.None? then w else w.(file := None, removal := Some(w.now), retryAt := None)
    case LoginStep(seat) =>
      w.(file := Some(Seat(seat.login, seat.record.(grantedAt := Some(w.now)))), retryAt := None)
    case Tick(ms) => w.(now := w.now + ms)
  }

  function Run(w: World, steps: seq<Step>): World {
    if steps == [] then w else Do(Run(w, steps[..|steps| - 1]), steps[|steps| - 1])
  }

  // The file never regresses.

  /**
   * Exactly when a refresh puts its own login over another one that took the seat meanwhile: when both were granted
   * in the same millisecond, or neither carries a grant time, and the other's expiry is no later than the answer's.
   */
  lemma CommitReplacesOtherIff(file: Option<Seat>, before: Seat, updated: Seat)
    requires file.Some? && file.value.login != before.login && file.value.record.token != before.record.token
    requires updated.login == before.login && updated.record.grantedAt == before.record.grantedAt
    ensures Commit(file, before, updated).value.login != file.value.login <==>
            file.value.record.grantedAt == before.record.grantedAt
                && file.value.record.expiresAt <= updated.record.expiresAt
  {
  }

  /**
   * What becomes of an answer: nothing is written where the file has gone; the file that still holds the token the
   * refresh began from takes it, whatever it expires at; under the same grant the later expiry stands, the answer's on
   * a tie; a file of another grant stands.
   */
  lemma AnswersLand(file: Option<Seat>, before: Seat, updated: Seat)
    requires updated.record.grantedAt == before.record.grantedAt
    ensures file.None? ==> Commit(file, before, updated) == None
    ensures file.Some? && file.value.record.token == before.record.token ==>
              Commit(file, before, updated) == Some(updated)
    ensures file.Some? && file.value.record.token != before.record.token ==>
              Commit(file, before, updated)
              == if file.value.record.grantedAt == before.record.grantedAt
                    && file.value.record.expiresAt <= updated.record.expiresAt
                 then Some(updated) else file
  {
  }

  /** The refresh of a seat left alone, as forced: from its request to its end. */
  function WholeRefresh(k: nat, creds: Seat, record: Record): seq<Step> {
    [ForceStep(k, creds), AnswerStep(k, record), CommitStep(k), EndStep(k)]
  }

  /** A refresh nothing gets in the way of leaves its answer in the file, under the old grant, and nothing held back. */
  lemma RefreshLands(w: World, k: nat, creds: Seat, record: Record)
    requires w.file == Some(creds) && k !in w.refreshes && w.inflight.None?
    requires w.retryAt.Some? ==> w.retryAt.value <= w.now
    ensures var v := Run(w, WholeRefresh(k, creds, record));
            && v.file == Some(Seat(creds.login, record.(grantedAt := creds.record.grantedAt)))
            && v.inflight.None? && v.retryAt.None? && v.requests == w.requests + 1
            && v.refreshes == w.refreshes[k := Over] && v.removal == w.removal && v.now == w.now
  {
    var s := WholeRefresh(k, creds, record);
    RunFour(w, s[0], s[1], s[2], s[3]);
    var v := Do(Do(w, s[0]), s[1]);
    assert v.refreshes[k] == Answered(creds, Seat(creds.login, record.(grantedAt := creds.record.grantedAt)));
    assert Do(Do(v, s[2]), s[3]).refreshes == w.refreshes[k := Over];
  }

  lemma RunFour(w: World, a: Step, b: Step, c: Step, d: Step)
    ensures Run(w, [a, b, c, d]) == Do(Do(Do(Do(w, a), b), c), d)
  {
    hide Do;
    assert [a, b, c, d][..3] == [a, b, c] && [a, b, c][..2] == [a, b] && [a, b][..1] == [a] && [a][..0] == [];
    assert Run(w, [a]) == Do(w, a);
    assert Run(w, [a, b]) == Do(Do(w, a), b);
    assert Run(w, [a, b, c]) == Do(Do(Do(w, a), b), c);
  }

  /** A request that finds credentials with over 30 minutes left sends nothing; any other is as if it were forced. */
  lemma FreshSendsNothing(w: World, k: nat, creds: Seat)
    ensures w.now < creds.record.expiresAt - 1_800_000 ==> Do(w, FreshStep(k, creds)) == w.(retryAt := None)
    ensures w.now >= creds.record.expiresAt - 1_800_000 ==> Do(w, FreshStep(k, creds)) == Do(w, ForceStep(k, creds))
  {
  }

  /**
   * A removal in the registry takes the file unless a login came after it, and nothing else of the seat; a removal here
   * is remembered at its time, and only when there was a file.
   */
  lemma RemovalsTake(w: World, since: int)
    ensures var v := Do(w, DropStep(since));
            && (v.file.None? <==> w.file.None? || !GrantedAfter(w.file.value.record, Some(since)))
            && (v.file.Some? || w.file.None? ==> v == w) && (v != w ==> v.retryAt.None?)
            && v.removal == w.removal && v.refreshes == w.refreshes && v.requests == w.requests
    ensures var v := Do(w, RemoveStep);
            && v.file.None? && v.removal == (if w.file.Some? then Some(w.now) else w.removal)
            && (w.file.None? ==> v == w) && (w.file.Some? ==> v.retryAt.None?) && v.refreshes == w.refreshes
  {
  }

  /**
   * A registry record reaches the file when it is newer than what is there, or that has been removed since, unless it
   * was listed before a removal here.
   */
  lemma SavesReach(w: World, creds: Seat, fetchedAt: int, removedAt: Option<int>)
    ensures var v := Do(w, SaveStep(creds, fetchedAt, removedAt));
            && (w.removal.Some? && fetchedAt <= w.removal.value ==> v == w)
            && (w.removal.None? || w.removal.value < fetchedAt ==>
                  && (w.file.None? ==> v.file == Some(creds))
                  && (w.file.Some? && CredentialsAreNewer(creds.record, w.file.value.record) ==> v.file == Some(creds))
                  && (w.file.Some? && !GrantedAfter(w.file.value.record, removedAt) ==> v.file == Some(creds))
                  && (w.file.Some? && GrantedAfter(w.file.value.record, removedAt) ==>
                        CredentialsAreNewer(creds.record, w.file.value.record) || v == w))
            && (v != w ==> v.retryAt.None? && v.removal == w.removal && v.refreshes == w.refreshes)
  {
  }

  /** A login takes the seat under a grant of this moment, whatever was there, and holds nothing back. */
  lemma LoginsTake(w: World, seat: Seat, ms: nat)
    ensures var v := Do(w, LoginStep(seat));
            && v.file.Some? && v.file.value.login == seat.login && v.file.value.record.token == seat.record.token
            && v.file.value.record.expiresAt == seat.record.expiresAt
            && v.file.value.record.grantedAt == Some(w.now) && v.retryAt.None?
            && v.refreshes == w.refreshes && v.removal == w.removal && v.inflight == w.inflight
    ensures Do(w, Tick(ms)) == w.(now := w.now + ms)
  {
  }

  /**
   * The end of a refresh frees the seat for the next; it forgets the failure when there was still a file, and leaves it
   * when the seat had gone.
   */
  lemma EndsFree(w: World, k: nat)
    requires k in w.refreshes && w.refreshes[k].Settled?
    ensures var v := Do(w, EndStep(k));
            && v.inflight.None? && v.refreshes[k].Over? && v.file == w.file
            && v.retryAt == if w.refreshes[k].recovered then None else w.retryAt
  {
  }

  /** Two logins in the same millisecond are one to the code: the refresh of the first overwrites the second. */
  lemma SameMillisecondLoses()
    ensures var first, second := Seat(1, Record(Some(5), 10, 100)), Seat(2, Record(Some(5), 10, 200));
            Commit(Some(second), first, Seat(1, Record(Some(5), 20, 300))) == Some(Seat(1, Record(Some(5), 20, 300)))
  {
  }

  /** A file with at least as late a grant as before, if it had one, or gone. */
  predicate NoEarlier(before: Option<Seat>, after: Option<Seat>) {
    before.Some? && after.Some? && Granted(before.value.record) ==>
      Granted(after.value.record) && after.value.record.grantedAt.value >= before.value.record.grantedAt.value
  }

  /** Which grant, if it is known, a token was issued under: no token is issued twice. */
  type Family = nat -> Option<int>

  predicate SeatFits(f: Family, seat: Seat, now: int) {
    var grant := f(seat.record.token);
    seat.record.grantedAt == grant && (grant.Some? ==> grant.value <= now)
  }

  predicate RefreshFits(f: Family, r: Refresh, now: int) {
    match r
    case Requesting(before) => SeatFits(f, before, now)
    case Answered(before, updated) =>
      SeatFits(f, before, now) && SeatFits(f, updated, now) && updated.record.grantedAt == before.record.grantedAt
    case _ => true
  }

  /** Every known grant is a time that has passed, and every token belongs to its grant. */
  ghost predicate GrantsFit(f: Family, w: World) {
    && (w.file.Some? ==> SeatFits(f, w.file.value, w.now))
    && forall k <- w.refreshes :: RefreshFits(f, w.refreshes[k], w.now)
  }

  /**
   * What comes in: callers hold records of past grants, or of unknown ones, answers are tokens of the grant they were
   * asked for, a login brings a token of its own, and a sync saves only what outlives the removal it knows of.
   */
  predicate StepFits(f: Family, w: World, s: Step) {
    match s
    case FreshStep(_, creds) => SeatFits(f, creds, w.now)
    case ForceStep(_, creds) => SeatFits(f, creds, w.now)
    case AnswerStep(k, record) =>
      k in w.refreshes && w.refreshes[k].Requesting? ==> f(record.token) == f(w.refreshes[k].before.record.token)
    case SaveStep(creds, _, removedAt) => SeatFits(f, creds, w.now) && GrantedAfter(creds.record, removedAt)
    case LoginStep(seat) => f(seat.record.token) == Some(w.now)
    case _ => true
  }

  /** A registry record without a grant time and with a later expiry, saved over a file that has one. */
  predicate DropsGrant(w: World, s: Step) {
    && s.SaveStep? && (w.removal.None? || w.removal.value < s.fetchedAt)
    && !Granted(s.creds.record)
    && w.file.Some? && Granted(w.file.value.record) && s.creds.record.expiresAt > w.file.value.record.expiresAt
  }

  lemma DoKeepsGrants(f: Family, w: World, s: Step)
    requires GrantsFit(f, w) && StepFits(f, w, s)
    ensures GrantsFit(f, Do(w, s))
  {
    var v := Do(w, s);
    forall k | k in v.refreshes ensures RefreshFits(f, v.refreshes[k], v.now) {
      assert k in w.refreshes ==> RefreshFits(f, w.refreshes[k], w.now);
    }
  }

  /** Exactly one kind of step ever takes the file's grant back. */
  lemma StepGoesBackIff(f: Family, w: World, s: Step)
    requires GrantsFit(f, w) && StepFits(f, w, s)
    ensures NoEarlier(w.file, Do(w, s).file) <==> !DropsGrant(w, s)
  {
    if s.CommitStep? && s.k in w.refreshes && w.refreshes[s.k].Answered? {
      assert RefreshFits(f, w.refreshes[s.k], w.now);
    }
  }

  predicate RunFits(f: Family, w: World, steps: seq<Step>) {
    steps == [] || (RunFits(f, w, steps[..|steps| - 1])
        && StepFits(f, Run(w, steps[..|steps| - 1]), steps[|steps| - 1]))
  }

  /** The file was there all along the run. */
  predicate NeverGone(w: World, steps: seq<Step>) {
    Run(w, steps).file.Some? && (steps == [] || NeverGone(w, steps[..|steps| - 1]))
  }

  predicate NeverEarlier(w: World, steps: seq<Step>) {
    steps == []
    || (NeverEarlier(w, steps[..|steps| - 1])
        && NoEarlier(Run(w, steps[..|steps| - 1]).file, Run(w, steps).file))
  }

  predicate DropsNoGrant(w: World, steps: seq<Step>) {
    steps == []
    || (DropsNoGrant(w, steps[..|steps| - 1]) && !DropsGrant(Run(w, steps[..|steps| - 1]), steps[|steps| - 1]))
  }

  /**
   * Over every interleaving of refreshes, registry saves and removals, local removals and logins: no step takes the
   * file's grant back, exactly when no registry record without a grant time is saved over one that has it.
   */
  lemma {:induction false} GrantsGoBackIff(f: Family, w: World, steps: seq<Step>)
    requires GrantsFit(f, w) && RunFits(f, w, steps)
    ensures GrantsFit(f, Run(w, steps))
    ensures NeverEarlier(w, steps) <==> DropsNoGrant(w, steps)
  {
    hide Do, GrantsFit, StepFits, DropsGrant, NoEarlier;
    if steps != [] {
      var before := steps[..|steps| - 1];
      GrantsGoBackIff(f, w, before);
      DoKeepsGrants(f, Run(w, before), steps[|steps| - 1]);
      StepGoesBackIff(f, Run(w, before), steps[|steps| - 1]);
    }
  }

  /** So the file's grant time never goes backwards until the file is removed. */
  lemma {:induction false} GrantsNeverGoBack(f: Family, w: World, steps: seq<Step>)
    requires GrantsFit(f, w) && RunFits(f, w, steps) && NeverGone(w, steps) && DropsNoGrant(w, steps)
    ensures NoEarlier(w.file, Run(w, steps).file)
  {
    GrantsGoBackIff(f, w, steps);
    EarlierAddsUp(w, steps);
  }

  lemma {:induction false} EarlierAddsUp(w: World, steps: seq<Step>)
    requires NeverEarlier(w, steps) && NeverGone(w, steps)
    ensures NoEarlier(w.file, Run(w, steps).file)
  {
    hide Do;
    if steps != [] { EarlierAddsUp(w, steps[..|steps| - 1]); }
  }

  /** The kind of run it excludes: the seat logged in at 5 is, after one sync, a seat nobody knows the grant of. */
  lemma UngrantedSaveLosesGrant()
    ensures var file, creds := Seat(1, Record(Some(5), 10, 100)), Seat(2, Record(None, 20, 200));
            var w := World(Some(file), None, None, None, map[], 0, 9);
            var f: Family := token => if token == 100 then Some(5) else None;
            && GrantsFit(f, w) && RunFits(f, w, [SaveStep(creds, 8, None)])
            && Run(w, [SaveStep(creds, 8, None)]).file == Some(creds)
            && !NoEarlier(w.file, Run(w, [SaveStep(creds, 8, None)]).file)
  {
    var file, creds := Seat(1, Record(Some(5), 10, 100)), Seat(2, Record(None, 20, 200));
    var w := World(Some(file), None, None, None, map[], 0, 9);
    var f: Family := token => if token == 100 then Some(5) else None;
    var steps := [SaveStep(creds, 8, None)];
    assert steps[..0] == [] && RunFits(f, w, []) && Run(w, []) == w;
    assert SeatFits(f, creds, 9) && StepFits(f, w, steps[0]);
  }

  // A refresh never replaces a different login.

  /** Which login was granted at a time, or at none that is known: no two share one, and at most one lacks one. */
  type Logins = Option<int> -> nat

  predicate SeatNamed(l: Logins, seat: Seat) {
    seat.login == l(seat.record.grantedAt)
  }

  predicate RefreshNamed(l: Logins, r: Refresh) {
    match r
    case Requesting(before) => SeatNamed(l, before)
    case Answered(before, updated) => SeatNamed(l, before) && SeatNamed(l, updated)
    case _ => true
  }

  ghost predicate LoginsFit(l: Logins, w: World) {
    (w.file.Some? ==> SeatNamed(l, w.file.value)) && forall k <- w.refreshes :: RefreshNamed(l, w.refreshes[k])
  }

  predicate StepNamed(l: Logins, w: World, s: Step) {
    match s
    case FreshStep(_, creds) => SeatNamed(l, creds)
    case ForceStep(_, creds) => SeatNamed(l, creds)
    case SaveStep(creds, _, _) => SeatNamed(l, creds)
    case LoginStep(seat) => seat.login == l(Some(w.now))
    case _ => true
  }

  /** A refresh that ends in this step leaves the seat to the login that holds it. */
  predicate KeepsLogin(w: World, s: Step) {
    s.CommitStep? && w.file.Some? ==> Do(w, s).file.Some? && Do(w, s).file.value.login == w.file.value.login
  }

  lemma DoKeepsLogins(f: Family, l: Logins, w: World, s: Step)
    requires GrantsFit(f, w) && LoginsFit(l, w) && StepNamed(l, w, s)
    ensures LoginsFit(l, Do(w, s)) && KeepsLogin(w, s)
  {
    var v := Do(w, s);
    forall k | k in v.refreshes ensures RefreshNamed(l, v.refreshes[k]) {
      assert k in w.refreshes ==> RefreshNamed(l, w.refreshes[k]);
    }
    if s.CommitStep? && s.k in w.refreshes && w.refreshes[s.k].Answered? {
      assert RefreshFits(f, w.refreshes[s.k], w.now) && RefreshNamed(l, w.refreshes[s.k]);
    }
  }

  predicate RunNamed(l: Logins, w: World, steps: seq<Step>) {
    steps == [] || (RunNamed(l, w, steps[..|steps| - 1])
        && StepNamed(l, Run(w, steps[..|steps| - 1]), steps[|steps| - 1]))
  }

  predicate RunKeepsLogin(w: World, steps: seq<Step>) {
    steps == [] || (RunKeepsLogin(w, steps[..|steps| - 1])
        && KeepsLogin(Run(w, steps[..|steps| - 1]), steps[|steps| - 1]))
  }

  /**
   * Over every interleaving, as long as no two logins are granted in the same millisecond and at most one carries no
   * grant time, no refresh in the run ever replaces a login other than the one it refreshed, nor removes the file.
   */
  lemma {:induction false} RefreshesKeepLogins(f: Family, l: Logins, w: World, steps: seq<Step>)
    requires GrantsFit(f, w) && LoginsFit(l, w) && RunFits(f, w, steps) && RunNamed(l, w, steps)
    ensures GrantsFit(f, Run(w, steps)) && LoginsFit(l, Run(w, steps)) && RunKeepsLogin(w, steps)
  {
    hide Do, GrantsFit, LoginsFit, KeepsLogin;
    if steps != [] {
      var before := steps[..|steps| - 1];
      RefreshesKeepLogins(f, l, w, before);
      DoKeepsGrants(f, Run(w, before), steps[|steps| - 1]);
      DoKeepsLogins(f, l, Run(w, before), steps[|steps| - 1]);
    }
  }

  predicate Writes(s: Step) {
    s.SaveStep? || s.LoginStep?
  }

  /** A refresh never recreates an absent file: without a login or a registry save, one that is gone stays gone. */
  lemma {:induction false} GoneStaysGone(w: World, steps: seq<Step>)
    requires w.file.None? && forall s <- steps :: !Writes(s)
    ensures Run(w, steps).file.None?
  {
    if steps != [] {
      GoneStaysGone(w, steps[..|steps| - 1]);
      assert !Writes(steps[|steps| - 1]);
    }
  }

  // The token endpoint is not stormed.

  predicate Active(r: Refresh) {
    r.Requesting? || r.Answered? || r.Settled?
  }

  /** The refresh in flight is the only one that has not ended. */
  ghost predicate OneInFlight(w: World) {
    forall k <- w.refreshes :: Active(w.refreshes[k]) <==> w.inflight == Some(k)
  }

  lemma DoKeepsOneInFlight(w: World, s: Step)
    requires OneInFlight(w)
    ensures OneInFlight(Do(w, s))
  {
  }

  lemma {:induction false} AtMostOneInFlight(w: World, steps: seq<Step>, j: nat, k: nat)
    requires w.refreshes == map[]
    ensures var v := Run(w, steps);
            j in v.refreshes && k in v.refreshes && Active(v.refreshes[j]) && Active(v.refreshes[k]) ==> j == k
  {
    RunKeepsOneInFlight(w, steps);
  }

  lemma {:induction false} RunKeepsOneInFlight(w: World, steps: seq<Step>)
    requires OneInFlight(w)
    ensures OneInFlight(Run(w, steps))
  {
    hide OneInFlight;
    if steps != [] {
      RunKeepsOneInFlight(w, steps[..|steps| - 1]);
      DoKeepsOneInFlight(Run(w, steps[..|steps| - 1]), steps[|steps| - 1]);
    }
  }

  /** The steps that say the remembered failure no longer counts: new credentials, none at all, or fresh ones found. */
  predicate Clears(w: World, s: Step) {
    || (s.FreshStep? && !NeedsRefresh(s.creds, w.now))
    || (s.SaveStep? && SavesShared(w.file, w.removal, s.creds, s.fetchedAt, s.removedAt))
    || (s.DropStep? && RemoveShared(w.file, s.since) != w.file)
    || (s.RemoveStep? && w.file.Some?)
    || s.LoginStep?
  }

  predicate NothingClears(w: World, steps: seq<Step>) {
    steps == [] || (NothingClears(w, steps[..|steps| - 1]) && !Clears(Run(w, steps[..|steps| - 1]), steps[|steps| - 1]))
  }

  lemma DoKeepsCool(w: World, s: Step, until: int)
    requires OneInFlight(w) && w.inflight.None? && w.retryAt == Some(until) && !Clears(w, s) && w.now < until
    ensures Do(w, s).inflight.None? && Do(w, s).retryAt == Some(until) && Do(w, s).requests == w.requests
  {
  }

  /**
   * After a failed request, however many callers ask and whether or not they force it, no request starts for
   * 60 seconds, unless the seat's credentials are replaced, removed or found fresh.
   */
  lemma {:induction false} FailureCoolsDown(w: World, k: nat, steps: seq<Step>)
    requires OneInFlight(w) && k in w.refreshes && w.refreshes[k].Requesting?
    requires var failed := Do(w, FailStep(k));
             NothingClears(failed, steps) && Run(failed, steps).now < w.now + 60_000
    ensures Run(Do(w, FailStep(k)), steps).requests == w.requests
  {
    DoKeepsOneInFlight(w, FailStep(k));
    StaysCool(Do(w, FailStep(k)), steps, w.now + REFRESH_FAILURE_TTL_MS);
  }

  lemma {:induction false} StaysCool(w: World, steps: seq<Step>, until: int)
    requires OneInFlight(w) && w.inflight.None? && w.retryAt == Some(until)
    requires NothingClears(w, steps) && Run(w, steps).now < until
    ensures var v := Run(w, steps);
            OneInFlight(v) && v.inflight.None? && v.retryAt == Some(until) && v.requests == w.requests
  {
    if steps != [] {
      var before, last := steps[..|steps| - 1], steps[|steps| - 1];
      TimePasses(Run(w, before), last);
      StaysCool(w, before, until);
      DoKeepsOneInFlight(Run(w, before), last);
      DoKeepsCool(Run(w, before), last, until);
    }
  }

  lemma TimePasses(w: World, s: Step)
    ensures Do(w, s).now >= w.now
  {
  }
}
