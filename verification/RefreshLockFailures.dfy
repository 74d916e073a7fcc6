/**
 * Why each condition on the refresh lock is there: for every one of them, a run that meets all the others and still
 * shows a spent token.
 */
module RefreshLockFailures {
  import opened Options
  import opened Credentials
  import opened RefreshLock

  const OLD := Record(Some(1), 10, 0)
  const NEW := Record(Some(1), 20, 1)
  const EARLIER := Record(Some(1), 5, 1)

  /** One account with one record. */
  function Start(): World {
    World({OLD}, {OLD}, None, None, map[])
  }

  /** What two callers have made of it. */
  function Two(issued: set<Record>, live: set<Record>, cached: Option<Record>, lock: Option<nat>, a: Caller, b: Caller)
    : World
  {
    World(issued, live, cached, lock, map[0 := a, 1 := b])
  }

  /** The run has led here, every rotation in it giving a later expiry. */
  ghost predicate At(steps: seq<Step>, w: World) {
    Run(Start(), steps) == w && RotationsProlong(Start(), steps)
  }

  lemma Goes(steps: seq<Step>, w: World, s: Step, v: World)
    requires At(steps, w) && Do(w, s) == v && Prolongs(w, s)
    ensures At(steps + [s], v)
  {
    RunOneMore(Start(), steps, s);
  }

  /** A spent token is shown, though newer ranks the records and every rotation gives a later expiry. */
  ghost predicate Fails(w: World, steps: seq<Step>) {
    && Initial(w) && !OnlyGoodPresented(w, steps)
    && Ranked(Run(w, steps).issued) && RotationsProlong(w, steps)
  }

  /** Once a caller has a spent token in its hands, the run goes on to show it. */
  lemma SpentIsShown(steps: seq<Step>, w: World, k: nat)
    requires At(steps, w) && Presents(w, k) && w.callers[k].creds !in w.live && Ranked(w.issued)
    ensures Fails(Start(), steps + [PresentStep(k, Refused)])
  {
    hide Ranked;
    RunOneMore(Start(), steps, PresentStep(k, Refused));
  }

  lemma ThreeAreRanked()
    ensures Ranked({OLD, NEW}) && Ranked({OLD}) && Ranked({OLD, EARLIER})
  {
  }

  /** Two callers about to refresh the record. */
  lemma BothWait() returns (steps: seq<Step>)
    ensures At(steps, Two({OLD}, {OLD}, None, None, Waiting(OLD, 0), Waiting(OLD, 0)))
    ensures steps == [BeginStep(0, OLD), BeginStep(1, OLD)]
  {
    var w1 := World({OLD}, {OLD}, None, None, map[0 := Waiting(OLD, 0)]);
    assert At([], Start()) && Do(Start(), BeginStep(0, OLD)) == w1;
    assert Do(w1, BeginStep(1, OLD)) == Two({OLD}, {OLD}, None, None, Waiting(OLD, 0), Waiting(OLD, 0));
    hide At, Do;
    Goes([], Start(), BeginStep(0, OLD), w1);
    Goes([] + [BeginStep(0, OLD)], w1, BeginStep(1, OLD),
        Two({OLD}, {OLD}, None, None, Waiting(OLD, 0), Waiting(OLD, 0)));
    steps := [] + [BeginStep(0, OLD)] + [BeginStep(1, OLD)];
  }

  // Single steps of the first caller, then of the second, with whatever the other is doing.

  lemma FirstAcquires(b: Caller)
    ensures var w := Two({OLD}, {OLD}, None, None, Waiting(OLD, 0), b);
            Do(w, AcquireStep(0, true)) == Two({OLD}, {OLD}, None, Some(0), Holding(OLD), b)
  {
  }

  lemma FirstRotates(expiresAt: int, b: Caller)
    ensures var w := Two({OLD}, {OLD}, None, Some(0), Holding(OLD), b);
            var q := Record(Some(1), expiresAt, 1);
            && Do(w, PresentStep(0, Rotated(expiresAt, 1))) == Two({OLD, q}, {q}, None, Some(0), Refreshed(q), b)
            && (expiresAt > 10 ==> Prolongs(w, PresentStep(0, Rotated(expiresAt, 1))))
  {
  }

  lemma FirstReleases(q: Record, b: Caller)
    ensures var w := Two({OLD, q}, {q}, None, Some(0), Refreshed(q), b);
            && Do(w, ReleaseStep(0)) == Two({OLD, q}, {q}, Some(q), None, Done, b)
            && Do(w, UnlockStep(0)) == Two({OLD, q}, {q}, None, None, Unlocked(q), b)
            && Do(w, LostReleaseStep(0)) == Two({OLD, q}, {q}, None, Some(0), Done, b)
  {
  }

  lemma SecondAcquires(issued: set<Record>, live: set<Record>, cached: Option<Record>, a: Caller)
    requires cached.Some? ==> !CredentialsAreNewer(cached.value, OLD)
    ensures var w := Two(issued, live, cached, None, a, Waiting(OLD, 0));
            var v := Two(issued, live, cached, Some(1), a, Holding(OLD));
            Do(w, AcquireStep(1, true)) == v && Presents(v, 1) && v.callers[1].creds == OLD
  {
  }

  /** The first caller acquires and refreshes. */
  lemma FirstRefreshes(before: seq<Step>, b: Caller) returns (steps: seq<Step>)
    requires At(before, Two({OLD}, {OLD}, None, None, Waiting(OLD, 0), b))
    ensures steps == before + [AcquireStep(0, true)] + [PresentStep(0, Rotated(20, 1))]
    ensures At(steps, Two({OLD, NEW}, {NEW}, None, Some(0), Refreshed(NEW), b))
  {
    hide At, Do, Two;
    FirstAcquires(b);
    FirstRotates(20, b);
    var w1 := Two({OLD}, {OLD}, None, Some(0), Holding(OLD), b);
    Goes(before, Two({OLD}, {OLD}, None, None, Waiting(OLD, 0), b), AcquireStep(0, true), w1);
    var w2 := Two({OLD, NEW}, {NEW}, None, Some(0), Refreshed(NEW), b);
    Goes(before + [AcquireStep(0, true)], w1, PresentStep(0, Rotated(20, 1)), w2);
    steps := before + [AcquireStep(0, true)] + [PresentStep(0, Rotated(20, 1))];
  }

  /** The second caller acquires while nothing newer is cached, and shows what it holds. */
  lemma SecondShows(before: seq<Step>, issued: set<Record>, live: set<Record>, cached: Option<Record>, a: Caller)
    returns (steps: seq<Step>)
    requires At(before, Two(issued, live, cached, None, a, Waiting(OLD, 0))) && OLD !in live && Ranked(issued)
    requires cached.Some? ==> !CredentialsAreNewer(cached.value, OLD)
    ensures steps == before + [AcquireStep(1, true)] + [PresentStep(1, Refused)]
    ensures Fails(Start(), steps)
  {
    var w, v := Two(issued, live, cached, None, a, Waiting(OLD, 0)),
        Two(issued, live, cached, Some(1), a, Holding(OLD));
    assert v.live == live && v.issued == issued;
    hide At, Do, Two, Ranked, Fails;
    SecondAcquires(issued, live, cached, a);
    Goes(before, w, AcquireStep(1, true), v);
    SpentIsShown(before + [AcquireStep(1, true)], v, 1);
    steps := before + [AcquireStep(1, true)] + [PresentStep(1, Refused)];
  }

  /**
   * A service that reads its cache in one command and takes its lock in another lets a spent token through: a whole
   * refresh by a peer fits between the two.
   */
  lemma TwoCommandAcquireFails() returns (steps: seq<Step>)
    ensures Fails(Start(), steps) && forall s <- steps :: Orderly(s) || s.CheckStep? || s.LockStep?
  {
    var b := Checked(OLD, 0);
    var w0 := Two({OLD}, {OLD}, None, None, Waiting(OLD, 0), Waiting(OLD, 0));
    var w1 := Two({OLD}, {OLD}, None, None, Waiting(OLD, 0), b);
    var w3 := Two({OLD, NEW}, {NEW}, None, Some(0), Refreshed(NEW), b);
    var w4 := Two({OLD, NEW}, {NEW}, Some(NEW), None, Done, b);
    var w5 := Two({OLD, NEW}, {NEW}, Some(NEW), Some(1), Done, Holding(OLD));
    assert Do(w0, CheckStep(1)) == w1 && Do(w4, LockStep(1)) == w5;
    assert Presents(w5, 1) && w5.callers[1].creds !in w5.live;
    ThreeAreRanked();
    FirstReleases(NEW, b);
    hide At, Do, Two, Ranked, Fails;
    steps := BothWait();
    Goes(steps, w0, CheckStep(1), w1);
    steps := FirstRefreshes(steps + [CheckStep(1)], b);
    Goes(steps, w3, ReleaseStep(0), w4);
    Goes(steps + [ReleaseStep(0)], w4, LockStep(1), w5);
    SpentIsShown(steps + [ReleaseStep(0)] + [LockStep(1)], w5, 1);
    steps := steps + [ReleaseStep(0)] + [LockStep(1)] + [PresentStep(1, Refused)];
  }

  /** So does one that gives up its lock in one command and caches in another: a peer acquires between the two. */
  lemma TwoCommandReleaseFails() returns (steps: seq<Step>)
    ensures Fails(Start(), steps) && forall s <- steps :: Orderly(s) || s.UnlockStep? || s.StoreStep?
  {
    var b := Waiting(OLD, 0);
    ThreeAreRanked();
    FirstReleases(NEW, b);
    hide At, Do, Two, Ranked, Fails;
    steps := BothWait();
    steps := FirstRefreshes(steps, b);
    Goes(steps, Two({OLD, NEW}, {NEW}, None, Some(0), Refreshed(NEW), b), UnlockStep(0),
         Two({OLD, NEW}, {NEW}, None, None, Unlocked(NEW), b));
    steps := SecondShows(steps + [UnlockStep(0)], {OLD, NEW}, {NEW}, None, Unlocked(NEW));
  }

  /** A lease that runs out between a refresh and its release lets the next caller show the token just spent. */
  lemma LapsedLeaseFails() returns (steps: seq<Step>)
    ensures Fails(Start(), steps) && forall s <- steps :: Orderly(s) || s.LapseStep?
  {
    var b := Waiting(OLD, 0);
    var w2 := Two({OLD, NEW}, {NEW}, None, Some(0), Refreshed(NEW), b);
    var w3 := Two({OLD, NEW}, {NEW}, None, None, Refreshed(NEW), b);
    assert Do(w2, LapseStep) == w3;
    ThreeAreRanked();
    hide At, Do, Two, Ranked, Fails;
    steps := BothWait();
    steps := FirstRefreshes(steps, b);
    Goes(steps, w2, LapseStep, w3);
    steps := SecondShows(steps + [LapseStep], {OLD, NEW}, {NEW}, None, Refreshed(NEW));
  }

  /** A release that never arrives leaves the lock to its lease, and the refresh unknown to the next caller. */
  lemma LostReleaseFails() returns (steps: seq<Step>)
    ensures Fails(Start(), steps) && forall s <- steps :: Orderly(s) || s.LostReleaseStep? || s.LapseStep?
  {
    var b := Waiting(OLD, 0);
    var w3 := Two({OLD, NEW}, {NEW}, None, Some(0), Done, b);
    var w4 := Two({OLD, NEW}, {NEW}, None, None, Done, b);
    assert Do(w3, LapseStep) == w4;
    ThreeAreRanked();
    FirstReleases(NEW, b);
    hide At, Do, Two, Ranked, Fails;
    steps := BothWait();
    steps := FirstRefreshes(steps, b);
    Goes(steps, Two({OLD, NEW}, {NEW}, None, Some(0), Refreshed(NEW), b), LostReleaseStep(0), w3);
    Goes(steps + [LostReleaseStep(0)], w3, LapseStep, w4);
    steps := SecondShows(steps + [LostReleaseStep(0)] + [LapseStep], {OLD, NEW}, {NEW}, None, Done);
  }

  lemma FirstLoses(b: Caller)
    ensures var w := Two({OLD}, {NEW}, None, Some(0), Failed, b);
            && Do(Two({OLD}, {OLD}, None, Some(0), Holding(OLD), b), PresentStep(0, Lost(20, 1))) == w
            && Do(w, ReleaseStep(0)) == Two({OLD}, {NEW}, None, None, Done, b)
  {
  }

  /** A rotation that is never heard of leaves everyone with the token it spent. */
  lemma LostRotationFails() returns (steps: seq<Step>)
    ensures Fails(Start(), steps) && forall s <- steps :: Orderly(s) || (s.PresentStep? && s.outcome.Lost?)
  {
    var b := Waiting(OLD, 0);
    var w1 := Two({OLD}, {OLD}, None, Some(0), Holding(OLD), b);
    var w2 := Two({OLD}, {NEW}, None, Some(0), Failed, b);
    var w3 := Two({OLD}, {NEW}, None, None, Done, b);
    ThreeAreRanked();
    FirstAcquires(b);
    FirstLoses(b);
    hide At, Do, Two, Ranked, Fails;
    steps := BothWait();
    Goes(steps, Two({OLD}, {OLD}, None, None, Waiting(OLD, 0), b), AcquireStep(0, true), w1);
    Goes(steps + [AcquireStep(0, true)], w1, PresentStep(0, Lost(20, 1)), w2);
    Goes(steps + [AcquireStep(0, true)] + [PresentStep(0, Lost(20, 1))], w2, ReleaseStep(0), w3);
    steps := SecondShows(steps + [AcquireStep(0, true)] + [PresentStep(0, Lost(20, 1))] + [ReleaseStep(0)],
                         {OLD}, {NEW}, None, Done);
  }

  /** A caller the service does not answer refreshes on its own, with a token the holder may have spent. */
  lemma UnreachableFails() returns (steps: seq<Step>)
    ensures Fails(Start(), steps) && forall s <- steps :: Orderly(s) || s.UnreachableStep?
  {
    var b := Direct(OLD);
    var w0 := Two({OLD}, {OLD}, None, None, Waiting(OLD, 0), Waiting(OLD, 0));
    var w1 := Two({OLD}, {OLD}, None, None, Waiting(OLD, 0), b);
    var w3 := Two({OLD, NEW}, {NEW}, None, Some(0), Refreshed(NEW), b);
    assert Do(w0, UnreachableStep(1)) == w1 && Presents(w3, 1) && w3.callers[1].creds !in w3.live;
    ThreeAreRanked();
    hide At, Do, Two, Ranked, Fails;
    steps := BothWait();
    Goes(steps, w0, UnreachableStep(1), w1);
    steps := FirstRefreshes(steps + [UnreachableStep(1)], b);
    SpentIsShown(steps, w3, 1);
    steps := steps + [PresentStep(1, Refused)];
  }

  function Turns(n: nat): seq<Step> {
    if n == 0 then [] else Turns(n - 1) + [AcquireStep(1, true)]
  }

  lemma WaitsAgain(n: nat)
    requires n < MAX_ATTEMPTS
    ensures var w := Two({OLD}, {OLD}, None, Some(0), Holding(OLD), Waiting(OLD, n));
            Do(w, AcquireStep(1, true)) == Two({OLD}, {OLD}, None, Some(0), Holding(OLD), Waiting(OLD, n + 1))
  {
  }

  lemma {:induction false} WaitsInVain(before: seq<Step>, n: nat)
    requires n <= MAX_ATTEMPTS && At(before, Two({OLD}, {OLD}, None, Some(0), Holding(OLD), Waiting(OLD, 0)))
    ensures At(before + Turns(n), Two({OLD}, {OLD}, None, Some(0), Holding(OLD), Waiting(OLD, n)))
    ensures forall s <- Turns(n) :: Orderly(s)
  {
    hide At, Do, Two;
    if n == 0 {
      assert before + [] == before;
    } else {
      WaitsInVain(before, n - 1);
      WaitsAgain(n - 1);
      Goes(before + Turns(n - 1), Two({OLD}, {OLD}, None, Some(0), Holding(OLD), Waiting(OLD, n - 1)),
          AcquireStep(1, true),
           Two({OLD}, {OLD}, None, Some(0), Holding(OLD), Waiting(OLD, n)));
      assert before + Turns(n) == before + Turns(n - 1) + [AcquireStep(1, true)];
    }
  }

  lemma ExhaustedGoes(n: nat)
    requires n >= MAX_ATTEMPTS
    ensures var w := Two({OLD}, {OLD}, None, Some(0), Holding(OLD), Waiting(OLD, n));
            Do(w, ExhaustStep(1)) == Two({OLD}, {OLD}, None, Some(0), Holding(OLD), Direct(OLD))
    ensures var v := Two({OLD, NEW}, {NEW}, None, Some(0), Refreshed(NEW), Direct(OLD));
            Presents(v, 1) && v.callers[1].creds !in v.live && v.issued == {OLD, NEW}
  {
  }

  /** A caller out of attempts refreshes on its own too. */
  lemma ExhaustedFails() returns (steps: seq<Step>)
    ensures Fails(Start(), steps) && forall s <- steps :: Orderly(s) || s.ExhaustStep?
  {
    var n: nat := MAX_ATTEMPTS;
    hide At, Do, Two, Ranked, Fails, Turns, MAX_ATTEMPTS;
    ThreeAreRanked();
    FirstAcquires(Waiting(OLD, 0));
    FirstRotates(20, Direct(OLD));
    ExhaustedGoes(n);
    steps := BothWait();
    Goes(steps, Two({OLD}, {OLD}, None, None, Waiting(OLD, 0), Waiting(OLD, 0)), AcquireStep(0, true),
         Two({OLD}, {OLD}, None, Some(0), Holding(OLD), Waiting(OLD, 0)));
    WaitsInVain(steps + [AcquireStep(0, true)], n);
    var waited := steps + [AcquireStep(0, true)] + Turns(n);
    var w1 := Two({OLD}, {OLD}, None, Some(0), Holding(OLD), Direct(OLD));
    Goes(waited, Two({OLD}, {OLD}, None, Some(0), Holding(OLD), Waiting(OLD, n)), ExhaustStep(1), w1);
    var w2 := Two({OLD, NEW}, {NEW}, None, Some(0), Refreshed(NEW), Direct(OLD));
    Goes(waited + [ExhaustStep(1)], w1, PresentStep(0, Rotated(20, 1)), w2);
    SpentIsShown(waited + [ExhaustStep(1)] + [PresentStep(0, Rotated(20, 1))], w2, 1);
    steps := waited + [ExhaustStep(1)] + [PresentStep(0, Rotated(20, 1))] + [PresentStep(1, Refused)];
  }

  /** A rotation whose record expires no later is handed to nobody: the next caller shows the token it spent. */
  lemma EarlierExpiryFails() returns (steps: seq<Step>)
    ensures Initial(Start()) && !OnlyGoodPresented(Start(), steps) && Ranked(Run(Start(), steps).issued)
    ensures forall s <- steps :: Orderly(s)
  {
    var b := Waiting(OLD, 0);
    var w1 := Two({OLD}, {OLD}, None, Some(0), Holding(OLD), b);
    var w2 := Two({OLD, EARLIER}, {EARLIER}, None, Some(0), Refreshed(EARLIER), b);
    var w3 := Two({OLD, EARLIER}, {EARLIER}, Some(EARLIER), None, Done, b);
    var w4 := Two({OLD, EARLIER}, {EARLIER}, Some(EARLIER), Some(1), Done, Holding(OLD));
    assert w4.live == {EARLIER} && w4.issued == {OLD, EARLIER};
    ThreeAreRanked();
    FirstAcquires(b);
    FirstRotates(5, b);
    FirstReleases(EARLIER, b);
    SecondAcquires({OLD, EARLIER}, {EARLIER}, Some(EARLIER), Done);
    var s0 := BothWait();
    assert Run(Start(), s0) == Two({OLD}, {OLD}, None, None, Waiting(OLD, 0), b);
    hide At, Do, Two, Ranked, Run, OnlyGoodPresented, RotationsProlong;
    var s1 := s0 + [AcquireStep(0, true)];
    var s2 := s1 + [PresentStep(0, Rotated(5, 1))];
    var s3 := s2 + [ReleaseStep(0)];
    var s4 := s3 + [AcquireStep(1, true)];
    RunOneMore(Start(), s0, AcquireStep(0, true));
    RunOneMore(Start(), s1, PresentStep(0, Rotated(5, 1)));
    RunOneMore(Start(), s2, ReleaseStep(0));
    RunOneMore(Start(), s3, AcquireStep(1, true));
    assert Run(Start(), s4) == w4;
    RunOneMore(Start(), s4, PresentStep(1, Refused));
    RefusedIssues(w4, 1);
    steps := s4 + [PresentStep(1, Refused)];
  }

  lemma RefusedIssues(w: World, k: nat)
    ensures Do(w, PresentStep(k, Refused)).issued == w.issued
  {
  }

  // Records newer does not rank.

  /** A caller that refreshes a spent record nothing cached is newer than. */
  lemma SpentIsPresented(w: World, steps: seq<Step>, k: nat, r: Record)
    requires var v := Run(w, steps);
             v.lock.None? && k !in v.callers && r in v.issued && r !in v.live && !CachedIsNewer(v, r)
    ensures !OnlyGoodPresented(w, steps + [BeginStep(k, r)] + [AcquireStep(k, true)] + [PresentStep(k, Refused)])
    ensures RotationsProlong(w, steps) ==>
              RotationsProlong(w, steps + [BeginStep(k, r)] + [AcquireStep(k, true)] + [PresentStep(k, Refused)])
  {
    hide CredentialsAreNewer, Run, OnlyGoodPresented, RotationsProlong;
    var s1 := steps + [BeginStep(k, r)];
    var s2 := s1 + [AcquireStep(k, true)];
    RunOneMore(w, steps, BeginStep(k, r));
    RunOneMore(w, s1, AcquireStep(k, true));
    RunOneMore(w, s2, PresentStep(k, Refused));
    SpentIsHeld(Run(w, steps), k, r);
  }

  lemma SpentIsHeld(v: World, k: nat, r: Record)
    requires v.lock.None? && k !in v.callers && r in v.issued && r !in v.live && !CachedIsNewer(v, r)
    ensures var u := Do(Do(v, BeginStep(k, r)), AcquireStep(k, true));
            && !PresentsGood(u, PresentStep(k, Refused)) && Prolongs(v, BeginStep(k, r))
            && Prolongs(Do(v, BeginStep(k, r)), AcquireStep(k, true)) && Prolongs(u, PresentStep(k, Refused))
  {
    hide CredentialsAreNewer;
  }

  /** `a` does not yield to a later `b`, nor `c` to a later `a`, nor `b` to a later `c`. */
  predicate Cycle(a: Record, b: Record, c: Record) {
    && a != b && b != c && a.grantedAt != b.grantedAt && b.grantedAt != c.grantedAt && a.grantedAt != c.grantedAt
    && !CredentialsAreNewer(Later(b), a) && !CredentialsAreNewer(Later(a), c) && !CredentialsAreNewer(Later(c), b)
  }

  function Later(r: Record): Record {
    Rotate(r, r.expiresAt + 1, r.token)
  }

  function Refreshing(k: nat, r: Record): seq<Step> {
    WholeRefresh(k, r, r.expiresAt + 1, r.token)
  }

  function CycleSteps(a: Record, b: Record, c: Record): seq<Step> {
    Refreshing(0, b) + Refreshing(1, a) + Refreshing(2, c)
    + [BeginStep(3, b)] + [AcquireStep(3, true)] + [PresentStep(3, Refused)]
  }

  function Family(a: Record, b: Record, c: Record): World {
    World({a, b, c}, {a, b, c}, None, None, map[])
  }

  /** `b` refreshes, and `a` has nothing newer to adopt. */
  lemma BThenA(a: Record, b: Record, c: Record) returns (steps: seq<Step>)
    requires Cycle(a, b, c)
    ensures steps == Refreshing(0, b) + Refreshing(1, a) && RotationsProlong(Family(a, b, c), steps)
    ensures Run(Family(a, b, c), steps) ==
              World({a, b, c, Later(b), Later(a)}, {c, Later(b), Later(a)}, Some(Later(a)), None,
                  map[0 := Done, 1 := Done])
  {
    var w := Family(a, b, c);
    assert Run(w, []) == w && RotationsProlong(w, []);
    hide Run, Do, WholeRefresh, RotationsProlong, CredentialsAreNewer;
    RefreshedAlone(w, [], 0, b, b.expiresAt + 1, b.token);
    var s2 := [] + Refreshing(0, b);
    assert s2 == Refreshing(0, b);
    var w2 := World({a, b, c, Later(b)}, {a, c, Later(b)}, Some(Later(b)), None, map[0 := Done]);
    assert Run(w, s2) == w2;
    RefreshedAlone(w, s2, 1, a, a.expiresAt + 1, a.token);
    steps := s2 + Refreshing(1, a);
    assert w2.callers[1 := Done] == map[0 := Done, 1 := Done];
  }

  lemma CycleRuns(a: Record, b: Record, c: Record)
    requires Cycle(a, b, c)
    ensures !OnlyGoodPresented(Family(a, b, c), CycleSteps(a, b, c))
    ensures RotationsProlong(Family(a, b, c), CycleSteps(a, b, c))
  {
    hide Run, Do, WholeRefresh, OnlyGoodPresented, RotationsProlong, CredentialsAreNewer, Refreshing;
    var w := Family(a, b, c);
    var s3 := BThenA(a, b, c);
    ThirdGoes(w, s3, a, b, c);
    SpentIsPresented(w, s3 + Refreshing(2, c), 3, b);
  }

  lemma ThirdGoes(w: World, steps: seq<Step>, a: Record, b: Record, c: Record)
    requires Cycle(a, b, c) && RotationsProlong(w, steps)
    requires Run(w, steps) ==
               World({a, b, c, Later(b), Later(a)}, {c, Later(b), Later(a)}, Some(Later(a)), None,
                   map[0 := Done, 1 := Done])
    ensures RotationsProlong(w, steps + Refreshing(2, c))
    ensures var v := Run(w, steps + Refreshing(2, c));
            v.lock.None? && 3 !in v.callers && b in v.issued && b !in v.live && !CachedIsNewer(v, b)
  {
    hide Run, Do, WholeRefresh, RotationsProlong, CredentialsAreNewer;
    RefreshedAlone(w, steps, 2, c, c.expiresAt + 1, c.token);
  }

  /**
   * One login without a grant time is enough: three families refreshed in turn can each leave the next nothing newer
   * to adopt, and the first is then asked to refresh a record it has already spent.
   */
  lemma MissingGrantFails() returns (w: World, steps: seq<Step>)
    ensures Initial(w) && (forall s <- steps :: Orderly(s)) && RotationsProlong(w, steps)
            && !OnlyGoodPresented(w, steps)
  {
    var a, b, c := Record(None, 5, 0), Record(Some(2), 3, 1), Record(Some(1), 10, 2);
    w, steps := Family(a, b, c), CycleSteps(a, b, c);
    CycleRuns(a, b, c);
    hide OnlyGoodPresented, RotationsProlong;
  }
}
