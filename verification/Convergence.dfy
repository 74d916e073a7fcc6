/**
 * Convergence of the shared account registry: once removals and logins stop, two clean syncs of every instance,
 * interleaved in any way, leave every file and the registry on the newest record granted after the latest
 * removal, or on nothing.
 */
module Convergence {
  import opened Options
  import opened Credentials
  import Registry
  import opened SyncRule
  import opened SyncWorld

  /** `t` is the latest removal any side knows of. */
  ghost predicate LatestRemoval(w: World, t: Option<int>) {
    && NoLater(w.entry.marker, t)
    && (forall i <- w.nodes :: NoLater(w.nodes[i].removal, t))
    && (t.Some? ==> w.entry.marker == t || exists i :: i in w.nodes && w.nodes[i].removal == t)
  }

  predicate NoLater(a: Option<int>, t: Option<int>) {
    a.Some? ==> t.Some? && a.value <= t.value
  }

  /** `best` is the newest record, in a file or the registry, granted after `t`; none when there is none. */
  ghost predicate NewestOutliving(w: World, t: Option<int>, best: Option<Record>) {
    && Fits(w.entry.record, t, best)
    && (forall i <- w.nodes :: Fits(w.nodes[i].file, t, best))
    && (best.Some? ==>
          && GrantedAfter(best.value, t)
          && (w.entry.record == best || exists i :: i in w.nodes && w.nodes[i].file == best))
  }

  /** A record that `t` and `best` account for: it carries a grant time, and outlives `t` only when `best` is as new. */
  predicate Fits(r: Option<Record>, t: Option<int>, best: Option<Record>) {
    r.Some? ==>
      && Granted(r.value)
      && (GrantedAfter(r.value, t) ==> best.Some? && !CredentialsAreNewer(r.value, best.value))
  }

  /** Where every file and the registry are to end: on `best`, as far as grant and expiry go, or on nothing. */
  predicate Is(r: Option<Record>, best: Option<Record>) {
    if best.None? then r.None? else r.Some? && Same(r.value, best.value)
  }

  predicate FinalEntry(e: Registry.Entry, t: Option<int>, best: Option<Record>) {
    Is(e.record, best) && if best.None? then e.marker == t else e.marker.None?
  }

  /** No sync running, no removal made in this very millisecond, and what the registry acknowledged stands. */
  ghost predicate Quiet(w: World) {
    && Registry.Exclusive(w.entry)
    && forall i <- w.nodes ::
         var n := w.nodes[i];
         && n.phase.Idle? && !n.synced && !n.settled
         && (n.removal.Some? ==> n.removal.value < w.now)
         && (n.published.Some? ==> Registry.Covers(w.entry, n.published.value))
  }

  predicate OnlySyncs(steps: seq<Step>) {
    forall s <- steps :: !s.RemoveStep? && !s.WriteStep?
  }

  // What the steps keep, for one removal time `t` and one best record.

  predicate Holds(r: Option<Record>, best: Option<Record>) {
    best.Some? && r.Some? && Same(r.value, best.value)
  }

  predicate EntryFits(e: Registry.Entry, t: Option<int>, best: Option<Record>) {
    Registry.Exclusive(e) && Fits(e.record, t, best) && NoLater(e.marker, t)
  }

  predicate ActionFits(a: Action, t: Option<int>, best: Option<Record>) {
    match a
    case Nothing => true
    case Save(creds, removedAt) => Fits(Some(creds), t, best) && NoLater(removedAt, t)
    case Delete(since) => NoLater(Some(since), t)
    case Push(creds) => Fits(Some(creds), t, best)
  }

  predicate PhaseFits(n: Node, t: Option<int>, best: Option<Record>, start: int) {
    match n.phase
    case Idle => true
    case Publishing(removedAt) => n.removal == Some(removedAt)
    case Ready => true
    case Asked(at) => at >= start
    case Fetched(at, seen) => at >= start && EntryFits(seen, t, best)
    case Loaded(at, seen, local) => at >= start && EntryFits(seen, t, best) && local == n.file
    case Planned(at, action) => at >= start && ActionFits(action, t, best)
    case Pushing(creds) => Fits(Some(creds), t, best)
    case Sending(creds) => Fits(Some(creds), t, best)
  }

  /** Nothing this instance holds is unaccounted for. */
  predicate NodeFits(n: Node, t: Option<int>, best: Option<Record>, start: int) {
    && Fits(n.file, t, best)
    && NoLater(n.removal, t) && (n.removal.Some? ==> n.removal.value < start)
    && PhaseFits(n, t, best, start)
  }

  /** The publishing side: what was acknowledged stands, and so does the removal of an instance that has synced. */
  predicate Publishes(n: Node, e: Registry.Entry) {
    && (n.published.Some? ==> Registry.Covers(e, n.published.value))
    && (n.removal.Some? && (n.synced || (n.clean && !n.phase.Idle? && !n.phase.Publishing?)) ==>
          Registry.Covers(e, n.removal.value))
  }

  /** The pushing side: an instance holding the best record is on its way to push it, or the registry has it. */
  predicate Pushes(n: Node, e: Registry.Entry, best: Option<Record>) {
    && (n.phase.Fetched? || n.phase.Loaded? ==> (Holds(n.phase.seen.record, best) ==> Holds(e.record, best)))
    && (n.phase.Planned? && n.phase.action.Save? ==>
          (Holds(Some(n.phase.action.creds), best) ==> Holds(e.record, best)))
    && (Holds(n.file, best) && !Holds(e.record, best) ==>
          && !n.synced
          && (n.phase.Planned? ==> n.phase.action.Push? && Holds(Some(n.phase.action.creds), best))
          && (n.phase.Pushing? || n.phase.Sending? ==> Holds(Some(n.phase.creds), best)))
  }

  /** The adopting side: a sync that listed the final registry ends with the final file, and nothing unsettles it. */
  predicate Adopts(n: Node, t: Option<int>, best: Option<Record>, allSynced: bool) {
    && (n.settled ==> allSynced && Is(n.file, best))
    && (n.settled ==>
          (n.phase.Fetched? || n.phase.Loaded? || n.phase.Planned? || n.phase.Pushing? || n.phase.Sending? ==> n.late))
    && (n.late && !n.phase.Idle? ==>
          match n.phase
          case Fetched(_, seen) => allSynced && FinalEntry(seen, t, best)
          case Loaded(_, seen, _) => allSynced && FinalEntry(seen, t, best)
          case Planned(_, action) => allSynced && Adopting(n.file, action, t, best)
          case _ => false)
  }

  predicate Adopting(file: Option<Record>, action: Action, t: Option<int>, best: Option<Record>) {
    match action
    case Nothing => Is(file, best)
    case Save(creds, _) => Holds(Some(creds), best)
    case Delete(since) => best.None? && t == Some(since)
    case Push(_) => false
  }

  ghost predicate Converging(w: World, t: Option<int>, best: Option<Record>, start: int) {
    && start <= w.now
    && (best.Some? ==> Granted(best.value) && GrantedAfter(best.value, t))
    && EntryFits(w.entry, t, best)
    && (t.Some? ==> Registry.Covers(w.entry, t.value) || exists i :: i in w.nodes && w.nodes[i].removal == t)
    && (best.Some? ==> Holds(w.entry.record, best) || exists i :: i in w.nodes && Holds(w.nodes[i].file, best))
    && forall i <- w.nodes ::
         && NodeFits(w.nodes[i], t, best, start)
         && Publishes(w.nodes[i], w.entry)
         && Pushes(w.nodes[i], w.entry, best)
         && Adopts(w.nodes[i], t, best, AllSynced(w))
  }

  /** What the registry may become: nothing standing falls, and the best record is never lost. */
  ghost predicate Grows(e: Registry.Entry, f: Registry.Entry, best: Option<Record>) {
    && (forall at :: Registry.Covers(e, at) ==> Registry.Covers(f, at))
    && (Holds(e.record, best) ==> Holds(f.record, best))
  }

  lemma EntryGrows(e: Registry.Entry, s: Step, n: Node, t: Option<int>, best: Option<Record>, start: int)
    requires best.Some? ==> Granted(best.value) && GrantedAfter(best.value, t)
    requires EntryFits(e, t, best) && NodeFits(n, t, best, start)
    ensures EntryFits(EntryAfter(e, s, n), t, best) && Grows(e, EntryAfter(e, s, n), best)
    ensures s.PublishStep? && n.phase.Publishing? && !s.call.LostRequest? ==>
            Registry.Covers(EntryAfter(e, s, n), n.phase.removedAt)
    ensures s.PutStep? && n.phase.Sending? && !s.call.LostRequest? && Holds(Some(n.phase.creds), best) ==>
              Holds(EntryAfter(e, s, n).record, best)
    ensures !s.PublishStep? && !s.PutStep? ==> EntryAfter(e, s, n) == e
  {
    if s.PublishStep? && n.phase.Publishing? && !s.call.LostRequest? {
      Registry.RemoveCovers(e, n.phase.removedAt);
    } else if s.PutStep? && n.phase.Sending? && !s.call.LostRequest? {
      Registry.PutFollowsClientRule(e, n.phase.creds);
      forall at | Registry.Covers(e, at) ensures Registry.Covers(Registry.Put(e, n.phase.creds), at) {
        Registry.PutKeepsRemovalIff(e, n.phase.creds, at);
      }
    }
  }

  lemma DecisionFits(mine: Option<Record>, theirs: Registry.Entry, local: Option<int>, t: Option<int>,
      best: Option<Record>)
    requires Fits(mine, t, best) && EntryFits(theirs, t, best) && NoLater(local, t)
    ensures ActionFits(Decide(mine, theirs.record, theirs.marker, local), t, best)
  {
  }

  lemma ApplyFits(n: Node, t: Option<int>, best: Option<Record>, start: int)
    requires NodeFits(n, t, best, start) && n.phase.Planned?
    ensures NodeFits(ApplyNode(n), t, best, start)
  {
  }

  lemma NodeKeepsFits(n: Node, s: Step, e: Registry.Entry, now: int, allSynced: bool, t: Option<int>,
      best: Option<Record>, start: int)
    requires !s.Tick? && !s.RemoveStep? && !s.WriteStep? && start <= now
    requires EntryFits(e, t, best) && NodeFits(n, t, best, start)
    ensures NodeFits(NodeAfter(n, s, e, now, allSynced), t, best, start)
    ensures NodeAfter(n, s, e, now, allSynced).removal == n.removal
  {
    hide Decide, SaveShared, RemoveShared, ActionFits, EntryFits, Fits, NoLater;
    if Gathers(s) {
      GatheringFits(n, s, e, now, allSynced, t, best, start);
    } else if s.PlanStep? && n.phase.Loaded? {
      DecisionFits(n.phase.local, n.phase.seen, n.removal, t, best);
    } else if s.ApplyStep? && n.phase.Planned? {
      ApplyFits(n, t, best, start);
    }
  }

  lemma GatheringFits(n: Node, s: Step, e: Registry.Entry, now: int, allSynced: bool, t: Option<int>,
      best: Option<Record>, start: int)
    requires Gathers(s) && start <= now
    requires EntryFits(e, t, best) && NodeFits(n, t, best, start)
    ensures NodeFits(NodeAfter(n, s, e, now, allSynced), t, best, start)
    ensures NodeAfter(n, s, e, now, allSynced).removal == n.removal
  {
    hide ActionFits, EntryFits, Fits, NoLater;
  }

  lemma CoversEarlier(e: Registry.Entry, late: int, early: int)
    requires Registry.Covers(e, late) && early <= late
    ensures Registry.Covers(e, early)
  {
  }

  lemma NodeKeepsPublishes(n: Node, s: Step, e: Registry.Entry, f: Registry.Entry, now: int, allSynced: bool,
      best: Option<Record>)
    requires !s.Tick? && !s.RemoveStep? && !s.WriteStep?
    requires n.phase.Publishing? ==> n.removal == Some(n.phase.removedAt)
    requires Publishes(n, e) && Grows(e, f, best)
    requires s.PublishStep? && n.phase.Publishing? && !s.call.LostRequest? ==> Registry.Covers(f, n.phase.removedAt)
    ensures Publishes(NodeAfter(n, s, e, now, allSynced), f)
  {
    hide Decide, SaveShared, RemoveShared, GrantedAfter, Holds, Registry.Covers;
    if Gathers(s) {
      GatheringPublishes(n, s, e, f, now, allSynced, best);
    }
  }

  lemma GatheringPublishes(n: Node, s: Step, e: Registry.Entry, f: Registry.Entry, now: int, allSynced: bool,
      best: Option<Record>)
    requires Gathers(s)
    requires n.phase.Publishing? ==> n.removal == Some(n.phase.removedAt)
    requires Publishes(n, e) && Grows(e, f, best)
    requires s.PublishStep? && n.phase.Publishing? && !s.call.LostRequest? ==> Registry.Covers(f, n.phase.removedAt)
    ensures Publishes(NodeAfter(n, s, e, now, allSynced), f)
  {
    hide Holds, Registry.Covers;
    if s.BeginStep? && n.phase.Idle? && n.removal.Some? && n.published.Some? && n.published.value >= n.removal.value {
      CoversEarlier(f, n.published.value, n.removal.value);
    }
  }

  /** Planning on a file that holds the best record: it is pushed, or the registry already had it. */
  lemma BestIsPushed(n: Node, t: Option<int>, best: Option<Record>, start: int)
    requires best.Some? && Granted(best.value) && GrantedAfter(best.value, t)
    requires NodeFits(n, t, best, start) && n.phase.Loaded? && Holds(n.file, best)
    ensures var a := PlanNode(n).phase.action;
            (a.Push? && Holds(Some(a.creds), best)) || (a.Nothing? && Holds(n.phase.seen.record, best))
  {
    OutlivesLater(n.file.value, n.phase.seen.marker, n.removal);
  }

  lemma PlanKeepsPushes(n: Node, e: Registry.Entry, t: Option<int>, best: Option<Record>, start: int)
    requires best.Some? ==> Granted(best.value) && GrantedAfter(best.value, t)
    requires NodeFits(n, t, best, start) && n.phase.Loaded? && Pushes(n, e, best)
    ensures Pushes(PlanNode(n), e, best)
  {
    if Holds(n.file, best) { BestIsPushed(n, t, best, start); }
  }

  /** Applying a plan never overwrites or removes the best record. */
  lemma ApplyKeepsPushes(n: Node, e: Registry.Entry, t: Option<int>, best: Option<Record>, start: int)
    requires best.Some? ==> Granted(best.value) && GrantedAfter(best.value, t)
    requires NodeFits(n, t, best, start) && n.phase.Planned? && Pushes(n, e, best)
    ensures Pushes(ApplyNode(n), e, best)
    ensures Holds(n.file, best) ==> Holds(ApplyNode(n).file, best)
  {
  }

  lemma BestIsSent(n: Node, t: Option<int>, best: Option<Record>, start: int)
    requires best.Some? && GrantedAfter(best.value, t) && NodeFits(n, t, best, start)
    requires n.phase.Pushing? && Holds(Some(n.phase.creds), best)
    ensures CheckNode(n).phase == Sending(n.phase.creds) && CheckNode(n).synced == n.synced
            && CheckNode(n).file == n.file
  {
  }

  lemma NodeKeepsPushes(n: Node, s: Step, e: Registry.Entry, f: Registry.Entry, now: int, allSynced: bool,
                        t: Option<int>, best: Option<Record>, start: int)
    requires !s.Tick? && !s.RemoveStep? && !s.WriteStep?
    requires best.Some? ==> Granted(best.value) && GrantedAfter(best.value, t)
    requires NodeFits(n, t, best, start)
    requires Pushes(n, e, best) && (Holds(e.record, best) ==> Holds(f.record, best))
    requires !s.PublishStep? && !s.PutStep? ==> f == e
    requires s.PutStep? && n.phase.Sending? && !s.call.LostRequest? && Holds(Some(n.phase.creds), best) ==>
             Holds(f.record, best)
    ensures Pushes(NodeAfter(n, s, e, now, allSynced), f, best)
    ensures Holds(n.file, best) ==> Holds(NodeAfter(n, s, e, now, allSynced).file, best)
  {
    hide NodeFits, Decide, SaveShared, RemoveShared, GrantedAfter, Same;
    if s.PlanStep? && n.phase.Loaded? {
      PlanKeepsPushes(n, e, t, best, start);
    } else if s.ApplyStep? && n.phase.Planned? {
      ApplyKeepsPushes(n, e, t, best, start);
    } else if s.CheckStep? && n.phase.Pushing? && Holds(Some(n.phase.creds), best) {
      BestIsSent(n, t, best, start);
    }
  }

  /** Planning on the final registry: adopt it, or have nothing left to do. */
  lemma FinalIsAdopted(n: Node, t: Option<int>, best: Option<Record>, start: int)
    requires best.Some? ==> Granted(best.value) && GrantedAfter(best.value, t)
    requires NodeFits(n, t, best, start) && n.phase.Loaded? && FinalEntry(n.phase.seen, t, best)
    ensures Adopting(n.file, PlanNode(n).phase.action, t, best)
  {
  }

  /** Applying such a plan leaves the final file. */
  lemma AdoptionIsFinal(n: Node, t: Option<int>, best: Option<Record>, start: int)
    requires best.Some? ==> Granted(best.value) && GrantedAfter(best.value, t)
    requires NodeFits(n, t, best, start) && n.phase.Planned? && Adopting(n.file, n.phase.action, t, best)
    ensures ApplyNode(n).phase.Idle? && Is(ApplyNode(n).file, best)
  {
  }

  lemma NodeKeepsAdopts(n: Node, s: Step, e: Registry.Entry, now: int, allSynced: bool, after: bool,
                        t: Option<int>, best: Option<Record>, start: int)
    requires !s.Tick? && !s.RemoveStep? && !s.WriteStep?
    requires best.Some? ==> Granted(best.value) && GrantedAfter(best.value, t)
    requires NodeFits(n, t, best, start) && Adopts(n, t, best, allSynced)
    requires allSynced ==> after && FinalEntry(e, t, best)
    ensures Adopts(NodeAfter(n, s, e, now, allSynced), t, best, after)
  {
    hide Decide, SaveShared, RemoveShared, NodeFits, Is;
    if s.PlanStep? && n.phase.Loaded? && n.late { FinalIsAdopted(n, t, best, start); }
    if s.ApplyStep? && n.phase.Planned? && n.late { AdoptionIsFinal(n, t, best, start); }
  }

  /** Once every instance has synced, the registry is final. */
  lemma SyncedIsFinal(w: World, t: Option<int>, best: Option<Record>, start: int)
    requires Converging(w, t, best, start) && AllSynced(w)
    ensures FinalEntry(w.entry, t, best)
  {
    forall i | i in w.nodes && Holds(w.nodes[i].file, best) ensures Holds(w.entry.record, best) {
      assert Pushes(w.nodes[i], w.entry, best);
    }
    forall i | t.Some? && i in w.nodes && w.nodes[i].removal == t ensures Registry.Covers(w.entry, t.value) {
      assert Publishes(w.nodes[i], w.entry);
    }
  }

  lemma UnhideFits(n: Node, t: Option<int>, best: Option<Record>, start: int)
    requires NodeFits(n, t, best, start)
    ensures n.phase.Publishing? ==> n.removal == Some(n.phase.removedAt)
  {
  }

  lemma SyncedStays(w: World, s: Step)
    requires !s.Tick? && s.i in w.nodes && AllSynced(w)
    ensures AllSynced(Do(w, s))
  {
  }

  lemma GrowsMeans(e: Registry.Entry, f: Registry.Entry, best: Option<Record>, t: Option<int>)
    requires Grows(e, f, best)
    ensures Holds(e.record, best) ==> Holds(f.record, best)
    ensures t.Some? && Registry.Covers(e, t.value) ==> Registry.Covers(f, t.value)
  {
  }

  lemma OthersKeep(n: Node, e: Registry.Entry, f: Registry.Entry, t: Option<int>, best: Option<Record>, before: bool,
      after: bool)
    requires Grows(e, f, best) && (before ==> after)
    requires Publishes(n, e) && Pushes(n, e, best) && Adopts(n, t, best, before)
    ensures Publishes(n, f) && Pushes(n, f, best) && Adopts(n, t, best, after)
  {
  }

  lemma DoKeepsConverging(w: World, s: Step, t: Option<int>, best: Option<Record>, start: int)
    requires !s.RemoveStep? && !s.WriteStep?
    requires Converging(w, t, best, start)
    ensures Converging(Do(w, s), t, best, start)
  {
    if s.Tick? || s.i !in w.nodes {
      assert AllSynced(Do(w, s)) == AllSynced(w);
    } else {
      StepKeepsConverging(w, s, t, best, start);
    }
  }

  lemma StepKeepsConverging(w: World, s: Step, t: Option<int>, best: Option<Record>, start: int)
    requires !s.RemoveStep? && !s.WriteStep? && !s.Tick? && s.i in w.nodes
    requires Converging(w, t, best, start)
    ensures Converging(Do(w, s), t, best, start)
  {
    hide NodeFits, Publishes, Pushes, Adopts, EntryFits, FinalEntry, Registry.Covers, Holds, Grows, GrantedAfter,
      Granted, NodeAfter, EntryAfter, AllSynced, NoLater, Fits, Same;
    var v, n := Do(w, s), w.nodes[s.i];
    var e, f, m, all := w.entry, v.entry, v.nodes[s.i], AllSynced(w);
    assert v == World(EntryAfter(e, s, n), w.nodes[s.i := NodeAfter(n, s, e, w.now, all)], w.now);
    if all { SyncedIsFinal(w, t, best, start); }
    if all { SyncedStays(w, s); }
    hide Do;
    UnhideFits(n, t, best, start);
    EntryGrows(e, s, n, t, best, start);
    GrowsMeans(e, f, best, t);
    NodeKeepsFits(n, s, e, w.now, all, t, best, start);
    NodeKeepsPublishes(n, s, e, f, w.now, all, best);
    NodeKeepsPushes(n, s, e, f, w.now, all, t, best, start);
    NodeKeepsAdopts(n, s, e, w.now, all, AllSynced(v), t, best, start);
    forall i | i in w.nodes && i != s.i
      ensures Publishes(w.nodes[i], f) && Pushes(w.nodes[i], f, best) && Adopts(w.nodes[i], t, best, AllSynced(v))
    {
      OthersKeep(w.nodes[i], e, f, t, best, all, AllSynced(v));
    }
    SomeoneStill(w, v, s.i, m, t, best);
  }

  /** A step that leaves its instance's removal and best record where they were leaves someone with each. */
  lemma SomeoneStill(w: World, v: World, i: nat, m: Node, t: Option<int>, best: Option<Record>)
    requires i in w.nodes && v.nodes == w.nodes[i := m] && m.removal == w.nodes[i].removal
    requires Holds(w.nodes[i].file, best) ==> Holds(m.file, best)
    ensures (exists j :: j in w.nodes && w.nodes[j].removal == t) ==>
              exists j :: j in v.nodes && v.nodes[j].removal == t
    ensures (exists j :: j in w.nodes && Holds(w.nodes[j].file, best)) ==>
              exists j :: j in v.nodes && Holds(v.nodes[j].file, best)
  {
    hide Holds;
    if j :| j in w.nodes && w.nodes[j].removal == t { assert v.nodes[j].removal == t; }
    if j :| j in w.nodes && Holds(w.nodes[j].file, best) { assert Holds(v.nodes[j].file, best); }
  }

  lemma {:induction false} RunKeepsConverging(w: World, steps: seq<Step>, t: Option<int>, best: Option<Record>,
      start: int)
    requires OnlySyncs(steps) && Converging(w, t, best, start)
    ensures Converging(Run(w, steps), t, best, start)
  {
    hide Converging;
    if steps != [] {
      RunKeepsConverging(w, steps[..|steps| - 1], t, best, start);
      DoKeepsConverging(Run(w, steps[..|steps| - 1]), steps[|steps| - 1], t, best, start);
    }
  }

  lemma QuietConverges(w: World, t: Option<int>, best: Option<Record>)
    requires Quiet(w) && LatestRemoval(w, t) && NewestOutliving(w, t, best)
    ensures Converging(w, t, best, w.now)
  {
    forall i | i in w.nodes ensures NodeFits(w.nodes[i], t, best, w.now) && Publishes(w.nodes[i], w.entry)
                                    && Pushes(w.nodes[i], w.entry, best) && Adopts(w.nodes[i], t, best, AllSynced(w)) {}
    if best.Some? && w.entry.record != best {
      var i :| i in w.nodes && w.nodes[i].file == best;
      assert Holds(w.nodes[i].file, best);
    }
  }

  /**
   * Convergence, however the syncs interleave and whichever of their calls are lost: once every instance has
   * finished one clean sync the registry holds the newest record granted after the latest removal, or nothing
   * under that removal's marker; an instance whose next clean sync listed it then has that record, or nothing,
   * in its file.
   */
  lemma SyncsConverge(w: World, steps: seq<Step>, t: Option<int>, best: Option<Record>)
    requires Quiet(w) && LatestRemoval(w, t) && NewestOutliving(w, t, best) && OnlySyncs(steps)
    ensures var v := Run(w, steps);
            && (AllSynced(v) ==> FinalEntry(v.entry, t, best))
            && (forall i <- v.nodes :: v.nodes[i].settled ==> AllSynced(v) && Is(v.nodes[i].file, best))
  {
    QuietConverges(w, t, best);
    RunKeepsConverging(w, steps, t, best, w.now);
    var v := Run(w, steps);
    if AllSynced(v) { SyncedIsFinal(v, t, best, w.now); }
    forall i | i in v.nodes && v.nodes[i].settled ensures AllSynced(v) && Is(v.nodes[i].file, best) {
      assert Adopts(v.nodes[i], t, best, AllSynced(v));
    }
  }

  /** There is always a latest removal, and, when every record carries a grant time, a newest record outliving it. */
  lemma OutcomeExists(w: World) returns (t: Option<int>, best: Option<Record>)
    requires w.entry.record.Some? ==> Granted(w.entry.record.value)
    requires forall i <- w.nodes :: w.nodes[i].file.Some? ==> Granted(w.nodes[i].file.value)
    ensures LatestRemoval(w, t) && NewestOutliving(w, t, best)
  {
    t := w.entry.marker;
    var todo := w.nodes.Keys;
    while todo != {}
      invariant todo <= w.nodes.Keys && NoLater(w.entry.marker, t)
      invariant forall i <- w.nodes.Keys - todo :: NoLater(w.nodes[i].removal, t)
      invariant t.Some? ==> w.entry.marker == t || exists i :: i in w.nodes && w.nodes[i].removal == t
    {
      var i :| i in todo;
      t, todo := RemovalTime(t, w.nodes[i].removal), todo - {i};
    }
    best := if w.entry.record.Some? && GrantedAfter(w.entry.record.value, t) then w.entry.record else None;
    todo := w.nodes.Keys;
    while todo != {}
      invariant todo <= w.nodes.Keys && Fits(w.entry.record, t, best)
      invariant forall i <- w.nodes.Keys - todo :: Fits(w.nodes[i].file, t, best)
      invariant best.Some? ==> Granted(best.value) && GrantedAfter(best.value, t)
      invariant best.Some? ==> w.entry.record == best || exists i :: i in w.nodes && w.nodes[i].file == best
    {
      var i :| i in todo;
      var file := w.nodes[i].file;
      todo := todo - {i};
      if file.Some? && GrantedAfter(file.value, t) && (best.None? || CredentialsAreNewer(file.value, best.value)) {
        best := file;
      }
    }
  }

  // Two whole syncs of every instance, in any order, are enough.

  function SyncOf(i: nat): seq<Step> {
    [BeginStep(i), PublishStep(i, Answered), AskStep(i), ListStep(i, Answered), LoadStep(i), PlanStep(i), ApplyStep(i),
     CheckStep(i), PutStep(i, Answered)]
  }

  function Round(order: seq<nat>): seq<Step> {
    if order == [] then [] else Round(order[..|order| - 1]) + SyncOf(order[|order| - 1])
  }

  lemma {:induction false} RunAppends(w: World, a: seq<Step>, b: seq<Step>)
    ensures Run(w, a + b) == Run(Run(w, a), b)
  {
    if b == [] {
      assert a + b == a;
    } else {
      assert (a + b)[..|a + b| - 1] == a + b[..|b| - 1];
      RunAppends(w, a, b[..|b| - 1]);
    }
  }

  /** All `w` has seen since `w0` is steps of instance `i`. */
  ghost predicate OnlyMoved(w0: World, w: World, i: nat) {
    && i in w0.nodes && w.nodes.Keys == w0.nodes.Keys
    && (forall j <- w0.nodes :: j != i ==> w.nodes[j] == w0.nodes[j])
    && (w0.nodes[i].synced ==> w.nodes[i].synced) && (w0.nodes[i].settled ==> w.nodes[i].settled)
  }

  lemma StepMoves(w0: World, w: World, s: Step)
    requires !s.Tick? && OnlyMoved(w0, w, s.i)
    ensures OnlyMoved(w0, Do(w, s), s.i)
    ensures Do(w, s).nodes[s.i] == NodeAfter(w.nodes[s.i], s, w.entry, w.now, AllSynced(w))
    ensures AllSynced(w0) ==> AllSynced(w)
  {
    hide NodeAfter, EntryAfter;
    FlagsStay(w.nodes[s.i], s, w.entry, w.now, AllSynced(w));
  }

  lemma FlagsStay(n: Node, s: Step, e: Registry.Entry, now: int, allSynced: bool)
    requires !s.Tick?
    ensures var m := NodeAfter(n, s, e, now, allSynced);
            (n.synced ==> m.synced) && (n.settled ==> m.settled)
  {
    hide Decide, SaveShared, RemoveShared, GrantedAfter;
  }

  lemma RunOneMore(w: World, steps: seq<Step>, s: Step)
    ensures Run(w, steps + [s]) == Do(Run(w, steps), s)
  {
    assert (steps + [s])[..|steps|] == steps;
  }

  /** Where an undisturbed sync stands before its step `k`: at that step's phase, or done early. */
  predicate At(n: Node, k: nat, late: bool) {
    || (k == 0 && n.phase.Idle?)
    || (k == 1 && n.clean && (n.phase.Publishing? || n.phase.Ready?))
    || (k == 2 && n.clean && n.phase.Ready?)
    || (k == 3 && n.clean && n.phase.Asked?)
    || (k > 3 && n.clean && (late ==> n.late)
        && (match n.phase
            case Fetched(_, _) => k == 4
            case Loaded(_, _, _) => k == 5
            case Planned(_, _) => k == 6
            case Pushing(_) => k == 7
            case Sending(_) => k == 8
            case Idle => k > 6 && n.synced && (late ==> n.settled)
            case _ => false))
  }

  lemma Progress(n: Node, i: nat, k: nat, late: bool, e: Registry.Entry, now: int, allSynced: bool)
    requires k < 9 && At(n, k, late) && (late ==> allSynced)
    ensures At(NodeAfter(n, SyncOf(i)[k], e, now, allSynced), k + 1, late)
  {
    hide Decide, SaveShared, RemoveShared, GrantedAfter;
  }

  lemma SyncIsOf(i: nat, k: nat)
    requires k < 9
    ensures |SyncOf(i)| == 9 && !SyncOf(i)[k].Tick? && SyncOf(i)[k].i == i
  {
  }

  lemma SyncMoves(w: World, u: World, i: nat, k: nat)
    requires k < 9 && OnlyMoved(w, u, i) && At(u.nodes[i], k, AllSynced(w))
    ensures var v := Do(u, SyncOf(i)[k]); OnlyMoved(w, v, i) && At(v.nodes[i], k + 1, AllSynced(w))
  {
    SyncIsOf(i, k);
    Progress(u.nodes[i], i, k, AllSynced(w), u.entry, u.now, AllSynced(u));
    hide Do, NodeAfter, At, AllSynced, SyncOf;
    StepMoves(w, u, SyncOf(i)[k]);
  }

  lemma {:induction false} SyncProgresses(w: World, i: nat, k: nat)
    requires i in w.nodes && w.nodes[i].phase.Idle? && k <= 9
    ensures OnlyMoved(w, Run(w, SyncOf(i)[..k]), i) && At(Run(w, SyncOf(i)[..k]).nodes[i], k, AllSynced(w))
  {
    if k > 0 {
      var steps := SyncOf(i);
      SyncIsOf(i, k - 1);
      hide Do, Run, SyncOf, NodeAfter, At, OnlyMoved, AllSynced;
      assert steps[..k] == steps[..k - 1] + [steps[k - 1]];
      SyncProgresses(w, i, k - 1);
      RunOneMore(w, steps[..k - 1], steps[k - 1]);
      SyncMoves(w, Run(w, steps[..k - 1]), i, k - 1);
    }
  }

  /** An undisturbed sync with every call answered runs to its end, and counts. */
  lemma SyncFinishes(w: World, i: nat)
    requires i in w.nodes && w.nodes[i].phase.Idle?
    ensures var v := Run(w, SyncOf(i));
            OnlyMoved(w, v, i) && v.nodes[i].phase.Idle? && v.nodes[i].synced && (AllSynced(w) ==> v.nodes[i].settled)
  {
    SyncProgresses(w, i, 9);
    assert SyncOf(i)[..9] == SyncOf(i);
  }

  ghost predicate Rested(w: World) {
    forall i <- w.nodes :: w.nodes[i].phase.Idle?
  }

  /** Every instance of `order` has finished a sync between `w` and `v`. */
  ghost predicate RoundDone(w: World, v: World, order: seq<nat>) {
    && Rested(v) && v.nodes.Keys == w.nodes.Keys
    && (forall i <- order :: i in v.nodes && v.nodes[i].synced && (AllSynced(w) ==> v.nodes[i].settled))
    && (forall i <- w.nodes :: w.nodes[i].synced ==> v.nodes[i].synced)
  }

  lemma RoundGoesOn(w: World, u: World, v: World, before: seq<nat>, i: nat)
    requires RoundDone(w, u, before) && OnlyMoved(u, v, i)
    requires v.nodes[i].phase.Idle? && v.nodes[i].synced && (AllSynced(u) ==> v.nodes[i].settled)
    ensures RoundDone(w, v, before + [i])
  {
    forall j | j in v.nodes ensures v.nodes[j].phase.Idle? && (w.nodes[j].synced ==> v.nodes[j].synced) {
      assert j == i || v.nodes[j] == u.nodes[j];
    }
    assert AllSynced(w) ==> AllSynced(u);
    forall j | j in before + [i] ensures j in v.nodes && v.nodes[j].synced && (AllSynced(w) ==> v.nodes[j].settled) {
      assert j == i || v.nodes[j] == u.nodes[j];
    }
  }

  lemma NextRests(w: World, u: World, before: seq<nat>, i: nat)
    requires RoundDone(w, u, before) && i in w.nodes
    ensures i in u.nodes && u.nodes[i].phase.Idle?
  {
  }

  lemma RoundStarts(w: World)
    requires Rested(w)
    ensures RoundDone(w, Run(w, Round([])), [])
  {
  }

  lemma RoundStep(w: World, before: seq<nat>, i: nat)
    requires RoundDone(w, Run(w, Round(before)), before) && i in w.nodes
    ensures RoundDone(w, Run(w, Round(before + [i])), before + [i])
  {
    hide Do, Run, SyncOf, AllSynced, RoundDone, OnlyMoved, Rested;
    var u := Run(w, Round(before));
    NextRests(w, u, before, i);
    assert (before + [i])[..|before|] == before;
    RunAppends(w, Round(before), SyncOf(i));
    SyncFinishes(u, i);
    RoundGoesOn(w, u, Run(u, SyncOf(i)), before, i);
  }

  lemma {:induction false} RoundFinishes(w: World, order: seq<nat>)
    requires Rested(w) && forall i <- order :: i in w.nodes
    ensures RoundDone(w, Run(w, Round(order)), order)
  {
    hide Do, Run, Round, RoundDone, Rested;
    if order == [] {
      RoundStarts(w);
    } else {
      RoundFinishes(w, order[..|order| - 1]);
      RoundStep(w, order[..|order| - 1], order[|order| - 1]);
      assert order == order[..|order| - 1] + [order[|order| - 1]];
    }
  }

  lemma {:induction false} RoundOnlySyncs(order: seq<nat>)
    ensures OnlySyncs(Round(order))
  {
    if order != [] {
      RoundOnlySyncs(order[..|order| - 1]);
    }
  }

  /**
   * After every instance has synced once, in any order, and then every instance once more, in any order, every
   * file and the registry agree on grant and expiry: the newest record granted after the latest removal, or none.
   */
  lemma TwoRoundsConverge(w: World, first: seq<nat>, second: seq<nat>, t: Option<int>, best: Option<Record>)
    requires Quiet(w) && LatestRemoval(w, t) && NewestOutliving(w, t, best)
    requires (forall i :: i in first <==> i in w.nodes) && (forall i :: i in second <==> i in w.nodes)
    ensures var v := Run(w, Round(first) + Round(second));
            && v.nodes.Keys == w.nodes.Keys
            && FinalEntry(v.entry, t, best)
            && forall i <- v.nodes :: Is(v.nodes[i].file, best)
  {
    hide Converging, FinalEntry, Is, LatestRemoval, NewestOutliving;
    var u := Run(w, Round(first));
    RoundFinishes(w, first);
    RoundFinishes(u, second);
    RunAppends(w, Round(first), Round(second));
    RoundOnlySyncs(first);
    RoundOnlySyncs(second);
    SyncsConverge(w, Round(first) + Round(second), t, best);
  }

  // What one login and one removal come to.

  /** Every record anywhere is granted and older than this one. */
  ghost predicate NewestOfAll(w: World, record: Record) {
    && Granted(record)
    && (w.entry.record.Some? ==> Granted(w.entry.record.value) && CredentialsAreNewer(record, w.entry.record.value))
    && forall i <- w.nodes :: w.nodes[i].file.Some? ==>
         Granted(w.nodes[i].file.value) && CredentialsAreNewer(record, w.nodes[i].file.value)
  }

  /** A login, or a refresh, on one instance: two rounds of syncs later every instance and the registry have it. */
  lemma LoginReachesAll(w: World, i: nat, record: Record, t: Option<int>, first: seq<nat>, second: seq<nat>)
    requires Quiet(w) && LatestRemoval(w, t) && NewestOfAll(w, record) && GrantedAfter(record, t)
    requires i in w.nodes
    requires (forall j :: j in first <==> j in w.nodes) && (forall j :: j in second <==> j in w.nodes)
    ensures var v := Run(Do(w, WriteStep(i, record)), Round(first) + Round(second));
            && v.nodes.Keys == w.nodes.Keys && Holds(v.entry.record, Some(record)) && v.entry.marker.None?
            && forall j <- v.nodes :: Holds(v.nodes[j].file, Some(record))
  {
    hide Run, Round;
    var u := Do(w, WriteStep(i, record));
    assert u.entry == w.entry && u.nodes.Keys == w.nodes.Keys;
    forall j <- u.nodes ensures u.nodes[j] == w.nodes[j].(file := u.nodes[j].file) {
    }
    assert u.nodes[i].file == Some(record);
    assert LatestRemoval(u, t) by {
      if t.Some? && w.entry.marker != t {
        var j :| j in w.nodes && w.nodes[j].removal == t;
        assert u.nodes[j].removal == t;
      }
    }
    assert NewestOutliving(u, t, Some(record));
    TwoRoundsConverge(u, first, second, t, Some(record));
  }

  /** No record was granted later than now, nor was any removal. */
  ghost predicate NothingAhead(w: World) {
    && NoLater(w.entry.marker, Some(w.now))
    && (w.entry.record.Some? ==> Granted(w.entry.record.value) && w.entry.record.value.grantedAt.value <= w.now)
    && forall i <- w.nodes ::
         && NoLater(w.nodes[i].removal, Some(w.now))
         && (w.nodes[i].file.Some? ==>
               Granted(w.nodes[i].file.value) && w.nodes[i].file.value.grantedAt.value <= w.now)
  }

  /** An account removed on one instance: after two rounds of syncs no instance has it, nor has the registry. */
  lemma RemovalReachesAll(w: World, i: nat, ms: nat, first: seq<nat>, second: seq<nat>)
    requires Quiet(w) && NothingAhead(w) && i in w.nodes && w.nodes[i].file.Some? && ms > 0
    requires (forall j :: j in first <==> j in w.nodes) && (forall j :: j in second <==> j in w.nodes)
    ensures var v := Run(Do(Do(w, RemoveStep(i)), Tick(ms)), Round(first) + Round(second));
            && v.nodes.Keys == w.nodes.Keys && v.entry.record.None? && v.entry.marker == Some(w.now)
            && forall j <- v.nodes :: v.nodes[j].file.None?
  {
    hide Run, Round;
    var u := Do(Do(w, RemoveStep(i)), Tick(ms));
    assert u.entry == w.entry && u.nodes.Keys == w.nodes.Keys;
    forall j <- u.nodes ensures u.nodes[j] == if j == i then RemoveNode(w.nodes[i], w.now) else w.nodes[j] {
    }
    assert u.nodes[i].removal == Some(w.now);
    assert LatestRemoval(u, Some(w.now));
    assert NewestOutliving(u, Some(w.now), None);
    TwoRoundsConverge(u, first, second, Some(w.now), None);
  }
}
