/**
 * Any number of instances syncing one alias with the registry. A sync is cut into steps at every await: publish
 * the removal made here, list the registry, load the file, plan, apply the plan to the file, check and push.
 * Steps of different instances, removals, writes of the file by logins and refreshes, and the clock interleave
 * freely; calls may be lost on the way there or on the way back.
 */
module SyncWorld {
  import opened Options
  import opened Credentials
  import Registry
  import opened SyncRule

  datatype Phase =
    | Idle
    | Publishing(removedAt: int)
    | Ready
    | Asked(at: int)
    | Fetched(at: int, seen: Registry.Entry)
    | Loaded(at: int, seen: Registry.Entry, local: Option<Record>)
    | Planned(at: int, action: Action)
    | Pushing(creds: Record)
    | Sending(creds: Record)

  /**
   * `removal` is the last removal made here, `published` the last one the registry acknowledged. The flags only
   * watch: `clean` while every call of the running sync was answered, `late` when it listed the registry after
   * every instance had synced, `synced` and `settled` once a clean sync, a clean late sync has finished.
   */
  datatype Node = Node(file: Option<Record>, removal: Option<int>, published: Option<int>, phase: Phase,
                       clean: bool, late: bool, synced: bool, settled: bool)

  datatype World = World(entry: Registry.Entry, nodes: map<nat, Node>, now: int)

  /** A call is answered, is lost before the service sees it, or is carried out but its answer is lost. */
  datatype Call = Answered | LostRequest | LostReply

  datatype Step =
    | BeginStep(i: nat)
    | PublishStep(i: nat, call: Call)
    | AskStep(i: nat)
    | ListStep(i: nat, call: Call)
    | LoadStep(i: nat)
    | PlanStep(i: nat)
    | ApplyStep(i: nat)
    | CheckStep(i: nat)
    | PutStep(i: nat, call: Call)
    | RemoveStep(i: nat)                 // an account removed on this instance
    | WriteStep(i: nat, record: Record)  // a login, or a token refresh
    | Tick(ms: nat)

  predicate AllSynced(w: World) {
    forall i <- w.nodes :: w.nodes[i].synced
  }

  function Finish(n: Node): Node {
    n.(phase := Idle, synced := n.synced || n.clean, settled := n.settled || (n.clean && n.late))
  }

  /** Removals first: one the registry has acknowledged, or a later one, is not sent again. */
  function BeginNode(n: Node): Node {
    if n.removal.None? || (n.published.Some? && n.published.value >= n.removal.value)
    then n.(phase := Ready, clean := true, late := false)
    else n.(phase := Publishing(n.removal.value), clean := true, late := false)
  }

  function PublishNode(n: Node, call: Call): Node
    requires n.phase.Publishing?
  {
    if call.Answered? then n.(phase := Ready, published := Some(n.phase.removedAt))
    else n.(phase := Ready, clean := false)
  }

  function ListNode(n: Node, call: Call, e: Registry.Entry, allSynced: bool): Node
    requires n.phase.Asked?
  {
    if call.Answered? then n.(phase := Fetched(n.phase.at, e), late := allSynced) else n.(phase := Idle)
  }

  function PlanNode(n: Node): Node
    requires n.phase.Loaded?
  {
    n.(phase := Planned(n.phase.at, Decide(n.phase.local, n.phase.seen.record, n.phase.seen.marker, n.removal)))
  }

  function ApplyNode(n: Node): Node
    requires n.phase.Planned?
  {
    match n.phase.action
    case Nothing => Finish(n)
    case Save(creds, removedAt) => Finish(n.(file := SaveShared(n.file, n.removal, creds, n.phase.at, removedAt)))
    case Delete(removedAt) => Finish(n.(file := RemoveShared(n.file, removedAt)))
    case Push(creds) => n.(phase := Pushing(creds))
  }

  /** A removal made here since the plan holds the push back until the next sync. */
  function CheckNode(n: Node): Node
    requires n.phase.Pushing?
  {
    if GrantedAfter(n.phase.creds, n.removal) then n.(phase := Sending(n.phase.creds)) else Finish(n)
  }

  function PutNode(n: Node, call: Call): Node {
    Finish(n.(clean := n.clean && call.Answered?))
  }

  function RemoveNode(n: Node, now: int): Node {
    if n.file.Some? then n.(file := None, removal := Some(now)) else n
  }

  /** The steps up to the loading of the file, which leave files alone. */
  predicate Gathers(s: Step) {
    s.BeginStep? || s.PublishStep? || s.AskStep? || s.ListStep? || s.LoadStep?
  }

  /** What a step makes of the instance that takes it; a step that is not enabled changes nothing. */
  function NodeAfter(n: Node, s: Step, e: Registry.Entry, now: int, allSynced: bool): Node
    requires !s.Tick?
  {
    match s
    case BeginStep(_) => if n.phase.Idle? then BeginNode(n) else n
    case PublishStep(_, call) => if n.phase.Publishing? then PublishNode(n, call) else n
    case AskStep(_) => if n.phase.Ready? then n.(phase := Asked(now)) else n
    case ListStep(_, call) => if n.phase.Asked? then ListNode(n, call, e, allSynced) else n
    case LoadStep(_) => if n.phase.Fetched? then n.(phase := Loaded(n.phase.at, n.phase.seen, n.file)) else n
    case PlanStep(_) => if n.phase.Loaded? then PlanNode(n) else n
    case ApplyStep(_) => if n.phase.Planned? then ApplyNode(n) else n
    case CheckStep(_) => if n.phase.Pushing? then CheckNode(n) else n
    case PutStep(_, call) => if n.phase.Sending? then PutNode(n, call) else n
    case RemoveStep(_) => RemoveNode(n, now)
    case WriteStep(_, record) => n.(file := Some(record))
  }

  /** What it makes of the registry: only a publish or a put that arrives does anything. */
  function EntryAfter(e: Registry.Entry, s: Step, n: Node): Registry.Entry {
    if s.PublishStep? && n.phase.Publishing? && !s.call.LostRequest? then Registry.Remove(e, n.phase.removedAt)
    else if s.PutStep? && n.phase.Sending? && !s.call.LostRequest? then Registry.Put(e, n.phase.creds)
    else e
  }

  function Do(w: World, s: Step): World {
    if s.Tick? then w.(now := w.now + s.ms)
    else if s.i !in w.nodes then w
    else
      var n := w.nodes[s.i];
      World(EntryAfter(w.entry, s, n), w.nodes[s.i := NodeAfter(n, s, w.entry, w.now, AllSynced(w))], w.now)
  }

  function Run(w: World, steps: seq<Step>): World {
    if steps == [] then w else Do(Run(w, steps[..|steps| - 1]), steps[|steps| - 1])
  }

  /** Processes just started: no removal made, no sync begun; files and registry as they may be. */
  ghost predicate Started(w: World) {
    forall i <- w.nodes :: w.nodes[i] == Node(w.nodes[i].file, None, None, Idle, false, false, false, false)
  }

  // A sync never puts back what this process removed.

  /**
   * A save in hand is of a record that outlives the last removal here, or that removal came after the list was asked
   * for.
   */
  ghost predicate SaveSafe(n: Node, now: int) {
    && (n.removal.Some? ==> n.removal.value <= now)
    && (n.phase.Asked? || n.phase.Fetched? || n.phase.Loaded? || n.phase.Planned? ==> n.phase.at <= now)
    && (n.phase.Planned? && n.phase.action.Save? ==>
          || (n.removal.Some? && n.removal.value >= n.phase.at)
          || GrantedAfter(n.phase.action.creds, n.removal))
  }

  ghost predicate SavesSafe(w: World) {
    forall i <- w.nodes :: SaveSafe(w.nodes[i], w.now)
  }

  lemma NodeKeepsSaveSafe(n: Node, s: Step, e: Registry.Entry, now: int, allSynced: bool)
    requires !s.Tick? && SaveSafe(n, now)
    ensures SaveSafe(NodeAfter(n, s, e, now, allSynced), now)
  {
    if s.PlanStep? && n.phase.Loaded? && n.phase.seen.record.Some? {
      OutlivesLater(n.phase.seen.record.value, n.phase.seen.marker, n.removal);
    }
  }

  lemma {:induction false} RunKeepsSavesSafe(w: World, steps: seq<Step>)
    requires SavesSafe(w)
    ensures Run(w, steps).nodes.Keys == w.nodes.Keys
    ensures SavesSafe(Run(w, steps))
  {
    if steps != [] {
      var v, s := Run(w, steps[..|steps| - 1]), steps[|steps| - 1];
      RunKeepsSavesSafe(w, steps[..|steps| - 1]);
      forall i <- Do(v, s).nodes ensures SaveSafe(Do(v, s).nodes[i], Do(v, s).now) {
        assert SaveSafe(v.nodes[i], v.now);
        if !s.Tick? && s.i == i { NodeKeepsSaveSafe(v.nodes[i], s, v.entry, v.now, AllSynced(v)); }
      }
    }
  }

  /** What instance `i` has removed is gone: whatever its file holds was granted after its last removal. */
  predicate StaysRemoved(n: Node) {
    n.file.Some? ==> GrantedAfter(n.file.value, n.removal)
  }

  /** No login or refresh in the run writes instance `i`'s file a record its last removal, by then, covers. */
  predicate WritesOutlive(w: World, steps: seq<Step>, i: nat) {
    steps == [] ||
    (var v, s := Run(w, steps[..|steps| - 1]), steps[|steps| - 1];
      && WritesOutlive(w, steps[..|steps| - 1], i)
      && (s.WriteStep? && s.i == i && i in v.nodes ==> GrantedAfter(s.record, v.nodes[i].removal)))
  }

  lemma NodeStaysRemoved(n: Node, s: Step, e: Registry.Entry, now: int, allSynced: bool)
    requires !s.Tick? && SaveSafe(n, now) && StaysRemoved(n)
    requires s.WriteStep? ==> GrantedAfter(s.record, n.removal)
    ensures StaysRemoved(NodeAfter(n, s, e, now, allSynced))
  {
  }

  /**
   * A sync never puts back what this process removed: over every interleaving of the steps of any number of
   * instances, with removals here at any moment, the file never again holds a record granted at or before the
   * latest removal, unless a login or a refresh wrote one there.
   */
  lemma {:induction false} SyncsNeverPutBack(w: World, steps: seq<Step>, i: nat)
    requires SavesSafe(w) && i in w.nodes && StaysRemoved(w.nodes[i])
    requires WritesOutlive(w, steps, i)
    ensures i in Run(w, steps).nodes && StaysRemoved(Run(w, steps).nodes[i])
  {
    RunKeepsSavesSafe(w, steps);
    if steps != [] {
      var v, s := Run(w, steps[..|steps| - 1]), steps[|steps| - 1];
      SyncsNeverPutBack(w, steps[..|steps| - 1], i);
      RunKeepsSavesSafe(w, steps[..|steps| - 1]);
      assert SaveSafe(v.nodes[i], v.now);
      if !s.Tick? && s.i == i { NodeStaysRemoved(v.nodes[i], s, v.entry, v.now, AllSynced(v)); }
    }
  }

  lemma StartedIsSafe(w: World)
    requires Started(w)
    ensures SavesSafe(w) && forall i <- w.nodes :: StaysRemoved(w.nodes[i])
  {
  }

  // What the registry acknowledged stays removed there.

  ghost predicate RecordsGranted(n: Node) {
    && (n.file.Some? ==> Granted(n.file.value))
    && (n.phase.Fetched? || n.phase.Loaded? ==> (n.phase.seen.record.Some? ==> Granted(n.phase.seen.record.value)))
    && (n.phase.Loaded? ==> (n.phase.local.Some? ==> Granted(n.phase.local.value)))
    && (n.phase.Planned? && (n.phase.action.Save? || n.phase.action.Push?) ==> Granted(n.phase.action.creds))
    && (n.phase.Pushing? || n.phase.Sending? ==> Granted(n.phase.creds))
  }

  /** Every record anywhere carries a grant time, and every removal the registry acknowledged still stands there. */
  ghost predicate Standing(w: World) {
    && Registry.Exclusive(w.entry)
    && (w.entry.record.Some? ==> Granted(w.entry.record.value))
    && forall i <- w.nodes ::
         && RecordsGranted(w.nodes[i])
         && (w.nodes[i].published.Some? ==> Registry.Covers(w.entry, w.nodes[i].published.value))
  }

  lemma EntryKeepsStanding(w: World, s: Step)
    requires Standing(w) && !s.Tick? && s.i in w.nodes
    ensures var e := EntryAfter(w.entry, s, w.nodes[s.i]);
            && Registry.Exclusive(e) && (e.record.Some? ==> Granted(e.record.value))
            && (forall t :: Registry.Covers(w.entry, t) ==> Registry.Covers(e, t))
            && (s.PublishStep? && w.nodes[s.i].phase.Publishing? && !s.call.LostRequest? ==>
                  Registry.Covers(e, w.nodes[s.i].phase.removedAt))
  {
    var n := w.nodes[s.i];
    if s.PublishStep? && n.phase.Publishing? && !s.call.LostRequest? {
      Registry.RemoveCovers(w.entry, n.phase.removedAt);
    } else if s.PutStep? && n.phase.Sending? && !s.call.LostRequest? {
      forall t | Registry.Covers(w.entry, t) ensures Registry.Covers(Registry.Put(w.entry, n.phase.creds), t) {
        Registry.PutKeepsRemovalIff(w.entry, n.phase.creds, t);
      }
    }
  }

  lemma NodeKeepsGranted(n: Node, s: Step, e: Registry.Entry, now: int, allSynced: bool)
    requires !s.Tick? && RecordsGranted(n) && (e.record.Some? ==> Granted(e.record.value))
    requires s.WriteStep? ==> Granted(s.record)
    ensures RecordsGranted(NodeAfter(n, s, e, now, allSynced))
  {
    hide Decide, SaveShared, RemoveShared;
    if Gathers(s) {
      GatheringKeepsGranted(n, s, e, now, allSynced);
    } else if s.PlanStep? && n.phase.Loaded? {
      PlanKeepsGranted(n, s, e, now, allSynced);
    } else if s.ApplyStep? && n.phase.Planned? {
      FileWrites(n);
    }
  }

  lemma GatheringKeepsGranted(n: Node, s: Step, e: Registry.Entry, now: int, allSynced: bool)
    requires Gathers(s) && RecordsGranted(n) && (e.record.Some? ==> Granted(e.record.value))
    ensures RecordsGranted(NodeAfter(n, s, e, now, allSynced))
  {
    hide Granted;
  }

  lemma PlanKeepsGranted(n: Node, s: Step, e: Registry.Entry, now: int, allSynced: bool)
    requires RecordsGranted(n) && s.PlanStep? && n.phase.Loaded?
    ensures RecordsGranted(NodeAfter(n, s, e, now, allSynced))
  {
    hide Decide;
    DecideTakes(n.phase.local, n.phase.seen.record, n.phase.seen.marker, n.removal);
  }

  lemma FileWrites(n: Node)
    requires n.phase.Planned?
    ensures var file := ApplyNode(n).file;
            file.None? || file == n.file || (n.phase.action.Save? && file == Some(n.phase.action.creds))
  {
  }

  lemma NodePublishes(n: Node, s: Step, e: Registry.Entry, now: int, allSynced: bool)
    requires !s.Tick?
    ensures var m := NodeAfter(n, s, e, now, allSynced);
            m.published == n.published ||
            (s.PublishStep? && n.phase.Publishing? && !s.call.LostRequest? && m.published == Some(n.phase.removedAt))
  {
  }

  lemma DoKeepsStanding(w: World, s: Step)
    requires Standing(w) && (s.WriteStep? ==> Granted(s.record))
    ensures Standing(Do(w, s))
  {
    if !s.Tick? && s.i in w.nodes {
      hide NodeAfter, EntryAfter, Registry.Covers;
      EntryKeepsStanding(w, s);
      NodeKeepsGranted(w.nodes[s.i], s, w.entry, w.now, AllSynced(w));
      NodePublishes(w.nodes[s.i], s, w.entry, w.now, AllSynced(w));
    }
  }

  /**
   * Over every interleaving in which the records written carry grant times, a removal the registry acknowledged
   * to an instance still stands there at the end: the alias holds a later grant or a marker at least as late.
   */
  lemma {:induction false} AcknowledgedRemovalsStand(w: World, steps: seq<Step>)
    requires Standing(w)
    requires forall s <- steps :: s.WriteStep? ==> Granted(s.record)
    ensures Standing(Run(w, steps))
  {
    if steps != [] {
      AcknowledgedRemovalsStand(w, steps[..|steps| - 1]);
      DoKeepsStanding(Run(w, steps[..|steps| - 1]), steps[|steps| - 1]);
    }
  }

  // What was removed here does not go out.

  /** A check lets a record through to the registry exactly when it outlives the last removal here, at that moment. */
  predicate ChecksHeed(w: World, s: Step) {
    s.CheckStep? && s.i in w.nodes && w.nodes[s.i].phase.Pushing? ==>
      var n, m := w.nodes[s.i], Do(w, s).nodes[s.i];
      && (m.phase == Sending(n.phase.creds) <==> GrantedAfter(n.phase.creds, n.removal))
      && (m.phase.Sending? || m.phase.Idle?)
  }

  lemma CheckHeeds(w: World, s: Step)
    ensures ChecksHeed(w, s)
  {
  }

  /** Nothing but a check has an instance send. */
  lemma OnlyChecksSend(n: Node, s: Step, e: Registry.Entry, now: int, allSynced: bool)
    requires !s.Tick? && NodeAfter(n, s, e, now, allSynced).phase.Sending?
    ensures var creds := NodeAfter(n, s, e, now, allSynced).phase.creds;
            n.phase == Sending(creds) || (s.CheckStep? && n.phase == Pushing(creds) && GrantedAfter(creds, n.removal))
  {
    hide GrantedAfter, Decide, SaveShared, RemoveShared;
  }

  /** The record has been on its way ever since the check that sent it. */
  ghost predicate SentBy(w: World, steps: seq<Step>, i: nat, creds: Record, c: nat)
    requires c < |steps|
  {
    var v := Run(w, steps[..c]);
    && steps[c] == CheckStep(i) && i in v.nodes
    && v.nodes[i].phase == Pushing(creds) && GrantedAfter(creds, v.nodes[i].removal)
    && SendingSince(w, steps, i, creds, c + 1)
  }

  ghost predicate SendingSince(w: World, steps: seq<Step>, i: nat, creds: Record, n: nat)
    requires n <= |steps|
  {
    forall d :: n <= d <= |steps| ==>
      i in Run(w, steps[..d]).nodes && Run(w, steps[..d]).nodes[i].phase == Sending(creds)
  }

  /**
   * Over every interleaving: whatever an instance is sending to the registry was let through by a check it outlived the
   * last removal at, and has been on its way ever since; or it has been on its way since before the run.
   */
  lemma {:induction false} SentOutlived(w: World, steps: seq<Step>, i: nat, creds: Record)
    requires i in Run(w, steps).nodes && Run(w, steps).nodes[i].phase == Sending(creds)
    ensures SendingSince(w, steps, i, creds, 0) || exists c | 0 <= c < |steps| :: SentBy(w, steps, i, creds, c)
  {
    assert steps[..|steps|] == steps;
    if steps != [] {
      var before, s := steps[..|steps| - 1], steps[|steps| - 1];
      var v := Run(w, before);
      assert steps == before + [s] && forall d | 0 <= d <= |before| :: before[..d] == steps[..d];
      hide GrantedAfter, NodeAfter, EntryAfter, SentBy;
      if s.Tick? || s.i != i {
        SentOutlived(w, before, i, creds);
        SentGoesOn(w, before, s, i, creds);
      } else {
        OnlyChecksSend(v.nodes[i], s, v.entry, v.now, AllSynced(v));
        if v.nodes[i].phase == Sending(creds) {
          SentOutlived(w, before, i, creds);
          SentGoesOn(w, before, s, i, creds);
        } else {
          JustSent(w, before, s, i, creds);
        }
      }
    }
  }

  lemma JustSent(w: World, before: seq<Step>, s: Step, i: nat, creds: Record)
    requires s == CheckStep(i) && i in Run(w, before).nodes
    requires var n := Run(w, before).nodes[i]; n.phase == Pushing(creds) && GrantedAfter(creds, n.removal)
    requires i in Run(w, before + [s]).nodes && Run(w, before + [s]).nodes[i].phase == Sending(creds)
    ensures SentBy(w, before + [s], i, creds, |before|)
  {
    hide Run, GrantedAfter;
    var steps := before + [s];
    assert steps[..|before|] == before && steps[..|steps|] == steps;
  }

  lemma SentGoesOn(w: World, before: seq<Step>, s: Step, i: nat, creds: Record)
    requires SendingSince(w, before, i, creds, 0) || exists c | 0 <= c < |before| :: SentBy(w, before, i, creds, c)
    requires i in Run(w, before + [s]).nodes && Run(w, before + [s]).nodes[i].phase == Sending(creds)
    ensures var steps := before + [s];
            SendingSince(w, steps, i, creds, 0) || exists c | 0 <= c < |steps| :: SentBy(w, steps, i, creds, c)
  {
    var steps := before + [s];
    hide Run, GrantedAfter;
    assert steps[..|steps|] == steps;
    assert forall d | 0 <= d <= |before| :: before[..d] == steps[..d];
    if c :| 0 <= c < |before| && SentBy(w, before, i, creds, c) {
      assert SendingSince(w, steps, i, creds, c + 1);
      assert SentBy(w, steps, i, creds, c);
    }
  }

  /** Removals here only get later. */
  lemma {:induction false} RemovalsGetLater(w: World, steps: seq<Step>, n: nat, i: nat)
    requires SavesSafe(w) && i in w.nodes && n <= |steps|
    ensures i in Run(w, steps[..n]).nodes && i in Run(w, steps).nodes
    ensures forall r :: GrantedAfter(r, Run(w, steps).nodes[i].removal) ==>
              GrantedAfter(r, Run(w, steps[..n]).nodes[i].removal)
    decreases |steps| - n
  {
    RunKeepsSavesSafe(w, steps[..n]);
    RunKeepsSavesSafe(w, steps);
    if n == |steps| {
      assert steps[..n] == steps;
    } else {
      RemovalsGetLater(w, steps, n + 1, i);
      assert steps[..n + 1][..n] == steps[..n] && steps[..n + 1][n] == steps[n];
      var v := Run(w, steps[..n]);
      assert SaveSafe(v.nodes[i], v.now);
      OneRemovalLater(v, steps[n], i);
    }
  }

  lemma OneRemovalLater(v: World, s: Step, i: nat)
    requires i in v.nodes && SaveSafe(v.nodes[i], v.now)
    ensures forall r :: GrantedAfter(r, Do(v, s).nodes[i].removal) ==> GrantedAfter(r, v.nodes[i].removal)
  {
  }

  /**
   * So no sync puts back in the registry what was removed here before it checked: from the removal on, a record granted
   * no later is being sent only if it already was, and has been ever since.
   */
  lemma RemovedIsNotSent(w: World, steps: seq<Step>, n: nat, i: nat, creds: Record)
    requires SavesSafe(w) && i in w.nodes && n <= |steps|
    requires i in Run(w, steps[..n]).nodes && !GrantedAfter(creds, Run(w, steps[..n]).nodes[i].removal)
    requires i in Run(w, steps).nodes && Run(w, steps).nodes[i].phase == Sending(creds)
    ensures SendingSince(w, steps, i, creds, n)
  {
    SentOutlived(w, steps, i, creds);
    hide Run, GrantedAfter, SavesSafe;
    if c :| 0 <= c < |steps| && SentBy(w, steps, i, creds, c) {
      if n <= c {
        assert steps[..c][..n] == steps[..n];
        RemovalsGetLater(w, steps[..c], n, i);
      }
    }
  }

  /** The account removed while its push waited for the check: nothing goes out, however the put is called. */
  lemma RemovedWhilePushing(w: World, i: nat, call: Call)
    requires i in w.nodes && w.nodes[i].phase.Pushing? && w.nodes[i].file.Some?
    requires var r := w.nodes[i].phase.creds; r.grantedAt.Some? ==> r.grantedAt.value <= w.now
    ensures var v := Do(Do(Do(w, RemoveStep(i)), CheckStep(i)), PutStep(i, call));
            v.entry == w.entry && v.nodes[i].phase.Idle? && v.nodes[i].file.None?
  {
  }

  // What a sync remembers and gives up.

  /**
   * A removal is sent to the registry unless it, or a later one, was acknowledged; one that is answered is remembered
   * as acknowledged, and one that is not leaves the sync unclean.
   */
  lemma PublicationsAreRemembered(n: Node, e: Registry.Entry, i: nat, call: Call, now: int, allSynced: bool)
    ensures n.phase.Idle? ==>
              var m := NodeAfter(n, BeginStep(i), e, now, allSynced);
              && (m.phase.Publishing? <==>
                    n.removal.Some? && (n.published.None? || n.published.value < n.removal.value))
              && (m.phase.Publishing? ==> m.phase.removedAt == n.removal.value)
              && (!m.phase.Publishing? ==> m.phase.Ready?) && m.clean && !m.late && m.file == n.file
    ensures n.phase.Publishing? ==>
              var m := NodeAfter(n, PublishStep(i, call), e, now, allSynced);
              && m.phase.Ready? && m.file == n.file
              && (call.Answered? ==> m.published == Some(n.phase.removedAt) && m.clean == n.clean)
              && (!call.Answered? ==> m.published == n.published && !m.clean)
  {
  }

  /** A removal here is remembered at its time, and only when there was a file to remove. */
  lemma RemovalsAreRemembered(n: Node, e: Registry.Entry, i: nat, now: int, allSynced: bool)
    ensures var m := NodeAfter(n, RemoveStep(i), e, now, allSynced);
            && m.file.None? && m.phase == n.phase && m.published == n.published
            && m.removal == if n.file.Some? then Some(now) else n.removal
  {
  }

  /** A list that does not come ends the sync with nothing done; one that does is gone on with as it was. */
  lemma ListsAreTaken(n: Node, e: Registry.Entry, i: nat, call: Call, now: int, allSynced: bool)
    requires n.phase.Asked?
    ensures var m := NodeAfter(n, ListStep(i, call), e, now, allSynced);
            && m.file == n.file && m.removal == n.removal && m.synced == n.synced && m.settled == n.settled
            && (call.Answered? ==> m.phase == Fetched(n.phase.at, e) && (m.late <==> allSynced))
            && (!call.Answered? ==> m.phase.Idle?)
  {
  }

  /** A sync finishes clean only when every call of it was answered, and counts as settled only when it was late too. */
  lemma SyncsCount(n: Node, e: Registry.Entry, i: nat, call: Call, now: int, allSynced: bool)
    requires n.phase.Sending?
    ensures var m := NodeAfter(n, PutStep(i, call), e, now, allSynced);
            && m.phase.Idle? && m.file == n.file
            && (m.synced <==> n.synced || (n.clean && call.Answered?))
            && (m.settled <==> n.settled || (n.clean && call.Answered? && n.late))
  {
  }
}
