/**
 * The ChatGPT seats of one process as the code keeps them: files, removals, remembered failures and the refreshes
 * in flight, updated in place by alias. Each method is tied to the step of the seat protocol it takes.
 */
module CodexStore {
  import opened Options
  import opened Credentials
  import opened AccountFiles
  import opened CodexSeats

  class Store {
    var files: map<string, Seat>
    var removals: map<string, int>
    var retryAt: map<string, int>
    var inflight: set<string>

    constructor (files: map<string, Seat>)
      ensures this.files == files && removals == map[] && retryAt == map[] && inflight == {}
    {
      this.files, removals, retryAt, inflight := files, map[], map[], {};
    }

    /** The seat's part of this store, as a world with nothing else in it. */
    ghost function SeatOf(alias: string, w: World): World
      reads this
    {
      w.(file := At(files, alias), removal := At(removals, alias), retryAt := At(retryAt, alias))
    }

    method CommitCodexRefresh(alias: string, before: Seat, updated: Seat) returns (survivor: Option<Seat>)
      modifies this`files
      ensures At(files, alias) == survivor == Commit(At(old(files), alias), before, updated)
      ensures forall other :: other != alias ==> At(files, other) == At(old(files), other)
    {
      if alias !in files { return None; }
      var current := files[alias].record;
      var changed := current.token != before.record.token;
      if changed && (current.grantedAt != before.record.grantedAt || CredentialsAreNewer(current, updated.record)) {
        return Some(files[alias]);
      }
      files := files[alias := updated];
      return Some(updated);
    }

    method SaveSharedCodexAccount(alias: string, creds: Seat, fetchedAt: int, removedAt: Option<int>, ghost w: World)
      returns (saved: bool)
      requires SeatOf(alias, w) == w
      modifies this`files, this`retryAt
      ensures SeatOf(alias, w) == Do(w, SaveStep(creds, fetchedAt, removedAt))
      ensures saved <==> SavesShared(w.file, w.removal, creds, fetchedAt, removedAt)
      ensures forall other :: other != alias ==>
              At(files, other) == At(old(files), other) && At(retryAt, other) == At(old(retryAt), other)
    {
      saved := false;
      if alias in removals && removals[alias] >= fetchedAt { return; }
      if alias in files && GrantedAfter(files[alias].record, removedAt)
          && !CredentialsAreNewer(creds.record, files[alias].record) { return; }
      files := files[alias := creds];
      retryAt := retryAt - {alias};
      saved := true;
    }

    method RemoveSharedCodexAccount(alias: string, removedAt: int, ghost w: World) returns (removed: bool)
      requires SeatOf(alias, w) == w
      modifies this`files, this`retryAt
      ensures SeatOf(alias, w) == Do(w, DropStep(removedAt))
      ensures removed <==> w.file.Some? && alias !in files
      ensures forall other :: other != alias ==>
              At(files, other) == At(old(files), other) && At(retryAt, other) == At(old(retryAt), other)
    {
      removed := alias in files && !GrantedAfter(files[alias].record, Some(removedAt));
      if removed {
        files := files - {alias};
        retryAt := retryAt - {alias};
      }
    }

    method RemoveCodexAccount(alias: string, now: int, ghost w: World) returns (removed: bool)
      requires SeatOf(alias, w) == w && w.now == now
      modifies this`files, this`removals, this`retryAt
      ensures SeatOf(alias, w) == Do(w, RemoveStep)
      ensures removed <==> w.file.Some?
      ensures forall other :: other != alias ==>
              At(files, other) == At(old(files), other) && At(removals, other) == At(old(removals), other)
    {
      removed := alias in files;
      if removed {
        files := files - {alias};
        removals := removals[alias := now];
        retryAt := retryAt - {alias};
      }
    }

    /** Whether a token request goes out: none while one is in flight or a failure is remembered. */
    method RefreshNow(alias: string, k: nat, creds: Seat, now: int, ghost w: World) returns (starts: bool)
      requires SeatOf(alias, w) == w && w.now == now && (alias in inflight <==> w.inflight.Some?) && k !in w.refreshes
      modifies this`inflight
      ensures starts <==> Do(w, ForceStep(k, creds)).requests == w.requests + 1
      ensures alias in inflight <==> Do(w, ForceStep(k, creds)).inflight.Some?
      ensures inflight - {alias} == old(inflight) - {alias}
    {
      starts := false;
      if alias in inflight { return; }
      if alias in retryAt && now < retryAt[alias] { return; }
      inflight := inflight + {alias};
      starts := true;
    }

    /** Fresh credentials clear the remembered failure and need no request; others are refreshed. */
    method GetFreshCodexAccount(alias: string, k: nat, creds: Seat, now: int, ghost w: World) returns (starts: bool)
      requires SeatOf(alias, w) == w && w.now == now && (alias in inflight <==> w.inflight.Some?) && k !in w.refreshes
      modifies this`inflight, this`retryAt
      ensures starts <==> Do(w, FreshStep(k, creds)).requests == w.requests + 1
      ensures alias in inflight <==> Do(w, FreshStep(k, creds)).inflight.Some?
      ensures At(retryAt, alias) == Do(w, FreshStep(k, creds)).retryAt
      ensures forall other :: other != alias ==> At(retryAt, other) == At(old(retryAt), other)
    {
      starts := false;
      if now < creds.record.expiresAt - REFRESH_BUFFER_MS {
        retryAt := retryAt - {alias};
      } else {
        starts := RefreshNow(alias, k, creds, now, w);
      }
    }

    /** A failed request is remembered against the seat for the cool-down. */
    method NoteRefreshFailure(alias: string, k: nat, now: int, ghost w: World)
      requires SeatOf(alias, w) == w && w.now == now && k in w.refreshes && w.refreshes[k].Requesting?
      modifies this`inflight, this`retryAt
      ensures At(retryAt, alias) == Do(w, FailStep(k)).retryAt && alias !in inflight
      ensures forall other :: other != alias ==> At(retryAt, other) == At(old(retryAt), other)
    {
      retryAt := retryAt[alias := now + REFRESH_FAILURE_TTL_MS];
      inflight := inflight - {alias};
    }
  }
}
