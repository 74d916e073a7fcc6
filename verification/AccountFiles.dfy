/**
 * The account files of one process and the plan of one sync over all of them, as the code keeps them: maps
 * updated in place. Each method is tied, alias by alias, to the rule the sync protocol is proved for.
 */
module AccountFiles {
  import opened Options
  import opened Credentials
  import opened SyncRule

  function At<V>(m: map<string, V>, alias: string): Option<V> {
    if alias in m then Some(m[alias]) else None
  }

  class AccountStore {
    var files: map<string, Record>
    var localRemovals: map<string, int>

    constructor (files: map<string, Record>)
      ensures this.files == files && localRemovals == map[]
    {
      this.files, localRemovals := files, map[];
    }

    method SaveAccount(alias: string, creds: Record)
      modifies this
      ensures files == old(files)[alias := creds] && localRemovals == old(localRemovals)
    {
      files := files[alias := creds];
    }

    /** A removal is recorded only when there was a file to remove. */
    method RemoveAccount(alias: string, now: int) returns (removed: bool)
      modifies this
      ensures removed <==> alias in old(files)
      ensures files == old(files) - {alias}
      ensures localRemovals == if removed then old(localRemovals)[alias := now] else old(localRemovals)
    {
      removed := alias in files;
      if removed {
        files := files - {alias};
        localRemovals := localRemovals[alias := now];
      }
    }

    method SaveSharedAccount(alias: string, creds: Record, fetchedAt: int, removedAt: Option<int>)
      returns (saved: bool, replaced: Option<Record>)
      modifies this
      ensures At(files, alias)
              == SaveShared(At(old(files), alias), At(localRemovals, alias), creds, fetchedAt, removedAt)
      ensures forall other :: other != alias ==> At(files, other) == At(old(files), other)
      ensures localRemovals == old(localRemovals)
      ensures saved ==> At(files, alias) == Some(creds) && replaced == At(old(files), alias)
      ensures !saved ==> files == old(files) && replaced.None?
    {
      saved, replaced := false, None;
      if alias in localRemovals && localRemovals[alias] >= fetchedAt { return; }
      if alias in files && GrantedAfter(files[alias], removedAt) && !CredentialsAreNewer(creds, files[alias]) {
        return;
      }
      saved, replaced := true, At(files, alias);
      files := files[alias := creds];
    }

    method RemoveSharedAccount(alias: string, removedAt: int) returns (removed: bool)
      modifies this
      ensures At(files, alias) == RemoveShared(At(old(files), alias), removedAt)
      ensures forall other :: other != alias ==> At(files, other) == At(old(files), other)
      ensures localRemovals == old(localRemovals)
      ensures removed <==> alias in old(files) && alias !in files
    {
      removed := alias in files && !GrantedAfter(files[alias], Some(removedAt));
      if removed { files := files - {alias}; }
    }
  }

  datatype Plan = Plan(save: map<string, (Record, Option<int>)>, remove: map<string, int>, push: map<string, Record>)

  /** What a plan says to do with an alias. */
  predicate Says(plan: Plan, alias: string, action: Action) {
    && (alias in plan.save <==> action.Save?) && (action.Save? ==> plan.save[alias] == (action.creds, action.removedAt))
    && (alias in plan.remove <==> action.Delete?) && (action.Delete? ==> plan.remove[alias] == action.since)
    && (alias in plan.push <==> action.Push?) && (action.Push? ==> plan.push[alias] == action.creds)
  }

  /** One pass over the aliases either side knows; each ends in at most one of the three lists. */
  method PlanAccountSync(local: map<string, Record>, registry: map<string, Record>, markers: map<string, int>,
                         localRemovals: map<string, int>) returns (plan: Plan)
    ensures forall alias :: Says(plan, alias,
              Decide(At(local, alias), At(registry, alias), At(markers, alias), At(localRemovals, alias)))
  {
    plan := Plan(map[], map[], map[]);
    var todo := local.Keys + registry.Keys;
    while todo != {}
      invariant todo <= local.Keys + registry.Keys
      invariant forall alias :: Says(plan, alias,
                  if alias in todo then Nothing
                  else Decide(At(local, alias), At(registry, alias), At(markers, alias), At(localRemovals, alias)))
    {
      var alias :| alias in todo;
      todo := todo - {alias};
      var removedAt := RemovalTime(At(markers, alias), At(localRemovals, alias));
      var mineCounts := alias in local && GrantedAfter(local[alias], removedAt);
      var theirsCount := alias in registry && GrantedAfter(registry[alias], removedAt);
      if theirsCount && (!mineCounts || CredentialsAreNewer(registry[alias], local[alias])) {
        plan := plan.(save := plan.save[alias := (registry[alias], removedAt)]);
      } else if mineCounts {
        if !theirsCount || CredentialsAreNewer(local[alias], registry[alias]) {
          plan := plan.(push := plan.push[alias := local[alias]]);
        }
      } else if alias in local && removedAt.Some? {
        plan := plan.(remove := plan.remove[alias := removedAt.value]);
      }
    }
  }
}
