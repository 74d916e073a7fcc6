/** The merge rule of one alias, and the two guarded writes a sync makes to its file. */
module SyncRule {
  import opened Options
  import opened Credentials
  import Registry

  /** What a sync does with one alias. */
  datatype Action = Nothing | Save(creds: Record, removedAt: Option<int>) | Delete(since: int) | Push(creds: Record)

  /** Of the records that outlive the latest removal the newer wins; a file none outlives is removed. */
  function Decide(mine: Option<Record>, theirs: Option<Record>, marker: Option<int>,
      localRemoval: Option<int>): Action {
    var removedAt := RemovalTime(marker, localRemoval);
    var mineCounts := mine.Some? && GrantedAfter(mine.value, removedAt);
    var theirsCount := theirs.Some? && GrantedAfter(theirs.value, removedAt);
    if theirsCount && (!mineCounts || CredentialsAreNewer(theirs.value, mine.value)) then Save(theirs.value, removedAt)
    else if mineCounts then
      if !theirsCount || CredentialsAreNewer(mine.value, theirs.value) then Push(mine.value) else Nothing
    else if mine.Some? && removedAt.Some? then Delete(removedAt.value)
    else Nothing
  }

  /**
   * Write a registry record to the file, unless a removal here came after the registry was read or the file is as new.
   */
  function SaveShared(file: Option<Record>, removal: Option<int>, creds: Record, fetchedAt: int,
      removedAt: Option<int>): Option<Record> {
    if removal.Some? && removal.value >= fetchedAt then file
    else if file.Some? && GrantedAfter(file.value, removedAt) && !CredentialsAreNewer(creds, file.value) then file
    else Some(creds)
  }

  /** Delete the file for a removal elsewhere, unless it holds a later login. */
  function RemoveShared(file: Option<Record>, removedAt: int): Option<Record> {
    if file.None? || GrantedAfter(file.value, Some(removedAt)) then file else None
  }

  /**
   * A plan moves one of the two records it was made from: the registry's to the file, or the file's to the registry; it
   * deletes only a file there is, for the latest removal.
   */
  lemma DecideTakes(mine: Option<Record>, theirs: Option<Record>, marker: Option<int>, localRemoval: Option<int>)
    ensures var a := Decide(mine, theirs, marker, localRemoval);
            && (a.Save? ==> theirs == Some(a.creds)) && (a.Push? ==> mine == Some(a.creds))
            && (a.Delete? ==> mine.Some? && RemovalTime(marker, localRemoval) == Some(a.since))
  {
  }

  /** The record a merge is to leave on both sides: the newer of those that outlive the removal. */
  predicate Merged(r: Option<Record>, mine: Option<Record>, theirs: Option<Record>, removedAt: Option<int>) {
    && (r.Some? ==> (r == mine || r == theirs) && GrantedAfter(r.value, removedAt))
    && (mine.Some? && GrantedAfter(mine.value, removedAt) ==> r.Some? && !CredentialsAreNewer(mine.value, r.value))
    && (theirs.Some? && GrantedAfter(theirs.value, removedAt) ==>
          r.Some? && !CredentialsAreNewer(theirs.value, r.value))
  }

  /**
   * Carrying the plan out with nothing in between leaves a merge in the file, and the same one, or a tie with it, in
   * the registry.
   */
  lemma PlanMerges(mine: Option<Record>, theirs: Registry.Entry, localRemoval: Option<int>, fetchedAt: int)
    requires localRemoval.Some? ==> localRemoval.value < fetchedAt && Registry.Covers(theirs, localRemoval.value)
    requires Registry.Exclusive(theirs)
    ensures var removedAt := RemovalTime(theirs.marker, localRemoval);
            var a := Decide(mine, theirs.record, theirs.marker, localRemoval);
            var file := match a
                        case Save(creds, at) => SaveShared(mine, localRemoval, creds, fetchedAt, at)
                        case Delete(since) => RemoveShared(mine, since)
                        case _ => mine;
            var entry := if a.Push? then Registry.Put(theirs, a.creds) else theirs;
            && Merged(file, mine, theirs.record, removedAt)
            && Merged(entry.record, mine, theirs.record, removedAt)
  {
  }
}
