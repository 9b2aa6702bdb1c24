/** Which end a decision takes (src/reconcile/compute.rs:170-452), stated for either end and
    from the files and the flags alone. `side` has `mine`, the other end has `theirs`;
    `Toward(mode, side)` are the flags for changes to `side`. */
module Winners {
  import opened Defs
  import Compute

  function DecisionOn(side: Side, mine: Option<FileData>, anc: Option<FileData>, theirs: Option<FileData>,
                      mode: SyncMode): Reconciliation
  {
    if side.Client? then Compute.Choose(mine, anc, theirs, mode) else Compute.Choose(theirs, anc, mine, mode)
  }

  /** `side` is taken over the other end: a directory that is in the way of something else is
      renamed, and whatever else the other end has is overwritten. */
  predicate Takes(r: Reconciliation, side: Side, mine: Option<FileData>, theirs: Option<FileData>) {
    if IsDirectory(theirs) && mine.Some? && !IsDirectory(mine) then r == Split(Rev(side), Move) else r == Use(side)
  }

  predicate Keep(r: Reconciliation, mode: SyncMode) {
    var i, o := mode.inbound, mode.outbound;
    if !i.update.IsOn() && !o.update.IsOn() then r == Unsync
    else if i.create.IsOn() && o.create.IsOn() then r == Split(Server, Delete)
    else r == Irreconcilable
  }

  /** A new file goes to the other end if it may be created there, is deleted if that is
      forced, and is left alone otherwise. */
  lemma NewFile(side: Side, mine: FileData, mode: SyncMode)
    requires !mine.Special?
    ensures var r := DecisionOn(side, Some(mine), None, None, mode);
            if Toward(mode, Rev(side)).create.IsOn() then r == Use(side)
            else if Toward(mode, side).delete.IsForce() then r == Use(Rev(side))
            else r == Unsync
  {
  }

  /** A file deleted on the other end, its content still as recorded, is deleted if that is
      on, is restored on the other end if that is forced, and is left alone otherwise. */
  lemma DeletedFile(side: Side, mine: FileData, anc: FileData, mode: SyncMode)
    requires !mine.Special? && anc.MatchesContent(mine)
    ensures var r := DecisionOn(side, Some(mine), Some(anc), None, mode);
            if Toward(mode, side).delete.IsOn() then r == Use(Rev(side))
            else if Toward(mode, Rev(side)).create.IsForce() then r == Use(side)
            else r == Unsync
  {
  }

  /** A file with new content beats its deletion if it may be created on the other end; else
      a forced delete takes it. */
  lemma EditedAndDeleted(side: Side, mine: FileData, anc: FileData, mode: SyncMode)
    requires !mine.Special? && !anc.MatchesContent(mine)
    ensures var r, here, there :=
              DecisionOn(side, Some(mine), Some(anc), None, mode), Toward(mode, side), Toward(mode, Rev(side));
            if there.create.IsOn() then r == Use(side)
            else if here.delete.IsForce() then r == Use(Rev(side))
            else if here.delete.IsOn() || there.update.IsOn() then r == Irreconcilable
            else r == Unsync
  {
  }

  /** Both ends have the file and it is not a special one. */
  predicate Differ(mine: FileData, theirs: FileData) {
    !mine.Special? && !theirs.Special? && !mine.Matches(theirs)
  }

  /** If only `side` differs from the record it is taken where updates go that way; a forced
      update the other way reverts it. */
  lemma OneChanged(side: Side, mine: FileData, anc: FileData, theirs: FileData, mode: SyncMode)
    requires Differ(mine, theirs) && theirs.Matches(anc) && !mine.MatchesData(theirs)
    ensures var r := DecisionOn(side, Some(mine), Some(anc), Some(theirs), mode);
            if Toward(mode, Rev(side)).update.IsOn() then Takes(r, side, Some(mine), Some(theirs))
            else if Toward(mode, side).update.IsForce() then Takes(r, Rev(side), Some(theirs), Some(mine))
            else r == Unsync
  {
  }

  /** `side` has the news about two files that differ in time only: the other one is as
      recorded, or neither is and this one is newer, the client's if they are as old. */
  predicate HasNews(side: Side, mine: FileData, anc: Option<FileData>, theirs: FileData) {
    || (anc.Some? && theirs.Matches(anc.value))
    || (&& (anc.Some? ==> !mine.Matches(anc.value) && !theirs.Matches(anc.value))
        && (mine.NewerThan(theirs) || (side.Client? && !theirs.NewerThan(mine))))
  }

  lemma TimeOnly(side: Side, mine: FileData, anc: Option<FileData>, theirs: FileData, mode: SyncMode)
    requires Differ(mine, theirs) && mine.MatchesData(theirs) && HasNews(side, mine, anc, theirs)
    ensures var r := DecisionOn(side, Some(mine), anc, Some(theirs), mode);
            if Toward(mode, Rev(side)).update.IsOn() then r == Use(side)
            else if Toward(mode, side).update.IsForce() then r == Use(Rev(side))
            else r == InSync
  {
  }

  /** One end or the other has the news. */
  lemma SomeoneHasNews(mine: FileData, anc: Option<FileData>, theirs: FileData)
    requires Differ(mine, theirs) && mine.MatchesData(theirs)
    ensures HasNews(Client, mine, anc, theirs) <==> !HasNews(Server, theirs, anc, mine)
  {
  }

  /** New content beats a new mode, unless only the force goes the other way. */
  lemma ContentOverMode(side: Side, mine: FileData, anc: FileData, theirs: FileData, mode: SyncMode)
    requires Differ(mine, theirs) && !theirs.Matches(anc)
    requires theirs.MatchesContent(anc) && !mine.MatchesContent(anc)
    ensures var r := DecisionOn(side, Some(mine), Some(anc), Some(theirs), mode);
            if Toward(mode, Rev(side)).update.IsOn() then Takes(r, side, Some(mine), Some(theirs))
            else if Toward(mode, side).update.IsForce() then Takes(r, Rev(side), Some(theirs), Some(mine))
            else Keep(r, mode)
  {
  }

  /** Of two new modes the one that a forced update carries is taken, then the one that any
      update carries, the client's first. */
  lemma BothModes(mine: FileData, anc: FileData, theirs: FileData, mode: SyncMode)
    requires Differ(mine, theirs) && !mine.MatchesData(theirs) && !mine.Matches(anc) && !theirs.Matches(anc)
    requires mine.MatchesContent(anc) && theirs.MatchesContent(anc)
    ensures var r, i, o :=
              Compute.Choose(Some(mine), Some(anc), Some(theirs), mode), mode.inbound.update, mode.outbound.update;
            if o.IsForce() || (o.IsOn() && !i.IsForce()) then Takes(r, Client, Some(mine), Some(theirs))
            else if i.IsOn() then Takes(r, Server, Some(theirs), Some(mine))
            else r == Unsync
  {
  }

  /** Of two new contents the one that a forced update carries is taken, the newer one if both
      do, the client's if they are as old; else both are kept if creates allow it. */
  lemma BothContents(mine: FileData, anc: Option<FileData>, theirs: FileData, mode: SyncMode)
    requires Differ(mine, theirs) && !mine.MatchesData(theirs)
    requires anc.Some? ==> !mine.MatchesContent(anc.value) && !theirs.MatchesContent(anc.value)
    ensures var r, i, o :=
              Compute.Choose(Some(mine), anc, Some(theirs), mode), mode.inbound.update, mode.outbound.update;
            if o.IsForce() && (i.IsForce() ==> !theirs.NewerThan(mine)) then Takes(r, Client, Some(mine), Some(theirs))
            else if i.IsForce() then Takes(r, Server, Some(theirs), Some(mine))
            else Keep(r, mode)
  {
  }
}
