/** What holds between any two accesses of the completion protocol. */
module ProtocolInv {
  import opened Replica
  import opened Mutate
  import opened Walk
  import opened Protocol

  predicate BeforeSub(stage: Stage) {
    !stage.Get? && !stage.Give?
  }

  /** `pending` of the directory itself still counts its own processing. */
  predicate OwnHeld(loc: Loc) {
    loc.Busy? || loc.Storing? || (loc.Finish? && loc.who.Own? && BeforeSub(loc.stage))
  }

  /** `pending` of the parent still counts this directory. */
  predicate UpHeld(loc: Loc) {
    !loc.Spawned? && !loc.Ended? && !(loc.Finish? && !loc.who.Own? && !BeforeSub(loc.stage))
  }

  predicate Owes(p: Path, loc: Loc, k: Key) {
    (k == Dir(p) && OwnHeld(loc)) || (k == ParentKey(p) && UpHeld(loc))
  }

  /** Who is counted in `pending` of `k`. */
  function Owed(locs: map<Path, Loc>, k: Key): set<Path> {
    set p | p in locs && Owes(p, locs[p], k)
  }

  /** `pending` is the number of outstanding children plus one while the directory's own
      processing is unfinished; the state of `start_root` holds one more for good. */
  ghost predicate Counts(s: FState) {
    forall k :: k in s.cells ==> s.cells[k].pending == |Owed(s.locs, k)| + if k.Top? then 1 else 0
  }

  // ----- Where a directory stands -----

  predicate QueuedLoc(loc: Loc) { loc.Spawned? || loc.Counted? || loc.OnStack? }

  predicate DoneLoc(loc: Loc) { loc.Failing? || loc.Ended? || (loc.Finish? && !loc.who.Own?) }

  predicate FailedLoc(loc: Loc) { loc.Failing? || (loc.Finish? && loc.who.Failed?) }

  ghost predicate PhaseFits(loc: Loc, ctx: Ctx) {
    && (QueuedLoc(loc) <==> ctx.phase.Queued?)
    && (DoneLoc(loc) <==> ctx.phase.Done?)
    && (FailedLoc(loc) ==> ctx.phase == Done(false, true))
    && (!loc.Busy? ==> ctx.todo == {})
  }

  ghost predicate ShapeAt(s: FState, p: Path)
    requires p in s.locs && p in s.walk.ctxs
  {
    var loc := s.locs[p];
    && PhaseFits(loc, s.walk.ctxs[p])
    && (Dir(p) in s.cells ==> !QueuedLoc(loc) && !FailedLoc(loc))
    && (!QueuedLoc(loc) && !FailedLoc(loc) && !loc.Ended? ==> Dir(p) in s.cells)
    && (p.Sub? ==> Dir(p.parent) in s.cells && p.parent in s.locs)
    && (p.Sub? && (loc.Spawned? || loc.Counted?) ==> s.locs[p.parent].Busy?)
    && (loc.Completing? || DoneLoc(loc) ==> Owed(s.locs, Dir(p)) == {})
  }

  ghost predicate Shape(s: FState) {
    && s.locs.Keys == s.walk.ctxs.Keys && Root in s.locs && Top in s.cells
    && (forall p :: p in s.locs ==> ShapeAt(s, p))
    && (forall p :: Dir(p) in s.cells ==> p in s.locs)
  }

  // ----- The completion tasks -----

  ghost predicate Pusher(locs: map<Path, Loc>, a: Path, k: Key) {
    a in locs && locs[a].Finish? && !BeforeSub(locs[a].stage) && Target(a, locs[a].who) == k
  }

  ghost predicate TaskStored(s: FState, p: Path) {
    Dir(p) in s.cells && s.cells[Dir(p)].onComplete in s.tasks && s.tasks[s.cells[Dir(p)].onComplete] == p
  }

  /** The task with this id belongs to `p`, which has not been completed. */
  ghost predicate Holds(s: FState, p: Path, id: nat) {
    && p in s.locs
    && (|| s.locs[p] == Storing(id)
        || (&& Dir(p) in s.cells && s.cells[Dir(p)].onComplete == id
            && (s.locs[p].Parked? || (s.locs[p].Finish? && s.locs[p].who.Own? && !s.locs[p].stage.Give?))))
  }

  /** An agent that brought `pending` of `k` to zero is alone, and has, or will find, the
      completion task of `k`. */
  ghost predicate PusherAt(s: FState, a: Path, k: Key)
    requires a in s.locs && s.locs[a].Finish?
  {
    && k.Dir? && k.path in s.locs && Owed(s.locs, k) == {}
    && (!s.locs[a].who.Own? ==> s.locs[k.path].Parked?)
    && (s.locs[a].stage.Get? ==> TaskStored(s, k.path))
    && (s.locs[a].stage.Give? ==> s.locs[a].stage.task == k.path && k.path !in s.tasks.Values)
  }

  ghost predicate Tasks(s: FState) {
    && (forall p :: p in s.locs && s.locs[p].Storing? ==> s.locs[p].id in s.tasks && s.tasks[s.locs[p].id] == p)
    && (forall p :: p in s.locs && s.locs[p].Finish? && s.locs[p].who.Own? && BeforeSub(s.locs[p].stage) ==>
        TaskStored(s, p))
    && (forall p :: p in s.locs && s.locs[p].Parked? && Owed(s.locs, Dir(p)) != {} ==> TaskStored(s, p))
    && (forall id :: id in s.tasks ==> Holds(s, s.tasks[id], id))
  }

  ghost predicate Pushers(s: FState) {
    && (forall a, k :: Pusher(s.locs, a, k) ==> PusherAt(s, a, k))
    && (forall a, b, k :: Pusher(s.locs, a, k) && Pusher(s.locs, b, k) ==> a == b)
    && (forall p :: p in s.locs && s.locs[p].Parked? && Owed(s.locs, Dir(p)) == {} ==> exists a ::
        Pusher(s.locs, a, Dir(p)))
  }

  // ----- The flags -----

  predicate MergedSuccess(loc: Loc) {
    loc.Ended? || (loc.Finish? &&
        (loc.who.Failed? || (loc.who.Up? && !loc.stage.LoadSuccess? && !loc.stage.AndSuccess?)))
  }

  predicate MergedEmptiness(loc: Loc) {
    loc.Ended? || (loc.Finish? && (loc.who.Failed? || (loc.who.Up? && (loc.stage.Sub1? || !BeforeSub(loc.stage)))))
  }

  ghost predicate KidMerged(s: FState, k: Key, c: Path) {
    c in s.locs && c in s.walk.ctxs && ParentKey(c) == k && MergedSuccess(s.locs[c])
  }

  ghost predicate KidMergedE(s: FState, k: Key, c: Path) {
    c in s.locs && c in s.walk.ctxs && ParentKey(c) == k && MergedEmptiness(s.locs[c])
  }

  /** The directory's own part of the flags. */
  ghost predicate OwnOk(s: FState, k: Key) { k.Top? || (k.path in s.walk.ctxs && s.walk.ctxs[k.path].ok) }

  ghost predicate OwnEmpty(s: FState, k: Key) { k.Top? || (k.path in s.walk.ctxs && s.walk.ctxs[k.path].empty) }

  ghost predicate AllMergedOk(s: FState, k: Key) {
    forall c :: KidMerged(s, k, c) ==> s.walk.ctxs[c].phase.Done? && s.walk.ctxs[c].phase.success
  }

  ghost predicate AllMergedEmpty(s: FState, k: Key) {
    forall c :: KidMergedE(s, k, c) ==> s.walk.ctxs[c].phase.Done? && s.walk.ctxs[c].phase.empty
  }

  /** While a directory is in progress its flags are its own and those of the children that
      have been merged; once it is completed they are its result. */
  ghost predicate FlagsAt(s: FState, k: Key)
    requires k in s.cells
  {
    if k.Dir? && k.path in s.walk.ctxs && s.walk.ctxs[k.path].phase.Done?
    then s.walk.ctxs[k.path].phase == Done(s.cells[k].success, s.cells[k].empty)
    else && (s.cells[k].success <==> OwnOk(s, k) && AllMergedOk(s, k))
         && (s.cells[k].empty <==> OwnEmpty(s, k) && AllMergedEmpty(s, k))
  }

  /** A value read and not yet merged is still what it was, or is of no consequence. */
  ghost predicate LoadedAt(s: FState, p: Path)
    requires p in s.locs && s.locs[p].Finish?
  {
    var who, stage := s.locs[p].who, s.locs[p].stage;
    var source, target := CellAt(s.cells, Source(p, who)), CellAt(s.cells, Target(p, who));
    && (stage.AndSuccess? ==> if who.Up? then stage.v == source.success else target.success ==> stage.v)
    && (stage.AndEmpty? ==> if who.Up? then stage.v == source.empty else target.empty ==> stage.v)
  }

  ghost predicate Flags(s: FState) {
    && (forall k :: k in s.cells ==> FlagsAt(s, k))
    && (forall p :: p in s.locs && s.locs[p].Finish? ==> LoadedAt(s, p))
  }

  ghost predicate PInv(s: FState) {
    Shape(s) && Counts(s) && Tasks(s) && Pushers(s) && Flags(s)
  }

  lemma InitPInv(w: World)
    ensures PInv(FInit(w))
  {
    var s := FInit(w);
    assert Owed(s.locs, Top) == {};
    assert Owed(s.locs, Dir(Root)) == {};
  }
}
