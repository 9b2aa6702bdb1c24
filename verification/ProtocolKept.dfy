/** Every access of the completion protocol that leaves trees and tables alone keeps the
    protocol's invariant. */
module ProtocolKept {
  import opened Replica
  import opened Walk
  import opened Protocol
  import opened ProtocolInv

  // ----- Who is counted -----

  lemma OwedUpdate(locs: map<Path, Loc>, p: Path, loc: Loc, k: Key)
    ensures Owed(locs[p := loc], k) == if Owes(p, loc, k) then Owed(locs, k) + {p} else Owed(locs, k) - {p}
  {
  }

  predicate SameHolds(a: Loc, b: Loc) {
    OwnHeld(a) == OwnHeld(b) && UpHeld(a) == UpHeld(b)
  }

  ghost predicate SameOwed(a: map<Path, Loc>, b: map<Path, Loc>) {
    forall k :: Owed(a, k) == Owed(b, k)
  }

  lemma OwedSame(locs: map<Path, Loc>, p: Path, loc: Loc)
    requires p in locs && SameHolds(locs[p], loc)
    ensures SameOwed(locs, locs[p := loc])
  {
    forall k ensures Owed(locs, k) == Owed(locs[p := loc], k) { OwedUpdate(locs, p, loc, k); }
  }

  // ----- Accesses that count nobody in or out -----

  ghost predicate SamePending(a: map<Key, Cell>, b: map<Key, Cell>) {
    a.Keys == b.Keys && forall k :: k in a ==> a[k].pending == b[k].pending
  }

  lemma CountsSame(s: FState, s': FState)
    requires Counts(s) && SameOwed(s.locs, s'.locs) && SamePending(s.cells, s'.cells)
    ensures Counts(s')
  {
    forall k | k in s'.cells ensures s'.cells[k].pending == |Owed(s'.locs, k)| + if k.Top? then 1 else 0 {
      assert Owed(s.locs, k) == Owed(s'.locs, k);
    }
  }

  /** The loc moves within the same kind. */
  ghost predicate SameKind(a: Loc, b: Loc) {
    && QueuedLoc(a) == QueuedLoc(b) && DoneLoc(a) == DoneLoc(b) && FailedLoc(a) == FailedLoc(b)
    && ((b.Spawned? || b.Counted?) ==> (a.Spawned? || a.Counted?)) && (b.Busy? ==> a.Busy?)
    && (b.Completing? ==> a.Completing?) && (b.Ended? <==> a.Ended?)
  }

  lemma ShapeSame(s: FState, s': FState, p: Path, loc: Loc)
    requires Shape(s) && p in s.locs && s'.locs == s.locs[p := loc] && SameKind(s.locs[p], loc)
    requires s'.walk == s.walk && s'.cells.Keys == s.cells.Keys && SameOwed(s.locs, s'.locs)
    requires p in s.walk.ctxs && (s.locs[p].Busy? && !loc.Busy? ==> s.walk.ctxs[p].todo == {} && !Spawning(s.locs, p))
    ensures Shape(s')
  {
    forall x | x in s'.locs ensures ShapeAt(s', x) {
      assert ShapeAt(s, x) && ShapeAt(s, p);
      assert Owed(s.locs, Dir(x)) == Owed(s'.locs, Dir(x));
    }
  }

  /** The loc neither holds nor gives up a completion task. */
  ghost predicate SameRole(a: Loc, b: Loc) {
    && !a.Storing? && !b.Storing? && (a.Parked? <==> b.Parked?) && (a.Finish? ==> BeforeSub(a.stage)) &&
        (b.Finish? ==> BeforeSub(b.stage))
    && ((a.Finish? && a.who.Own?) <==> (b.Finish? && b.who.Own?))
  }

  ghost predicate SameIds(a: map<Key, Cell>, b: map<Key, Cell>) {
    a.Keys == b.Keys && forall k :: k in a ==> a[k].onComplete == b[k].onComplete
  }

  lemma TasksSame(s: FState, s': FState, p: Path, loc: Loc)
    requires Tasks(s) && p in s.locs && s'.locs == s.locs[p := loc] && SameRole(s.locs[p], loc) && s'.tasks == s.tasks
    requires SameIds(s.cells, s'.cells) && SameOwed(s.locs, s'.locs)
    ensures Tasks(s')
  {
    forall x | x in s'.locs && s'.locs[x].Parked? && Owed(s'.locs, Dir(x)) != {} ensures TaskStored(s', x) {
      assert Owed(s.locs, Dir(x)) == Owed(s'.locs, Dir(x));
    }
    forall id | id in s'.tasks ensures Holds(s', s'.tasks[id], id) { assert Holds(s, s.tasks[id], id); }
  }

  lemma PushersSame(s: FState, s': FState, p: Path, loc: Loc)
    requires Pushers(s) && p in s.locs && s'.locs == s.locs[p := loc] && SameRole(s.locs[p], loc) && s'.tasks == s.tasks
    requires SameIds(s.cells, s'.cells) && SameOwed(s.locs, s'.locs)
    ensures Pushers(s')
  {
    forall a, k ensures Pusher(s'.locs, a, k) <==> Pusher(s.locs, a, k) { }
    forall a, k | Pusher(s'.locs, a, k) ensures PusherAt(s', a, k) {
      assert PusherAt(s, a, k);
      assert Owed(s.locs, k) == Owed(s'.locs, k);
    }
    forall x | x in s'.locs && s'.locs[x].Parked? && Owed(s'.locs, Dir(x)) == {}
        ensures exists a :: Pusher(s'.locs, a, Dir(x)) {
      assert Owed(s.locs, Dir(x)) == {};
      var a :| Pusher(s.locs, a, Dir(x));
      assert Pusher(s'.locs, a, Dir(x));
    }
  }

  /** All but the flags, for an access that only moves `p` on. */
  lemma MoveKeeps(s: FState, s': FState, p: Path, loc: Loc)
    requires PInv(s) && p in s.locs && s'.locs == s.locs[p := loc] && s'.walk == s.walk && s'.tasks == s.tasks
    requires SameHolds(s.locs[p], loc) && SameKind(s.locs[p], loc) && SameRole(s.locs[p], loc) && !s.locs[p].Busy?
    requires SamePending(s.cells, s'.cells) && SameIds(s.cells, s'.cells)
    ensures Shape(s') && Counts(s') && Tasks(s') && Pushers(s')
  {
    OwedSame(s.locs, p, loc);
    CountsSame(s, s');
    ShapeSame(s, s', p, loc);
    TasksSame(s, s', p, loc);
    PushersSame(s, s', p, loc);
  }

  // ----- Flags -----

  predicate SameMerged(a: Loc, b: Loc) {
    MergedSuccess(a) == MergedSuccess(b) && MergedEmptiness(a) == MergedEmptiness(b)
  }

  lemma FlagsSame(s: FState, s': FState, p: Path, loc: Loc)
    requires Flags(s) && p in s.locs && s'.locs == s.locs[p := loc] && s'.walk == s.walk && SameMerged(s.locs[p], loc)
    requires s'.cells.Keys == s.cells.Keys
    requires forall k :: k in s.cells ==>
               s'.cells[k].success == s.cells[k].success && s'.cells[k].empty == s.cells[k].empty
    requires loc.Finish? ==> LoadedAt(s', p)
    ensures Flags(s')
  {
    forall k, c ensures KidMerged(s', k, c) <==> KidMerged(s, k, c) { }
    forall k, c ensures KidMergedE(s', k, c) <==> KidMergedE(s, k, c) { }
    forall k | k in s'.cells ensures FlagsAt(s', k) { assert FlagsAt(s, k); }
    forall x | x in s'.locs && s'.locs[x].Finish? ensures LoadedAt(s', x) {
      if x != p { assert LoadedAt(s, x); }
    }
  }

  /** An access that changes no cell. */
  lemma OnlyMoves(s: FState, s': FState, p: Path, loc: Loc)
    requires PInv(s) && p in s.locs && s' == s.(locs := s.locs[p := loc]) && !s.locs[p].Busy?
    requires SameHolds(s.locs[p], loc) && SameKind(s.locs[p], loc) && SameRole(s.locs[p], loc) &&
        SameMerged(s.locs[p], loc)
    requires loc.Finish? ==> LoadedAt(s', p)
    ensures PInv(s')
  {
    hide Shape, Counts, Tasks, Pushers, Flags;
    MoveKeeps(s, s', p, loc);
    FlagsSame(s, s', p, loc);
  }

  lemma PushKeeps(s: FState, p: Path)
    requires PInv(s) && p in s.locs && s.locs[p].Counted?
    ensures PInv(s.(locs := s.locs[p := OnStack]))
  {
    hide PInv;
    OnlyMoves(s, s.(locs := s.locs[p := OnStack]), p, OnStack);
  }

  lemma LoadKeeps(s: FState, p: Path, s': FState)
    requires PInv(s) && p in s.locs && s.locs[p].Finish? && (s.locs[p].stage.LoadSuccess? || s.locs[p].stage.LoadEmpty?)
    requires s' == Finishing(s, p, s.locs[p].who, s.locs[p].stage)
    ensures PInv(s')
  {
    hide PInv;
    OnlyMoves(s, s', p, s'.locs[p]);
  }

  /** The cell that an agent is about to write belongs to a directory in progress. */
  lemma TargetOpen(s: FState, p: Path)
    requires Shape(s) && p in s.locs && (UpHeld(s.locs[p]) || s.locs[p].Spawned?)
    ensures ParentKey(p) in s.cells
    ensures p.Sub? ==> p.parent in s.walk.ctxs && s.walk.ctxs[p.parent].phase.Active? && !s.locs[p.parent].Completing?
  {
    assert ShapeAt(s, p);
    if p.Sub? {
      assert ShapeAt(s, p.parent);
      if UpHeld(s.locs[p]) { assert p in Owed(s.locs, Dir(p.parent)); }
    }
  }

  lemma AndChangesNothing(s: FState, p: Path, s': FState)
    requires Shape(s) && Flags(s) && p in s.locs && s.locs[p].Finish?
    requires s.locs[p].stage.AndSuccess? || s.locs[p].stage.AndEmpty?
    requires !s.locs[p].who.Up? && s' == Finishing(s, p, s.locs[p].who, s.locs[p].stage)
    ensures s'.cells == s.cells
  {
    assert LoadedAt(s, p);
    hide Flags, LoadedAt;
    assert Target(p, s.locs[p].who) in s.cells by { TargetOpen(s, p); assert ShapeAt(s, p); }
    hide Shape;
    LoadedChangesNothing(s, p, s.locs[p].who, s.locs[p].stage);
  }

  lemma LoadedChangesNothing(s: FState, p: Path, who: Who, stage: Stage)
    requires p in s.locs && s.locs[p] == Finish(who, stage) && !who.Up? && LoadedAt(s, p) && Target(p, who) in s.cells
    requires stage.AndSuccess? || stage.AndEmpty?
    ensures Finishing(s, p, who, stage).cells == s.cells
  {
  }

  /** Merging a cell into itself changes nothing. */
  lemma AndNothing(s: FState, p: Path, s': FState)
    requires PInv(s) && p in s.locs && s.locs[p].Finish? && (s.locs[p].stage.AndSuccess? || s.locs[p].stage.AndEmpty?)
    requires !s.locs[p].who.Up? && s' == Finishing(s, p, s.locs[p].who, s.locs[p].stage)
    ensures PInv(s')
  {
    hide Shape, Counts, Tasks, Pushers, Flags;
    AndChangesNothing(s, p, s');
    OnlyMoves(s, s', p, s'.locs[p]);
  }

  // ----- Merging into the parent -----

  lemma SuccessFlags(s: FState, p: Path, s': FState, k: Key, k': Key, loc: Loc)
    requires k == ParentKey(p) && k in s.cells && k' in s.cells && FlagsAt(s, k') && p in s.locs && p in s.walk.ctxs
    requires s.walk.ctxs[p].phase.Done? && !MergedSuccess(s.locs[p]) && MergedSuccess(loc)
    requires MergedEmptiness(loc) == MergedEmptiness(s.locs[p])
    requires k.Dir? && k.path in s.walk.ctxs ==> !s.walk.ctxs[k.path].phase.Done?
    requires s'.walk == s.walk && s'.locs == s.locs[p := loc]
    requires s'.cells == s.cells[k := s.cells[k].(success := s.cells[k].success && s.walk.ctxs[p].phase.success)]
    ensures FlagsAt(s', k')
  {
    forall c ensures KidMerged(s', k', c) <==> KidMerged(s, k', c) || (c == p && k' == k) { }
    forall c ensures KidMergedE(s', k', c) <==> KidMergedE(s, k', c) { }
    if k' == k { assert KidMerged(s', k, p); }
  }

  lemma EmptyFlags(s: FState, p: Path, s': FState, k: Key, k': Key, loc: Loc)
    requires k == ParentKey(p) && k in s.cells && k' in s.cells && FlagsAt(s, k') && p in s.locs && p in s.walk.ctxs
    requires s.walk.ctxs[p].phase.Done? && !MergedEmptiness(s.locs[p]) && MergedEmptiness(loc)
    requires MergedSuccess(loc) == MergedSuccess(s.locs[p])
    requires k.Dir? && k.path in s.walk.ctxs ==> !s.walk.ctxs[k.path].phase.Done?
    requires s'.walk == s.walk && s'.locs == s.locs[p := loc]
    requires s'.cells == s.cells[k := s.cells[k].(empty := s.cells[k].empty && s.walk.ctxs[p].phase.empty)]
    ensures FlagsAt(s', k')
  {
    forall c ensures KidMerged(s', k', c) <==> KidMerged(s, k', c) { }
    forall c ensures KidMergedE(s', k', c) <==> KidMergedE(s, k', c) || (c == p && k' == k) { }
    if k' == k { assert KidMergedE(s', k, p); }
  }

  /** Cells only fall, and the cell a finishing agent reads from is not written. */
  lemma StillLoaded(s: FState, s': FState, p: Path, k: Key, loc: Loc, c: Cell)
    requires Flags(s) && p in s.locs && s'.locs == s.locs[p := loc] && k in s.cells && s'.cells == s.cells[k := c]
    requires (c.success ==> s.cells[k].success) && (c.empty ==> s.cells[k].empty)
    requires loc.Finish? ==> LoadedAt(s', p)
    requires forall x :: x in s.locs && s.locs[x].Finish? && s.locs[x].who.Up? ==> Dir(x) != k
    ensures forall x :: x in s'.locs && s'.locs[x].Finish? ==> LoadedAt(s', x)
  {
    forall x | x in s'.locs && s'.locs[x].Finish? ensures LoadedAt(s', x) {
      if x != p { assert LoadedAt(s, x); }
    }
  }

  /** A directory in progress has no completion under way. */
  lemma NoneUp(s: FState, p: Path)
    requires Shape(s) && p in s.locs && UpHeld(s.locs[p])
    ensures forall x :: x in s.locs && s.locs[x].Finish? && s.locs[x].who.Up? ==> Dir(x) != ParentKey(p)
  {
    TargetOpen(s, p);
    forall x | x in s.locs && s.locs[x].Finish? && s.locs[x].who.Up? ensures Dir(x) != ParentKey(p) {
      assert ShapeAt(s, x);
    }
  }

  lemma UpResult(s: FState, p: Path)
    requires Shape(s) && Flags(s) && p in s.locs && s.locs[p].Finish? && s.locs[p].who.Up?
    ensures p in s.walk.ctxs && Dir(p) in s.cells
    ensures s.walk.ctxs[p].phase == Done(s.cells[Dir(p)].success, s.cells[Dir(p)].empty)
    ensures LoadedAt(s, p)
  {
    assert ShapeAt(s, p) && FlagsAt(s, Dir(p));
  }

  lemma SuccessMerged(s: FState, p: Path, s': FState)
    requires Shape(s) && Flags(s) && p in s.locs && s.locs[p].Finish? && s.locs[p].who.Up? &&
        s.locs[p].stage.AndSuccess?
    requires s' == Finishing(s, p, Up, s.locs[p].stage)
    ensures Flags(s')
  {
    var k, loc := ParentKey(p), Finish(Up, LoadEmpty);
    TargetOpen(s, p);
    NoneUp(s, p);
    UpResult(s, p);
    hide Shape, FlagsAt;
    StillLoaded(s, s', p, k, loc, s'.cells[k]);
    forall k' | k' in s'.cells ensures FlagsAt(s', k') { SuccessFlags(s, p, s', k, k', loc); }
  }

  lemma EmptyMerged(s: FState, p: Path, s': FState)
    requires Shape(s) && Flags(s) && p in s.locs && s.locs[p].Finish? && s.locs[p].who.Up? && s.locs[p].stage.AndEmpty?
    requires s' == Finishing(s, p, Up, s.locs[p].stage)
    ensures Flags(s')
  {
    var k, loc := ParentKey(p), Finish(Up, Sub1);
    TargetOpen(s, p);
    NoneUp(s, p);
    UpResult(s, p);
    hide Shape, FlagsAt;
    StillLoaded(s, s', p, k, loc, s'.cells[k]);
    forall k' | k' in s'.cells ensures FlagsAt(s', k') { EmptyFlags(s, p, s', k, k', loc); }
  }

  lemma AndUpKeeps(s: FState, p: Path, s': FState)
    requires PInv(s) && p in s.locs && s.locs[p].Finish? && s.locs[p].who.Up?
    requires (s.locs[p].stage.AndSuccess? || s.locs[p].stage.AndEmpty?) && s' == Finishing(s, p, Up, s.locs[p].stage)
    ensures PInv(s')
  {
    hide Shape, Counts, Tasks, Pushers, Flags;
    TargetOpen(s, p);
    MoveKeeps(s, s', p, s'.locs[p]);
    if s.locs[p].stage.AndSuccess? { SuccessMerged(s, p, s'); } else { EmptyMerged(s, p, s'); }
  }

  // ----- A subdirectory that could not be set up -----

  lemma FailFlags(s: FState, p: Path, s': FState, k: Key, k': Key, loc: Loc)
    requires k == ParentKey(p) && k in s.cells && k' in s.cells && FlagsAt(s, k') && p in s.locs && p in s.walk.ctxs
    requires s.walk.ctxs[p].phase == Done(false, true) && !MergedSuccess(s.locs[p]) && !MergedEmptiness(s.locs[p])
    requires MergedSuccess(loc) && MergedEmptiness(loc)
    requires k.Dir? && k.path in s.walk.ctxs ==> !s.walk.ctxs[k.path].phase.Done?
    requires s'.walk == s.walk && s'.locs == s.locs[p := loc]
    requires s'.cells == s.cells[k := s.cells[k].(success := false)]
    ensures FlagsAt(s', k')
  {
    forall c ensures KidMerged(s', k', c) <==> KidMerged(s, k', c) || (c == p && k' == k) { }
    forall c ensures KidMergedE(s', k', c) <==> KidMergedE(s, k', c) || (c == p && k' == k) { }
    if k' == k { assert KidMerged(s', k, p); }
  }

  lemma FailParentFlags(s: FState, p: Path, s': FState)
    requires Shape(s) && Flags(s) && p in s.locs && s.locs[p].Failing? && ParentKey(p) in s.cells
    requires s' == SetCell(s, ParentKey(p), s.cells[ParentKey(p)].(success := false), p, Finish(Failed, LoadSuccess))
    ensures Flags(s')
  {
    var k, loc := ParentKey(p), Finish(Failed, LoadSuccess);
    TargetOpen(s, p);
    NoneUp(s, p);
    assert ShapeAt(s, p);
    hide Shape, FlagsAt;
    StillLoaded(s, s', p, k, loc, s'.cells[k]);
    forall k' | k' in s'.cells ensures FlagsAt(s', k') { FailFlags(s, p, s', k, k', loc); }
  }

  lemma FailParentKeeps(s: FState, p: Path, s': FState)
    requires PInv(s) && p in s.locs && s.locs[p].Failing? && ParentKey(p) in s.cells
    requires s' == SetCell(s, ParentKey(p), s.cells[ParentKey(p)].(success := false), p, Finish(Failed, LoadSuccess))
    ensures PInv(s')
  {
    hide Shape, Counts, Tasks, Pushers, Flags;
    FailParentFlags(s, p, s');
    MoveKeeps(s, s', p, Finish(Failed, LoadSuccess));
  }

  // ----- Counting in -----

  /** Only what is owed to `k` changes. */
  ghost predicate SameOwedBut(a: map<Path, Loc>, b: map<Path, Loc>, k: Key) {
    forall k' :: k' != k ==> Owed(a, k') == Owed(b, k')
  }

  lemma CountOwed(locs: map<Path, Loc>, p: Path)
    requires p in locs && locs[p].Spawned?
    ensures Owed(locs[p := Counted], ParentKey(p)) == Owed(locs, ParentKey(p)) + {p} && p !in Owed(locs, ParentKey(p))
    ensures SameOwedBut(locs, locs[p := Counted], ParentKey(p))
  {
    forall k ensures k != ParentKey(p) ==> Owed(locs, k) == Owed(locs[p := Counted], k) {
      OwedUpdate(locs, p, Counted, k);
    }
    OwedUpdate(locs, p, Counted, ParentKey(p));
  }

  lemma CountShape(s: FState, p: Path, s': FState)
    requires Shape(s) && p in s.locs && s.locs[p].Spawned? && s'.locs == s.locs[p := Counted] && s'.walk == s.walk
    requires s'.cells.Keys == s.cells.Keys && SameOwedBut(s.locs, s'.locs, ParentKey(p))
    ensures Shape(s')
  {
    forall x | x in s'.locs ensures ShapeAt(s', x) {
      assert ShapeAt(s, x) && ShapeAt(s, p);
      if Dir(x) != ParentKey(p) { assert Owed(s.locs, Dir(x)) == Owed(s'.locs, Dir(x)); }
    }
  }

  /** `p` is new, or goes on without touching a completion task; what is owed changes at
      most for `k`, which is still being worked on. */
  ghost predicate Onward(s: FState, p: Path, loc: Loc, k: Key, s': FState) {
    && s'.locs == s.locs[p := loc] && s'.tasks == s.tasks && SameOwedBut(s.locs, s'.locs, k)
    && (if p in s.locs then SameRole(s.locs[p], loc) else loc.Spawned?)
    && (k.Dir? ==> k.path in s.locs && !s.locs[k.path].Parked? && !s.locs[k.path].Finish?)
    && (forall k' :: k' in s.cells ==> k' in s'.cells && s'.cells[k'].onComplete == s.cells[k'].onComplete)
  }

  lemma OnwardTasks(s: FState, p: Path, loc: Loc, k: Key, s': FState)
    requires Tasks(s) && Onward(s, p, loc, k, s')
    ensures Tasks(s')
  {
    forall x | x in s'.locs && s'.locs[x].Parked? && Owed(s'.locs, Dir(x)) != {} ensures TaskStored(s', x) {
      assert Owed(s.locs, Dir(x)) == Owed(s'.locs, Dir(x));
      assert TaskStored(s, x);
    }
    forall id | id in s'.tasks ensures Holds(s', s'.tasks[id], id) { assert Holds(s, s.tasks[id], id); }
  }

  lemma OnwardPushers(s: FState, p: Path, loc: Loc, k: Key, s': FState)
    requires Pushers(s) && Onward(s, p, loc, k, s')
    ensures Pushers(s')
  {
    forall a, k' ensures Pusher(s'.locs, a, k') <==> Pusher(s.locs, a, k') { }
    forall a, k' | Pusher(s'.locs, a, k') ensures PusherAt(s', a, k') {
      assert PusherAt(s, a, k');
      assert Owed(s.locs, k') == Owed(s'.locs, k');
    }
    forall x | x in s'.locs && s'.locs[x].Parked? && Owed(s'.locs, Dir(x)) == {}
        ensures exists a :: Pusher(s'.locs, a, Dir(x)) {
      assert Owed(s.locs, Dir(x)) == Owed(s'.locs, Dir(x));
      var a :| Pusher(s.locs, a, Dir(x));
      assert Pusher(s'.locs, a, Dir(x));
    }
  }

  lemma CountCounts(s: FState, k: Key, p: Path, s': FState)
    requires Counts(s) && k in s.cells && s'.cells == s.cells[k := s.cells[k].(pending := s.cells[k].pending + 1)]
    requires Owed(s'.locs, k) == Owed(s.locs, k) + {p} && p !in Owed(s.locs, k) && SameOwedBut(s.locs, s'.locs, k)
    ensures Counts(s')
  {
    forall k' | k' in s'.cells ensures s'.cells[k'].pending == |Owed(s'.locs, k')| + if k'.Top? then 1 else 0 {
      if k' != k { assert Owed(s.locs, k') == Owed(s'.locs, k'); }
    }
  }

  lemma SpawnedParent(s: FState, p: Path)
    requires Shape(s) && p in s.locs && s.locs[p].Spawned?
    ensures p.Sub? ==> p.parent in s.locs && s.locs[p.parent].Busy?
  {
    assert ShapeAt(s, p);
  }

  lemma CountKeeps(s: FState, p: Path, s': FState)
    requires PInv(s) && p in s.locs && s.locs[p].Spawned? && ParentKey(p) in s.cells
    requires s' ==
        SetCell(s, ParentKey(p), s.cells[ParentKey(p)].(pending := s.cells[ParentKey(p)].pending + 1), p, Counted)
    ensures PInv(s')
  {
    hide Shape, Counts, Tasks, Pushers, Flags, Owed;
    CountOwed(s.locs, p);
    CountShape(s, p, s');
    assert p.Sub? ==> p.parent in s.locs && s.locs[p.parent].Busy? by { SpawnedParent(s, p); }
    OnwardTasks(s, p, Counted, ParentKey(p), s');
    OnwardPushers(s, p, Counted, ParentKey(p), s');
    CountCounts(s, ParentKey(p), p, s');
    FlagsSame(s, s', p, Counted);
  }
}
