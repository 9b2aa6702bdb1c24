/** The completion protocol refines the fork and join of module `Walk`: each of its accesses
    is a step of the walk or leaves the walk alone. */
module ProtocolWalk {
  import opened Defs
  import opened Replica
  import opened Mutate
  import opened Effects
  import opened Walk
  import opened Structure
  import opened StructureKept
  import opened Protocol
  import opened ProtocolInv
  import opened ProtocolKept
  import opened ProtocolTasks

  /** The step of the walk that an access amounts to. */
  function Project(st: Step): Option<Action> {
    match st
    case ListDir(p, fault) => Some(DoStart(p, fault))
    case DoName(p, n, f) => Some(DoFile(p, n, f))
    case RunCompletion(p, ef) => Some(DoComplete(p, ef))
    case _ => None
  }

  // ----- Accesses of `finish_task_in_dir` -----

  lemma TargetHasCell(s: FState, p: Path)
    requires Shape(s) && Pushers(s) && p in s.locs && s.locs[p].Finish?
    ensures Target(p, s.locs[p].who) in s.cells
  {
    assert ShapeAt(s, p);
  }

  lemma GiveTarget(s: FState, p: Path)
    requires Shape(s) && Pushers(s) && p in s.locs && s.locs[p].Finish? && s.locs[p].stage.Give?
    ensures Given(s, p, s.locs[p].stage.task, Finishing(s, p, s.locs[p].who, s.locs[p].stage))
  {
    var k := Target(p, s.locs[p].who);
    assert Pusher(s.locs, p, k);
    assert PusherAt(s, p, k);
  }

  lemma MergeKeeps(s: FState, p: Path, s': FState)
    requires PInv(s) && p in s.locs && s.locs[p].Finish? && (s.locs[p].stage.AndSuccess? || s.locs[p].stage.AndEmpty?)
    requires s' == Finishing(s, p, s.locs[p].who, s.locs[p].stage)
    ensures PInv(s')
  {
    hide PInv, Finishing;
    if s.locs[p].who.Up? { AndUpKeeps(s, p, s'); } else { AndNothing(s, p, s'); }
  }

  lemma SubKeeps(s: FState, p: Path, s': FState)
    requires PInv(s) && p in s.locs && s.locs[p].Finish? && s.locs[p].stage.Sub1?
    requires s' == Finishing(s, p, s.locs[p].who, s.locs[p].stage)
    ensures PInv(s')
  {
    hide Shape, Counts, Tasks, Pushers, Flags;
    TargetHasCell(s, p);
    ReleaseKeeps(s, p, Target(p, s.locs[p].who), s', s'.locs[p]);
  }

  lemma GetKeeps(s: FState, p: Path, s': FState)
    requires PInv(s) && p in s.locs && s.locs[p].Finish? && s.locs[p].stage.Get?
    requires s' == Finishing(s, p, s.locs[p].who, s.locs[p].stage)
    ensures PInv(s') && !Panics(s, p)
  {
    hide Shape, Counts, Tasks, Pushers, Flags, PusherAt;
    FoundTask(s, p);
    FetchKeeps(s, p, Target(p, s.locs[p].who).path, s');
  }

  lemma GiveKeeps(s: FState, p: Path, s': FState)
    requires PInv(s) && p in s.locs && s.locs[p].Finish? && s.locs[p].stage.Give?
    requires s' == Finishing(s, p, s.locs[p].who, s.locs[p].stage)
    ensures PInv(s')
  {
    hide Shape, Counts, Tasks, Pushers, Flags, Given, Finishing;
    GiveTarget(s, p);
    GivenKeeps(s, p, s.locs[p].stage.task, s');
  }

  lemma AdvanceKeeps(s: FState, p: Path)
    requires PInv(s) && p in s.locs && s.locs[p].Finish?
    ensures PInv(Finishing(s, p, s.locs[p].who, s.locs[p].stage)) && !Panics(s, p)
  {
    var s' := Finishing(s, p, s.locs[p].who, s.locs[p].stage);
    hide PInv, Finishing;
    match s.locs[p].stage
    case LoadSuccess => LoadKeeps(s, p, s');
    case LoadEmpty => LoadKeeps(s, p, s');
    case AndSuccess(_) => MergeKeeps(s, p, s');
    case AndEmpty(_) => MergeKeeps(s, p, s');
    case Sub1 => SubKeeps(s, p, s');
    case Get => GetKeeps(s, p, s');
    case Give(q) => GiveKeeps(s, p, s');
  }

  // ----- Listing -----

  lemma NoKidsYet(s: FState, p: Path, c: Path)
    requires Shape(s) && TreeClosed(s.walk.ctxs) && p in s.locs && QueuedLoc(s.locs[p]) && c in s.locs
    ensures ParentKey(c) != Dir(p)
  {
    assert ShapeAt(s, p);
  }

  /** `p` has just been listed, or has failed to be. */
  ghost predicate Began(s: FState, p: Path, s': FState, loc: Loc, c: Ctx) {
    && p in s.locs && s.locs[p].OnStack? && p in s.walk.ctxs && s'.locs == s.locs[p := loc] && s'.tasks == s.tasks
    && s'.walk.ctxs == s.walk.ctxs[p := c]
    && (|| (&& loc.Busy? && c.phase.Active? && c.ok && c.empty && s'.cells == s.cells[Dir(p) := Cell(true, true, 1, 0)])
        || (loc.Failing? && c.phase == Done(false, true) && c.todo == {} && s'.cells == s.cells))
  }

  lemma ListedOwed(locs: map<Path, Loc>, p: Path, loc: Loc)
    requires p in locs && locs[p].OnStack? && (loc.Busy? || loc.Failing?) && forall x :: x in locs ==>
        ParentKey(x) != Dir(p)
    ensures Owed(locs[p := loc], Dir(p)) == (if loc.Busy? then {p} else {}) && SameOwedBut(locs, locs[p := loc], Dir(p))
  {
    forall k ensures k != Dir(p) ==> Owed(locs, k) == Owed(locs[p := loc], k) { OwedUpdate(locs, p, loc, k); }
    OwedUpdate(locs, p, loc, Dir(p));
    assert Owed(locs, Dir(p)) == {};
  }

  lemma BeganOwed(s: FState, p: Path, s': FState, loc: Loc, c: Ctx)
    requires Shape(s) && TreeClosed(s.walk.ctxs) && Began(s, p, s', loc, c)
    ensures Owed(s'.locs, Dir(p)) == (if loc.Busy? then {p} else {}) && SameOwedBut(s.locs, s'.locs, Dir(p))
  {
    hide Shape, TreeClosed, Owed;
    forall x | x in s.locs ensures ParentKey(x) != Dir(p) { NoKidsYet(s, p, x); }
    ListedOwed(s.locs, p, loc);
  }

  lemma BeganShapeAt(s: FState, p: Path, s': FState, loc: Loc, c: Ctx, x: Path)
    requires Began(s, p, s', loc, c) && x in s.locs && x in s.walk.ctxs && ShapeAt(s, x) && ShapeAt(s, p)
    requires x.Sub? ==> x.parent in s.locs && x.parent in s.walk.ctxs && ShapeAt(s, x.parent)
    requires Owed(s'.locs, Dir(x)) == if x != p then Owed(s.locs, Dir(x)) else if loc.Busy? then {p} else {}
    ensures ShapeAt(s', x)
  {
    hide Owed;
  }

  lemma BeganShape(s: FState, p: Path, s': FState, loc: Loc, c: Ctx)
    requires Shape(s) && Began(s, p, s', loc, c) && SameOwedBut(s.locs, s'.locs, Dir(p))
    requires Owed(s'.locs, Dir(p)) == if loc.Busy? then {p} else {}
    ensures Shape(s')
  {
    forall x | x in s.locs && x.Sub? ensures x.parent in s.locs { assert ShapeAt(s, x); }
    hide Owed, ShapeAt;
    forall x | x in s'.locs ensures ShapeAt(s', x) {
      if x != p { assert Owed(s.locs, Dir(x)) == Owed(s'.locs, Dir(x)); }
      BeganShapeAt(s, p, s', loc, c, x);
    }
  }

  lemma BeganCounts(s: FState, p: Path, s': FState, loc: Loc, c: Ctx)
    requires Counts(s) && Began(s, p, s', loc, c) && SameOwedBut(s.locs, s'.locs, Dir(p)) && Dir(p) !in s.cells
    requires Owed(s'.locs, Dir(p)) == if loc.Busy? then {p} else {}
    ensures Counts(s')
  {
    hide Owed;
    forall k | k in s'.cells ensures s'.cells[k].pending == |Owed(s'.locs, k)| + if k.Top? then 1 else 0 {
      if k != Dir(p) { assert Owed(s.locs, k) == Owed(s'.locs, k); }
    }
  }

  lemma BeganFlagsAt(s: FState, p: Path, s': FState, loc: Loc, c: Ctx, k: Key)
    requires Began(s, p, s', loc, c) && k in s'.cells && (k in s.cells ==> FlagsAt(s, k)) && Dir(p) !in s.cells
    requires k == Dir(p) ==> forall x :: x in s.locs ==> ParentKey(x) != Dir(p)
    ensures FlagsAt(s', k)
  {
    forall x ensures k != Dir(p) ==> (KidMerged(s', k, x) <==> KidMerged(s, k, x)) { }
    forall x ensures k != Dir(p) ==> (KidMergedE(s', k, x) <==> KidMergedE(s, k, x)) { }
  }

  /** An agent's pending read concerns only cells that exist. */
  lemma LoadedStays(s: FState, s': FState, x: Path)
    requires x in s.locs && x in s.walk.ctxs && ShapeAt(s, x) && s.locs[x].Finish? && LoadedAt(s, x) && Top in s.cells
    requires x in s'.locs && s'.locs[x] == s.locs[x] &&
        (forall k :: k in s.cells ==> k in s'.cells && s'.cells[k] == s.cells[k])
    ensures LoadedAt(s', x)
  {
    hide Owed, PhaseFits;
  }

  lemma BeganFlags(s: FState, p: Path, s': FState, loc: Loc, c: Ctx)
    requires Shape(s) && TreeClosed(s.walk.ctxs) && Flags(s) && Began(s, p, s', loc, c) && Dir(p) !in s.cells
    ensures Flags(s')
  {
    forall x | x in s.locs ensures ParentKey(x) != Dir(p) { NoKidsYet(s, p, x); }
    hide FlagsAt, TreeClosed, ShapeAt, LoadedAt;
    forall x | x in s'.locs && s'.locs[x].Finish? ensures LoadedAt(s', x) { LoadedStays(s, s', x); }
    forall k | k in s'.cells ensures FlagsAt(s', k) { BeganFlagsAt(s, p, s', loc, c, k); }
  }

  lemma BeganKeeps(s: FState, p: Path, s': FState, loc: Loc, c: Ctx)
    requires PInv(s) && TreeClosed(s.walk.ctxs) && Began(s, p, s', loc, c)
    ensures PInv(s')
  {
    assert Dir(p) !in s.cells by { assert ShapeAt(s, p); }
    hide Shape, Counts, Tasks, Pushers, Flags, TreeClosed;
    BeganOwed(s, p, s', loc, c);
    BeganShape(s, p, s', loc, c);
    BeganCounts(s, p, s', loc, c);
    OnwardTasks(s, p, loc, Dir(p), s');
    OnwardPushers(s, p, loc, Dir(p), s');
    BeganFlags(s, p, s', loc, c);
  }

  lemma StartIs(s: State, p: Path, fault: ListFault)
    requires p in s.ctxs && s.ctxs[p].todo == {}
    ensures var s' := Start(s, p, fault);
            && s'.ctxs == s.ctxs[p := s'.ctxs[p]]
            && (if !fault.Lists? || !Listable(s, p) then s'.ctxs[p].phase == Done(false, true) && s'.ctxs[p].todo == {}
                else s'.ctxs[p].phase.Active? && s'.ctxs[p].ok && s'.ctxs[p].empty)
  {
    hide Purge, List, NamesInUse, Synth;
  }

  lemma ListKeeps(s: FState, p: Path, fault: ListFault, mode: SyncMode)
    requires PInv(s) && Str(s.walk) && CanStep(s, ListDir(p, fault))
    ensures PInv(FNext(s, ListDir(p, fault), mode)) && s.walk.ctxs[p].phase.Queued?
  {
    hide Shape, Counts, Tasks, Pushers, Flags, TreesWellFormed, TreeClosed, Coherent, Known, Placed, Start, Listable;
    QueuedHere(s, p);
    StartIs(s.walk, p, fault);
    var s' := FNext(s, ListDir(p, fault), mode);
    BeganKeeps(s, p, s', s'.locs[p], s'.walk.ctxs[p]);
  }

  lemma QueuedHere(s: FState, p: Path)
    requires Shape(s) && p in s.locs && s.locs[p].OnStack?
    ensures p in s.walk.ctxs && s.walk.ctxs[p].phase.Queued? && s.walk.ctxs[p].todo == {}
  {
    assert ShapeAt(s, p);
  }

  // ----- Processing a name -----

  /** What a step for `n` in `p` does to flags and contexts. */
  lemma ConcludeFlags(s: State, p: Path, n: Name, out: Applied, f: Faults)
    requires p in s.ctxs && Replica.Sub(p, n) !in s.ctxs && Replica.Sub(p, n) != p
    ensures var s', q := Conclude(s, p, n, out, f), Replica.Sub(p, n);
            && (s'.ctxs[p].ok <==> s.ctxs[p].ok && !Fails(out, q, f))
            && (s'.ctxs[p].empty <==> s.ctxs[p].empty && !Clears(out, n))
            && (q in s'.ctxs <==> Spawns(out, q, f))
            && s'.ctxs[p].phase == s.ctxs[p].phase
  {
  }

  ghost predicate Named(s: FState, p: Path, q: Path, s': FState, fails: bool, clears: bool) {
    && p in s.locs && s.locs[p].Busy? && q !in s.locs && ParentKey(q) == Dir(p) && p in s.walk.ctxs && p in s'.walk.ctxs
    && Dir(p) in s.cells && s'.tasks == s.tasks
    && s'.walk.ctxs.Keys == s'.locs.Keys && (s'.locs == s.locs || s'.locs == s.locs[q := Spawned])
    && (forall x :: x in s.walk.ctxs && x != p ==> x in s'.walk.ctxs && s'.walk.ctxs[x] == s.walk.ctxs[x])
    && (q in s'.walk.ctxs ==> s'.walk.ctxs[q].phase.Queued? && s'.walk.ctxs[q].todo == {})
    && s'.walk.ctxs[p].phase == s.walk.ctxs[p].phase
    && (s'.walk.ctxs[p].ok <==> s.walk.ctxs[p].ok && !fails) &&
        (s'.walk.ctxs[p].empty <==> s.walk.ctxs[p].empty && !clears)
    && s'.cells == s.cells[Dir(p) := s.cells[Dir(p)].(success := s.cells[Dir(p)].success && !fails,
                                                      empty := s.cells[Dir(p)].empty && !clears)]
  }

  lemma NamedOwed(s: FState, p: Path, q: Path, s': FState, fails: bool, clears: bool)
    requires Named(s, p, q, s', fails, clears)
    ensures SameOwed(s.locs, s'.locs)
  {
    forall k ensures Owed(s.locs, k) == Owed(s'.locs, k) { OwedUpdate(s.locs, q, Spawned, k); }
  }

  lemma NamedShapeAt(s: FState, p: Path, q: Path, s': FState, fails: bool, clears: bool, x: Path)
    requires Shape(s) && Named(s, p, q, s', fails, clears) && SameOwed(s.locs, s'.locs) && x in s'.locs
    ensures ShapeAt(s', x)
  {
    hide Owed;
    if x in s.locs {
      assert ShapeAt(s, x);
      assert Owed(s.locs, Dir(x)) == Owed(s'.locs, Dir(x));
    }
  }

  lemma NamedShape(s: FState, p: Path, q: Path, s': FState, fails: bool, clears: bool)
    requires Shape(s) && Named(s, p, q, s', fails, clears) && SameOwed(s.locs, s'.locs)
    ensures Shape(s')
  {
    hide Owed, ShapeAt;
    forall x | x in s'.locs ensures ShapeAt(s', x) { NamedShapeAt(s, p, q, s', fails, clears, x); }
  }

  /** The child `c` counts for as much after a step as before it. */
  ghost predicate SameKid(s: FState, s': FState, k: Key, c: Path) {
    && (KidMerged(s', k, c) <==> KidMerged(s, k, c)) && (KidMergedE(s', k, c) <==> KidMergedE(s, k, c))
    && (KidMerged(s, k, c) || KidMergedE(s, k, c) ==> s'.walk.ctxs[c].phase == s.walk.ctxs[c].phase)
  }

  lemma SameKids(s: FState, s': FState, k: Key)
    requires forall c :: SameKid(s, s', k, c)
    ensures AllMergedOk(s', k) <==> AllMergedOk(s, k)
    ensures AllMergedEmpty(s', k) <==> AllMergedEmpty(s, k)
  {
    if AllMergedOk(s, k) { assert forall c :: KidMerged(s', k, c) ==> SameKid(s, s', k, c); }
    if AllMergedOk(s', k) { assert forall c :: KidMerged(s, k, c) ==> SameKid(s, s', k, c); }
    if AllMergedEmpty(s, k) { assert forall c :: KidMergedE(s', k, c) ==> SameKid(s, s', k, c); }
    if AllMergedEmpty(s', k) { assert forall c :: KidMergedE(s, k, c) ==> SameKid(s, s', k, c); }
  }

  lemma NamedKid(s: FState, p: Path, q: Path, s': FState, fails: bool, clears: bool, k: Key, c: Path)
    requires Named(s, p, q, s', fails, clears) && s.locs.Keys == s.walk.ctxs.Keys
    ensures SameKid(s, s', k, c)
  {
  }

  lemma NamedFlagsAt(s: FState, p: Path, q: Path, s': FState, fails: bool, clears: bool, k: Key)
    requires Named(s, p, q, s', fails, clears) && k in s.cells && FlagsAt(s, k) && !s.walk.ctxs[p].phase.Done?
    requires s.locs.Keys == s.walk.ctxs.Keys && (k.Dir? ==> k.path in s.locs)
    ensures FlagsAt(s', k)
  {
    hide AllMergedOk, AllMergedEmpty, SameKid;
    forall c ensures SameKid(s, s', k, c) { NamedKid(s, p, q, s', fails, clears, k, c); }
    SameKids(s, s', k);
  }

  lemma NamedLoaded(s: FState, p: Path, q: Path, s': FState, fails: bool, clears: bool, x: Path)
    requires Named(s, p, q, s', fails, clears) && x in s.locs && s.locs[x].Finish? && LoadedAt(s, x)
    ensures x in s'.locs && s'.locs[x] == s.locs[x] && LoadedAt(s', x)
  {
  }

  lemma NamedFlags(s: FState, p: Path, q: Path, s': FState, fails: bool, clears: bool)
    requires Shape(s) && Flags(s) && Named(s, p, q, s', fails, clears)
    ensures Flags(s')
  {
    assert !s.walk.ctxs[p].phase.Done? by { assert ShapeAt(s, p); }
    hide ShapeAt, FlagsAt, LoadedAt;
    forall x | x in s'.locs && s'.locs[x].Finish? ensures LoadedAt(s', x) {
      NamedLoaded(s, p, q, s', fails, clears, x);
    }
    forall k | k in s'.cells ensures FlagsAt(s', k) { NamedFlagsAt(s, p, q, s', fails, clears, k); }
  }

  lemma NamedRoles(s: FState, p: Path, q: Path, s': FState, fails: bool, clears: bool)
    requires Tasks(s) && Pushers(s) && Named(s, p, q, s', fails, clears) && SameOwed(s.locs, s'.locs)
    ensures Tasks(s') && Pushers(s')
  {
    hide Tasks, Pushers;
    if s'.locs == s.locs {
      assert s'.locs == s.locs[p := Busy];
      OnwardTasks(s, p, Busy, Dir(p), s');
      OnwardPushers(s, p, Busy, Dir(p), s');
    } else {
      OnwardTasks(s, q, Spawned, Dir(p), s');
      OnwardPushers(s, q, Spawned, Dir(p), s');
    }
  }

  lemma NamedKeeps(s: FState, p: Path, q: Path, s': FState, fails: bool, clears: bool)
    requires PInv(s) && Named(s, p, q, s', fails, clears)
    ensures PInv(s')
  {
    hide Shape, Counts, Tasks, Pushers, Flags;
    NamedOwed(s, p, q, s', fails, clears);
    NamedShape(s, p, q, s', fails, clears);
    CountsSame(s, s');
    NamedFlags(s, p, q, s', fails, clears);
    NamedRoles(s, p, q, s', fails, clears);
  }

  lemma NamedFrom(s: FState, p: Path, n: Name, out: Applied, walk: State, spawns: bool, fails: bool, clears: bool,
      s': FState)
    requires p in s.locs && s.locs[p].Busy? && p in s.walk.ctxs && Dir(p) in s.cells && s.locs.Keys == s.walk.ctxs.Keys
    requires CtxsAfter(s.walk, p, n, out, walk) && s.walk.ctxs[p].phase.Active?
    requires walk.ctxs[p].ok <==> s.walk.ctxs[p].ok && !fails
    requires walk.ctxs[p].empty <==> s.walk.ctxs[p].empty && !clears
    requires Replica.Sub(p, n) in walk.ctxs <==> spawns
    requires s' == FState(walk, if spawns then s.locs[Replica.Sub(p, n) := Spawned] else s.locs,
                          s.cells[Dir(p) := s.cells[Dir(p)].(success := s.cells[Dir(p)].success && !fails,
                                                             empty := s.cells[Dir(p)].empty && !clears)], s.tasks)
    ensures Named(s, p, Replica.Sub(p, n), s', fails, clears)
  {
    hide NamesInUse, PlacedAt;
    NameKeys(s, p, Replica.Sub(p, n), walk, spawns);
  }

  lemma BusyFacts(s: FState, p: Path)
    requires Shape(s) && p in s.locs && s.locs[p].Busy?
    ensures s.locs.Keys == s.walk.ctxs.Keys && Dir(p) in s.cells && p in s.walk.ctxs && s.walk.ctxs[p].phase.Active?
  {
    assert ShapeAt(s, p);
  }

  lemma NameIs(s: FState, p: Path, n: Name, f: Faults, mode: SyncMode)
    requires Shape(s) && CanStep(s, DoName(p, n, f)) && Replica.Sub(p, n) !in s.walk.ctxs && Replica.Sub(p, n) != p
    requires CtxsAfter(s.walk, p, n, ApplyStep(s.walk, p, n, mode, f), File(s.walk, p, n, mode, f))
    ensures var out, q := ApplyStep(s.walk, p, n, mode, f), Replica.Sub(p, n);
            Named(s, p, q, FNext(s, DoName(p, n, f), mode), Fails(out, q, f), Clears(out, n))
  {
    var out, q := ApplyStep(s.walk, p, n, mode, f), Replica.Sub(p, n);
    BusyFacts(s, p);
    hide Shape, ApplyStep, CtxsAfter, Conclude, Fails, Clears, Spawns, Named;
    ConcludeFlags(s.walk, p, n, out, f);
    NamedFrom(s, p, n, out, Conclude(s.walk, p, n, out, f), Spawns(out, q, f), Fails(out, q, f), Clears(out, n),
              FNext(s, DoName(p, n, f), mode));
  }

  lemma NameKeys(s: FState, p: Path, q: Path, walk: State, spawns: bool)
    requires s.locs.Keys == s.walk.ctxs.Keys && walk.ctxs.Keys - {q} == s.walk.ctxs.Keys && (q in walk.ctxs <==> spawns)
    ensures walk.ctxs.Keys == (if spawns then s.locs[q := Spawned] else s.locs).Keys
  {
    if spawns { assert walk.ctxs.Keys == (walk.ctxs.Keys - {q}) + {q}; }
        else { assert walk.ctxs.Keys == walk.ctxs.Keys - {q}; }
  }

  lemma NameKeeps(s: FState, p: Path, n: Name, f: Faults, mode: SyncMode)
    requires PInv(s) && Str(s.walk) && CanStep(s, DoName(p, n, f))
    ensures PInv(FNext(s, DoName(p, n, f), mode)) && Structure.Working(s.walk, p, n)
  {
    assert Structure.Working(s.walk, p, n) by { assert ShapeAt(s, p); }
    assert Replica.Sub(p, n) !in s.walk.ctxs;
    hide Shape, Str, Counts, Tasks, Pushers, Flags, CtxsAfter, Named;
    FileKeeps(s.walk, p, n, mode, f);
    NameIs(s, p, n, f, mode);
    var out, q := ApplyStep(s.walk, p, n, mode, f), Replica.Sub(p, n);
    NamedKeeps(s, p, q, FNext(s, DoName(p, n, f), mode), Fails(out, q, f), Clears(out, n));
  }

  // ----- Completing -----

  /** When a completion task runs, every child has been merged. */
  lemma KidMergedIn(s: FState, p: Path, c: Path)
    requires Shape(s) && p in s.locs && s.locs[p].Completing? && c in s.locs && ParentKey(c) == Dir(p)
    ensures MergedSuccess(s.locs[c]) && MergedEmptiness(s.locs[c]) && c in s.walk.ctxs && s.walk.ctxs[c].phase.Done?
  {
    assert ShapeAt(s, p) && ShapeAt(s, c);
    assert c !in Owed(s.locs, Dir(p));
  }

  /** The flags that a completion task reads are those of the directory and all its
      subdirectories. */
  lemma CompletionReads(s: FState, p: Path)
    requires Shape(s) && Flags(s) && p in s.locs && s.locs[p].Completing?
    ensures p in s.walk.ctxs && Dir(p) in s.cells && KidsDone(s.walk, p)
    ensures s.walk.ctxs[p].phase.Active? && s.walk.ctxs[p].todo == {}
    ensures s.cells[Dir(p)].success == MergedOk(s.walk, p) && s.cells[Dir(p)].empty == MergedEmpty(s.walk, p)
  {
    assert ShapeAt(s, p);
    assert FlagsAt(s, Dir(p));
    assert s.locs.Keys == s.walk.ctxs.Keys;
    forall c | c in s.walk.ctxs && Kid(s.walk.ctxs, p, c)
      ensures KidMerged(s, Dir(p), c) && KidMergedE(s, Dir(p), c) && s.walk.ctxs[c].phase.Done?
    {
      assert c in s.locs.Keys;
      KidMergedIn(s, p, c);
    }
    forall c | KidMerged(s, Dir(p), c) ensures Kid(s.walk.ctxs, p, c) { }
    forall c | KidMergedE(s, Dir(p), c) ensures Kid(s.walk.ctxs, p, c) { }
  }

  lemma CompletionIsComplete(s: FState, p: Path, f: EndFaults)
    requires p in s.walk.ctxs && Dir(p) in s.cells
    requires s.cells[Dir(p)].success == MergedOk(s.walk, p) && s.cells[Dir(p)].empty == MergedEmpty(s.walk, p)
    ensures Completion(s, p, f).walk == Complete(s.walk, p, f)
  {
    hide MergedOk, MergedEmpty, RmAll;
  }

  ghost predicate Ran(s: FState, p: Path, s': FState, phase: Phase) {
    && p in s.locs && s.locs[p].Completing? && p in s.walk.ctxs && Dir(p) in s.cells && phase.Done?
    && s'.locs == s.locs[p := Finish(Up, LoadSuccess)] && s'.tasks == s.tasks
    && s'.walk.ctxs == s.walk.ctxs[p := s.walk.ctxs[p].(phase := phase)]
    && s'.cells == s.cells[Dir(p) := s.cells[Dir(p)].(success := phase.success)]
    && (phase.success ==> s.cells[Dir(p)].success) && phase.empty == s.cells[Dir(p)].empty
  }

  lemma RanShapeAt(s: FState, p: Path, s': FState, phase: Phase, x: Path)
    requires Ran(s, p, s', phase) && x in s.locs && x in s.walk.ctxs && ShapeAt(s, x) && ShapeAt(s, p)
    requires Owed(s'.locs, Dir(x)) == Owed(s.locs, Dir(x))
    ensures ShapeAt(s', x)
  {
    hide Owed;
  }

  lemma RanShape(s: FState, p: Path, s': FState, phase: Phase)
    requires Shape(s) && Ran(s, p, s', phase) && SameOwed(s.locs, s'.locs)
    ensures Shape(s')
  {
    hide Owed, ShapeAt;
    forall x | x in s'.locs ensures ShapeAt(s', x) {
      assert Owed(s'.locs, Dir(x)) == Owed(s.locs, Dir(x));
      RanShapeAt(s, p, s', phase, x);
    }
  }

  lemma RanKid(s: FState, p: Path, s': FState, phase: Phase, k: Key, c: Path)
    requires Ran(s, p, s', phase)
    ensures SameKid(s, s', k, c)
  {
  }

  lemma RanFlagsAt(s: FState, p: Path, s': FState, phase: Phase, k: Key)
    requires Ran(s, p, s', phase) && k in s.cells && FlagsAt(s, k)
    ensures FlagsAt(s', k)
  {
    hide AllMergedOk, AllMergedEmpty, SameKid;
    forall c ensures SameKid(s, s', k, c) { RanKid(s, p, s', phase, k, c); }
    SameKids(s, s', k);
  }

  lemma RanFlags(s: FState, p: Path, s': FState, phase: Phase)
    requires Flags(s) && Ran(s, p, s', phase)
    ensures Flags(s')
  {
    StillLoaded(s, s', p, Dir(p), Finish(Up, LoadSuccess), s'.cells[Dir(p)]);
    hide FlagsAt, LoadedAt;
    forall k | k in s'.cells ensures FlagsAt(s', k) { RanFlagsAt(s, p, s', phase, k); }
  }

  lemma RanKeeps(s: FState, p: Path, s': FState, phase: Phase)
    requires PInv(s) && Ran(s, p, s', phase)
    ensures PInv(s')
  {
    hide Shape, Counts, Tasks, Pushers, Flags;
    OwedSame(s.locs, p, Finish(Up, LoadSuccess));
    CountsSame(s, s');
    RanShape(s, p, s', phase);
    RanFlags(s, p, s', phase);
    OnwardTasks(s, p, Finish(Up, LoadSuccess), Dir(p), s');
    OnwardPushers(s, p, Finish(Up, LoadSuccess), Dir(p), s');
  }

  lemma CompletionKeeps(s: FState, p: Path, f: EndFaults)
    requires PInv(s) && p in s.locs && s.locs[p].Completing? && p in s.walk.ctxs
    ensures PInv(Completion(s, p, f)) && Completion(s, p, f).walk == Complete(s.walk, p, f)
  {
    hide Shape, Counts, Tasks, Pushers, Flags, MergedOk, MergedEmpty, RmAll;
    CompletionReads(s, p);
    CompletionIsComplete(s, p, f);
    var s' := Completion(s, p, f);
    RanKeeps(s, p, s', s'.walk.ctxs[p].phase);
  }

  // ----- Every access -----

  /** Whatever the threads do next, the invariant holds, no fetch finds its task missing,
      and the trees and contexts take a step of the walk or none. */
  lemma StepRefines(s: FState, st: Step, mode: SyncMode)
    requires PInv(s) && Str(s.walk) && CanStep(s, st)
    ensures var s' := FNext(s, st, mode);
            && PInv(s') && Str(s'.walk)
            && match Project(st)
               case None => s'.walk == s.walk
               case Some(a) => Enabled(s.walk, a) && s'.walk == Next(s.walk, a, mode)
  {
    hide Shape, Counts, Tasks, Pushers, Flags, TreesWellFormed, TreeClosed, Coherent, Known, Placed, Start, Complete,
        Conclude, MergedOk, MergedEmpty;
    var p := st.p;
    match st
    case Count(_) =>
      TargetOpen(s, p);
      CountKeeps(s, p, FNext(s, st, mode));
    case Push(_) => PushKeeps(s, p);
    case ListDir(_, fault) =>
      ListKeeps(s, p, fault, mode);
      StartKeeps(s.walk, p, fault);
    case DoName(_, n, f) =>
      NameKeeps(s, p, n, f, mode);
      FileKeeps(s.walk, p, n, mode, f);
    case PutTask(_, id) => PutKeeps(s, p, id, FNext(s, st, mode));
    case StoreId(_) =>
      HasCell(s, p);
      StoreKeeps(s, p, FNext(s, st, mode));
    case FailParent(_) =>
      TargetOpen(s, p);
      FailParentKeeps(s, p, FNext(s, st, mode));
    case Advance(_) =>
      AdvanceKeeps(s, p);
      FinishingWalk(s, p);
    case RunCompletion(_, ef) =>
      CompletionReads(s, p);
      CompletionKeeps(s, p, ef);
      CompleteKeeps(s.walk, p, ef);
  }

  lemma HasCell(s: FState, p: Path)
    requires Shape(s) && p in s.locs && s.locs[p].Storing?
    ensures Dir(p) in s.cells
  {
    assert ShapeAt(s, p);
  }

  lemma FinishingWalk(s: FState, p: Path)
    requires p in s.locs && s.locs[p].Finish?
    ensures Finishing(s, p, s.locs[p].who, s.locs[p].stage).walk == s.walk
  {
  }
}
