/** What the completion protocol guarantees over whole runs, in every interleaving of any
    number of threads and whatever fails. */
module ProtocolTheorems {
  import opened Defs
  import opened Replica
  import opened Mutate
  import opened Effects
  import opened Walk
  import opened Structure
  import opened StructureKept
  import opened Deletion
  import opened Convergence
  import opened Protocol
  import opened ProtocolInv
  import opened ProtocolKept
  import opened ProtocolTasks
  import opened ProtocolWalk
  import Compute

  // ----- Refinement -----

  function Projected(run: seq<Step>): seq<Action> {
    if run == [] then []
    else (if Project(run[0]).Some? then [Project(run[0]).value] else []) + Projected(run[1..])
  }

  lemma {:induction false} RunRefines(s: FState, run: seq<Step>, mode: SyncMode)
    requires PInv(s) && Str(s.walk) && FLegal(s, run, mode)
    ensures PInv(FFinal(s, run, mode)) && Str(FFinal(s, run, mode).walk)
    ensures Legal(s.walk, Projected(run), mode) && FFinal(s, run, mode).walk == Final(s.walk, Projected(run), mode)
    decreases |run|
  {
    if run != [] {
      hide PInv, Str, FNext, Enabled, Next;
      StepRefines(s, run[0], mode);
      var s' := FNext(s, run[0], mode);
      RunRefines(s', run[1..], mode);
      if Project(run[0]).Some? {
        assert Projected(run)[0] == Project(run[0]).value && Projected(run)[1..] == Projected(run[1..]);
      } else {
        assert Projected(run) == Projected(run[1..]);
      }
    }
  }

  ghost predicate Reachable(w: World, run: seq<Step>, mode: SyncMode, s: FState) {
    TreesWellFormed(w) && FLegal(FInit(w), run, mode) && s == FFinal(FInit(w), run, mode)
  }

  /** Every interleaving of the threads' accesses is a run of the walk. */
  lemma ThreadsRefineWalk(w: World, run: seq<Step>, mode: SyncMode, s: FState)
    requires Reachable(w, run, mode, s)
    ensures Legal(Init(w), Projected(run), mode) && s.walk == Final(Init(w), Projected(run), mode)
    ensures PInv(s) && Str(s.walk)
  {
    InitPInv(w);
    InitStr(w);
    RunRefines(FInit(w), run, mode);
  }

  // ----- The counter -----

  function Outstanding(locs: map<Path, Loc>, p: Path): set<Path> {
    set c | c in locs && ParentKey(c) == Dir(p) && UpHeld(locs[c])
  }

  /** `pending` is the number of outstanding children, plus one while the directory's own
      processing is unfinished. */
  lemma PendingExact(w: World, run: seq<Step>, mode: SyncMode, s: FState, p: Path)
    requires Reachable(w, run, mode, s) && Dir(p) in s.cells
    ensures p in s.locs && s.cells[Dir(p)].pending == |Outstanding(s.locs, p)| + if OwnHeld(s.locs[p]) then 1 else 0
  {
    ThreadsRefineWalk(w, run, mode, s);
    assert p in s.locs && s.cells[Dir(p)].pending == |Owed(s.locs, Dir(p))|;
    hide Reachable, Str, PInv;
    OwedParts(s.locs, p);
  }

  lemma OwedParts(locs: map<Path, Loc>, p: Path)
    requires p in locs
    ensures |Owed(locs, Dir(p))| == |Outstanding(locs, p)| + if OwnHeld(locs[p]) then 1 else 0
  {
    if p.Sub? { ParentIsAnother(p); }
    assert Owed(locs, Dir(p)) == Outstanding(locs, p) + if OwnHeld(locs[p]) then {p} else {};
  }

  lemma ParentIsAnother(p: Path)
    requires p.Sub?
    ensures ParentKey(p) != Dir(p)
  {
  }

  /** Whoever brings a counter to zero finds the completion task of that directory in the
      map, when nothing is left to wait for and nobody else is fetching it. */
  lemma FetchFindsTask(w: World, run: seq<Step>, mode: SyncMode, s: FState, a: Path)
    requires Reachable(w, run, mode, s) && a in s.locs && s.locs[a].Finish? && s.locs[a].stage.Get?
    ensures var k := Target(a, s.locs[a].who);
            && k.Dir? && k in s.cells && !Panics(s, a) && s.tasks[s.cells[k].onComplete] == k.path
            && s.cells[k].pending == 0
            && forall b :: Pusher(s.locs, b, k) ==> b == a
  {
    ThreadsRefineWalk(w, run, mode, s);
    hide Reachable, Str, Shape, Tasks, Flags, Counts, Pushers;
    FoundTask(s, a);
    OnlyPusher(s, a);
  }

  lemma OnlyPusher(s: FState, a: Path)
    requires Pushers(s) && Counts(s) && a in s.locs && s.locs[a].Finish? && s.locs[a].stage.Get?
    requires Target(a, s.locs[a].who) in s.cells
    ensures s.cells[Target(a, s.locs[a].who)].pending == 0
    ensures forall b :: Pusher(s.locs, b, Target(a, s.locs[a].who)) ==> b == a
  {
    assert Pusher(s.locs, a, Target(a, s.locs[a].who));
  }

  // ----- Completion tasks -----

  /** How often the completion task of `p` is run. */
  function Completions(run: seq<Step>, p: Path): nat {
    if run == [] then 0
    else (if run[0].RunCompletion? && run[0].p == p then 1 else 0) + Completions(run[1..], p)
  }

  ghost predicate IsCompleted(s: FState, p: Path) {
    Dir(p) in s.cells && p in s.walk.ctxs && s.walk.ctxs[p].phase.Done?
  }

  lemma CompletedByFinishing(s: FState, p: Path, x: Path)
    requires Shape(s) && Pushers(s) && x in s.locs && s.locs[x].Finish?
    ensures IsCompleted(Finishing(s, x, s.locs[x].who, s.locs[x].stage), p) <==> IsCompleted(s, p)
  {
    TargetHasCell(s, x);
    FinishingWalk(s, x);
    hide Shape, Pushers;
    assert Finishing(s, x, s.locs[x].who, s.locs[x].stage).cells.Keys == s.cells.Keys;
  }

  lemma CompletedNamed(s: FState, p: Path, x: Path, q: Path, s': FState, fails: bool, clears: bool)
    requires Named(s, x, q, s', fails, clears) && (Dir(p) in s.cells ==> p in s.walk.ctxs)
    ensures IsCompleted(s', p) <==> IsCompleted(s, p)
  {
  }

  lemma CellsKnown(s: FState, p: Path)
    requires Shape(s)
    ensures Dir(p) in s.cells ==> p in s.walk.ctxs
  {
  }

  lemma NewNameHere(s: FState, x: Path, n: Name)
    requires Structure.Working(s.walk, x, n)
    ensures Sub(x, n) !in s.walk.ctxs
  {
  }

  lemma CompletedByName(s: FState, p: Path, x: Path, n: Name, f: Faults, mode: SyncMode)
    requires PInv(s) && Str(s.walk) && CanStep(s, DoName(x, n, f))
    ensures IsCompleted(FNext(s, DoName(x, n, f), mode), p) <==> IsCompleted(s, p)
  {
    hide Shape, Counts, Tasks, Pushers, Flags, Str, CtxsAfter, Named, FNext, Fails, Clears, IsCompleted;
    NameKeeps(s, x, n, f, mode);
    NewNameHere(s, x, n);
    FileKeeps(s.walk, x, n, mode, f);
    NameIs(s, x, n, f, mode);
    CellsKnown(s, p);
    var out, q := ApplyStep(s.walk, x, n, mode, f), Sub(x, n);
    CompletedNamed(s, p, x, q, FNext(s, DoName(x, n, f), mode), Fails(out, q, f), Clears(out, n));
  }

  lemma NoCellYet(s: FState, x: Path)
    requires Shape(s) && x in s.locs && s.locs[x].OnStack?
    ensures Dir(x) !in s.cells
  {
    assert ShapeAt(s, x);
  }

  lemma CompletedByStart(s: FState, p: Path, x: Path, fault: ListFault, mode: SyncMode)
    requires PInv(s) && CanStep(s, ListDir(x, fault))
    ensures IsCompleted(FNext(s, ListDir(x, fault), mode), p) <==> IsCompleted(s, p)
  {
    hide Shape, Counts, Tasks, Pushers, Flags, Start, Listable;
    QueuedHere(s, x);
    StartIs(s.walk, x, fault);
    NoCellYet(s, x);
  }

  lemma CompletedBy(s: FState, st: Step, mode: SyncMode, p: Path)
    requires PInv(s) && Str(s.walk) && CanStep(s, st)
    ensures IsCompleted(FNext(s, st, mode), p) <==> IsCompleted(s, p) || (st.RunCompletion? && st.p == p)
    ensures st.RunCompletion? && st.p == p ==> !IsCompleted(s, p)
  {
    hide Shape, Counts, Tasks, Pushers, Flags, Str;
    match st
    case ListDir(x, fault) => CompletedByStart(s, p, x, fault, mode);
    case DoName(x, n, f) => CompletedByName(s, p, x, n, f, mode);
    case Advance(x) => CompletedByFinishing(s, p, x);
    case RunCompletion(x, ef) => CompletionReads(s, x);
    case Count(x) => TargetOpen(s, x);
    case FailParent(x) => TargetOpen(s, x);
    case StoreId(x) => HasCell(s, x);
    case _ =>
  }

  lemma {:induction false} CompletionsCount(s: FState, run: seq<Step>, mode: SyncMode, p: Path)
    requires PInv(s) && Str(s.walk) && FLegal(s, run, mode)
    ensures Completions(run, p) + (if IsCompleted(s, p) then 1 else 0) == if IsCompleted(FFinal(s, run, mode), p)
        then 1 else 0
    decreases |run|
  {
    if run != [] {
      hide PInv, Str, FNext, IsCompleted;
      StepRefines(s, run[0], mode);
      CompletedBy(s, run[0], mode, p);
      CompletionsCount(FNext(s, run[0], mode), run[1..], mode, p);
    }
  }

  /** No completion task is run twice, and none before all subdirectories are done; when one
      runs, the flags it reads tell whether anything failed and whether anything is left in
      the directory and in all the subdirectories entered from it. */
  lemma CompletionOnceAndLast(w: World, run: seq<Step>, mode: SyncMode, s: FState, p: Path)
    requires Reachable(w, run, mode, s)
    ensures Completions(run, p) <= 1
    ensures p in s.locs && s.locs[p].Completing? ==>
              && p in s.walk.ctxs && KidsDone(s.walk, p) && Completions(run, p) == 0
              && Dir(p) in s.cells && s.cells[Dir(p)].pending == 0
              && s.cells[Dir(p)].success == MergedOk(s.walk, p) && s.cells[Dir(p)].empty == MergedEmpty(s.walk, p)
  {
    ThreadsRefineWalk(w, run, mode, s);
    InitPInv(w);
    InitStr(w);
    CompletionsCount(FInit(w), run, mode, p);
    assert !IsCompleted(FInit(w), p);
    hide Reachable, Str, MergedOk, MergedEmpty;
    if p in s.locs && s.locs[p].Completing? {
      CompletionReads(s, p);
      assert ShapeAt(s, p);
    }
  }

  // ----- What success means -----

  lemma StaysTruthful(w: World, run: seq<Step>, mode: SyncMode, s: FState)
    requires Reachable(w, run, mode, s)
    ensures PInv(s) && Str(s.walk) && TreeClosed(s.walk.ctxs) && Truthful(s.walk)
  {
    ThreadsRefineWalk(w, run, mode, s);
    hide PInv, Legal, Final, FLegal, FFinal, Coherent, Known, Placed, TreeClosed, WellFormed, Vacant, Gone, OneSided,
        FilledForCause;
    InitStr(w);
    InitDel(w);
    RunDel(Init(w), Projected(run), mode);
  }

  /** `on_success` is called, and so a directory is marked clean or removed, only if no
      operation failed in it or in any directory entered below it. */
  lemma CleanMeansNoFailure(w: World, run: seq<Step>, mode: SyncMode, s: FState, p: Path, x: Path)
    requires Reachable(w, run, mode, s) && p in s.locs && s.locs[p].Completing? && Dir(p) in s.cells &&
        s.cells[Dir(p)].success
    requires Under(p, x)
    ensures WentWell(s.walk, p, x)
  {
    StaysTruthful(w, run, mode, s);
    hide Reachable, Truthful, TreeClosed, MergedOk, MergedEmpty, Counts, Tasks, Pushers, Shape, Flags;
    CompletionReads(s, p);
    if x in s.walk.ctxs { AllBelowWentWell(s.walk, p, x); }
  }

  // ----- Progress -----

  lemma {:induction false} FreshId(ids: set<nat>) returns (id: nat)
    ensures forall i :: i in ids ==> i < id
    decreases ids
  {
    if ids == {} { id := 0; }
    else {
      var i :| i in ids;
      var rest := FreshId(ids - {i});
      id := if i < rest then rest else i + 1;
      assert ids == (ids - {i}) + {i};
    }
  }

  lemma {:induction false} DepthBound(paths: set<Path>) returns (d: nat)
    ensures forall x :: x in paths ==> Depth(x) <= d
    decreases paths
  {
    if paths == {} { d := 0; }
    else {
      var x :| x in paths;
      var rest := DepthBound(paths - {x});
      d := if Depth(x) < rest then rest else Depth(x);
    }
  }

  lemma BusyCanStep(s: FState, p: Path) returns (st: Step)
    requires Shape(s) && p in s.locs && s.locs[p].Busy?
    ensures CanStep(s, st)
  {
    assert s.locs.Keys == s.walk.ctxs.Keys;
    if Spawning(s.locs, p) {
      var c :| c in s.locs && ParentKey(c) == Dir(p) && (s.locs[c].Spawned? || s.locs[c].Counted?);
      st := if s.locs[c].Spawned? then Count(c) else Push(c);
    } else if n :| n in s.walk.ctxs[p].todo {
      st := DoName(p, n, NO_FAULTS);
    } else {
      var id := FreshId(s.tasks.Keys);
      st := PutTask(p, id);
    }
  }

  /** A directory that waits has an agent to wait for, and it is deeper or about to push. */
  lemma ParkedWaitsFor(s: FState, p: Path) returns (c: Path)
    requires Shape(s) && Pushers(s) && p in s.locs && s.locs[p].Parked?
    ensures c in s.locs && !s.locs[c].Ended? && c.Sub? && c.parent == p
  {
    if Owed(s.locs, Dir(p)) == {} {
      c :| Pusher(s.locs, c, Dir(p));
    } else {
      c :| c in Owed(s.locs, Dir(p));
    }
  }

  lemma {:induction false} SomeoneCanStep(s: FState, p: Path, d: nat) returns (st: Step)
    requires PInv(s) && p in s.locs && !s.locs[p].Ended? && forall x :: x in s.locs ==> Depth(x) <= d
    ensures CanStep(s, st)
    decreases d - Depth(p)
  {
    hide Shape, Counts, Tasks, Pushers, Flags, Spawning;
    KnownDir(s, p);
    match s.locs[p]
    case Spawned => st := Count(p);
    case Counted => st := Push(p);
    case OnStack => st := ListDir(p, Lists);
    case Busy => st := BusyCanStep(s, p);
    case Storing(_) => st := StoreId(p);
    case Failing => st := FailParent(p);
    case Finish(_, _) =>
      AdvanceKeeps(s, p);
      st := Advance(p);
    case Parked =>
      var c := ParkedWaitsFor(s, p);
      st := SomeoneCanStep(s, c, d);
    case Completing => st := RunCompletion(p, NO_END_FAULTS);
  }

  ghost predicate AllEnded(s: FState) {
    forall p :: p in s.locs ==> s.locs[p].Ended?
  }

  /** The walk never gets stuck: as long as some directory has not ended, some access can be
      made. */
  lemma NoDeadlock(w: World, run: seq<Step>, mode: SyncMode, s: FState)
    requires Reachable(w, run, mode, s)
    ensures AllEnded(s) || exists st :: CanStep(s, st)
  {
    ThreadsRefineWalk(w, run, mode, s);
    hide Reachable, PInv, Str, CanStep;
    if !AllEnded(s) {
      var p :| p in s.locs && !s.locs[p].Ended?;
      var d := DepthBound(s.locs.Keys);
      var st := SomeoneCanStep(s, p, d);
    }
  }

  // ----- The end -----

  lemma EndedMeansDrained(s: FState)
    requires Shape(s) && AllEnded(s)
    ensures Drained(s.walk) && Top in s.cells
  {
    forall p | p in s.walk.ctxs ensures s.walk.ctxs[p].phase.Done? {
      assert p in s.locs.Keys;
      assert ShapeAt(s, p);
    }
  }

  lemma NothingOwed(locs: map<Path, Loc>, k: Key)
    requires forall p :: p in locs ==> locs[p].Ended?
    ensures Owed(locs, k) == {}
  {
  }

  lemma EndedCounts(s: FState)
    requires Counts(s) && Tasks(s) && AllEnded(s)
    ensures s.tasks == map[]
    ensures forall k :: k in s.cells ==> s.cells[k].pending == if k.Top? then 1 else 0
  {
    forall k ensures Owed(s.locs, k) == {} { NothingOwed(s.locs, k); }
    assert s.tasks.Keys == {};
  }

  lemma EndedTop(s: FState)
    requires Shape(s) && Flags(s) && AllEnded(s)
    ensures Root in s.walk.ctxs && s.walk.ctxs[Root].phase.Done? &&
        s.cells[Top].success == s.walk.ctxs[Root].phase.success
  {
    assert ShapeAt(s, Root);
    assert FlagsAt(s, Top);
    assert KidMerged(s, Top, Root);
    assert forall c :: KidMerged(s, Top, c) ==> c == Root;
  }

  lemma EndedCompleted(s: FState, p: Path)
    requires Shape(s) && AllEnded(s) && Dir(p) in s.cells
    ensures IsCompleted(s, p)
  {
    assert p in s.locs && ShapeAt(s, p);
  }

  lemma EndedOnce(w: World, run: seq<Step>, mode: SyncMode, s: FState, p: Path)
    requires Reachable(w, run, mode, s) && PInv(s) && AllEnded(s) && Dir(p) in s.cells
    ensures Completions(run, p) == 1
  {
    assert !IsCompleted(FInit(w), p);
    hide FLegal, FFinal, FInit, Shape, Counts, Tasks, Pushers, Flags, Str, IsCompleted, AllEnded, Completions;
    InitPInv(w);
    InitStr(w);
    EndedCompleted(s, p);
    CompletionsCount(FInit(w), run, mode, p);
  }

  /** When all work is done the walk has drained, no completion task is left in the map, all
      counters but the one of `start_root` are zero, every directory that was listed has had
      its completion task run, and the success that `start_root` reports is that nothing
      failed anywhere. */
  lemma AfterTheLastTask(w: World, run: seq<Step>, mode: SyncMode, s: FState)
    requires Reachable(w, run, mode, s) && AllEnded(s)
    ensures Drained(s.walk) && s.tasks == map[] && Top in s.cells
    ensures forall k :: k in s.cells ==> s.cells[k].pending == if k.Top? then 1 else 0
    ensures forall p :: Dir(p) in s.cells ==> Completions(run, p) == 1
    ensures s.cells[Top].success <==> AllOk(s.walk)
  {
    StaysTruthful(w, run, mode, s);
    hide Reachable, Shape, Counts, Tasks, Pushers, Flags, Str, Truthful, TreeClosed, AllOk, AllEnded, Drained;
    forall p | Dir(p) in s.cells ensures Completions(run, p) == 1 { EndedOnce(w, run, mode, s, p); }
    EndedMeansDrained(s);
    EndedCounts(s);
    EndedTop(s);
    RootSuccess(s.walk);
  }

  // ----- The whole program -----

  ghost predicate FaultFree(run: seq<Step>) {
    FaultlessRun(Projected(run))
  }

  ghost predicate Stuck(s: FState) {
    forall st :: !CanStep(s, st)
  }

  /** However many threads run it and however they interleave, a pass that comes to rest and
      reports success in a decisive mode has made the ends agree; and without faults it does
      report success. */
  lemma PassAchieves(w: World, run: seq<Step>, mode: SyncMode, s: FState)
    requires Reachable(w, run, mode, s) && Stuck(s) && PlainEnds(w) && Compute.Decisive(mode)
    ensures AllEnded(s) && Top in s.cells
    ensures s.cells[Top].success ==> forall q :: AgreeAt(s.walk.w, q)
    ensures FaultFree(run) ==> s.cells[Top].success
  {
    NoDeadlock(w, run, mode, s);
    ThreadsRefineWalk(w, run, mode, s);
    AfterTheLastTask(w, run, mode, s);
    assert TreesWellFormed(w) && TreeClosed(s.walk.ctxs);
    assert Root in s.walk.ctxs;
    hide Reachable, PInv, Str, Legal, Final, AllOk, AgreeAt;
    InitInv(w, mode);
    RunInv(Init(w), Projected(run), mode);
    if s.cells[Top].success {
      assert s.walk.ctxs[Root].phase.success by { RootOk(s.walk); }
      SuccessMeansAgreement(w, Projected(run), mode);
    }
    if FaultFree(run) { FaultlessRunsSucceed(w, Projected(run), mode); }
  }

  lemma RootOk(s: State)
    requires AllOk(s) && Root in s.ctxs && Drained(s)
    ensures s.ctxs[Root].phase.Done? && s.ctxs[Root].phase.success
  {
  }
}
