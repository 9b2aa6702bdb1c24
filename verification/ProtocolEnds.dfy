/** The threads come to rest: no sequence of their accesses is longer than a bound that
    depends on the trees alone, and what they have then done is a whole pass. */
module ProtocolEnds {
  import opened Defs
  import opened Replica
  import opened Mutate
  import opened Effects
  import opened Walk
  import opened Structure
  import opened StructureKept
  import opened Protocol
  import opened ProtocolInv
  import opened ProtocolWalk
  import opened ProtocolTheorems
  import Termination

  // ----- What is left for a directory to do -----

  function StageRank(stage: Stage): nat {
    match stage
    case LoadSuccess => 7
    case AndSuccess(_) => 6
    case LoadEmpty => 5
    case AndEmpty(_) => 4
    case Sub1 => 3
    case Get => 2
    case Give(_) => 1
  }

  function LocRank(loc: Loc): nat {
    match loc
    case Spawned => 21
    case Counted => 20
    case OnStack => 19
    case Busy => 18
    case Storing(_) => 17
    case Finish(who, stage) => if who.Own? then 9 + StageRank(stage) else StageRank(stage)
    case Parked => 9
    case Completing => 8
    case Failing => 8
    case Ended => 0
  }

  ghost function Sum(locs: map<Path, Loc>): nat {
    if locs == map[] then 0 else var p :| p in locs; LocRank(locs[p]) + Sum(locs - {p})
  }

  lemma {:induction false} SumAny(locs: map<Path, Loc>, p: Path)
    requires p in locs
    ensures Sum(locs) == LocRank(locs[p]) + Sum(locs - {p})
    decreases |locs|
  {
    var x :| x in locs && Sum(locs) == LocRank(locs[x]) + Sum(locs - {x});
    if x != p {
      SumAny(locs - {x}, p);
      SumAny(locs - {p}, x);
      assert locs - {x} - {p} == locs - {p} - {x};
    }
  }

  lemma SumSet(locs: map<Path, Loc>, p: Path, loc: Loc)
    ensures Sum(locs[p := loc]) == Sum(locs) + LocRank(loc) - if p in locs then LocRank(locs[p]) else 0
  {
    var now := locs[p := loc];
    SumAny(now, p);
    if p in locs {
      SumAny(locs, p);
      assert now - {p} == locs - {p};
    } else {
      assert now - {p} == locs;
    }
  }

  ghost function FRank(s: FState): nat {
    22 * Termination.Rank(s.walk) + Sum(s.locs)
  }

  // ----- Every access makes progress -----

  lemma FinishSum(s: FState, p: Path)
    requires Shape(s) && Pushers(s) && p in s.locs && s.locs[p].Finish? && !Panics(s, p)
    ensures Sum(Finishing(s, p, s.locs[p].who, s.locs[p].stage).locs) < Sum(s.locs)
  {
    hide Shape, Pushers;
    if s.locs[p].stage.Give? { GiveSum(s, p); } else { StageSum(s, p); }
  }

  lemma GiveSum(s: FState, p: Path)
    requires Shape(s) && Pushers(s) && p in s.locs && s.locs[p].Finish? && s.locs[p].stage.Give?
    ensures Sum(Finishing(s, p, s.locs[p].who, s.locs[p].stage).locs) < Sum(s.locs)
  {
    hide Shape, Pushers;
    var who, q, rest := s.locs[p].who, s.locs[p].stage.task, Rest(s.locs[p].who);
    GiveTarget(s, p);
    SumSet(s.locs, p, rest);
    SumSet(s.locs[p := rest], q, Completing);
    hide Sum, PusherAt;
  }

  lemma StageSum(s: FState, p: Path)
    requires p in s.locs && s.locs[p].Finish? && !s.locs[p].stage.Give? && !Panics(s, p)
    ensures Sum(Finishing(s, p, s.locs[p].who, s.locs[p].stage).locs) < Sum(s.locs)
  {
    var now := Finishing(s, p, s.locs[p].who, s.locs[p].stage).locs;
    assert now == s.locs[p := now[p]] && LocRank(now[p]) < LocRank(s.locs[p]);
    SumSet(s.locs, p, now[p]);
  }

  lemma QuietSum(s: FState, st: Step, mode: SyncMode)
    requires Shape(s) && Pushers(s) && CanStep(s, st) && Project(st).None?
    ensures Sum(FNext(s, st, mode).locs) < Sum(s.locs)
  {
    hide Shape, Pushers;
    match st
    case Count(p) => SumSet(s.locs, p, Counted);
    case Push(p) => SumSet(s.locs, p, OnStack);
    case PutTask(p, id) => SumSet(s.locs, p, Storing(id));
    case StoreId(p) => SumSet(s.locs, p, Finish(Own, LoadSuccess));
    case FailParent(p) => SumSet(s.locs, p, Finish(Failed, LoadSuccess));
    case Advance(p) => FinishSum(s, p);
  }

  lemma WalkSum(s: FState, st: Step, mode: SyncMode)
    requires CanStep(s, st) && Project(st).Some?
    ensures Sum(FNext(s, st, mode).locs) <= Sum(s.locs) + 21
  {
    match st
    case ListDir(p, fault) => SumSet(s.locs, p, FNext(s, st, mode).locs[p]);
    case DoName(p, n, f) => SumSet(s.locs, Replica.Sub(p, n), Spawned);
    case RunCompletion(p, ef) => SumSet(s.locs, p, Finish(Up, LoadSuccess));
  }

  lemma StepRank(s: FState, st: Step, mode: SyncMode)
    requires PInv(s) && Str(s.walk) && CanStep(s, st)
    ensures FRank(FNext(s, st, mode)) < FRank(s)
  {
    hide Shape, Counts, Tasks, Pushers, Flags, Str, FNext, Enabled, Next, Termination.Rank;
    StepRefines(s, st, mode);
    if Project(st).None? {
      QuietSum(s, st, mode);
    } else {
      WalkSum(s, st, mode);
      Termination.NextRank(s.walk, Project(st).value, mode);
    }
  }

  lemma {:induction false} RunRank(s: FState, run: seq<Step>, mode: SyncMode)
    requires PInv(s) && Str(s.walk) && FLegal(s, run, mode)
    ensures |run| + FRank(FFinal(s, run, mode)) <= FRank(s)
    decreases |run|
  {
    if run != [] {
      hide PInv, Str, FNext, FRank;
      StepRefines(s, run[0], mode);
      StepRank(s, run[0], mode);
      RunRank(FNext(s, run[0], mode), run[1..], mode);
    }
  }

  lemma InitRank(w: World)
    ensures FRank(FInit(w)) <= 22 * Termination.Size(w) + 21
  {
    Termination.InitRank(w);
    SumSet(map[], Root, Spawned);
    assert map[][Root := Spawned] == map[Root := Spawned];
    hide Termination.Rank;
  }

  /** However many threads there are and whatever fails, they make no more accesses than
      this. */
  lemma ThreadsEnd(w: World, run: seq<Step>, mode: SyncMode)
    requires TreesWellFormed(w) && FLegal(FInit(w), run, mode)
    ensures |run| <= 22 * Termination.Size(w) + 21
  {
    InitPInv(w);
    InitStr(w);
    InitRank(w);
    hide FRank, PInv, Str, Termination.Size;
    RunRank(FInit(w), run, mode);
  }

  lemma {:induction false} FLegalAppend(s: FState, run: seq<Step>, st: Step, mode: SyncMode)
    requires FLegal(s, run, mode) && CanStep(FFinal(s, run, mode), st)
    ensures FLegal(s, run + [st], mode) && FFinal(s, run + [st], mode) == FNext(FFinal(s, run, mode), st, mode)
    decreases |run|
  {
    hide FNext;
    if run == [] {
      assert run + [st] == [st] && [st][1..] == [];
      assert FLegal(FNext(s, st, mode), [], mode);
    } else {
      assert (run + [st])[1..] == run[1..] + [st];
      FLegalAppend(FNext(s, run[0], mode), run[1..], st, mode);
    }
  }

  /** Every beginning of a pass has an end: with a scheduler that only lets some thread go on
      as long as one can, all directories end. */
  lemma {:induction false} PassCanEnd(w: World, run: seq<Step>, mode: SyncMode, s: FState)
      returns (whole: seq<Step>, s': FState)
    requires Reachable(w, run, mode, s)
    ensures Reachable(w, whole, mode, s') && run <= whole && Stuck(s') && AllEnded(s')
    decreases FRank(s)
  {
    ThreadsRefineWalk(w, run, mode, s);
    NoDeadlock(w, run, mode, s);
    if st :| CanStep(s, st) {
      StepRank(s, st, mode);
      FLegalAppend(FInit(w), run, st, mode);
      hide PInv, Str, FLegal, FFinal, FNext, CanStep, FRank;
      whole, s' := PassCanEnd(w, run + [st], mode, FNext(s, st, mode));
      assert run <= run + [st] <= whole;
    } else {
      whole, s' := run, s;
    }
  }
}
