/** The walk on the work stack: threads of module `WorkStack` whose tasks are those of module
    `Protocol` (src/reconcile/context.rs:93-97, src/reconcile/tree_walk.rs:435-503, 559-568,
    719-737). Accesses to the stack and to the cells interleave freely. */
module Program {
  import opened Defs
  import opened Replica
  import opened Mutate
  import opened Effects
  import opened Walk
  import opened Structure
  import opened StructureKept
  import opened Convergence
  import opened Protocol
  import opened ProtocolInv
  import opened ProtocolTasks
  import opened ProtocolWalk
  import opened ProtocolTheorems
  import opened ProtocolEnds
  import WS = WorkStack
  import Compute

  /** The two kinds of task: to work through a directory, and to complete it. */
  datatype Job = Process(p: Path) | Complete(p: Path)

  datatype Whole = Whole(pool: WS.State<Job>, fs: FState)

  /** The task that an access belongs to; the first two are made by `start_root`. */
  function OwnerOf(locs: map<Path, Loc>, st: Step): Option<Job> {
    match st
    case Count(c) => if c.Root? then None else Some(Process(c.parent))
    case Push(c) => if c.Root? then None else Some(Process(c.parent))
    case RunCompletion(p, _) => Some(Complete(p))
    case Advance(p) => if p in locs && locs[p].Finish? && locs[p].who.Up? then Some(Complete(p)) else Some(Process(p))
    case _ => Some(Process(st.p))
  }

  /** The task that an access pushes, if it does. */
  function PushedBy(locs: map<Path, Loc>, st: Step): Option<Job> {
    match st
    case Push(c) => Some(Process(c))
    case Advance(p) => if p in locs && locs[p].Finish? && locs[p].stage.Give? then Some(Complete(locs[p].stage.task))
        else None
    case _ => None
  }

  predicate LiveLoc(loc: Loc, job: Job) {
    match job
    case Process(_) => loc.OnStack? || loc.Busy? || loc.Storing? || loc.Failing? || (loc.Finish? && !loc.who.Up?)
    case Complete(_) => loc.Completing? || (loc.Finish? && loc.who.Up?)
  }

  predicate StartLoc(loc: Loc, job: Job) {
    if job.Process? then loc.OnStack? else loc.Completing?
  }

  predicate UnbornLoc(loc: Loc, job: Job) {
    if job.Process? then loc.Spawned? || loc.Counted? else !loc.Ended? && !LiveLoc(loc, job)
  }

  /** The task is not over: it is on the stack or a thread has something to do for it. */
  predicate Live(locs: map<Path, Loc>, job: Job) {
    job.p in locs && LiveLoc(locs[job.p], job)
  }

  predicate Startable(locs: map<Path, Loc>, job: Job) {
    job.p in locs && StartLoc(locs[job.p], job)
  }

  /** The task has not been pushed yet. */
  predicate Unborn(locs: map<Path, Loc>, job: Job) {
    job.p in locs ==> UnbornLoc(locs[job.p], job)
  }

  // ----- Steps -----

  datatype Act = Pool(a: WS.Action<Job>) | Access(i: nat, st: Step, woken: nat)

  ghost predicate Can(c: Whole, a: Act) {
    match a
    case Pool(b) =>
      && WS.Enabled(c.pool, b) && !b.DoPush?
      && (b.DoFinish? ==> !Live(c.fs.locs, c.pool.threads[b.i].task))
    case Access(i, st, woken) =>
      && i < |c.pool.threads| && c.pool.threads[i].Executing? && CanStep(c.fs, st)
      && OwnerOf(c.fs.locs, st) == Some(c.pool.threads[i].task)
      && var job := PushedBy(c.fs.locs, st);
         job.Some? ==> WS.Enabled(c.pool, WS.DoPush(i, job.value, woken))
  }

  ghost function Go(c: Whole, a: Act, mode: SyncMode): Whole
    requires Can(c, a)
  {
    match a
    case Pool(b) => c.(pool := WS.Next(c.pool, b))
    case Access(i, st, woken) =>
      var job := PushedBy(c.fs.locs, st);
      Whole(if job.Some? then WS.Next(c.pool, WS.DoPush(i, job.value, woken)) else c.pool, FNext(c.fs, st, mode))
  }

  const START := [Count(Root), Push(Root)]

  /** `start_root` has pushed the root; `n` threads are about to run. */
  ghost function Begin(w: World, n: nat): Whole {
    Whole(WS.Init([Process(Root)], n),
          FState(Init(w), map[Root := OnStack], map[Top := Cell(true, true, 2, 0)], map[]))
  }

  lemma BeginIsReachable(w: World, n: nat, mode: SyncMode)
    ensures FLegal(FInit(w), START, mode) && FFinal(FInit(w), START, mode) == Begin(w, n).fs
  {
    var s0 := FInit(w);
    assert CanStep(s0, Count(Root));
    var s1 := FNext(s0, Count(Root), mode);
    assert s1.locs == map[Root := Counted] && s1.cells == map[Top := Cell(true, true, 2, 0)];
    assert CanStep(s1, Push(Root));
    var s2 := FNext(s1, Push(Root), mode);
    assert s2.locs == map[Root := OnStack];
    assert s2 == Begin(w, n).fs;
    assert START[1..] == [Push(Root)] && [Push(Root)][1..] == [];
    assert FLegal(s2, [], mode) && FFinal(s2, [], mode) == s2;
    assert FLegal(s1, [Push(Root)], mode) && FFinal(s1, [Push(Root)], mode) == s2;
  }

  // ----- Each task is there once -----

  ghost function Occurs(pool: WS.State<Job>, job: Job): nat {
    multiset(pool.d.tasks)[job] + WS.Running(pool.threads, job)
  }

  ghost predicate Fits(pool: WS.State<Job>, locs: map<Path, Loc>, job: Job) {
    && Occurs(pool, job) <= 1
    && (Live(locs, job) ==> Occurs(pool, job) == 1)
    && (Unborn(locs, job) ==> Occurs(pool, job) == 0)
    && (job in pool.d.tasks ==> Startable(locs, job))
  }

  ghost predicate CInv(c: Whole) {
    && WS.Control(c.pool) && PInv(c.fs) && Str(c.fs.walk)
    && Root in c.fs.locs && !c.fs.locs[Root].Spawned? && !c.fs.locs[Root].Counted?
    && forall job :: Fits(c.pool, c.fs.locs, job)
  }

  lemma BeginInv(w: World, n: nat, mode: SyncMode)
    requires TreesWellFormed(w)
    ensures CInv(Begin(w, n))
  {
    hide PInv, Str, FLegal, FFinal, Fits, WS.Control, Init;
    BeginIsReachable(w, n, mode);
    InitPInv(w);
    InitStr(w);
    RunRefines(FInit(w), START, mode);
    WS.InitInv([Process(Root)], n, Process(Root));
    forall job ensures Fits(Begin(w, n).pool, map[Root := OnStack], job) { BeginFits(n, job); }
    assert CInv(Begin(w, n));
  }

  lemma BeginFits(n: nat, job: Job)
    ensures Fits(WS.Init([Process(Root)], n), map[Root := OnStack], job)
  {
    WS.NoneRunning(WS.Init([Process(Root)], n).threads, job);
  }

  /** Turning, waking and waiting move tasks between the stack and the threads only. */
  lemma TurnOccurs(s: WS.State<Job>, i: nat, job: Job)
    requires i < |s.threads| && s.threads[i].AtLock?
    ensures var s' := WS.Turned(s, i, s.d);
        Occurs(s', job) == Occurs(s, job) && (job in s'.d.tasks ==> job in s.d.tasks)
  {
    match WS.Decide(s.d)
    case Take(task) =>
      WS.PopTasks(s.d.tasks, job);
      WS.RunningSet(s.threads, job, i, WS.Executing(task));
    case Wait => WS.RunningSet(s.threads, job, i, WS.Waiting);
    case Quit =>
      WS.RunningSet(s.threads, job, i, WS.Exited);
      WS.WakeAllRunning(s.threads[i := WS.Exited], job);
  }

  lemma PoolFits(c: Whole, a: WS.Action<Job>, job: Job)
    requires WS.Control(c.pool) && Can(c, Pool(a)) && Fits(c.pool, c.fs.locs, job)
    ensures Fits(WS.Next(c.pool, a), c.fs.locs, job)
  {
    match a
    case DoTurn(i) => TurnOccurs(c.pool, i, job);
    case DoFinish(i) =>
      WS.BackIs(c.pool, i);
      WS.RunningSet(c.pool.threads, job, i, WS.AtLock);
      WS.RunningHas(c.pool.threads, job, i);
      TurnOccurs(WS.Back(c.pool, i), i, job);
      hide WS.Turned, WS.Control;
    case Spurious(i) => WS.RunningSet(c.pool.threads, job, i, WS.AtLock);
  }

  /** An access keeps count if it changes no task's standing but that of its owner, which
      is being run, and of the one it pushes. */
  lemma PushOccurs(pool: WS.State<Job>, i: nat, pushed: Job, woken: nat, job: Job)
    requires WS.Enabled(pool, WS.DoPush(i, pushed, woken))
    ensures var pool' := WS.Next(pool, WS.DoPush(i, pushed, woken));
            && Occurs(pool', job) == Occurs(pool, job) + (if job == pushed then 1 else 0)
            && (job in pool'.d.tasks <==> job in pool.d.tasks || job == pushed)
  {
    if WS.SomeWaiting(pool.threads) { WS.RunningSet(pool.threads, job, woken, WS.AtLock); }
  }

  lemma RunIsNotQueued(pool: WS.State<Job>, locs: map<Path, Loc>, i: nat, job: Job)
    requires i < |pool.threads| && pool.threads[i] == WS.Executing(job) && Fits(pool, locs, job)
    ensures job !in pool.d.tasks && Occurs(pool, job) == 1
  {
    WS.RunningHas(pool.threads, job, i);
  }

  /** How an access moves the standing of a task. */
  ghost predicate Moves(locs: map<Path, Loc>, locs': map<Path, Loc>, owner: Job, pushed: Option<Job>, job: Job) {
    && (job != owner && Some(job) != pushed ==>
          && (Live(locs', job) ==> Live(locs, job)) && (Unborn(locs', job) ==> Unborn(locs, job))
          && (Startable(locs, job) ==> Startable(locs', job)))
    && (job == owner ==> (Live(locs', job) ==> Live(locs, job)) && !Unborn(locs', job))
    && (Some(job) == pushed ==> job != owner && Unborn(locs, job) && Startable(locs', job))
  }

  lemma MovedFits(c: Whole, i: nat, st: Step, woken: nat, locs': map<Path, Loc>, job: Job)
    requires Can(c, Access(i, st, woken)) && Fits(c.pool, c.fs.locs, job)
    requires Moves(c.fs.locs, locs', c.pool.threads[i].task, PushedBy(c.fs.locs, st), job)
    ensures var pushed := PushedBy(c.fs.locs, st);
            Fits(if pushed.Some? then WS.Next(c.pool, WS.DoPush(i, pushed.value, woken)) else c.pool, locs', job)
  {
    var pushed, owner := PushedBy(c.fs.locs, st), c.pool.threads[i].task;
    if pushed.Some? { PushOccurs(c.pool, i, pushed.value, woken, job); }
    if job == owner { RunIsNotQueued(c.pool, c.fs.locs, i, job); }
    hide WS.Next, WS.Enabled, Occurs;
  }

  /** What a change of loc may mean for a task of that directory. */
  predicate Fine(a: Loc, b: Loc, job: Job, owner: bool, pushed: bool) {
    && (!owner && !pushed ==> (LiveLoc(b, job) ==> LiveLoc(a, job)) && (UnbornLoc(b, job) ==> UnbornLoc(a, job))
                              && (StartLoc(a, job) ==> StartLoc(b, job)))
    && (owner ==> (LiveLoc(b, job) ==> LiveLoc(a, job)) && !UnbornLoc(b, job))
    && (pushed ==> !owner && UnbornLoc(a, job) && StartLoc(b, job))
  }

  lemma Shift(locs: map<Path, Loc>, p: Path, b: Loc, owner: Job, pushed: Option<Job>, job: Job)
    requires p in locs && Live(locs, owner) && (pushed.Some? ==> pushed.value.p == p)
    requires job.p == p ==> Fine(locs[p], b, job, job == owner, Some(job) == pushed)
    ensures Moves(locs, locs[p := b], owner, pushed, job)
  {
  }

  lemma QuietMoves(s: FState, st: Step, mode: SyncMode, owner: Job, job: Job)
    requires Shape(s) && CanStep(s, st) && OwnerOf(s.locs, st) == Some(owner) && !st.DoName? &&
        !(st.Advance? && s.locs[st.p].stage.Give?)
    ensures Live(s.locs, owner) && Moves(s.locs, FNext(s, st, mode).locs, owner, PushedBy(s.locs, st), job)
  {
    OwnerLives(s, st, owner);
    NotItsParent(st.p);
    hide Shape, Completion, Spawning, Start, Moves, Panics;
    match st
    case Count(p) => Shift(s.locs, p, Counted, owner, None, job);
    case Push(p) => Shift(s.locs, p, OnStack, owner, Some(Process(p)), job);
    case ListDir(p, fault) => Shift(s.locs, p, FNext(s, st, mode).locs[p], owner, None, job);
    case PutTask(p, id) => Shift(s.locs, p, Storing(id), owner, None, job);
    case StoreId(p) => Shift(s.locs, p, Finish(Own, LoadSuccess), owner, None, job);
    case FailParent(p) => Shift(s.locs, p, Finish(Failed, LoadSuccess), owner, None, job);
    case Advance(p) => AdvanceMoves(s, p, owner, job);
    case RunCompletion(p, ef) => CompletionMoves(s, p, ef, job);
  }

  lemma CompletionMoves(s: FState, p: Path, ef: EndFaults, job: Job)
    requires p in s.locs && s.locs[p].Completing? && p in s.walk.ctxs
    ensures Moves(s.locs, Completion(s, p, ef).locs, Complete(p), None, job)
  {
    Shift(s.locs, p, Finish(Up, LoadSuccess), Complete(p), None, job);
  }

  lemma AdvanceMoves(s: FState, p: Path, owner: Job, job: Job)
    requires p in s.locs && s.locs[p].Finish? && !s.locs[p].stage.Give? && !Panics(s, p) &&
        OwnerOf(s.locs, Advance(p)) == Some(owner)
    ensures Moves(s.locs, Finishing(s, p, s.locs[p].who, s.locs[p].stage).locs, owner, None, job)
  {
    var now := Finishing(s, p, s.locs[p].who, s.locs[p].stage).locs;
    assert now == s.locs[p := now[p]];
    hide Moves;
    Shift(s.locs, p, now[p], owner, None, job);
  }

  lemma OwnerLives(s: FState, st: Step, owner: Job)
    requires Shape(s) && CanStep(s, st) && OwnerOf(s.locs, st) == Some(owner)
    ensures Live(s.locs, owner)
  {
    assert ShapeAt(s, st.p);
    hide Shape;
  }

  lemma NotItsParent(p: Path)
    ensures p.Sub? ==> p.parent != p
  {
  }

  lemma NameMoves(s: FState, p: Path, n: Name, f: Faults, mode: SyncMode, job: Job)
    requires PInv(s) && Str(s.walk) && CanStep(s, DoName(p, n, f))
    ensures Live(s.locs, Process(p)) && Moves(s.locs, FNext(s, DoName(p, n, f), mode).locs, Process(p), None, job)
  {
    hide Shape, Counts, Tasks, Pushers, Flags, Str, Conclude, Spawns, ApplyStep;
    NameKeeps(s, p, n, f, mode);
    NewNameHere(s, p, n);
    KeysAgree(s);
    BornUnborn(s.locs, Replica.Sub(p, n), p, job);
  }

  lemma KeysAgree(s: FState)
    requires Shape(s)
    ensures s.locs.Keys == s.walk.ctxs.Keys
  {
  }

  lemma BornUnborn(locs: map<Path, Loc>, q: Path, p: Path, job: Job)
    requires q !in locs && p in locs && locs[p].Busy?
    ensures Moves(locs, locs, Process(p), None, job) && Moves(locs, locs[q := Spawned], Process(p), None, job)
  {
  }

  lemma GiveMoves(s: FState, p: Path, mode: SyncMode, owner: Job, job: Job)
    requires Shape(s) && Pushers(s) && CanStep(s, Advance(p)) && s.locs[p].stage.Give? &&
        OwnerOf(s.locs, Advance(p)) == Some(owner)
    ensures Live(s.locs, owner) &&
        Moves(s.locs, FNext(s, Advance(p), mode).locs, owner, PushedBy(s.locs, Advance(p)), job)
  {
    hide Shape, Pushers, PusherAt;
    GiveTarget(s, p);
    HandedOver(s.locs, p, s.locs[p].stage.task, s.locs[p].who, job);
  }

  lemma HandedOver(locs: map<Path, Loc>, p: Path, q: Path, who: Who, job: Job)
    requires p in locs && q in locs && locs[p] == Finish(who, Give(q)) &&
        (if who.Own? then p == q else p != q && locs[q].Parked?)
    ensures Moves(locs, locs[p := Rest(who)][q := Completing], if who.Up? then Complete(p) else Process(p),
        Some(Complete(q)), job)
  {
  }

  lemma StepMoves(s: FState, st: Step, mode: SyncMode, owner: Job, job: Job)
    requires PInv(s) && Str(s.walk) && CanStep(s, st) && OwnerOf(s.locs, st) == Some(owner)
    ensures Live(s.locs, owner) && Moves(s.locs, FNext(s, st, mode).locs, owner, PushedBy(s.locs, st), job)
  {
    hide Shape, Counts, Tasks, Pushers, Flags, Str, FNext, Moves;
    if st.DoName? {
      NameMoves(s, st.p, st.n, st.f, mode, job);
    } else if st.Advance? && s.locs[st.p].stage.Give? {
      GiveMoves(s, st.p, mode, owner, job);
    } else {
      QuietMoves(s, st, mode, owner, job);
    }
  }

  lemma RootStays(s: FState, st: Step, mode: SyncMode, owner: Job)
    requires PInv(s) && Str(s.walk) && CanStep(s, st) && OwnerOf(s.locs, st) == Some(owner)
    requires Root in s.locs && !s.locs[Root].Spawned? && !s.locs[Root].Counted?
    ensures var locs := FNext(s, st, mode).locs; Root in locs && !locs[Root].Spawned? && !locs[Root].Counted?
  {
    hide PInv, Str, FNext;
    StepMoves(s, st, mode, owner, Process(Root));
    LocsGrow(s, st, mode);
    hide CanStep, OwnerOf;
  }

  lemma LocsGrow(s: FState, st: Step, mode: SyncMode)
    requires CanStep(s, st)
    ensures forall p :: p in s.locs ==> p in FNext(s, st, mode).locs
  {
    hide Conclude, ApplyStep, Spawns, Start, Listable;
  }

  lemma GoInv(c: Whole, a: Act, mode: SyncMode)
    requires CInv(c) && Can(c, a)
    ensures CInv(Go(c, a, mode))
  {
    var c' := Go(c, a, mode);
    match a
    case Pool(b) =>
      WS.NextControl(c.pool, b);
      hide PInv, Str, Fits, WS.Control;
      forall job ensures Fits(c'.pool, c'.fs.locs, job) { PoolFits(c, b, job); }
    case Access(i, st, woken) =>
      StepRefines(c.fs, st, mode);
      var owner, pushed := c.pool.threads[i].task, PushedBy(c.fs.locs, st);
      RootStays(c.fs, st, mode, owner);
      if pushed.Some? { WS.NextControl(c.pool, WS.DoPush(i, pushed.value, woken)); }
      hide PInv, Str, Fits, WS.Control, Moves, FNext;
      forall job ensures Fits(c'.pool, c'.fs.locs, job) {
        StepMoves(c.fs, st, mode, owner, job);
        MovedFits(c, i, st, woken, c'.fs.locs, job);
      }
  }

  // ----- Whole runs -----

  ghost predicate Runs(c: Whole, run: seq<Act>, mode: SyncMode)
    decreases |run|
  {
    run == [] || (Can(c, run[0]) && Runs(Go(c, run[0], mode), run[1..], mode))
  }

  ghost function Outcome(c: Whole, run: seq<Act>, mode: SyncMode): Whole
    requires Runs(c, run, mode)
    decreases |run|
  {
    if run == [] then c else Outcome(Go(c, run[0], mode), run[1..], mode)
  }

  /** The accesses to cells among the steps. */
  function Accesses(run: seq<Act>): seq<Step> {
    if run == [] then [] else (if run[0].Access? then [run[0].st] else []) + Accesses(run[1..])
  }

  lemma GoShape(c: Whole, a: Act, mode: SyncMode)
    requires Can(c, a)
    ensures var c' := Go(c, a, mode);
            && |c'.pool.threads| == |c.pool.threads|
            && if a.Access? then CanStep(c.fs, a.st) && c'.fs == FNext(c.fs, a.st, mode) else c'.fs == c.fs
  {
    hide FNext, CanStep;
  }

  lemma {:induction false} RunsInv(c: Whole, run: seq<Act>, mode: SyncMode)
    requires CInv(c) && Runs(c, run, mode)
    ensures CInv(Outcome(c, run, mode)) && |Outcome(c, run, mode).pool.threads| == |c.pool.threads|
    ensures FLegal(c.fs, Accesses(run), mode) && Outcome(c, run, mode).fs == FFinal(c.fs, Accesses(run), mode)
    decreases |run|
  {
    if run != [] {
      hide CInv, FNext, CanStep, WS.Next, WS.Enabled, PushedBy, OwnerOf;
      GoInv(c, run[0], mode);
      GoShape(c, run[0], mode);
      RunsInv(Go(c, run[0], mode), run[1..], mode);
      hide Can, Go;
      if run[0].Access? {
        assert Accesses(run)[0] == run[0].st && Accesses(run)[1..] == Accesses(run[1..]);
      } else {
        assert Accesses(run) == Accesses(run[1..]);
      }
    }
  }

  ghost predicate Reached(w: World, n: nat, run: seq<Act>, mode: SyncMode, c: Whole) {
    TreesWellFormed(w) && Runs(Begin(w, n), run, mode) && c == Outcome(Begin(w, n), run, mode)
  }

  lemma ReachedInv(w: World, n: nat, run: seq<Act>, mode: SyncMode, c: Whole)
    requires Reached(w, n, run, mode, c)
    ensures CInv(c) && |c.pool.threads| == n && Reachable(w, START + Accesses(run), mode, c.fs)
  {
    BeginInv(w, n, mode);
    BeginIsReachable(w, n, mode);
    hide CInv, FLegal, FFinal;
    RunsInv(Begin(w, n), run, mode);
    Continues(FInit(w), START, Accesses(run), mode);
  }

  lemma {:induction false} Continues(s: FState, a: seq<Step>, b: seq<Step>, mode: SyncMode)
    requires FLegal(s, a, mode) && FLegal(FFinal(s, a, mode), b, mode)
    ensures FLegal(s, a + b, mode) && FFinal(s, a + b, mode) == FFinal(FFinal(s, a, mode), b, mode)
    decreases |a|
  {
    hide CanStep, FNext;
    if a == [] {
      assert a + b == b;
    } else {
      assert (a + b)[1..] == a[1..] + b && (a + b)[0] == a[0];
      Continues(FNext(s, a[0], mode), a[1..], b, mode);
    }
  }

  // ----- A thread that runs a task can go on -----

  lemma LiveCanStep(s: FState, job: Job) returns (st: Step)
    requires PInv(s) && Live(s.locs, job)
    ensures CanStep(s, st) && OwnerOf(s.locs, st) == Some(job)
  {
    var p := job.p;
    hide Shape, Counts, Tasks, Pushers, Flags, Spawning, Panics;
    KnownDir(s, p);
    match s.locs[p]
    case OnStack => st := ListDir(p, Lists);
    case Busy => st := BusyOwnStep(s, p);
    case Storing(_) => st := StoreId(p);
    case Failing => st := FailParent(p);
    case Completing => st := RunCompletion(p, NO_END_FAULTS);
    case Finish(_, _) =>
      AdvanceKeeps(s, p);
      st := Advance(p);
  }

  lemma BusyOwnStep(s: FState, p: Path) returns (st: Step)
    requires Shape(s) && p in s.locs && s.locs[p].Busy?
    ensures CanStep(s, st) && OwnerOf(s.locs, st) == Some(Process(p))
  {
    assert s.locs.Keys == s.walk.ctxs.Keys;
    hide Shape;
    if Spawning(s.locs, p) {
      var c :| c in s.locs && ParentKey(c) == Dir(p) && (s.locs[c].Spawned? || s.locs[c].Counted?);
      assert c in s.walk.ctxs;
      st := if s.locs[c].Spawned? then Count(c) else Push(c);
    } else if n :| n in s.walk.ctxs[p].todo {
      st := DoName(p, n, NO_FAULTS);
    } else {
      var id := FreshId(s.tasks.Keys);
      st := PutTask(p, id);
    }
  }

  lemma AnyWaiting(pool: WS.State<Job>, i: nat, job: Job) returns (woken: nat)
    requires i < |pool.threads| && pool.threads[i].Executing?
    ensures WS.Enabled(pool, WS.DoPush(i, job, woken))
  {
    if w: nat :| w < |pool.threads| && pool.threads[w].Waiting? { woken := w; } else { woken := 0; }
  }

  lemma ExecutingCanGo(c: Whole, i: nat) returns (a: Act)
    requires PInv(c.fs) && i < |c.pool.threads| && c.pool.threads[i].Executing?
    ensures Can(c, a) && !IsSpurious(a)
  {
    var job := c.pool.threads[i].task;
    if Live(c.fs.locs, job) {
      var st := LiveCanStep(c.fs, job);
      hide PInv, CanStep, OwnerOf;
      var pushed := PushedBy(c.fs.locs, st);
      var woken := AnyWaiting(c.pool, i, if pushed.Some? then pushed.value else job);
      a := Access(i, st, woken);
    } else {
      a := Pool(WS.DoFinish(i));
    }
  }

  ghost predicate AllReturned(pool: WS.State<Job>) {
    forall i :: 0 <= i < |pool.threads| ==> pool.threads[i].Exited?
  }

  lemma ThreadCanGo(c: Whole, i: nat) returns (a: Act)
    requires WS.Control(c.pool) && PInv(c.fs) && i < |c.pool.threads| && !c.pool.threads[i].Exited?
    ensures Can(c, a) && !IsSpurious(a)
  {
    hide PInv, CanStep, Live, OwnerOf, PushedBy;
    if c.pool.threads[i].AtLock? {
      a := Pool(WS.DoTurn(i));
    } else if c.pool.threads[i].Executing? {
      a := ExecutingCanGo(c, i);
    } else {
      var j := SomeBusy(c.pool, i);
      a := ExecutingCanGo(c, j);
    }
  }

  /** A thread that waits, waits for one that runs something. */
  lemma SomeBusy(pool: WS.State<Job>, i: nat) returns (j: nat)
    requires WS.Control(pool) && i < |pool.threads| && pool.threads[i].Waiting?
    ensures j < |pool.threads| && pool.threads[j].Executing?
  {
    WS.CountBound(pool.threads, WS.Busy);
    j :| j < |pool.threads| && WS.Is(pool.threads[j], WS.Busy);
  }

  /** No thread waits in vain: until all have returned, one of them can go on of its own
      accord. */
  lemma NoThreadStuck(w: World, n: nat, run: seq<Act>, mode: SyncMode, c: Whole)
    requires Reached(w, n, run, mode, c)
    ensures AllReturned(c.pool) || exists a :: Can(c, a) && !IsSpurious(a)
  {
    ReachedInv(w, n, run, mode, c);
    hide Reached, Reachable, PInv, Str, Fits, WS.Control, Can;
    if i: nat :| i < |c.pool.threads| && !c.pool.threads[i].Exited? {
      var a := ThreadCanGo(c, i);
    }
  }

  // ----- The threads return -----

  /** More than a push costs the stack. */
  function Weight(n: nat): nat {
    2 * (n + 1) * (n + 1) + 3
  }

  function Scaled(a: nat, n: nat): nat {
    a * Weight(n)
  }

  lemma ScaledLess(a: nat, b: nat, n: nat, job: Job, i: nat, woken: nat)
    requires a < b
    ensures Scaled(a, n) + WS.Cost(WS.DoPush(i, job, woken), n) < Scaled(b, n)
  {
    var k := Weight(n);
    assert (a + 1) * k <= b * k;
    assert (a + 1) * k == a * k + k;
  }

  ghost function WholeRank(c: Whole): nat {
    Scaled(FRank(c.fs), |c.pool.threads|) + WS.Rank(c.pool)
  }

  predicate IsSpurious(a: Act) { a.Pool? && a.a.Spurious? }

  lemma GoRank(c: Whole, a: Act, mode: SyncMode)
    requires CInv(c) && Can(c, a)
    ensures WholeRank(Go(c, a, mode)) + 1 <= WholeRank(c) + if IsSpurious(a) then 2 else 0
  {
    hide WS.Next, WS.Enabled, WS.Rank, FRank, FNext, CanStep, WS.Control, PInv, Str, Fits, Scaled, Weight;
    var c' := Go(c, a, mode);
    GoShape(c, a, mode);
    match a
    case Pool(b) => WS.StepRank(c.pool, b);
    case Access(i, st, woken) =>
      StepRank(c.fs, st, mode);
      var pushed := PushedBy(c.fs.locs, st);
      if pushed.Some? { WS.StepRank(c.pool, WS.DoPush(i, pushed.value, woken)); }
      ScaledLess(FRank(c'.fs), FRank(c.fs), |c.pool.threads|, if pushed.Some? then pushed.value else Process(Root),
          i, woken);
  }

  function SpuriousOnes(run: seq<Act>): nat {
    if run == [] then 0 else (if IsSpurious(run[0]) then 1 else 0) + SpuriousOnes(run[1..])
  }

  lemma {:induction false} RunsEnd(c: Whole, run: seq<Act>, mode: SyncMode)
    requires CInv(c) && Runs(c, run, mode)
    ensures |run| <= WholeRank(c) + 2 * SpuriousOnes(run)
    decreases |run|
  {
    if run != [] {
      hide CInv, WholeRank, Can;
      GoInv(c, run[0], mode);
      GoRank(c, run[0], mode);
      RunsEnd(Go(c, run[0], mode), run[1..], mode);
    }
  }

  /** The whole program ends: apart from spurious wakeups, of which each costs at most two
      steps, `n` threads take no more steps than the trees and `n` allow. */
  lemma ProgramEnds(w: World, n: nat, run: seq<Act>, mode: SyncMode)
    requires TreesWellFormed(w) && Runs(Begin(w, n), run, mode)
    ensures |run| <= WholeRank(Begin(w, n)) + 2 * SpuriousOnes(run)
  {
    BeginInv(w, n, mode);
    hide CInv, WholeRank;
    RunsEnd(Begin(w, n), run, mode);
  }

  lemma {:induction false} RunsAppend(c: Whole, run: seq<Act>, a: Act, mode: SyncMode)
    requires Runs(c, run, mode) && Can(Outcome(c, run, mode), a)
    ensures Runs(c, run + [a], mode) && Outcome(c, run + [a], mode) == Go(Outcome(c, run, mode), a, mode)
    decreases |run|
  {
    hide Go, Can;
    if run == [] {
      assert run + [a] == [a] && [a][1..] == [];
      assert Runs(Go(c, a, mode), [], mode);
    } else {
      assert (run + [a])[1..] == run[1..] + [a];
      RunsAppend(Go(c, run[0], mode), run[1..], a, mode);
    }
  }

  /** Wherever the threads have got to, letting one go on that can, again and again, brings
      all of them back. */
  lemma {:induction false} ThreadsReturn(w: World, n: nat, run: seq<Act>, mode: SyncMode, c: Whole)
      returns (whole: seq<Act>, c': Whole)
    requires Reached(w, n, run, mode, c)
    ensures Reached(w, n, whole, mode, c') && run <= whole && AllReturned(c'.pool)
    decreases WholeRank(c)
  {
    ReachedInv(w, n, run, mode, c);
    NoThreadStuck(w, n, run, mode, c);
    hide CInv, Reachable, Runs, Outcome, Can, Go, WholeRank;
    if a :| Can(c, a) && !IsSpurious(a) {
      GoRank(c, a, mode);
      RunsAppend(Begin(w, n), run, a, mode);
      whole, c' := ThreadsReturn(w, n, run + [a], mode, Go(c, a, mode));
      assert run <= run + [a] <= whole;
    } else {
      whole, c' := run, c;
    }
  }

  // ----- What they have done by then -----

  /** Without a live task every directory has ended. */
  lemma {:induction false} NoneLiveMeansEnded(s: FState, p: Path, d: nat)
    requires PInv(s) && Root in s.locs && !s.locs[Root].Spawned? && !s.locs[Root].Counted? &&
        (forall job :: !Live(s.locs, job))
    requires p in s.locs && forall x :: x in s.locs ==> Depth(x) <= d
    ensures s.locs[p].Ended?
    decreases d - Depth(p)
  {
    assert !Live(s.locs, Process(p)) && !Live(s.locs, Complete(p));
    if s.locs[p].Parked? {
      var c := ParkedWaitsFor(s, p);
      NoneLiveMeansEnded(s, c, d);
    } else if s.locs[p].Spawned? || s.locs[p].Counted? {
      assert ShapeAt(s, p);
      assert !Live(s.locs, Process(p.parent));
    }
  }

  lemma ReturnedMeansNoneLive(c: Whole)
    requires CInv(c) && WS.SomeExited(c.pool.threads)
    ensures forall job :: !Live(c.fs.locs, job)
  {
    hide PInv, Str;
    WS.CountBound(c.pool.threads, WS.Busy);
    assert forall i :: 0 <= i < |c.pool.threads| ==> !WS.Is(c.pool.threads[i], WS.Busy);
    forall job ensures !Live(c.fs.locs, job) {
      assert Fits(c.pool, c.fs.locs, job);
      WS.NoneRunning(c.pool.threads, job);
    }
  }

  lemma ReturnedMeansEnded(c: Whole)
    requires CInv(c) && WS.SomeExited(c.pool.threads)
    ensures AllEnded(c.fs)
  {
    ReturnedMeansNoneLive(c);
    hide PInv, Str, WS.Control, Fits, Live;
    var d := DepthBound(c.fs.locs.Keys);
    forall p | p in c.fs.locs ensures c.fs.locs[p].Ended? { NoneLiveMeansEnded(c.fs, p, d); }
  }

  lemma EndedMeansStuck(s: FState)
    requires AllEnded(s)
    ensures Stuck(s)
  {
  }

  /** As soon as one thread has returned, the pass is over: every directory has ended with
      its completion task run once, every counter but the one of `start_root` is zero, no
      task is left anywhere, and the success reported is that nothing failed. In a decisive
      mode, over trees without special files, success means that the ends agree, and without
      faults there is success. */
  lemma ReturnedMeansDone(w: World, n: nat, run: seq<Act>, mode: SyncMode, c: Whole)
    requires Reached(w, n, run, mode, c) && WS.SomeExited(c.pool.threads)
    ensures AllEnded(c.fs) && Drained(c.fs.walk) && c.fs.tasks == map[] && c.pool.d == WS.Shared([], 0) &&
        Top in c.fs.cells
    ensures forall k :: k in c.fs.cells ==> c.fs.cells[k].pending == if k.Top? then 1 else 0
    ensures c.fs.cells[Top].success <==> AllOk(c.fs.walk)
    ensures PlainEnds(w) && Compute.Decisive(mode) && c.fs.cells[Top].success ==> forall q :: AgreeAt(c.fs.walk.w, q)
    ensures PlainEnds(w) && Compute.Decisive(mode) && FaultFree(START + Accesses(run)) ==> c.fs.cells[Top].success
  {
    ReachedInv(w, n, run, mode, c);
    ReturnedMeansEnded(c);
    assert WS.Control(c.pool);
    hide Reached, PInv, Str, Fits, CInv;
    var steps := START + Accesses(run);
    AfterTheLastTask(w, steps, mode, c.fs);
    EndedMeansStuck(c.fs);
    hide Reachable, AllOk, AgreeAt, AllEnded, Drained, PlainEnds, Compute.Decisive;
    if PlainEnds(w) && Compute.Decisive(mode) { PassAchieves(w, steps, mode, c.fs); }
  }
}
