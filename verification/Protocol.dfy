/** The completion protocol of the walk (src/reconcile/tree_walk.rs:40-79, 226-317, 399-568,
    719-737): each directory has an atomic cell with `success`, `empty`, `pending` and the
    id of a completion task kept in a map; tasks are pushed, popped and run in any order by
    any number of threads. In counting children up and down, in merging the flags and in
    storing and fetching completion tasks, every access to a cell or to the map is a step of
    its own. Two steps hold several accesses: `DoName` reconciles one file and clears the
    flags of its directory, which other threads meanwhile can only clear too, and
    `RunCompletion` reads and sets the flags of a directory whose counter is down to zero,
    when no other thread has anything to do with that cell.
    The component `walk` holds the trees and the tables; its fields `phase`, `ok` and `empty`
    only record history and no step reads them. */
module Protocol {
  import opened Defs
  import opened Replica
  import opened Mutate
  import opened Walk

  /** The state given to the root by `start_root`, or that of a directory. */
  datatype Key = Top | Dir(path: Path)

  datatype Cell = Cell(success: bool, empty: bool, pending: int, onComplete: nat)

  /** Which call of `finish_task_in_dir` is being made: the directory's own after its names
      are done, the one of its completion task, or the one after it could not be set up. */
  datatype Who = Own | Up | Failed

  /** The accesses of `finish_task_in_dir` in order. */
  datatype Stage = LoadSuccess | AndSuccess(v: bool) | LoadEmpty | AndEmpty(v: bool) | Sub1 | Get | Give(task: Path)

  datatype Loc =
    | Spawned
    | Counted
    | OnStack
    | Busy
    | Storing(id: nat)
    | Failing
    | Finish(who: Who, stage: Stage)
    | Parked
    | Completing
    | Ended

  datatype FState = FState(walk: State, locs: map<Path, Loc>, cells: map<Key, Cell>, tasks: map<nat, Path>)

  const NO_CELL := Cell(true, true, 0, 0)

  function FInit(w: World): FState {
    FState(Init(w), map[Root := Spawned], map[Top := Cell(true, true, 1, 0)], map[])
  }

  function ParentKey(p: Path): Key {
    if p.Root? then Top else Dir(p.parent)
  }

  function Target(p: Path, who: Who): Key {
    if who.Own? then Dir(p) else ParentKey(p)
  }

  function Source(p: Path, who: Who): Key {
    if who.Failed? then ParentKey(p) else Dir(p)
  }

  function CellAt(cells: map<Key, Cell>, k: Key): Cell {
    if k in cells then cells[k] else NO_CELL
  }

  /** The thread that works through `p` is busy handing a subdirectory to the stack. */
  predicate Spawning(locs: map<Path, Loc>, p: Path) {
    exists c :: c in locs && ParentKey(c) == Dir(p) && (locs[c].Spawned? || locs[c].Counted?)
  }

  /** What a finished call leaves its agent doing. */
  function Rest(who: Who): Loc {
    if who.Own? then Parked else Ended
  }

  // ----- Processing a name -----

  function EnterKind(res: ApplyResult): Option<Kind> {
    match res
    case Clean(recurse) => if recurse then Some(Normal) else None
    case Fail => None
    case RecursiveDelete(side, m) => Some(Doomed(side, m))
  }

  /** The subdirectory is entered; a task for it is about to be counted and pushed. */
  predicate Spawns(out: Applied, q: Path, f: Faults) {
    EnterKind(out.res).Some? && Enters(out.w, q, EnterKind(out.res).value, f)
  }

  /** The step clears `success`. */
  predicate Fails(out: Applied, q: Path, f: Faults) {
    out.res.Fail? || (EnterKind(out.res).Some? && !Spawns(out, q, f))
  }

  /** The step clears `empty`. */
  predicate Clears(out: Applied, n: Name) {
    out.res.Clean? && (out.res.recurse || n in NamesInUse(out.t))
  }

  // ----- Steps -----

  datatype Step =
    | Count(p: Path)
    | Push(p: Path)
    | ListDir(p: Path, fault: ListFault)
    | DoName(p: Path, n: Name, f: Faults)
    | PutTask(p: Path, id: nat)
    | StoreId(p: Path)
    | FailParent(p: Path)
    | Advance(p: Path)
    | RunCompletion(p: Path, ef: EndFaults)

  predicate CanStep(s: FState, st: Step) {
    && st.p in s.locs && st.p in s.walk.ctxs
    && match st
       case Count(p) => s.locs[p].Spawned?
       case Push(p) => s.locs[p].Counted?
       case ListDir(p, _) => s.locs[p].OnStack?
       case DoName(p, n, _) => s.locs[p].Busy? && n in s.walk.ctxs[p].todo && !Spawning(s.locs, p)
       case PutTask(p, id) => s.locs[p].Busy? && s.walk.ctxs[p].todo == {} && !Spawning(s.locs, p) && id !in s.tasks
       case StoreId(p) => s.locs[p].Storing?
       case FailParent(p) => s.locs[p].Failing?
       case Advance(p) => s.locs[p].Finish? && !Panics(s, p)
       case RunCompletion(p, _) => s.locs[p].Completing?
  }

  /** `UnqueuedTasks::get` unwraps: the id must be in the map. */
  predicate Panics(s: FState, p: Path)
    requires p in s.locs && s.locs[p].Finish?
  {
    s.locs[p].stage.Get? && CellAt(s.cells, Target(p, s.locs[p].who)).onComplete !in s.tasks
  }

  function SetCell(s: FState, k: Key, c: Cell, p: Path, loc: Loc): FState {
    s.(cells := s.cells[k := c], locs := s.locs[p := loc])
  }

  function Finishing(s: FState, p: Path, who: Who, stage: Stage): FState {
    var k := Target(p, who);
    var cell, source := CellAt(s.cells, k), CellAt(s.cells, Source(p, who));
    match stage
    case LoadSuccess => s.(locs := s.locs[p := Finish(who, AndSuccess(source.success))])
    case AndSuccess(v) => SetCell(s, k, cell.(success := cell.success && v), p, Finish(who, LoadEmpty))
    case LoadEmpty => s.(locs := s.locs[p := Finish(who, AndEmpty(source.empty))])
    case AndEmpty(v) => SetCell(s, k, cell.(empty := cell.empty && v), p, Finish(who, Sub1))
    case Sub1 => SetCell(s, k, cell.(pending := cell.pending - 1), p,
                         if cell.pending == 1 then Finish(who, Get) else Rest(who))
    case Get => if cell.onComplete in s.tasks
                then s.(tasks := s.tasks - {cell.onComplete}, locs :=
                    s.locs[p := Finish(who, Give(s.tasks[cell.onComplete]))])
                else s
    case Give(q) => s.(locs := s.locs[p := Rest(who)][q := Completing])
  }

  /** The body of a completion task up to its call of `finish_task_in_dir`. */
  function Completion(s: FState, p: Path, f: EndFaults): FState
    requires p in s.walk.ctxs
  {
    var ctx, cell := s.walk.ctxs[p], CellAt(s.cells, Dir(p));
    var (ok, w) :=
      if !cell.success then (false, s.walk.w)
      else if ctx.kind.Doomed? && cell.empty then RmAll(s.walk.w, p, f)
      else (!f.mark, s.walk.w);
    FState(State(w, s.walk.ctxs[p := ctx.(phase := Done(ok, cell.empty))]), s.locs[p := Finish(Up, LoadSuccess)],
           s.cells[Dir(p) := cell.(success := ok)], s.tasks)
  }

  function FNext(s: FState, st: Step, mode: SyncMode): FState
    requires CanStep(s, st)
  {
    match st
    case Count(p) =>
      var k := ParentKey(p);
      SetCell(s, k, CellAt(s.cells, k).(pending := CellAt(s.cells, k).pending + 1), p, Counted)
    case Push(p) => s.(locs := s.locs[p := OnStack])
    case ListDir(p, fault) =>
      if !fault.Lists? || !Listable(s.walk, p) then s.(walk := Start(s.walk, p, fault), locs := s.locs[p := Failing])
      else FState(Start(s.walk, p, fault), s.locs[p := Busy], s.cells[Dir(p) := Cell(true, true, 1, 0)], s.tasks)
    case DoName(p, n, f) =>
      var out, q, cell := ApplyStep(s.walk, p, n, mode, f), Replica.Sub(p, n), CellAt(s.cells, Dir(p));
      FState(Conclude(s.walk, p, n, out, f),
             if Spawns(out, q, f) then s.locs[q := Spawned] else s.locs,
             s.cells[Dir(p) :=
                 cell.(success := cell.success && !Fails(out, q, f), empty := cell.empty && !Clears(out, n))],
             s.tasks)
    case PutTask(p, id) => s.(tasks := s.tasks[id := p], locs := s.locs[p := Storing(id)])
    case StoreId(p) =>
      SetCell(s, Dir(p), CellAt(s.cells, Dir(p)).(onComplete := s.locs[p].id), p, Finish(Own, LoadSuccess))
    case FailParent(p) =>
      var k := ParentKey(p);
      SetCell(s, k, CellAt(s.cells, k).(success := false), p, Finish(Failed, LoadSuccess))
    case Advance(p) => Finishing(s, p, s.locs[p].who, s.locs[p].stage)
    case RunCompletion(p, ef) => Completion(s, p, ef)
  }

  ghost predicate FLegal(s: FState, run: seq<Step>, mode: SyncMode)
    decreases |run|
  {
    run == [] || (CanStep(s, run[0]) && FLegal(FNext(s, run[0], mode), run[1..], mode))
  }

  ghost function FFinal(s: FState, run: seq<Step>, mode: SyncMode): FState
    requires FLegal(s, run, mode)
    decreases |run|
  {
    if run == [] then s else FFinal(FNext(s, run[0], mode), run[1..], mode)
  }
}
