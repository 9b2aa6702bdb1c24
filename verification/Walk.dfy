/** One pass over the trees (src/reconcile/tree_walk.rs) as fork and join: each directory
    is queued, listed, worked through name by name, and completed once every directory
    started from it is done. Steps of different directories interleave freely, and any
    replica operation may fail. Module `Protocol` shows that the counters and flags of the
    program do exactly this. */
module Walk {
  import opened Defs
  import opened Replica
  import opened Mutate
  import Compute

  /** An ordinary directory, or one being deleted on `side`, where the other end is given
      a handle that creates the directory with `mode` only when something needs it. */
  datatype Kind = Normal | Doomed(side: Side, mode: FileMode)

  datatype Phase = Queued | Active | Done(success: bool, empty: bool)

  /** `ok` and `empty` are the directory's own flags, before those of its
      subdirectories are merged in. */
  datatype Ctx = Ctx(kind: Kind, phase: Phase, t: Tables, todo: set<Name>, ok: bool, empty: bool)

  datatype State = State(w: World, ctxs: map<Path, Ctx>)

  const NO_TABLES := Tables(map[], map[], map[])

  function Fresh(kind: Kind): Ctx {
    Ctx(kind, Queued, NO_TABLES, {}, true, true)
  }

  function Init(w: World): State {
    State(w, map[Root := Fresh(Normal)])
  }

  predicate Kid(ctxs: map<Path, Ctx>, p: Path, q: Path) {
    q in ctxs && q.Sub? && q.parent == p
  }

  /** The directories that the handle of `p` on `side` creates on demand. */
  function Synth(ctxs: map<Path, Ctx>, p: Path, side: Side): Synthetics {
    if p.Sub? && p in ctxs && ctxs[p].kind.Doomed? && side == Rev(ctxs[p].kind.side)
    then Synth(ctxs, p.parent, side) + [(p, ctxs[p].kind.mode)]
    else []
  }

  predicate EndListable(s: State, p: Path, side: Side) {
    IsDir(End(s.w, side), p) || Synth(s.ctxs, p, side) != []
  }

  predicate Listable(s: State, p: Path) {
    EndListable(s, p, Client) && IsDir(s.w.anc, p) && EndListable(s, p, Server)
  }

  // ----- Listing a directory -----

  /** The client is listed first, then the ancestor, which purges it, then the server. */
  datatype ListFault = Lists | Early | Late

  function Start(s: State, p: Path, fault: ListFault): (r: State)
    requires p in s.ctxs
    ensures p in r.ctxs
  {
    var failed := s.ctxs[p := s.ctxs[p].(phase := Done(false, true))];
    if fault.Early? || !EndListable(s, p, Client) || !IsDir(s.w.anc, p) then State(s.w, failed)
    else if fault.Late? || !EndListable(s, p, Server) then State(Purge(s.w, p), failed)
    else
      var w := Purge(s.w, p);
      var t := Tables(List(w.cli, p), List(w.anc, p), List(w.srv, p));
      State(w, s.ctxs[p := Ctx(s.ctxs[p].kind, Active, t, NamesInUse(t), true, true)])
  }

  // ----- Processing one name -----

  function Decide(ctx: Ctx, n: Name, mode: SyncMode): Reconciliation {
    Compute.Choose(Look(ctx.t.cli, n), Look(ctx.t.anc, n), Look(ctx.t.srv, n), mode)
  }

  function ApplyStep(s: State, p: Path, n: Name, mode: SyncMode, f: Faults): Applied
    requires p in s.ctxs
  {
    var ctx := s.ctxs[p];
    var r := Decide(ctx, n, mode);
    Apply(s.w, ctx.t, ctx.todo - {n}, if r.Use? then Synth(s.ctxs, p, Rev(r.src)) else [], p, n, r, f)
  }

  /** Entering a directory on the ends that must have it; the ancestor's handle falls
      back to a synthetic one. */
  predicate Enters(w: World, q: Path, kind: Kind, f: Faults) {
    && ((kind.Normal? || kind.side.Client?) ==> !f.chdirCli && IsDir(w.cli, q))
    && ((kind.Normal? || kind.side.Server?) ==> !f.chdirSrv && IsDir(w.srv, q))
    && (kind.Normal? ==> !f.chdirAnc && IsDir(w.anc, q))
  }

  function Spawn(s: State, p: Path, n: Name, out: Applied, ctx: Ctx, kind: Kind, f: Faults): State {
    if Enters(out.w, Sub(p, n), kind, f) then State(out.w, s.ctxs[p := ctx][Sub(p, n) := Fresh(kind)])
    else State(out.w, s.ctxs[p := ctx.(ok := false)])
  }

  /** What `process_file` makes of the result of applying the decision. */
  function Conclude(s: State, p: Path, n: Name, out: Applied, f: Faults): (r: State)
    requires p in s.ctxs
    ensures p in r.ctxs && r.w == out.w
  {
    var ctx := s.ctxs[p].(t := out.t, todo := out.todo);
    match out.res
    case Clean(recurse) =>
      if recurse then Spawn(s, p, n, out, ctx.(empty := false), Normal, f)
      else State(out.w, s.ctxs[p := ctx.(empty := ctx.empty && n !in NamesInUse(out.t))])
    case Fail => State(out.w, s.ctxs[p := ctx.(ok := false)])
    case RecursiveDelete(side, m) => Spawn(s, p, n, out, ctx, Doomed(side, m), f)
  }

  function File(s: State, p: Path, n: Name, mode: SyncMode, f: Faults): (r: State)
    requires p in s.ctxs
    ensures p in r.ctxs
  {
    Conclude(s, p, n, ApplyStep(s, p, n, mode, f), f)
  }

  // ----- Completing a directory -----

  datatype EndFaults = EndFaults(anc: bool, cli: bool, srv: bool, mark: bool)

  const NO_END_FAULTS := EndFaults(false, false, false, false)

  ghost predicate KidsDone(s: State, p: Path) {
    forall q :: Kid(s.ctxs, p, q) ==> s.ctxs[q].phase.Done?
  }

  predicate MergedOk(s: State, p: Path)
    requires p in s.ctxs
  {
    s.ctxs[p].ok && forall q :: q in s.ctxs && Kid(s.ctxs, p, q) ==> s.ctxs[q].phase.Done? && s.ctxs[q].phase.success
  }

  predicate MergedEmpty(s: State, p: Path)
    requires p in s.ctxs
  {
    s.ctxs[p].empty && forall q :: q in s.ctxs && Kid(s.ctxs, p, q) ==> s.ctxs[q].phase.Done? && s.ctxs[q].phase.empty
  }

  function RmEnd(w: World, side: Side, p: Path, fault: bool): Option<World> {
    var fs := End(w, side);
    var r := RmDir(fs, p);
    if fault || r.None? then None
    else Some(WithEnd(w, side, r.value,
                      if p in fs && p !in r.value then [Logged(PlaceOf(side), Erased(p, fs[p]))] else []))
  }

  /** `delete_or_mark_clean` on an empty directory: ancestor, client, server. */
  function RmAll(w: World, p: Path, f: EndFaults): (bool, World) {
    var a := RmDir(w.anc, p);
    if f.anc || a.None? then (false, w)
    else
      var w1 := w.(anc := a.value, condemned := Surviving(w.condemned, p));
      var c := RmEnd(w1, Client, p, f.cli);
      if c.None? then (false, w1)
      else
        var v := RmEnd(c.value, Server, p, f.srv);
        if v.None? then (false, c.value) else (true, v.value)
  }

  function Complete(s: State, p: Path, f: EndFaults): (r: State)
    requires p in s.ctxs
    ensures p in r.ctxs
  {
    var ok, empty := MergedOk(s, p), MergedEmpty(s, p);
    var (ok', w) :=
      if !ok then (false, s.w)
      else if s.ctxs[p].kind.Doomed? && empty then RmAll(s.w, p, f)
      else (!f.mark, s.w);
    State(w, s.ctxs[p := s.ctxs[p].(phase := Done(ok', empty))])
  }

  // ----- Runs -----

  datatype Action =
    | DoStart(p: Path, fault: ListFault)
    | DoFile(p: Path, n: Name, f: Faults)
    | DoComplete(p: Path, ef: EndFaults)

  ghost predicate Enabled(s: State, a: Action) {
    && a.p in s.ctxs
    && match a
       case DoStart(p, _) => s.ctxs[p].phase.Queued?
       case DoFile(p, n, _) => s.ctxs[p].phase.Active? && n in s.ctxs[p].todo
       case DoComplete(p, _) => s.ctxs[p].phase.Active? && s.ctxs[p].todo == {} && KidsDone(s, p)
  }

  function Next(s: State, a: Action, mode: SyncMode): State
    requires a.p in s.ctxs
  {
    match a
    case DoStart(p, fault) => Start(s, p, fault)
    case DoFile(p, n, f) => File(s, p, n, mode, f)
    case DoComplete(p, ef) => Complete(s, p, ef)
  }

  predicate Faultless(a: Action) {
    match a
    case DoStart(_, fault) => fault.Lists?
    case DoFile(_, _, f) => f == NO_FAULTS
    case DoComplete(_, ef) => ef == NO_END_FAULTS
  }

  /** `run` is a sequence of steps the walk can take from `s`. */
  ghost predicate Legal(s: State, run: seq<Action>, mode: SyncMode)
    decreases |run|
  {
    run == [] || (Enabled(s, run[0]) && Legal(Next(s, run[0], mode), run[1..], mode))
  }

  ghost function Final(s: State, run: seq<Action>, mode: SyncMode): State
    requires Legal(s, run, mode)
    decreases |run|
  {
    if run == [] then s else Final(Next(s, run[0], mode), run[1..], mode)
  }

  /** No directory is queued or in progress. */
  ghost predicate Drained(s: State) {
    forall p :: p in s.ctxs ==> s.ctxs[p].phase.Done?
  }

  /** Nothing has failed so far. */
  ghost predicate AllOk(s: State) {
    forall p :: p in s.ctxs ==> s.ctxs[p].ok && (s.ctxs[p].phase.Done? ==> s.ctxs[p].phase.success)
  }
}
