/** Every pass comes to an end: no run, whatever fails and however its steps interleave, is
    longer than the trees it starts from allow. */
module Termination {
  import opened Defs
  import opened Sets
  import opened Replica
  import opened Mutate
  import opened Effects
  import opened Walk
  import opened Structure
  import opened StructureKept
  import opened Deletion
  import opened Regions
  import opened DataSafety
  import Compute

  // ----- What is left to do -----

  /** The files of a tree that the run has yet to deal with. */
  ghost function Left(s: State, fs: Fs): set<Path> {
    set x | x in fs && Pending(s, x)
  }

  /** Those that both ends have: only they can still be split. */
  ghost function Shared(s: State): set<Path> {
    Left(s, s.w.cli) * Left(s, s.w.srv)
  }

  ghost function Effort(s: State): nat {
    |Left(s, s.w.cli)| + |Left(s, s.w.anc)| + |Left(s, s.w.srv)| + |Shared(s)|
  }

  function QueuedDirs(ctxs: map<Path, Ctx>): set<Path> {
    set p | p in ctxs && ctxs[p].phase.Queued?
  }

  function ActiveDirs(ctxs: map<Path, Ctx>): set<Path> {
    set p | p in ctxs && ctxs[p].phase.Active?
  }

  /** A bound on the steps still to come. */
  ghost function Rank(s: State): nat {
    3 * Effort(s) + 2 * |QueuedDirs(s.ctxs)| + |ActiveDirs(s.ctxs)|
  }

  lemma EffortShrinks(s: State, s': State)
    requires Left(s', s'.w.cli) <= Left(s, s.w.cli) && Left(s', s'.w.anc) <= Left(s, s.w.anc) &&
        Left(s', s'.w.srv) <= Left(s, s.w.srv)
    ensures Effort(s') <= Effort(s)
  {
    SubsetSize(Left(s', s'.w.cli), Left(s, s.w.cli));
    SubsetSize(Left(s', s'.w.anc), Left(s, s.w.anc));
    SubsetSize(Left(s', s'.w.srv), Left(s, s.w.srv));
    SubsetSize(Shared(s'), Shared(s));
  }

  // ----- Listing and completing -----

  lemma StartRank(s: State, p: Path, fault: ListFault)
    requires Str(s) && p in s.ctxs && s.ctxs[p].phase.Queued?
    ensures Rank(Start(s, p, fault)) < Rank(s)
  {
    var s' := Start(s, p, fault);
    StartKeeps(s, p, fault);
    assert PurgedBelow(s.w, s'.w, p) && s'.ctxs == s.ctxs[p := s'.ctxs[p]] && !s'.ctxs[p].phase.Queued?;
    hide Start, Str, Listed;
    forall x | Pending(s', x) ensures Pending(s, x) {
      assert s' == State(s'.w, s.ctxs[p := s'.ctxs[p]]);
      ListedPending(s, p, s'.ctxs[p], s'.w, x);
    }
    StartRankParts(s, p, s');
  }

  lemma StartRankParts(s: State, p: Path, s': State)
    requires p in s.ctxs && s.ctxs[p].phase.Queued? && PurgedBelow(s.w, s'.w, p)
    requires p in s'.ctxs && s'.ctxs == s.ctxs[p := s'.ctxs[p]] && !s'.ctxs[p].phase.Queued?
    requires forall x :: Pending(s', x) ==> Pending(s, x)
    ensures Rank(s') < Rank(s)
  {
    hide Pending, Effort;
    EffortShrinks(s, s');
    hide PurgedBelow;
    assert QueuedDirs(s'.ctxs) == QueuedDirs(s.ctxs) - {p};
    assert p in QueuedDirs(s.ctxs);
    SubsetSize(ActiveDirs(s'.ctxs), ActiveDirs(s.ctxs) + {p});
  }

  lemma CompleteRank(s: State, p: Path, f: EndFaults)
    requires Str(s) && Ready(s, p)
    ensures Rank(Complete(s, p, f)) < Rank(s)
  {
    var s' := Complete(s, p, f);
    CompleteKeeps(s, p, f);
    assert s'.ctxs == s.ctxs[p := s.ctxs[p].(phase := s'.ctxs[p].phase)] && s'.ctxs[p].phase.Done?;
    CompleteTrees(s, p, f);
    hide Complete, Str;
    CompleteRankParts(s, p, s');
  }

  lemma CompleteRankParts(s: State, p: Path, s': State)
    requires p in s.ctxs && s.ctxs[p].phase.Active? && s.ctxs[p].todo == {} && p in s'.ctxs
    requires s'.ctxs == s.ctxs[p := s.ctxs[p].(phase := s'.ctxs[p].phase)] && s'.ctxs[p].phase.Done?
    requires s'.w.cli.Keys <= s.w.cli.Keys && s'.w.anc.Keys <= s.w.anc.Keys && s'.w.srv.Keys <= s.w.srv.Keys
    ensures Rank(s') < Rank(s)
  {
    hide Pending;
    forall x ensures Pending(s', x) <==> Pending(s, x) { CompletePending(s, p, s', x); }
    EffortShrinks(s, s');
    assert QueuedDirs(s'.ctxs) == QueuedDirs(s.ctxs);
    assert ActiveDirs(s'.ctxs) == ActiveDirs(s.ctxs) - {p};
    assert p in ActiveDirs(s.ctxs);
  }

  lemma CompleteTrees(s: State, p: Path, f: EndFaults)
    requires p in s.ctxs
    ensures var w' := Complete(s, p, f).w;
            w'.cli.Keys <= s.w.cli.Keys && w'.anc.Keys <= s.w.anc.Keys && w'.srv.Keys <= s.w.srv.Keys
  {
  }

  // ----- Processing a name -----

  /** What is left after a step outside its own names was left before. */
  lemma LeftOutside(s: State, p: Path, n: Name, m: Name, r: Reconciliation, out: Applied, s': State, x: Path)
    requires StepFacts(s, p, n, m, r, out, s') && Outside(p, n, m, x) && Pending(s', x)
    ensures Pending(s, x)
    ensures x in s'.w.cli ==> x in s.w.cli
    ensures x in s'.w.srv ==> x in s.w.srv
    ensures x in s'.w.anc ==> x in s.w.anc
  {
    PendingElsewhere(s, p, n, m, out, s', x);
    if x in s.ctxs { ContextNotPending(s, x); }
    assert EndKept(s, p, Client, out.w.cli, x) && EndKept(s, p, Server, out.w.srv, x);
  }

  /** A step that does not split: its name is dealt with, and what is below it is left only
      if it was entered. */
  lemma LeftBelow(s: State, p: Path, n: Name, m: Name, r: Reconciliation, out: Applied, s': State, x: Path)
    requires StepFacts(s, p, n, m, r, out, s') && QueueFacts(s, p, n, m, r, out, s') && n != m
    requires n !in s'.ctxs[p].todo && m !in s'.ctxs[p].todo && !Outside(p, n, m, x) && Pending(s', x)
    ensures Pending(s, x) && x != Sub(p, n)
    ensures x in s'.w.cli ==> x in s.w.cli
    ensures x in s'.w.srv ==> x in s.w.srv
    ensures x in s'.w.anc ==> x in s.w.anc
  {
    var q := Sub(p, n);
    if Under(q, x) {
      if q !in s'.ctxs { ClosedNotPending(s', p, n, x); }
      if x == q { ContextNotPending(s', x); }
      TodoPending(s, p, n, x);
      hide Pending, LocalStep, CtxsAfter, LogAfter, TreeClosed, Stepped;
      EnteredKept(s, p, n, m, r, out, s', x);
    } else {
      ClosedNotPending(s', p, m, x);
    }
  }

  lemma EnteredKept(s: State, p: Path, n: Name, m: Name, r: Reconciliation, out: Applied, s': State, x: Path)
    requires EndsAfter(s.w, out.w, p, n, m, r) && s'.w == out.w && Under(Sub(p, n), x) && x != Sub(p, n)
    requires !r.Split? && AncestorOnlyShrinks(s.w, out.w, Sub(p, n))
    ensures x in s'.w.cli ==> x in s.w.cli
    ensures x in s'.w.srv ==> x in s.w.srv
    ensures x in s'.w.anc ==> x in s.w.anc
  {
    assert EndAfter(s.w, out.w, p, n, m, r, Client) && EndAfter(s.w, out.w, p, n, m, r, Server);
    assert Get(out.w.cli, x) == Get(s.w.cli, x) && Get(out.w.srv, x) == Get(s.w.srv, x);
  }

  lemma PlainStepEffort(s: State, p: Path, n: Name, m: Name, r: Reconciliation, out: Applied, s': State)
    requires StepFacts(s, p, n, m, r, out, s') && QueueFacts(s, p, n, m, r, out, s') && n != m && Exists(s.w, Sub(p, n))
    requires n !in s'.ctxs[p].todo && m !in s'.ctxs[p].todo && n in s.ctxs[p].todo
    ensures Effort(s') < Effort(s)
  {
    var q := Sub(p, n);
    forall x | Pending(s', x)
      ensures Pending(s, x) && x != q
      ensures (x in s'.w.cli ==> x in s.w.cli) && (x in s'.w.srv ==> x in s.w.srv) && (x in s'.w.anc ==> x in s.w.anc)
    {
      assert Under(q, q);
      if Outside(p, n, m, x) { LeftOutside(s, p, n, m, r, out, s', x); } else { LeftBelow(s, p, n, m, r, out, s', x); }
    }
    assert Under(q, q);
    TodoPending(s, p, n, q);
    hide StepFacts, QueueFacts, Pending;
    FewerLeft(s, s', q);
  }

  lemma LeftShrinks(s: State, s': State, fs: Fs, fs': Fs, q: Path)
    requires forall x :: Pending(s', x) ==> Pending(s, x) && x != q && (x in fs' ==> x in fs)
    ensures |Left(s', fs')| <= |Left(s, fs) - {q}|
    ensures Pending(s, q) && q in fs ==> |Left(s', fs')| < |Left(s, fs)|
  {
    hide Pending;
    SubsetSize(Left(s', fs'), Left(s, fs) - {q});
  }

  lemma FewerLeft(s: State, s': State, q: Path)
    requires Pending(s, q) && Exists(s.w, q)
    requires forall x :: Pending(s', x) ==> Pending(s, x) && x != q
    requires forall x :: Pending(s', x) ==>
               (x in s'.w.cli ==> x in s.w.cli) && (x in s'.w.srv ==> x in s.w.srv) && (x in s'.w.anc ==> x in s.w.anc)
    ensures Effort(s') < Effort(s)
  {
    hide Pending;
    SubsetSize(Shared(s'), Shared(s));
    hide Shared, Left;
    LeftShrinks(s, s', s.w.cli, s'.w.cli, q);
    LeftShrinks(s, s', s.w.anc, s'.w.anc, q);
    LeftShrinks(s, s', s.w.srv, s'.w.srv, q);
  }

  // ----- Splits -----

  /** Where a file left after a split was before it. */
  function Before(p: Path, n: Name, m: Name, x: Path): Path {
    if Under(Sub(p, m), x) then Graft(x, Sub(p, m), Sub(p, n)) else x
  }

  /** A tree that was renamed in a split has no more left than before. */
  lemma RenamedLeft(s: State, s': State, fs: Fs, p: Path, n: Name, m: Name)
    requires WellFormed(fs) && n != m && Sub(p, m) !in fs && p in s.ctxs && n in s.ctxs[p].todo
    requires forall x :: Pending(s', x) && Outside(p, n, m, x) ==> Pending(s, x)
    ensures |Left(s', Rekey(fs, Sub(p, n), Sub(p, m)))| <= |Left(s, fs)|
  {
    var now := Rekey(fs, Sub(p, n), Sub(p, m));
    var a, b := Left(s', now), Left(s, fs);
    var f := map x | x in a :: Before(p, n, m, x);
    forall x | x in a ensures f[x] in b {
      RekeyGet(fs, p, n, m, x);
      if Under(Sub(p, m), x) {
        GraftBack(x, Sub(p, m), Sub(p, n));
        TodoPending(s, p, n, f[x]);
      } else if Under(Sub(p, n), x) {
        TodoPending(s, p, n, x);
      }
    }
    forall x, y | x in a && y in a && f[x] == f[y] ensures x == y { BeforeInjective(fs, p, n, m, x, y); }
    InjectiveSize(a, b, f);
  }

  lemma BeforeInjective(fs: Fs, p: Path, n: Name, m: Name, x: Path, y: Path)
    requires WellFormed(fs) && n != m && Sub(p, m) !in fs && Before(p, n, m, x) == Before(p, n, m, y)
    requires x in Rekey(fs, Sub(p, n), Sub(p, m)) && y in Rekey(fs, Sub(p, n), Sub(p, m))
    ensures x == y
  {
    RekeyGet(fs, p, n, m, x);
    RekeyGet(fs, p, n, m, y);
    if Under(Sub(p, m), x) { GraftBack(x, Sub(p, m), Sub(p, n)); }
    if Under(Sub(p, m), y) { GraftBack(y, Sub(p, m), Sub(p, n)); }
  }

  /** A tree in which nothing is below the new name, and which is otherwise as it was. */
  lemma StayedLeft(s: State, s': State, fs: Fs, now: Fs, p: Path, n: Name, m: Name)
    requires p in s.ctxs && n in s.ctxs[p].todo &&
        (forall x :: x in now && Pending(s', x) ==> x in fs && !Under(Sub(p, m), x))
    requires forall x :: Pending(s', x) && Outside(p, n, m, x) ==> Pending(s, x)
    ensures Left(s', now) <= Left(s, fs) && |Left(s', now)| <= |Left(s, fs)|
  {
    forall x | x in Left(s', now) ensures x in Left(s, fs) {
      if Under(Sub(p, n), x) { TodoPending(s, p, n, x); }
    }
    SubsetSize(Left(s', now), Left(s, fs));
  }

  lemma SplitShared(s: State, s': State, p: Path, n: Name, m: Name, side: Side)
    requires TreesWellFormed(s.w) && !Exists(s.w, Sub(p, m)) && n != m && SplitResult(s.w, s'.w, p, n, m, side)
    requires p in s.ctxs && n in s.ctxs[p].todo && Sub(p, n) in End(s.w, Rev(side))
    requires forall x :: Pending(s', x) && Outside(p, n, m, x) ==> Pending(s, x)
    ensures |Shared(s')| < |Shared(s)|
  {
    var q := Sub(p, n);
    assert Under(q, q);
    TodoPending(s, p, n, q);
    forall x | x in Shared(s') ensures x in Shared(s) - {q} {
      RekeyGet(End(s.w, side), p, n, m, x);
      if Under(Sub(p, m), x) { NothingBelowAbsent(End(s.w, Rev(side)), Sub(p, m), x); }
    }
    SubsetSize(Shared(s'), Shared(s) - {q});
    assert q in Shared(s);
  }

  lemma SplitEffort(s: State, s': State, p: Path, n: Name, m: Name, side: Side)
    requires TreesWellFormed(s.w) && !Exists(s.w, Sub(p, m)) && n != m && SplitResult(s.w, s'.w, p, n, m, side)
    requires p in s.ctxs && n in s.ctxs[p].todo && Sub(p, n) in End(s.w, Rev(side))
    requires forall x :: Pending(s', x) && Outside(p, n, m, x) ==> Pending(s, x) && (x in s'.w.anc ==> x in s.w.anc)
    ensures Effort(s') < Effort(s)
  {
    SplitShared(s, s', p, n, m, side);
    RenamedLeft(s, s', End(s.w, side), p, n, m);
    OtherLeft(s, s', p, n, m, side);
    RecordsLeft(s, s', p, n, m, side);
    hide SplitResult, Left, Shared, TreesWellFormed, Pending;
    assert {side, Rev(side)} == {Client, Server};
    SameEnds(s, s', p, n, m, side);
  }

  lemma SameEnds(s: State, s': State, p: Path, n: Name, m: Name, side: Side)
    requires SplitResult(s.w, s'.w, p, n, m, side)
    ensures End(s'.w, side) == Rekey(End(s.w, side), Sub(p, n), Sub(p, m)) &&
        End(s'.w, Rev(side)) == End(s.w, Rev(side))
  {
  }

  lemma OtherLeft(s: State, s': State, p: Path, n: Name, m: Name, side: Side)
    requires TreesWellFormed(s.w) && !Exists(s.w, Sub(p, m)) && SplitResult(s.w, s'.w, p, n, m, side)
    requires p in s.ctxs && n in s.ctxs[p].todo
    requires forall x :: Pending(s', x) && Outside(p, n, m, x) ==> Pending(s, x)
    ensures |Left(s', End(s'.w, Rev(side)))| <= |Left(s, End(s.w, Rev(side)))|
  {
    var fs := End(s.w, Rev(side));
    forall x | x in fs ensures !Under(Sub(p, m), x) { if Under(Sub(p, m), x) { NothingBelowAbsent(fs, Sub(p, m), x); } }
    StayedLeft(s, s', fs, fs, p, n, m);
  }

  lemma RecordsLeft(s: State, s': State, p: Path, n: Name, m: Name, side: Side)
    requires TreesWellFormed(s.w) && !Exists(s.w, Sub(p, m)) && n != m && SplitResult(s.w, s'.w, p, n, m, side)
    requires p in s.ctxs && n in s.ctxs[p].todo
    requires forall x :: Pending(s', x) && Outside(p, n, m, x) ==> Pending(s, x) && (x in s'.w.anc ==> x in s.w.anc)
    ensures |Left(s', s'.w.anc)| <= |Left(s, s.w.anc)|
  {
    if s'.w.anc == Rekey(s.w.anc, Sub(p, n), Sub(p, m)) {
      RenamedLeft(s, s', s.w.anc, p, n, m);
    } else {
      StayedLeft(s, s', s.w.anc, s'.w.anc, p, n, m);
    }
  }

  lemma FileEffort(s: State, p: Path, n: Name, m: Name, r: Reconciliation, out: Applied, s': State)
    requires StepFacts(s, p, n, m, r, out, s') && QueueFacts(s, p, n, m, r, out, s') && n != m && Exists(s.w, Sub(p, n))
    requires n in s.ctxs[p].todo && (r.Split? ==> Sub(p, n) in s.w.cli && Sub(p, n) in s.w.srv)
    ensures Effort(s') < Effort(s)
  {
    if n in s'.ctxs[p].todo || m in s'.ctxs[p].todo {
      forall x | Pending(s', x) && Outside(p, n, m, x) ensures Pending(s, x) && (x in s'.w.anc ==> x in s.w.anc) {
        LeftOutside(s, p, n, m, r, out, s', x);
      }
      assert SplitResult(s.w, s'.w, p, n, m, r.renamed) && TreesWellFormed(s.w) && !Exists(s.w, Sub(p, m));
      hide Pending, StepFacts, QueueFacts, SplitResult;
      SplitEffort(s, s', p, n, m, r.renamed);
    } else {
      PlainStepEffort(s, p, n, m, r, out, s');
    }
  }

  lemma FileDirs(s: State, p: Path, n: Name, out: Applied, s': State)
    requires p in s.ctxs && s.ctxs[p].phase.Active? && CtxsAfter(s, p, n, out, s')
    ensures |QueuedDirs(s'.ctxs)| <= |QueuedDirs(s.ctxs)| + 1 && |ActiveDirs(s'.ctxs)| <= |ActiveDirs(s.ctxs)|
  {
    var q := Sub(p, n);
    forall x | x in QueuedDirs(s'.ctxs) ensures x in QueuedDirs(s.ctxs) + {q} {
      if x != q { assert x in s'.ctxs.Keys - {q}; }
    }
    SubsetSize(QueuedDirs(s'.ctxs), QueuedDirs(s.ctxs) + {q});
    forall x | x in ActiveDirs(s'.ctxs) ensures x in ActiveDirs(s.ctxs) {
      if x != q { assert x in s'.ctxs.Keys - {q}; }
    }
    SubsetSize(ActiveDirs(s'.ctxs), ActiveDirs(s.ctxs));
  }

  lemma NameIsThere(s: State, p: Path, n: Name, mode: SyncMode)
    requires Working(s, p, n)
    ensures Exists(s.w, Sub(p, n)) && NewName(s, p, n) != n
    ensures Decide(s.ctxs[p], n, mode).Split? ==> Sub(p, n) in s.w.cli && Sub(p, n) in s.w.srv
  {
    NewNameFree(s, p, n);
    assert Shows(s.w, s.ctxs[p].t, p, n) && n in NamesInUse(s.ctxs[p].t);
    var t := s.ctxs[p].t;
    Compute.DecisionShape(Look(t.cli, n), Look(t.anc, n), Look(t.srv, n), mode);
  }

  lemma FileRank(s: State, p: Path, n: Name, mode: SyncMode, f: Faults)
    requires Working(s, p, n)
    ensures Rank(File(s, p, n, mode, f)) < Rank(s)
  {
    var m, r, out, s' := NewName(s, p, n), Decide(s.ctxs[p], n, mode), ApplyStep(s, p, n, mode, f),
        File(s, p, n, mode, f);
    FactsOf(s, p, n, mode, f);
    QueueFactsOf(s, p, n, mode, f);
    NameIsThere(s, p, n, mode);
    SteppedBy(s, p, n, mode, f);
    assert CtxsAfter(s, p, n, out, s');
    hide Str, StepFacts, QueueFacts, LocalStep, Compute.Choose, File, Effort, QueuedDirs, ActiveDirs, CtxsAfter;
    FileEffort(s, p, n, m, r, out, s');
    FileDirs(s, p, n, out, s');
  }

  // ----- Whole runs -----

  lemma NextRank(s: State, a: Action, mode: SyncMode)
    requires Str(s) && Enabled(s, a)
    ensures Rank(Next(s, a, mode)) < Rank(s)
  {
    hide Str, Rank;
    match a
    case DoStart(p, fault) => StartRank(s, p, fault);
    case DoFile(p, n, f) => FileRank(s, p, n, mode, f);
    case DoComplete(p, ef) => CompleteRank(s, p, ef);
  }

  lemma {:induction false} RunRank(s: State, run: seq<Action>, mode: SyncMode)
    requires Str(s) && Legal(s, run, mode)
    ensures |run| + Rank(Final(s, run, mode)) <= Rank(s)
    decreases |run|
  {
    if run != [] {
      NextKeeps(s, run[0], mode);
      NextRank(s, run[0], mode);
      hide Str, Rank, Enabled, Next;
      RunRank(Next(s, run[0], mode), run[1..], mode);
    }
  }

  /** Files on each replica, those on both ends once more, and the root. */
  function Size(w: World): nat {
    3 * (|w.cli| + |w.anc| + |w.srv| + |w.cli.Keys * w.srv.Keys|) + 2
  }

  lemma InitRank(w: World)
    ensures Rank(Init(w)) <= Size(w)
  {
    var s := Init(w);
    SubsetSize(Left(s, w.cli), w.cli.Keys);
    SubsetSize(Left(s, w.anc), w.anc.Keys);
    SubsetSize(Left(s, w.srv), w.srv.Keys);
    SubsetSize(Shared(s), w.cli.Keys * w.srv.Keys);
    assert QueuedDirs(s.ctxs) == {Root} && ActiveDirs(s.ctxs) == {};
  }

  /** The main theorem on termination. */
  lemma PassesEnd(w: World, run: seq<Action>, mode: SyncMode)
    requires TreesWellFormed(w) && Legal(Init(w), run, mode)
    ensures |run| <= Size(w)
  {
    InitStr(w);
    InitRank(w);
    hide Rank;
    RunRank(Init(w), run, mode);
  }
}
