/** A second pass in the same mode finds nothing to do. */
module Fixpoint {
  import opened Defs
  import opened Replica
  import opened Mutate
  import opened Effects
  import opened Walk
  import opened Structure
  import opened StructureKept
  import opened Outcomes
  import opened Deletion
  import opened Settlement
  import opened Convergence
  import opened Regions
  import opened DataSafety
  import Compute

  /** No pair of ends dealt with differs only in modification time. */
  ghost predicate Calm(s: State) {
    forall x :: DealtWith(s, x) ==> !Compute.TouchedOnly(Get(s.w.cli, x), Get(s.w.srv, x))
  }

  /** A pass that drained without failures, and left no pair to be taken up again. */
  ghost predicate Stable(s1: State, mode: SyncMode) {
    Inv(s1, mode) && AllOk(s1) && Drained(s1) && (Compute.Echoes(mode) ==> Calm(s1))
  }

  /** Nothing moves, the second pass enters only what the first one entered, every
      existing name dealt with keeps its directory from counting as empty, and no doomed
      directory is ever found both sound and empty. */
  ghost predicate Quiet(s1: State, s2: State) {
    && s2.w == s1.w
    && (forall p :: p in s2.ctxs ==>
          p in s1.ctxs &&
              (s2.ctxs[p].kind.Doomed? ==> IsDoomed(s1.ctxs, p) && s1.ctxs[p].phase.Done? && !s1.ctxs[p].phase.empty))
    && (forall x: Path ::
          (&& x.Sub? && x.parent in s2.ctxs && s2.ctxs[x.parent].phase.Active? && x.name !in s2.ctxs[x.parent].todo
           && Exists(s2.w, x) && s2.ctxs[x.parent].ok && s2.ctxs[x.parent].empty)
          ==> IsDoomed(s2.ctxs, x))
    && (forall p :: IsDoomed(s2.ctxs, p) && s2.ctxs[p].phase.Done? ==>
        !(s2.ctxs[p].phase.success && s2.ctxs[p].phase.empty))
  }

  // ----- One name -----

  /** The decisions a second pass takes on what the first one left. */
  ghost predicate QuietDecision(r: Reconciliation, c: Option<FileData>, a: Option<FileData>, v: Option<FileData>,
      mayEnter: bool, doomed: bool)
  {
    || r.Unsync? || r.Irreconcilable?
    || (r.InSync? && a == c && (IsDirectory(c) ==> mayEnter))
    || (r.Use? && doomed && Compute.SrcOf(r.src, c, v).None? && IsDirectory(Compute.DstOf(r.src, c, v)) &&
        a == Compute.DstOf(r.src, c, v))
  }

  lemma SecondDecision(s1: State, mode: SyncMode, x: Path)
    requires Stable(s1, mode) && DealtWith(s1, x)
    requires Exists(s1.w, x)
    ensures var c, a, v := Get(s1.w.cli, x), Get(s1.w.anc, x), Get(s1.w.srv, x);
            QuietDecision(Compute.Choose(c, a, v, mode), c, a, v, x in s1.ctxs,
                          IsDoomed(s1.ctxs, x) && s1.ctxs[x].phase.Done? && !s1.ctxs[x].phase.empty)
  {
    assert SettledAt(s1, mode, x);
    var c, a, v := Get(s1.w.cli, x), Get(s1.w.anc, x), Get(s1.w.srv, x);
    if x in s1.ctxs {
      if s1.ctxs[x].kind.Normal? || (x in s1.w.cli && x in s1.w.srv) {
        Compute.EqualEndsInSync(c, a, mode);
      } else {
        Compute.DoomedAgain(Directory(s1.ctxs[x].kind.mode), s1.ctxs[x].kind.side, mode);
      }
    } else {
      assert !(Compute.Echoes(mode) && Compute.TouchedOnly(c, v));
    }
  }

  lemma QuietApply(w: World, t: Tables, todo: set<Name>, synth: Synthetics, p: Path, n: Name, r: Reconciliation,
      f: Faults, mayEnter: bool, doomed: bool)
    requires QuietDecision(r, Look(t.cli, n), Look(t.anc, n), Look(t.srv, n), mayEnter, doomed)
    requires n in NamesInUse(t)
    ensures var out := Apply(w, t, todo, synth, p, n, r, f);
            && out.w == w && out.todo == todo && n in NamesInUse(out.t)
            && (out.res == Clean(true) ==> mayEnter) && (out.res.RecursiveDelete? ==> doomed)
  {
  }

  /** The contexts that `Conclude` leaves: the directory itself and perhaps a child. */
  lemma ConcludeFrame(s: State, p: Path, n: Name, out: Applied, f: Faults)
    requires p in s.ctxs && Sub(p, n) !in s.ctxs && Sub(p, n) != p
    ensures var s', q := Conclude(s, p, n, out, f), Sub(p, n);
            && s'.w == out.w && p in s'.ctxs && s'.ctxs.Keys <= s.ctxs.Keys + {q}
            && (forall x :: x in s.ctxs && x != p ==> x in s'.ctxs && s'.ctxs[x] == s.ctxs[x])
            && s'.ctxs[p].kind == s.ctxs[p].kind && s'.ctxs[p].phase == s.ctxs[p].phase && s'.ctxs[p].todo == out.todo
  {
    ConcludeIs(s, p, n, out, f);
    hide Conclude;
  }

  lemma QuietConclude(s: State, p: Path, n: Name, out: Applied, f: Faults)
    requires p in s.ctxs && Sub(p, n) !in s.ctxs && Sub(p, n) != p && n in NamesInUse(out.t)
    ensures var s', q := Conclude(s, p, n, out, f), Sub(p, n);
            && p in s'.ctxs
            && (s'.ctxs[p].ok && s'.ctxs[p].empty ==> s.ctxs[p].ok && s.ctxs[p].empty && IsDoomed(s'.ctxs, q))
            && (q in s'.ctxs ==> s'.ctxs[q].phase.Queued? && (s'.ctxs[q].kind.Doomed? ==> out.res.RecursiveDelete?)
                                 && (s'.ctxs[q].kind.Normal? ==> out.res == Clean(true)))
  {
  }

  /** What a second pass makes of a name: nothing changes, and only what the first pass left
      in place is entered. */
  lemma QuietStep(s1: State, s2: State, p: Path, n: Name, mode: SyncMode, f: Faults)
    requires Stable(s1, mode) && Quiet(s1, s2) && Working(s2, p, n)
    ensures var out, x := ApplyStep(s2, p, n, mode, f), Sub(p, n);
            && x !in s2.ctxs && x != p && out.w == s2.w && out.todo == s2.ctxs[p].todo - {n} && n in NamesInUse(out.t)
            && (out.res == Clean(true) ==> x in s1.ctxs)
            && (out.res.RecursiveDelete? ==>
                  IsDoomed(s1.ctxs, x) && s1.ctxs[x].phase.Done? && !s1.ctxs[x].phase.empty)
  {
    var x, t, r := Sub(p, n), s2.ctxs[p].t, Decide(s2.ctxs[p], n, mode);
    assert Shows(s2.w, t, p, n) && n in NamesInUse(t) && x !in s2.ctxs && x != p;
    assert DealtWith(s1, x);
    hide Str, Stable, Quiet, Apply, Compute.Choose, QuietDecision;
    SecondDecision(s1, mode, x);
    var mayEnter, doomed := x in s1.ctxs, IsDoomed(s1.ctxs, x) && s1.ctxs[x].phase.Done? && !s1.ctxs[x].phase.empty;
    var synth := if r.Use? then Synth(s2.ctxs, p, Rev(r.src)) else [];
    QuietApply(s2.w, t, s2.ctxs[p].todo - {n}, synth, p, n, r, f, mayEnter, doomed);
  }

  lemma QuietFile(s1: State, s2: State, p: Path, n: Name, mode: SyncMode, f: Faults)
    requires Stable(s1, mode) && Quiet(s1, s2) && Working(s2, p, n)
    ensures Quiet(s1, File(s2, p, n, mode, f))
  {
    hide Quiet, Stable, Apply, Compute.Choose, Str, Conclude;
    var out := ApplyStep(s2, p, n, mode, f);
    QuietStep(s1, s2, p, n, mode, f);
    hide ApplyStep;
    ConcludeFrame(s2, p, n, out, f);
    QuietConclude(s2, p, n, out, f);
    QuietFromParts(s1, s2, p, n, out, File(s2, p, n, mode, f));
    assert Quiet(s1, File(s2, p, n, mode, f));
  }

  lemma QuietFromParts(s1: State, s2: State, p: Path, n: Name, out: Applied, s': State)
    requires Quiet(s1, s2) && p in s2.ctxs && s2.ctxs[p].phase.Active? && s'.w == s2.w && p in s'.ctxs &&
        Sub(p, n) !in s2.ctxs
    requires s'.ctxs.Keys <= s2.ctxs.Keys + {Sub(p, n)}
    requires forall x :: x in s2.ctxs && x != p ==> x in s'.ctxs && s'.ctxs[x] == s2.ctxs[x]
    requires s'.ctxs[p].kind == s2.ctxs[p].kind && s'.ctxs[p].phase == s2.ctxs[p].phase &&
        s'.ctxs[p].todo == s2.ctxs[p].todo - {n}
    requires s'.ctxs[p].ok && s'.ctxs[p].empty ==> s2.ctxs[p].ok && s2.ctxs[p].empty && IsDoomed(s'.ctxs, Sub(p, n))
    requires Sub(p, n) in s'.ctxs ==>
               && s'.ctxs[Sub(p, n)].phase.Queued? && Sub(p, n) in s1.ctxs
               && (s'.ctxs[Sub(p, n)].kind.Doomed? ==>
                     IsDoomed(s1.ctxs, Sub(p, n)) && s1.ctxs[Sub(p, n)].phase.Done? && !s1.ctxs[Sub(p, n)].phase.empty)
    ensures Quiet(s1, s')
  {
    var q := Sub(p, n);
    assert forall x :: x in s'.ctxs ==> x in s2.ctxs.Keys || x == q;
    forall x: Path | x.Sub? && x.parent in s'.ctxs && s'.ctxs[x.parent].phase.Active? &&
        x.name !in s'.ctxs[x.parent].todo
                     && Exists(s'.w, x) && s'.ctxs[x.parent].ok && s'.ctxs[x.parent].empty
      ensures IsDoomed(s'.ctxs, x)
    {
      if x != q {
        assert IsDoomed(s2.ctxs, x);
      }
    }
  }

  // ----- One directory -----

  lemma NothingToPurge(s1: State, p: Path)
    requires Absolved(s1) && Drained(s1) && p in s1.ctxs
    ensures Purge(s1.w, p) == s1.w
  {
    var w' := Purge(s1.w, p);
    assert forall x: Path :: x in s1.w.condemned && x.Sub? ==> x.parent != p;
    assert w'.anc == s1.w.anc;
    assert w'.condemned == s1.w.condemned;
  }

  lemma QuietStart(s1: State, s2: State, p: Path, fault: ListFault)
    requires Absolved(s1) && Drained(s1) && Quiet(s1, s2) && p in s2.ctxs && Listable(s2, p)
    requires fault.Lists? ==> Listed(Start(s2, p, fault).w, p, Start(s2, p, fault).ctxs[p])
    ensures Quiet(s1, Start(s2, p, fault))
  {
    var s' := Start(s2, p, fault);
    NothingToPurge(s1, p);
    if fault.Lists? {
      QuietListed(s1, s2, p, s');
    } else {
      QuietUnlisted(s1, s2, p);
    }
  }

  lemma QuietUnlisted(s1: State, s2: State, p: Path)
    requires Quiet(s1, s2) && p in s2.ctxs
    ensures Quiet(s1, s2.(ctxs := s2.ctxs[p := s2.ctxs[p].(phase := Done(false, true))]))
  {
    var s' := s2.(ctxs := s2.ctxs[p := s2.ctxs[p].(phase := Done(false, true))]);
    assert forall x :: IsDoomed(s'.ctxs, x) <==> IsDoomed(s2.ctxs, x);
  }

  lemma QuietListed(s1: State, s2: State, p: Path, s': State)
    requires Quiet(s1, s2) && p in s2.ctxs && s'.w == s2.w && p in s'.ctxs && s'.ctxs == s2.ctxs[p := s'.ctxs[p]]
    requires s'.ctxs[p].kind == s2.ctxs[p].kind && Listed(s'.w, p, s'.ctxs[p])
    ensures Quiet(s1, s')
  {
    forall x: Path | x.Sub? && x.parent in s'.ctxs && s'.ctxs[x.parent].phase.Active? &&
        x.name !in s'.ctxs[x.parent].todo
                     && Exists(s'.w, x) && s'.ctxs[x.parent].ok && s'.ctxs[x.parent].empty
      ensures IsDoomed(s'.ctxs, x)
    {
      if x.parent == p {
        ListedShows(s'.w, p, s'.ctxs[p], x.name);
      } else {
        assert IsDoomed(s2.ctxs, x);
      }
    }
  }

  /** A doomed directory the first pass kept is kept again. */
  lemma NeverEmptyAgain(s1: State, s2: State, p: Path)
    requires Alive(s1) && Quiet(s1, s2) && Ready(s2, p) && IsDoomed(s2.ctxs, p)
    ensures !(MergedOk(s2, p) && MergedEmpty(s2, p))
  {
    var x: Path :| x.Sub? && x.parent == p && Exists(s1.w, x);
    if s2.ctxs[p].ok && s2.ctxs[p].empty {
      assert IsDoomed(s2.ctxs, x);
      assert Kid(s2.ctxs, p, x);
    }
  }

  lemma QuietComplete(s1: State, s2: State, p: Path, f: EndFaults)
    requires Alive(s1) && Quiet(s1, s2) && Ready(s2, p)
    ensures Quiet(s1, Complete(s2, p, f))
  {
    var s' := Complete(s2, p, f);
    if IsDoomed(s2.ctxs, p) { NeverEmptyAgain(s1, s2, p); }
    assert s'.w == s2.w;
    assert forall x :: IsDoomed(s'.ctxs, x) <==> IsDoomed(s2.ctxs, x);
    assert forall x :: x in s'.ctxs && x != p ==> s'.ctxs[x] == s2.ctxs[x];
    assert s'.ctxs[p].phase.Done? && (s'.ctxs[p].phase.success ==> MergedOk(s2, p)) &&
        s'.ctxs[p].phase.empty == MergedEmpty(s2, p);
  }

  // ----- Whole runs -----

  lemma QuietNext(s1: State, s2: State, a: Action, mode: SyncMode)
    requires Stable(s1, mode) && Quiet(s1, s2) && Str(s2) && Enabled(s2, a)
    ensures Quiet(s1, Next(s2, a, mode))
  {
    match a
    case DoStart(p, fault) =>
      StartKeeps(s2, p, fault);
      QueuedListable(s2, p);
      QuietStart(s1, s2, p, fault);
    case DoFile(p, n, f) => QuietFile(s1, s2, p, n, mode, f);
    case DoComplete(p, ef) => QuietComplete(s1, s2, p, ef);
  }

  lemma {:induction false} QuietRun(s1: State, s2: State, run: seq<Action>, mode: SyncMode)
    requires Stable(s1, mode) && Quiet(s1, s2) && Str(s2) && Legal(s2, run, mode)
    ensures Quiet(s1, Final(s2, run, mode))
    decreases |run|
  {
    if run != [] {
      QuietNext(s1, s2, run[0], mode);
      NextKeeps(s2, run[0], mode);
      QuietRun(s1, Next(s2, run[0], mode), run[1..], mode);
    }
  }

  // ----- Pairs that differ only in modification time -----

  ghost predicate NoTouchedPair(w: World) {
    forall o :: !Compute.TouchedOnly(Get(w.cli, o), Get(w.srv, o))
  }

  /** Files still paired when their name is processed were paired from the start. */
  lemma PairUntouched(w0: World, s: State, p: Path, n: Name)
    requires NoTouchedPair(w0) && Original(w0, s) && p in s.ctxs && n in s.ctxs[p].todo
    ensures !Compute.TouchedOnly(Get(s.w.cli, Sub(p, n)), Get(s.w.srv, Sub(p, n)))
  {
    var q := Sub(p, n);
    TodoPending(s, p, n, q);
    assert OriginalAt(w0, s.w, q);
    assert !Compute.TouchedOnly(Get(w0.cli, Trace(s.w.log, AtClient, q)), Get(w0.srv, Trace(s.w.log, AtClient, q)));
  }

  lemma OwnNameCalm(s: State, p: Path, n: Name, r: Reconciliation, f: Faults, out: Applied)
    requires p in s.ctxs && OutcomeOf(s, p, n, r, f, out) && Shows(s.w, s.ctxs[p].t, p, n) && out.res != Fail &&
        !r.Split?
    requires !Compute.TouchedOnly(Get(s.w.cli, Sub(p, n)), Get(s.w.srv, Sub(p, n)))
    ensures !Compute.TouchedOnly(Get(out.w.cli, Sub(p, n)), Get(out.w.srv, Sub(p, n)))
  {
  }

  lemma CalmElsewhere(s: State, p: Path, n: Name, m: Name, out: Applied, s': State, x: Path)
    requires Stepped(s, p, n, m, out, s') && Calm(s) && Placed(s) && DealtWith(s', x) && x != Sub(p, n)
    requires x == Sub(p, m) ==> !Exists(out.w, x)
    ensures !Compute.TouchedOnly(Get(s'.w.cli, x), Get(s'.w.srv, x))
  {
    assert x.parent in s'.ctxs.Keys;
    assert x.parent in s.ctxs;
    if x != Sub(p, m) {
      assert DealtWith(s, x);
      ElsewhereKept(s, p, n, m, out, s', x);
      if x in s.ctxs && !s.ctxs[x].phase.Done? { assert PlacedAt(s.w, x, s.ctxs[x].kind); }
    }
  }

  lemma FileCalm(w0: World, s: State, p: Path, n: Name, mode: SyncMode, f: Faults)
    requires Working(s, p, n) && NoTouchedPair(w0) && Original(w0, s) && Calm(s) && File(s, p, n, mode, f).ctxs[p].ok
    ensures Calm(File(s, p, n, mode, f))
  {
    var m, out, s', r := NewName(s, p, n), ApplyStep(s, p, n, mode, f), File(s, p, n, mode, f),
        Decide(s.ctxs[p], n, mode);
    SteppedBy(s, p, n, mode, f);
    StepOutcome(s, p, n, mode, f);
    SpawnExact(s, p, n, out, f);
    assert Shows(s.w, s.ctxs[p].t, p, n);
    PairUntouched(w0, s, p, n);
    if !r.Split? { OwnNameCalm(s, p, n, r, f, out); }
    CalmFromParts(s, p, n, m, out, s');
  }

  lemma CalmFromParts(s: State, p: Path, n: Name, m: Name, out: Applied, s': State)
    requires Stepped(s, p, n, m, out, s') && Calm(s) && Placed(s)
    requires n in out.todo || !Compute.TouchedOnly(Get(out.w.cli, Sub(p, n)), Get(out.w.srv, Sub(p, n)))
    requires m in out.todo || m !in NamesInUse(out.t)
    ensures Calm(s')
  {
    forall x | DealtWith(s', x) ensures !Compute.TouchedOnly(Get(s'.w.cli, x), Get(s'.w.srv, x)) {
      if x != Sub(p, n) { CalmElsewhere(s, p, n, m, out, s', x); }
    }
  }

  lemma StartCalm(s: State, p: Path, s': State)
    requires Calm(s) && TreeClosed(s.ctxs) && p in s.ctxs && s.ctxs[p].phase.Queued? && PurgedBelow(s.w, s'.w, p)
    requires p in s'.ctxs && Listed(s'.w, p, s'.ctxs[p]) && s'.ctxs == s.ctxs[p := s'.ctxs[p]]
    ensures Calm(s')
  {
    forall x | DealtWith(s', x) ensures !Compute.TouchedOnly(Get(s'.w.cli, x), Get(s'.w.srv, x)) {
      if x.parent == p { ListedShows(s'.w, p, s'.ctxs[p], x.name); } else { assert DealtWith(s, x); }
    }
  }

  lemma CompleteCalm(s: State, p: Path, f: EndFaults)
    requires Calm(s) && p in s.ctxs && s.ctxs[p].phase.Active? && GoneAtMost(s.w, Complete(s, p, f).w, p)
    ensures Calm(Complete(s, p, f))
  {
    var s' := Complete(s, p, f);
    assert Get(s'.w.cli, p) == None || Get(s'.w.cli, p) == Get(s.w.cli, p);
    assert Get(s'.w.srv, p) == None || Get(s'.w.srv, p) == Get(s.w.srv, p);
    forall x | DealtWith(s', x) ensures !Compute.TouchedOnly(Get(s'.w.cli, x), Get(s'.w.srv, x)) {
      assert DealtWith(s, x);
      if x != p { assert Get(s'.w.cli, x) == Get(s.w.cli, x); }
    }
  }

  lemma NextCalm(w0: World, s: State, a: Action, mode: SyncMode)
    requires Str(s) && NoTouchedPair(w0) && Original(w0, s) && (AllOk(s) ==> Calm(s)) && Enabled(s, a)
    requires AllOk(Next(s, a, mode)) ==> AllOk(s)
    ensures AllOk(Next(s, a, mode)) ==> Calm(Next(s, a, mode))
  {
    if AllOk(Next(s, a, mode)) {
      match a
      case DoStart(p, fault) =>
        StartKeeps(s, p, fault);
        QueuedListable(s, p);
        assert p in Start(s, p, fault).ctxs && fault.Lists?;
        StartCalm(s, p, Start(s, p, fault));
      case DoFile(p, n, f) =>
        SteppedBy(s, p, n, mode, f);
        FileCalm(w0, s, p, n, mode, f);
      case DoComplete(p, ef) =>
        CompleteKeeps(s, p, ef);
        CompleteCalm(s, p, ef);
    }
  }

  lemma FileOkBefore(s: State, p: Path, n: Name, mode: SyncMode, f: Faults)
    requires Str(s) && Enabled(s, DoFile(p, n, f)) && AllOk(File(s, p, n, mode, f))
    ensures AllOk(s)
  {
    var out, s' := ApplyStep(s, p, n, mode, f), File(s, p, n, mode, f);
    SteppedBy(s, p, n, mode, f);
    SpawnExact(s, p, n, out, f);
    hide Str, Apply, ApplyStep, Decide, Conclude;
    OkBeforeFile(s, p, n, NewName(s, p, n), out, s');
  }

  lemma StartOkBefore(s: State, p: Path, fault: ListFault)
    requires Str(s) && p in s.ctxs && s.ctxs[p].phase.Queued? && AllOk(Start(s, p, fault))
    ensures AllOk(s)
  {
    QueuedIsFresh(s, p);
    hide Str, Start;
    OkBeforeStart(s, p, fault);
  }

  lemma NextOkBefore(s: State, a: Action, mode: SyncMode)
    requires Str(s) && Enabled(s, a) && AllOk(Next(s, a, mode))
    ensures AllOk(s)
  {
    hide Str, AllOk;
    match a
    case DoFile(p, n, f) => FileOkBefore(s, p, n, mode, f);
    case DoStart(p, fault) => StartOkBefore(s, p, fault);
    case DoComplete(p, ef) => OkBeforeComplete(s, p, ef);
  }

  lemma {:induction false} RunCalm(w0: World, s: State, run: seq<Action>, mode: SyncMode)
    requires Str(s) && NoTouchedPair(w0) && Original(w0, s) && (AllOk(s) ==> Calm(s)) && Legal(s, run, mode)
    ensures AllOk(Final(s, run, mode)) ==> Calm(Final(s, run, mode))
    decreases |run|
  {
    if run != [] {
      NextKeeps(s, run[0], mode);
      NextOriginal(w0, s, run[0], mode);
      if AllOk(Next(s, run[0], mode)) { NextOkBefore(s, run[0], mode); }
      NextCalm(w0, s, run[0], mode);
      RunCalm(w0, Next(s, run[0], mode), run[1..], mode);
    }
  }

  // ----- The theorem -----

  lemma FirstPassStable(w: World, first: seq<Action>, mode: SyncMode)
    requires TreesWellFormed(w) && w.log == [] && Legal(Init(w), first, mode) &&
        (Compute.Echoes(mode) ==> NoTouchedPair(w))
    requires var s1 := Final(Init(w), first, mode); Drained(s1) && AllOk(s1)
    ensures Stable(Final(Init(w), first, mode), mode)
  {
    InitInv(w, mode);
    RunInv(Init(w), first, mode);
    if Compute.Echoes(mode) {
      InitSafe(w);
      RunCalm(w, Init(w), first, mode);
    }
  }

  lemma StableStays(s1: State, second: seq<Action>, mode: SyncMode)
    requires Stable(s1, mode) && Legal(Init(s1.w), second, mode)
    ensures Final(Init(s1.w), second, mode).w == s1.w
  {
    InitQuiet(s1, mode);
    hide Stable, Quiet, Str, Legal, Final;
    QuietRun(s1, Init(s1.w), second, mode);
  }

  lemma InitQuiet(s1: State, mode: SyncMode)
    requires Stable(s1, mode)
    ensures Quiet(s1, Init(s1.w)) && Str(Init(s1.w)) && Init(s1.w).w == s1.w
  {
    InitStr(s1.w);
  }

  /** The main theorem on idempotence: after a pass that drained without failures, over any
      trees, no second pass in the same mode changes any tree, the condemned names or the
      history, at any point of any interleaving, even if its own operations fail. The one
      exception is a mode that carries updates inward but not outward when two ends differ
      only in modification time, as `EchoHappens` shows. */
  lemma SecondPassChangesNothing(w: World, first: seq<Action>, second: seq<Action>, mode: SyncMode)
    requires TreesWellFormed(w) && w.log == [] && Legal(Init(w), first, mode) &&
        (Compute.Echoes(mode) ==> NoTouchedPair(w))
    requires var s1 := Final(Init(w), first, mode); Drained(s1) && AllOk(s1)
    requires Legal(Init(Final(Init(w), first, mode).w), second, mode)
    ensures Final(Init(Final(Init(w), first, mode).w), second, mode).w == Final(Init(w), first, mode).w
  {
    FirstPassStable(w, first, mode);
    StableStays(Final(Init(w), first, mode), second, mode);
  }

  // ----- The exception -----

  const NAME := "a"
  const PLACE := Sub(Root, NAME)

  /** One file, touched on the client since it was last in sync. */
  const TOUCHED := World(map[PLACE := Regular(0, 0, 1, 0)], map[PLACE := Regular(0, 0, 0, 0)],
                         map[PLACE := Regular(0, 0, 0, 0)], {}, [])

  /** A world whose only file is `PLACE`, present on both ends. */
  ghost predicate OneFile(w: World) {
    && w.cli.Keys == {PLACE} && w.anc.Keys <= {PLACE} && w.srv.Keys == {PLACE} && w.condemned == {}
    && !w.cli[PLACE].Directory? && !w.srv[PLACE].Directory? && (PLACE in w.anc ==> !w.anc[PLACE].Directory?)
  }

  const STEPS := [DoStart(Root, Lists), DoFile(Root, NAME, NO_FAULTS), DoComplete(Root, NO_END_FAULTS)]

  lemma OneFileWellFormed(w: World)
    requires OneFile(w)
    ensures TreesWellFormed(w)
  {
    assert PLACE in w.cli && PLACE in w.srv;
  }

  lemma OneFileListed(w: World, s: State)
    requires OneFile(w) && TreesWellFormed(w) && s == Start(Init(w), Root, Lists) && Listable(Init(w), Root)
    ensures s.w == w && s.ctxs.Keys == {Root} && s.ctxs[Root].todo == {NAME} && s.ctxs[Root].ok &&
        s.ctxs[Root].kind.Normal?
    ensures s.ctxs[Root].phase.Active?
  {
    assert Purge(w, Root).anc == w.anc;
    assert s.w == w;
    forall n ensures n in s.ctxs[Root].todo <==> n == NAME {
      ListedShows(w, Root, s.ctxs[Root], n);
      assert Exists(w, Sub(Root, n)) <==> Sub(Root, n) == PLACE;
    }
  }

  lemma OneFileStarts(w: World)
    requires OneFile(w)
    ensures TreesWellFormed(w)
    ensures var s := Start(Init(w), Root, Lists);
            && s.w == w && Working(s, Root, NAME) && s.ctxs.Keys == {Root}
            && s.ctxs[Root].todo == {NAME} && s.ctxs[Root].ok && s.ctxs[Root].kind.Normal?
  {
    OneFileWellFormed(w);
    InitStr(w);
    StartKeeps(Init(w), Root, Lists);
    QueuedListable(Init(w), Root);
    OneFileListed(w, Start(Init(w), Root, Lists));
  }

  lemma ThreeSteps(s0: State, s1: State, s2: State, s3: State, mode: SyncMode)
    requires Enabled(s0, STEPS[0]) && s1 == Next(s0, STEPS[0], mode) && Enabled(s1, STEPS[1]) &&
        s2 == Next(s1, STEPS[1], mode)
    requires Enabled(s2, STEPS[2]) && s3 == Next(s2, STEPS[2], mode)
    ensures Legal(s0, STEPS, mode) && Final(s0, STEPS, mode) == s3
  {
    assert STEPS[2..][1..] == [] && STEPS[1..][1..] == STEPS[2..];
    assert Legal(s3, [], mode) && Final(s3, [], mode) == s3;
    assert Legal(s2, STEPS[2..], mode) && Final(s2, STEPS[2..], mode) == s3;
    assert Legal(s1, STEPS[1..], mode) && Final(s1, STEPS[1..], mode) == s3;
  }

  /** One pass over one file, without faults, when the decision is to record or to copy. */
  lemma OneFilePass(w: World, mode: SyncMode)
    requires OneFile(w)
    requires var r := Compute.Choose(Get(w.cli, PLACE), Get(w.anc, PLACE), Get(w.srv, PLACE), mode);
        r.InSync? || r == Use(Server)
    ensures TreesWellFormed(w) && Legal(Init(w), STEPS, mode)
    ensures var s := Final(Init(w), STEPS, mode); Drained(s) && AllOk(s) && OneFileAfter(w, s.w, mode)
  {
    hide Compute.Choose, OneFileAfter, WellFormed, Known, Coherent;
    var s0, s1 := Init(w), Start(Init(w), Root, Lists);
    OneFileStarts(w);
    var s2 := OneFileStep(s1, w, mode);
    var s3 := Complete(s2, Root, NO_END_FAULTS);
    CompleteOneFile(s2);
    assert KidsDone(s2, Root) by { assert forall q :: Kid(s2.ctxs, Root, q) ==> q in s2.ctxs.Keys; }
    ThreeSteps(s0, s1, s2, s3, mode);
  }

  ghost predicate OneFileAfter(w: World, w': World, mode: SyncMode) {
    var r := Compute.Choose(Get(w.cli, PLACE), Get(w.anc, PLACE), Get(w.srv, PLACE), mode);
    && w'.srv == w.srv && w'.condemned == {} && w'.anc.Keys <= {PLACE}
    && (r.InSync? ==> w'.cli == w.cli && Get(w'.anc, PLACE) == Get(w.cli, PLACE))
    && (r == Use(Server) ==> Get(w'.cli, PLACE) == Get(w.srv, PLACE))
  }

  lemma CompleteOneFile(s: State)
    requires s.ctxs.Keys == {Root} && s.ctxs[Root].kind.Normal? && s.ctxs[Root].ok
    ensures var s' := Complete(s, Root, NO_END_FAULTS); s'.w == s.w && Drained(s') && AllOk(s')
  {
    assert forall q :: Kid(s.ctxs, Root, q) ==> q in s.ctxs.Keys;
  }

  lemma OneFileStep(s: State, w: World, mode: SyncMode) returns (s': State)
    requires OneFile(w) && s.w == w && Working(s, Root, NAME) && s.ctxs.Keys == {Root} && s.ctxs[Root].todo == {NAME}
    requires s.ctxs[Root].ok && s.ctxs[Root].kind.Normal?
    requires var r := Compute.Choose(Get(w.cli, PLACE), Get(w.anc, PLACE), Get(w.srv, PLACE), mode);
        r.InSync? || r == Use(Server)
    ensures s' == Next(s, STEPS[1], mode) && s'.ctxs.Keys == {Root} && s'.ctxs[Root].phase.Active? &&
        s'.ctxs[Root].todo == {}
    ensures s'.ctxs[Root].ok && s'.ctxs[Root].kind.Normal? && OneFileAfter(w, s'.w, mode)
  {
    s' := Next(s, STEPS[1], mode);
    var out, r := ApplyStep(s, Root, NAME, mode, NO_FAULTS), Decide(s.ctxs[Root], NAME, mode);
    assert Shows(w, s.ctxs[Root].t, Root, NAME);
    StepOutcome(s, Root, NAME, mode, NO_FAULTS);
    StepLocal(s, Root, NAME, mode, NO_FAULTS);
    CondemnedAfter(w, s.ctxs[Root].t, {}, if r.Use? then Synth(s.ctxs, Root, Rev(r.src)) else [], Root, NAME, r,
        NO_FAULTS);
    assert s.ctxs[Root].todo - {NAME} == {};
    assert out.res == Clean(false);
    OneFileAncestor(s, out, NewName(s, Root, NAME));
  }

  lemma OneFileAncestor(s: State, out: Applied, m: Name)
    requires Root in s.ctxs && LocalStep(s, Root, NAME, m, out) && OneFile(s.w) && m !in NamesInUse(out.t) && m != NAME
    requires !IsDirectory(Get(out.w.anc, PLACE))
    ensures out.w.anc.Keys <= {PLACE}
  {
    LeafHasNothingBelow(out.w.anc, PLACE);
    forall x | x in out.w.anc ensures x == PLACE {
      if Under(Sub(Root, m), x) { NothingBelowAbsent(out.w.anc, Sub(Root, m), x); }
      assert Outside(Root, NAME, m, x) ==> Get(out.w.anc, x) == Get(s.w.anc, x);
    }
  }

  /** In exactly the modes that echo there are trees on which a second pass is not idle:
      the first pass leaves the touched file alone and records the client's time, and the
      second takes the server's older time for news and overwrites the client. */
  lemma EchoHappens(mode: SyncMode)
    requires Compute.Echoes(mode)
    ensures TreesWellFormed(TOUCHED) && Legal(Init(TOUCHED), STEPS, mode)
    ensures var s1 := Final(Init(TOUCHED), STEPS, mode);
            && Drained(s1) && AllOk(s1) && s1.w.cli == TOUCHED.cli && Legal(Init(s1.w), STEPS, mode)
            && Final(Init(s1.w), STEPS, mode).w.cli != s1.w.cli
  {
    FirstPassRecords(mode);
    OneFilePass(TOUCHED, mode);
    var w := Final(Init(TOUCHED), STEPS, mode).w;
    SecondPassCopies(w, mode);
    OneFilePass(w, mode);
    hide Compute.Choose, Legal, Final;
  }

  lemma FirstPassRecords(mode: SyncMode)
    requires Compute.Echoes(mode)
    ensures OneFile(TOUCHED) &&
        Compute.Choose(Get(TOUCHED.cli, PLACE), Get(TOUCHED.anc, PLACE), Get(TOUCHED.srv, PLACE), mode).InSync?
  {
  }

  lemma SecondPassCopies(w: World, mode: SyncMode)
    requires Compute.Echoes(mode) && OneFileAfter(TOUCHED, w, mode)
    ensures OneFile(w) && w.cli == TOUCHED.cli && Get(w.cli, PLACE) != Get(w.srv, PLACE)
    ensures Compute.Choose(Get(w.cli, PLACE), Get(w.anc, PLACE), Get(w.srv, PLACE), mode) == Use(Server)
  {
    FirstPassRecords(mode);
  }
}
