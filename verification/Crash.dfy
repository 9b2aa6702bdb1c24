/** Stopping in the middle of a file: what the next run finds after an operation failed or
    was the last one to reach the disk. A stop at an operation leaves what a failure of
    that operation leaves, so every statement quantifies over all faults. */
module Crash {
  import opened Defs
  import opened Sets
  import opened Replica
  import opened Mutate
  import opened Effects
  import opened Walk
  import opened Structure
  import opened Deletion
  import opened DataSafety
  import Compute

  /** Neither end has changed at `q` or below it. */
  ghost predicate EndsUntouched(w: World, w': World, q: Path) {
    forall x :: Under(q, x) ==> Get(w'.cli, x) == Get(w.cli, x) && Get(w'.srv, x) == Get(w.srv, x)
  }

  /** The end is written before the ancestor: wherever a `Use` stops, either the ends are
      untouched or they already agree, and then the next run decides `InSync` in every
      mode, whatever the ancestor says. */
  lemma InterruptedUse(s: State, p: Path, n: Name, mode: SyncMode, f: Faults, later: SyncMode)
    requires Working(s, p, n) && Decide(s.ctxs[p], n, mode).Use?
    ensures var w', q := ApplyStep(s, p, n, mode, f).w, Sub(p, n);
            || EndsUntouched(s.w, w', q)
            || (Get(w'.cli, q) == Get(w'.srv, q) && forall anc ::
                Compute.Choose(Get(w'.cli, q), anc, Get(w'.srv, q), later) == InSync)
  {
    var r, t, out := Decide(s.ctxs[p], n, mode), s.ctxs[p].t, ApplyStep(s, p, n, mode, f);
    StepLocal(s, p, n, mode, f);
    HandlePrepared(s, p, Rev(r.src));
    Compute.DecisionShape(Look(t.cli, n), Look(t.anc, n), Look(t.srv, n), mode);
    AppliedUse(s, p, n, mode, f);
    hide Str, LocalStep, StepReady, Prepared, Compute.Choose, ApplyUse, Apply;
    if !f.stop { UseStops(s, p, n, r.src, f, out, later); }
  }

  lemma AppliedUse(s: State, p: Path, n: Name, mode: SyncMode, f: Faults)
    requires p in s.ctxs && Decide(s.ctxs[p], n, mode).Use?
    ensures var r, c := Decide(s.ctxs[p], n, mode), s.ctxs[p];
            if f.stop then
              ApplyStep(s, p, n, mode, f).w == s.w
            else
              ApplyStep(s, p, n, mode, f)
              == ApplyUse(s.w, c.t, c.todo - {n}, Synth(s.ctxs, p, Rev(r.src)), p, n, r.src, f)
  {
    hide Compute.Choose, ApplyUse;
  }

  lemma UseStops(s: State, p: Path, n: Name, src: Side, f: Faults, out: Applied, later: SyncMode)
    requires p in s.ctxs && StepReady(s, p, n, NewName(s, p, n)) &&
        Prepared(End(s.w, Rev(src)), Synth(s.ctxs, p, Rev(src)), p)
    requires Compute.WellShaped(Use(src), Look(s.ctxs[p].t.cli, n), Look(s.ctxs[p].t.srv, n))
    requires out == ApplyUse(s.w, s.ctxs[p].t, s.ctxs[p].todo - {n}, Synth(s.ctxs, p, Rev(src)), p, n, src, f)
    ensures var q := Sub(p, n);
            || EndsUntouched(s.w, out.w, q)
            || (&& Get(out.w.cli, q) == Get(out.w.srv, q)
                && forall anc :: Compute.Choose(Get(out.w.cli, q), anc, Get(out.w.srv, q), later) == InSync)
  {
    UseShape(s.w, s.ctxs[p].t, s.ctxs[p].todo - {n}, Synth(s.ctxs, p, Rev(src)), p, n, src, f);
    hide ApplyUse, ReplaceEnd, Compute.Choose, Prepared, WellFormed, HalfMade, EndsUntouched;
    var was := Look(EndTable(s.ctxs[p].t, Rev(src)), n);
    HalfMadeUntouched(s.w, Rev(src), Synth(s.ctxs, p, Rev(src)), p, n, was, f.made);
    SameUntouched(s.w, out.w, Sub(p, n));
    InterruptedWrite(s, p, n, src, f);
    EqualMeansInSync(Get(out.w.cli, Sub(p, n)), Get(out.w.srv, Sub(p, n)), later);
  }

  lemma SameUntouched(w: World, w': World, q: Path)
    ensures w'.cli == w.cli && w'.srv == w.srv ==> EndsUntouched(w, w', q)
  {
  }

  lemma HalfMadeUntouched(w: World, side: Side, synth: Synthetics, p: Path, n: Name, was: Option<FileData>, made: nat)
    requires Prepared(End(w, side), synth, p)
    ensures EndsUntouched(w, HalfMade(w, side, synth, was, made), Sub(p, n))
  {
    forall x | Under(Sub(p, n), x)
        ensures Get(Materialise(End(w, side), FirstOf(synth, made)), x) == Get(End(w, side), x) {
      HalfMadeBelow(End(w, side), synth, p, n, made, x);
    }
    hide Materialise, Prepared, Under;
  }

  lemma EqualMeansInSync(c: Option<FileData>, v: Option<FileData>, mode: SyncMode)
    ensures c == v ==> forall anc :: Compute.Choose(c, anc, v, mode) == InSync
  {
    hide Compute.Choose, Compute.Settled;
    forall anc | c == v ensures Compute.Choose(c, anc, v, mode) == InSync { Compute.EqualEndsInSync(c, anc, mode); }
  }

  lemma InterruptedWrite(s: State, p: Path, n: Name, src: Side, f: Faults)
    requires p in s.ctxs && TreesWellFormed(s.w) && Shows(s.w, s.ctxs[p].t, p, n)
    requires Prepared(End(s.w, Rev(src)), Synth(s.ctxs, p, Rev(src)), p)
    requires var was, data := Look(EndTable(s.ctxs[p].t, Rev(src)), n), Look(EndTable(s.ctxs[p].t, src), n);
             (was.Some? || data.Some?) && (IsDirectory(was) && data.Some? ==> IsDirectory(data))
    ensures var was, data := Look(EndTable(s.ctxs[p].t, Rev(src)), n), Look(EndTable(s.ctxs[p].t, src), n);
            var r := ReplaceEnd(s.w, Rev(src), Synth(s.ctxs, p, Rev(src)), p, n, was, data, f.end);
            !(IsDirectory(was) && data.None?) && r.Some? ==> Get(r.value.cli, Sub(p, n)) == Get(r.value.srv, Sub(p, n))
  {
    var dst, q := Rev(src), Sub(p, n);
    var was, data := Look(EndTable(s.ctxs[p].t, dst), n), Look(EndTable(s.ctxs[p].t, src), n);
    if !(IsDirectory(was) && data.None?) {
      if was.Some? { assert q in End(s.w, dst) && IsDir(End(s.w, dst), q.parent); }
      EndEffect(s.w, dst, Synth(s.ctxs, p, dst), p, n, was, data, f.end);
    }
  }

  // ----- Splits -----

  /** The ends after a split that stopped anywhere: one untouched, the other untouched or
      renamed as a whole. */
  ghost predicate EndsIntact(w: World, w': World, p: Path, n: Name, m: Name, side: Side) {
    && End(w', Rev(side)) == End(w, Rev(side))
    && (End(w', side) == End(w, side) || End(w', side) == Rekey(End(w, side), Sub(p, n), Sub(p, m)))
  }

  /** A record at the old name is there only while both ends still are; a record at the new
      name is the old one, and the renamed file is there with it. */
  ghost predicate RecordsPaired(w: World, w': World, p: Path, n: Name, m: Name, side: Side) {
    var q, q2 := Sub(p, n), Sub(p, m);
    && (q in w'.anc ==> End(w', side) == End(w, side) && Get(w'.anc, q) == Get(w.anc, q))
    && (q2 in w'.anc ==> Get(w'.anc, q2) == Get(w.anc, q) && End(w', side) == Rekey(End(w, side), q, q2))
  }

  lemma PurgedAt(w: World, p: Path, n: Name)
    ensures var w' := Purge(w, p);
            && (Sub(p, n) in w.condemned ==> Sub(p, n) !in w'.anc)
            && (Sub(p, n) in w'.anc ==> Get(w'.anc, Sub(p, n)) == Get(w.anc, Sub(p, n)))
            && w'.cli == w.cli && w'.srv == w.srv
  {
    assert Under(Sub(p, n), Sub(p, n));
  }

  lemma DetachStops(s: State, p: Path, n: Name, m: Name, fate: AncestorFate, f: Faults)
    requires StepReady(s, p, n, m)
    ensures var d := SplitDetach(s.w, s.ctxs[p].t, p, n, fate, f);
            && (d.0 ==> Sub(p, n) !in d.1.anc || Sub(p, n) in d.1.condemned)
            && (Sub(p, n) in d.1.anc ==> Get(d.1.anc, Sub(p, n)) == Get(s.w.anc, Sub(p, n)))
            && Sub(p, m) !in d.1.anc
            && (fate.Move? ==> d.1.anc == s.w.anc && d.2.anc == s.ctxs[p].t.anc)
  {
    if fate.Delete? {
      AncestorEffect(s.w.anc, p, n, Look(s.ctxs[p].t.anc, n), None, f.anc);
      SiblingsDisjoint(p, m, n, Sub(p, m));
    }
  }

  /** Stopping after the end was renamed. */
  lemma ReattachStops(w: World, t: Tables, p: Path, n: Name, m: Name, f: Faults)
    requires WellFormed(w.anc) && n != m && Sub(p, m) !in w.anc && Look(t.anc, n) == Get(w.anc, Sub(p, n))
    requires Sub(p, n) in w.condemned
    ensures var e := SplitReattach(w, t, p, n, m, f);
            var q, q2 := Sub(p, n), Sub(p, m);
            && (q in e.1.anc ==> q in e.1.condemned)
            && (q2 in e.1.anc ==> Get(e.1.anc, q2) == Get(w.anc, q))
  {
    if n in t.anc { RenameEffect(w.anc, p, n, m); }
  }

  lemma SplitStops(s: State, p: Path, n: Name, m: Name, side: Side, fate: AncestorFate, f: Faults, out: Applied)
    requires StepReady(s, p, n, m) && m == NewName(s, p, n)
    requires out == ApplySplit(s.w, s.ctxs[p].t, s.ctxs[p].todo - {n}, p, n, side, fate, f)
    ensures EndsIntact(s.w, out.w, p, n, m, side) && RecordsPaired(s.w, Purge(out.w, p), p, n, m, side)
  {
    var t, q, q2 := s.ctxs[p].t, Sub(p, n), Sub(p, m);
    SplitEnds(s.w, t, s.ctxs[p].todo - {n}, p, n, side, fate, f);
    PurgedAt(out.w, p, n);
    PurgedAt(out.w, p, m);
    var d := SplitDetach(s.w, t, p, n, fate, f);
    DetachKeepsEnds(s.w, t, p, n, fate, f);
    DetachStops(s, p, n, m, fate, f);
    var r := RenameEnd(d.1, side, p, n, m, f.rename);
    if d.0 && r.Some? {
      var t2 := WithEndTable(d.2, side, RenameTable(EndTable(d.2, side), n, m));
      if fate.Move? {
        assert out.w == SplitReattach(r.value, t2, p, n, m, f).1;
        ReattachKeepsEnds(r.value, t2, p, n, m, f);
        ReattachStops(r.value, t2, p, n, m, f);
      } else {
        assert out.w == r.value;
      }
    } else {
      assert out.w == d.1;
    }
  }

  /** A split stopped at any operation, or run to its end, leaves both files whole under
      their own or the new name, and once the next listing has purged the condemned names
      no record stands beside a lone file it was not made for: a record at the old name
      means that neither end was renamed, a record at the new name is the old one and is
      there with the file that was renamed. */
  lemma InterruptedSplit(s: State, p: Path, n: Name, mode: SyncMode, f: Faults)
    requires Working(s, p, n) && Decide(s.ctxs[p], n, mode).Split?
    ensures var w', m, side := ApplyStep(s, p, n, mode, f).w, NewName(s, p, n), Decide(s.ctxs[p], n, mode).renamed;
            EndsIntact(s.w, w', p, n, m, side) && RecordsPaired(s.w, Purge(w', p), p, n, m, side)
  {
    var r, m := Decide(s.ctxs[p], n, mode), NewName(s, p, n);
    StepLocal(s, p, n, mode, f);
    AppliedSplit(s, p, n, mode, f);
    if f.stop {
      NothingStops(s, p, n, m, r.renamed);
    } else {
      SplitStops(s, p, n, m, r.renamed, r.fate, f, ApplyStep(s, p, n, mode, f));
    }
  }

  lemma AppliedSplit(s: State, p: Path, n: Name, mode: SyncMode, f: Faults)
    requires p in s.ctxs && Decide(s.ctxs[p], n, mode).Split?
    ensures var r, c := Decide(s.ctxs[p], n, mode), s.ctxs[p];
            if f.stop then ApplyStep(s, p, n, mode, f).w == s.w
            else ApplyStep(s, p, n, mode, f) == ApplySplit(s.w, c.t, c.todo - {n}, p, n, r.renamed, r.fate, f)
  {
  }

  lemma NothingStops(s: State, p: Path, n: Name, m: Name, side: Side)
    requires StepReady(s, p, n, m)
    ensures EndsIntact(s.w, s.w, p, n, m, side) && RecordsPaired(s.w, Purge(s.w, p), p, n, m, side)
  {
    PurgedAt(s.w, p, n);
    PurgedAt(s.w, p, m);
  }

  // ----- The loop over one directory -----

  /** Names still to do that both ends have. */
  function Shared(c: Ctx): set<Name> {
    set n | n in c.todo && n in c.t.cli && n in c.t.srv
  }

  /** What is left of a directory's loop. */
  function Work(c: Ctx): nat {
    2 * |Shared(c)| + |c.todo|
  }

  /** Every step of a directory's loop does some of its work, splits included, since neither
      half of a split is shared and so neither can split again. None of the program's
      assertions about its tables and names can fail: the name is shown by some replica, a
      directory is never replaced by something else, and the new name is free in all
      three. */
  lemma ProgressFrom(s: State, p: Path, n: Name, m: Name, r: Reconciliation, out: Applied, s': State)
    requires StepFacts(s, p, n, m, r, out, s') && QueueFacts(s, p, n, m, r, out, s') && n != m
    requires n in s.ctxs[p].todo && m !in NamesInUse(s.ctxs[p].t)
    requires r.Split? ==> n in Shared(s.ctxs[p])
    requires m in s'.ctxs[p].todo ==> m !in s.ctxs[p].todo
    ensures Work(s'.ctxs[p]) < Work(s.ctxs[p])
    ensures m in s'.ctxs[p].todo ==> n !in Shared(s'.ctxs[p]) && m !in Shared(s'.ctxs[p]) && m !in s.ctxs[p].todo
  {
    hide SplitResult, EndsAfter, LogAfter, WellFormed, AncestorOnlyShrinks, TreeClosed;
    if m in out.todo {
      SplitUnshares(s, p, n, m, r, out, s');
    } else {
      SharedShrinks(s.ctxs[p], s'.ctxs[p], n, m);
      assert s'.ctxs[p].todo == s.ctxs[p].todo - {n};
    }
  }

  lemma LoopProgress(s: State, p: Path, n: Name, mode: SyncMode, f: Faults)
    requires Working(s, p, n)
    ensures var s', m := File(s, p, n, mode, f), NewName(s, p, n);
            && p in s'.ctxs && Work(s'.ctxs[p]) < Work(s.ctxs[p])
            && n in NamesInUse(s.ctxs[p].t) && m !in NamesInUse(s.ctxs[p].t) && !Exists(s.w, Sub(p, m))
            && (m in s'.ctxs[p].todo ==> n !in Shared(s'.ctxs[p]) && m !in Shared(s'.ctxs[p]) && m !in s.ctxs[p].todo)
  {
    var m, out, s' := NewName(s, p, n), ApplyStep(s, p, n, mode, f), File(s, p, n, mode, f);
    NewNameFree(s, p, n);
    var t := s.ctxs[p].t;
    Compute.DecisionShape(Look(t.cli, n), Look(t.anc, n), Look(t.srv, n), mode);
    assert Decide(s.ctxs[p], n, mode).Split? ==> n in Shared(s.ctxs[p]);
    assert n in NamesInUse(t) && m !in NamesInUse(t) && m != n;
    FactsOf(s, p, n, mode, f);
    QueueFactsOf(s, p, n, mode, f);
    hide Compute.Choose, Apply, ApplyStep, File, Work, Shared, QueueFacts;
    ProgressFrom(s, p, n, m, Decide(s.ctxs[p], n, mode), out, s');
  }

  lemma SharedShrinks(c: Ctx, c': Ctx, n: Name, m: Name)
    requires SameNames(c.t, c'.t, n, m) && n !in Shared(c') && m !in Shared(c')
    requires forall k :: k in c'.todo && k != n && k != m ==> k in c.todo
    ensures Shared(c') <= Shared(c) - {n} && |Shared(c')| <= |Shared(c) - {n}|
  {
    forall k | k in Shared(c') ensures k in Shared(c) - {n} {
      assert Look(c.t.cli, k) == Look(c'.t.cli, k);
    }
    SubsetSize(Shared(c'), Shared(c) - {n});
  }

  lemma SplitUnshares(s: State, p: Path, n: Name, m: Name, r: Reconciliation, out: Applied, s': State)
    requires Stepped(s, p, n, m, out, s') && r.Split? && SplitResult(s.w, out.w, p, n, m, r.renamed) &&
        m in out.todo && n != m
    requires TreesWellFormed(s.w) && !Exists(s.w, Sub(p, m)) && n in Shared(s.ctxs[p])
    ensures Work(s'.ctxs[p]) < Work(s.ctxs[p]) && n !in Shared(s'.ctxs[p]) && m !in Shared(s'.ctxs[p])
  {
    var side, c, c' := r.renamed, s.ctxs[p], s'.ctxs[p];
    HalvesUnshared(s, p, n, m, side, out);
    SharedShrinks(c, c', n, m);
    assert c'.todo == c.todo + {m};
  }

  lemma HalvesUnshared(s: State, p: Path, n: Name, m: Name, side: Side, out: Applied)
    requires TreesWellFormed(s.w) && !Exists(s.w, Sub(p, m)) && n != m && SplitResult(s.w, out.w, p, n, m, side)
    requires Shows(out.w, out.t, p, n) && Shows(out.w, out.t, p, m)
    ensures n !in EndTable(out.t, side) && m !in EndTable(out.t, Rev(side))
  {
    RenameEffect(End(s.w, side), p, n, m);
  }
}
