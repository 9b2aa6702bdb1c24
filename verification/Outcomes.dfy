/** What a step leaves at its own name, by the decision that was taken. */
module Outcomes {
  import opened Defs
  import opened Replica
  import opened AltName
  import opened Mutate
  import opened Effects
  import opened Walk
  import opened Structure
  import Compute

  /** All three trees hold `data` at `q`. */
  ghost predicate Unanimous(w: World, q: Path, data: Option<FileData>) {
    Get(w.cli, q) == data && Get(w.anc, q) == data && Get(w.srv, q) == data
  }

  /** The data that a step resolving `n` would leave. */
  function Resolved(ctx: Ctx, n: Name, r: Reconciliation): Option<FileData> {
    if r.Use? then Look(EndTable(ctx.t, r.src), n) else Look(ctx.t.cli, n)
  }

  /** A directory that `r` deletes on the end it writes. */
  predicate DeletesDir(ctx: Ctx, n: Name, r: Reconciliation) {
    r.Use? && IsDirectory(Look(EndTable(ctx.t, Rev(r.src)), n)) && Look(EndTable(ctx.t, r.src), n).None?
  }

  ghost predicate OutcomeOf(s: State, p: Path, n: Name, r: Reconciliation, f: Faults, out: Applied)
    requires p in s.ctxs
  {
    var ctx, q, m := s.ctxs[p], Sub(p, n), NewName(s, p, n);
    && (f == NO_FAULTS ==> out.res != Fail)
    && (out.res != Fail ==>
          match r
          case Unsync => out == Applied(s.w, ctx.t, ctx.todo - {n}, Clean(false))
          case Irreconcilable => out == Applied(s.w, ctx.t, ctx.todo - {n}, Clean(false))
          case InSync =>
            && out.todo == ctx.todo - {n} && out.w.cli == s.w.cli && out.w.srv == s.w.srv && m !in NamesInUse(out.t)
            && Get(out.w.anc, q) == Look(ctx.t.cli, n) && out.res == Clean(IsDirectory(Look(ctx.t.cli, n)))
          case Use(src) =>
            && out.todo == ctx.todo - {n} && End(out.w, src) == End(s.w, src) && m !in NamesInUse(out.t)
            && if DeletesDir(ctx, n, r)
               then && out.res == RecursiveDelete(Rev(src), Look(EndTable(ctx.t, Rev(src)), n).value.mode)
                    && End(out.w, Rev(src)) == End(s.w, Rev(src))
               else && Unanimous(out.w, q, Resolved(ctx, n, r))
                    && out.res == Clean(IsDirectory(Resolved(ctx, n, r)))
          case Split(_, _) => out.todo == ctx.todo + {m} && out.res == Clean(false) && n in NamesInUse(out.t))
  }

  lemma RecordOutcome(s: State, p: Path, n: Name, m: Name, w: World, t: Tables, data: Option<FileData>,
      fault: AncestorFault)
    requires WellFormed(w.anc) && IsDir(w.anc, p) && Look(t.anc, n) == Get(w.anc, Sub(p, n)) && m != n &&
        m !in NamesInUse(t)
    requires p in s.ctxs
    ensures var out := Record(w, t, s.ctxs[p].todo - {n}, p, n, data, fault);
            && out.w == w.(anc := out.w.anc, condemned := out.w.condemned) && out.todo == s.ctxs[p].todo - {n} &&
                m !in NamesInUse(out.t)
            && (fault.Works? ==> out.res != Fail)
            && (out.res != Fail ==> out.res == Clean(IsDirectory(data)) && Get(out.w.anc, Sub(p, n)) == data)
  {
    AncestorEffect(w.anc, p, n, Look(t.anc, n), data, fault);
  }

  lemma UseOutcome(s: State, p: Path, n: Name, src: Side, f: Faults)
    requires p in s.ctxs && StepReady(s, p, n, NewName(s, p, n))
    requires Prepared(s.w.cli, Synth(s.ctxs, p, Client), p) && Prepared(s.w.srv, Synth(s.ctxs, p, Server), p)
    requires Compute.WellShaped(Use(src), Look(s.ctxs[p].t.cli, n), Look(s.ctxs[p].t.srv, n))
    ensures var out := ApplyUse(s.w, s.ctxs[p].t, s.ctxs[p].todo - {n}, Synth(s.ctxs, p, Rev(src)), p, n, src, f);
            OutcomeOf(s, p, n, Use(src), f, out)
  {
    var dst, t, q, m := Rev(src), s.ctxs[p].t, Sub(p, n), NewName(s, p, n);
    var was, data := Look(EndTable(t, dst), n), Look(EndTable(t, src), n);
    if IsDirectory(was) && data.None? {
      RecordOutcome(s, p, n, m, s.w, t, was, f.anc);
    } else {
      if was.Some? { assert q in End(s.w, dst) && IsDir(End(s.w, dst), q.parent); }
      EndEffect(s.w, dst, Synth(s.ctxs, p, dst), p, n, was, data, f.end);
      var r := ReplaceEnd(s.w, dst, Synth(s.ctxs, p, dst), p, n, was, data, f.end);
      if r.Some? {
        var t1 := WithEndTable(t, dst, Put(EndTable(t, dst), n, data));
        RecordOutcome(s, p, n, m, r.value, t1, data, f.anc);
      }
    }
  }

  lemma SplitOutcome(s: State, p: Path, n: Name, side: Side, fate: AncestorFate, f: Faults)
    requires p in s.ctxs && StepReady(s, p, n, NewName(s, p, n)) && n in s.ctxs[p].todo
    requires Compute.WellShaped(Split(side, fate), Look(s.ctxs[p].t.cli, n), Look(s.ctxs[p].t.srv, n))
    ensures var out := ApplySplit(s.w, s.ctxs[p].t, s.ctxs[p].todo - {n}, p, n, side, fate, f);
            OutcomeOf(s, p, n, Split(side, fate), f, out)
  {
    var m := NewName(s, p, n);
    SplitLocal(s, p, n, m, side, fate, f);
    assert s.ctxs[p].todo - {n} + {n, m} == s.ctxs[p].todo + {m};
  }

  lemma InSyncOutcome(s: State, p: Path, n: Name, f: Faults)
    requires p in s.ctxs && StepReady(s, p, n, NewName(s, p, n))
    ensures var ctx := s.ctxs[p];
            OutcomeOf(s, p, n, InSync, f, Record(s.w, ctx.t, ctx.todo - {n}, p, n, Look(ctx.t.cli, n), f.anc))
  {
    var m, ctx := NewName(s, p, n), s.ctxs[p];
    RecordOutcome(s, p, n, m, s.w, ctx.t, Look(ctx.t.cli, n), f.anc);
  }

  lemma ApplyOutcome(s: State, p: Path, n: Name, r: Reconciliation, f: Faults, out: Applied)
    requires p in s.ctxs && StepReady(s, p, n, NewName(s, p, n)) && n in s.ctxs[p].todo
    requires Compute.WellShaped(r, Look(s.ctxs[p].t.cli, n), Look(s.ctxs[p].t.srv, n))
    requires Prepared(s.w.cli, Synth(s.ctxs, p, Client), p) && Prepared(s.w.srv, Synth(s.ctxs, p, Server), p)
    requires var ctx := s.ctxs[p];
             out == Apply(s.w, ctx.t, ctx.todo - {n}, if r.Use? then Synth(s.ctxs, p, Rev(r.src)) else [], p, n, r, f)
    ensures OutcomeOf(s, p, n, r, f, out)
  {
    hide StepReady, Prepared, OutcomeOf, ApplyUse, ApplySplit, Record, Alternate;
    if f.stop || r.Unsync? || r.Irreconcilable? {
      IdleOutcome(s, p, n, r, f, out);
    } else if r.Use? {
      UseOutcome(s, p, n, r.src, f);
    } else if r.Split? {
      SplitOutcome(s, p, n, r.renamed, r.fate, f);
    } else {
      InSyncOutcome(s, p, n, f);
    }
  }

  lemma IdleOutcome(s: State, p: Path, n: Name, r: Reconciliation, f: Faults, out: Applied)
    requires p in s.ctxs && (f.stop || r.Unsync? || r.Irreconcilable?)
    requires out == Applied(s.w, s.ctxs[p].t, s.ctxs[p].todo - {n}, if f.stop then Fail else Clean(false))
    ensures OutcomeOf(s, p, n, r, f, out)
  {
  }

  /** Without faults a step never fails, and a step that does not fail does what the
      decision says. */
  lemma StepOutcome(s: State, p: Path, n: Name, mode: SyncMode, f: Faults)
    requires Working(s, p, n)
    ensures OutcomeOf(s, p, n, Decide(s.ctxs[p], n, mode), f, ApplyStep(s, p, n, mode, f))
    ensures Compute.WellShaped(Decide(s.ctxs[p], n, mode), Look(s.ctxs[p].t.cli, n), Look(s.ctxs[p].t.srv, n))
  {
    StepLocal(s, p, n, mode, f);
    HandlePrepared(s, p, Client);
    HandlePrepared(s, p, Server);
    var t := s.ctxs[p].t;
    Compute.DecisionShape(Look(t.cli, n), Look(t.anc, n), Look(t.srv, n), mode);
    ApplyOutcome(s, p, n, Decide(s.ctxs[p], n, mode), f, ApplyStep(s, p, n, mode, f));
  }

  // ----- Why a directory is filled in -----

  /** A step that does not fail fills directories in only to put something into `p`. */
  ghost predicate Caused(s: State, p: Path, side: Side, fs: Fs) {
    forall x :: x in fs && x !in End(s.w, side) && Under(x, p) ==> HasChild(fs, p)
  }

  lemma SplitCaused(s: State, p: Path, n: Name, m: Name, side: Side, fs: Fs)
    requires WellFormed(End(s.w, side)) && n != m && Sub(p, m) !in End(s.w, side)
    requires fs == End(s.w, side) || Rename(End(s.w, side), p, n, m) == Some(fs)
    ensures Caused(s, p, side, fs)
  {
    forall x | x in fs && Under(x, p) ensures x in End(s.w, side) {
      RekeyGet(End(s.w, side), p, n, m, x);
      NotAboveItself(p, m);
      if Under(Sub(p, m), x) { UnderTransitive(Sub(p, m), x, p); }
    }
  }

  lemma PutCaused(s: State, p: Path, n: Name, side: Side, fs: Fs)
    requires Sub(p, n) in fs
    ensures Caused(s, p, side, fs)
  {
    var q := Sub(p, n);
    assert q in fs && q.Sub? && q.parent == p;
  }

  lemma NothingCaused(s: State, p: Path, side: Side)
    ensures Caused(s, p, side, End(s.w, side))
  {
  }

  lemma UseWrote(w: World, t: Tables, todo: set<Name>, synth: Synthetics, p: Path, n: Name, src: Side, f: Faults)
    requires ApplyUse(w, t, todo, synth, p, n, src, f).res != Fail
    requires Look(EndTable(t, src), n).None? && !IsDirectory(Look(EndTable(t, Rev(src)), n))
    ensures ReplaceEnd(w, Rev(src), synth, p, n, Look(EndTable(t, Rev(src)), n), None, f.end).Some?
  {
    hide ReplaceEnd, Record, HalfMade;
  }

  lemma RemovalCaused(s: State, p: Path, n: Name, dst: Side, was: Option<FileData>, fault: bool)
    requires p in s.ctxs && was.Some? && !was.value.Directory?
    requires WellFormed(End(s.w, dst)) && Prepared(End(s.w, dst), Synth(s.ctxs, p, dst), p)
    requires Get(End(s.w, dst), Sub(p, n)) == was
    ensures var r := ReplaceEnd(s.w, dst, Synth(s.ctxs, p, dst), p, n, was, None, fault);
            r.Some? ==> Caused(s, p, dst, End(r.value, dst))
  {
    assert IsDir(End(s.w, dst), p);
    EndEffect(s.w, dst, Synth(s.ctxs, p, dst), p, n, was, None, fault);
    hide ReplaceEnd, WellFormed, Prepared, Materialise;
    var r := ReplaceEnd(s.w, dst, Synth(s.ctxs, p, dst), p, n, was, None, fault);
    if r.Some? {
      forall x | x in End(r.value, dst) ensures x in End(s.w, dst) {
        assert x != Sub(p, n);
        assert Get(End(r.value, dst), x) == Get(End(s.w, dst), x);
      }
    }
  }

  lemma UseDrops(s: State, p: Path, n: Name, src: Side, f: Faults, out: Applied)
    requires p in s.ctxs && StepReady(s, p, n, NewName(s, p, n))
    requires Prepared(End(s.w, Rev(src)), Synth(s.ctxs, p, Rev(src)), p)
    requires Look(EndTable(s.ctxs[p].t, src), n).None? && Look(EndTable(s.ctxs[p].t, Rev(src)), n).Some?
    requires out == ApplyUse(s.w, s.ctxs[p].t, s.ctxs[p].todo - {n}, Synth(s.ctxs, p, Rev(src)), p, n, src, f)
    requires out.res != Fail
    ensures Caused(s, p, Rev(src), End(out.w, Rev(src)))
  {
    var dst, t, todo, synth := Rev(src), s.ctxs[p].t, s.ctxs[p].todo - {n}, Synth(s.ctxs, p, Rev(src));
    var was := Look(EndTable(t, dst), n);
    assert WellFormed(End(s.w, dst)) && Get(End(s.w, dst), Sub(p, n)) == was;
    hide ApplyUse, StepReady, Prepared, ReplaceEnd, Caused;
    UseShape(s.w, t, todo, synth, p, n, src, f);
    if IsDirectory(was) {
      NothingCaused(s, p, dst);
    } else {
      UseWrote(s.w, t, todo, synth, p, n, src, f);
      RemovalCaused(s, p, n, dst, was, f.end);
    }
    assert Caused(s, p, dst, End(out.w, dst));
  }

  lemma UseCaused(s: State, p: Path, n: Name, src: Side, f: Faults, out: Applied)
    requires p in s.ctxs && StepReady(s, p, n, NewName(s, p, n))
    requires Prepared(s.w.cli, Synth(s.ctxs, p, Client), p) && Prepared(s.w.srv, Synth(s.ctxs, p, Server), p)
    requires Compute.WellShaped(Use(src), Look(s.ctxs[p].t.cli, n), Look(s.ctxs[p].t.srv, n))
    requires out == ApplyUse(s.w, s.ctxs[p].t, s.ctxs[p].todo - {n}, Synth(s.ctxs, p, Rev(src)), p, n, src, f) &&
        out.res != Fail
    requires OutcomeOf(s, p, n, Use(src), f, out)
    ensures Caused(s, p, Client, out.w.cli) && Caused(s, p, Server, out.w.srv)
  {
    var dst := Rev(src);
    var data := Look(EndTable(s.ctxs[p].t, src), n);
    hide ApplyUse, Prepared, Caused, StepReady, Alternate;
    NothingCaused(s, p, src);
    if data.Some? {
      assert Get(End(out.w, dst), Sub(p, n)) == data;
      PutCaused(s, p, n, dst, End(out.w, dst));
    } else {
      UseDrops(s, p, n, src, f, out);
    }
  }

  lemma ApplyCaused(s: State, p: Path, n: Name, m: Name, r: Reconciliation, f: Faults, synth: Synthetics, out: Applied)
    requires p in s.ctxs && m == NewName(s, p, n) && StepReady(s, p, n, m) && n in s.ctxs[p].todo
    requires Compute.WellShaped(r, Look(s.ctxs[p].t.cli, n), Look(s.ctxs[p].t.srv, n))
    requires Prepared(s.w.cli, Synth(s.ctxs, p, Client), p) && Prepared(s.w.srv, Synth(s.ctxs, p, Server), p)
    requires r.Use? ==> synth == Synth(s.ctxs, p, Rev(r.src))
    requires out == Apply(s.w, s.ctxs[p].t, s.ctxs[p].todo - {n}, synth, p, n, r, f) && out.res != Fail
    requires OutcomeOf(s, p, n, r, f, out)
    ensures Caused(s, p, Client, out.w.cli) && Caused(s, p, Server, out.w.srv)
  {
    ApplyCases(s.w, s.ctxs[p].t, s.ctxs[p].todo - {n}, synth, p, n, r, f);
    hide Apply, ApplyUse, ApplySplit, Prepared, OutcomeOf, Alternate;
    if r.Use? && !f.stop {
      UseCaused(s, p, n, r.src, f, out);
    } else if r.Split? && !f.stop {
      SplitEnds(s.w, s.ctxs[p].t, s.ctxs[p].todo - {n}, p, n, r.renamed, r.fate, f);
      SplitCaused(s, p, n, m, r.renamed, End(out.w, r.renamed));
      SplitCaused(s, p, n, m, Rev(r.renamed), End(out.w, Rev(r.renamed)));
    }
  }

  lemma StepCaused(s: State, p: Path, n: Name, mode: SyncMode, f: Faults)
    requires Working(s, p, n) && ApplyStep(s, p, n, mode, f).res != Fail
    ensures var w' := ApplyStep(s, p, n, mode, f).w; Caused(s, p, Client, w'.cli) && Caused(s, p, Server, w'.srv)
  {
    StepOutcome(s, p, n, mode, f);
    StepLocal(s, p, n, mode, f);
    HandlePrepared(s, p, Client);
    HandlePrepared(s, p, Server);
    var r := Decide(s.ctxs[p], n, mode);
    hide Str, LocalStep, OutcomeOf, Prepared, Compute.Choose, Apply, StepReady, Caused;
    ApplyCaused(s, p, n, NewName(s, p, n), r, f, if r.Use? then Synth(s.ctxs, p, Rev(r.src)) else [],
        ApplyStep(s, p, n, mode, f));
  }
}
