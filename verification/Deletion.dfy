/** Recursive deletion is safe and complete: a directory is removed only when nothing is
    left in it on any replica, and a run without faults never fails. */
module Deletion {
  import opened Defs
  import opened Replica
  import opened Mutate
  import opened Effects
  import opened Walk
  import opened Structure
  import opened StructureKept
  import opened Outcomes
  import Compute

  ghost predicate IsDoomed(ctxs: map<Path, Ctx>, q: Path) {
    q in ctxs && ctxs[q].kind.Doomed?
  }

  /** While `ok` and `empty` stand, every settled name is gone or is a directory being deleted. */
  ghost predicate Vacant(s: State) {
    forall x: Path :: x.Sub? && x.parent in s.ctxs && s.ctxs[x.parent].phase.Active? && s.ctxs[x.parent].ok
                && s.ctxs[x.parent].empty && x.name !in s.ctxs[x.parent].todo && Exists(s.w, x)
                ==> IsDoomed(s.ctxs, x)
  }

  /** A directory deleted in full is gone everywhere. */
  ghost predicate Gone(s: State) {
    forall q :: IsDoomed(s.ctxs, q) && s.ctxs[q].phase == Done(true, true) ==> !Exists(s.w, q)
  }

  /** A directory being deleted starts absent on the other end, its names are not to be
      found there, and its subdirectories can only be deleted on the same end. */
  ghost predicate OneSided(s: State) {
    forall p :: IsDoomed(s.ctxs, p) ==>
      var ctx := s.ctxs[p];
      && (ctx.phase.Queued? ==> p !in End(s.w, Rev(ctx.kind.side)))
      && (forall n :: n in ctx.todo ==> n !in EndTable(ctx.t, Rev(ctx.kind.side)))
      && (forall k :: Kid(s.ctxs, p, k) && s.ctxs[k].kind.Doomed? ==> s.ctxs[k].kind.side == ctx.kind.side)
  }

  /** Something failed in `p` or in a directory entered below it. */
  ghost predicate Tainted(ctxs: map<Path, Ctx>, p: Path) {
    exists x :: x in ctxs && Under(p, x) && !ctxs[x].ok
  }

  ghost predicate Accounted(s: State, p: Path)
    requires IsDoomed(s.ctxs, p)
  {
    p in End(s.w, Rev(s.ctxs[p].kind.side)) ==> HasChild(End(s.w, Rev(s.ctxs[p].kind.side)), p) || Tainted(s.ctxs, p)
  }

  /** A synthetic directory that came into being holds something, or was left by a create
      that failed. */
  ghost predicate FilledForCause(s: State) {
    forall p :: IsDoomed(s.ctxs, p) && !s.ctxs[p].phase.Done? ==> Accounted(s, p)
  }

  /** A directory reports success only if it and all its subdirectories had none fail. */
  ghost predicate Truthful(s: State) {
    forall p :: p in s.ctxs && s.ctxs[p].phase.Done? && s.ctxs[p].phase.success ==> NoneFailed(s.ctxs, p)
  }

  ghost predicate NoneFailed(ctxs: map<Path, Ctx>, p: Path)
    requires p in ctxs
  {
    ctxs[p].ok && forall q :: Kid(ctxs, p, q) ==> ctxs[q].phase.Done? && ctxs[q].phase.success
  }

  ghost predicate Del(s: State) {
    Vacant(s) && Gone(s) && OneSided(s) && FilledForCause(s) && Truthful(s)
  }

  // ----- Processing a name -----

  ghost predicate Stepped(s: State, p: Path, n: Name, m: Name, out: Applied, s': State) {
    && Untouched(s.ctxs, p, n) && n in s.ctxs[p].todo && m == NewName(s, p, n) && m !in s.ctxs[p].todo
    && TreeClosed(s.ctxs) && LocalStep(s, p, n, m, out) && CtxsAfter(s, p, n, out, s')
  }

  /** At a path whose parent has a context, a step changes only its own two names or fills
      a directory in. */
  lemma ElsewhereKept(s: State, p: Path, n: Name, m: Name, out: Applied, s': State, x: Path)
    requires Stepped(s, p, n, m, out, s')
    requires x in s.ctxs || (x.Sub? && x.parent in s.ctxs && x != Sub(p, n) && x != Sub(p, m))
    ensures Get(out.w.anc, x) == Get(s.w.anc, x) && EndKept(s, p, Client, out.w.cli, x) &&
        EndKept(s, p, Server, out.w.srv, x)
  {
    OwnNamesOutside(s.ctxs, p, n, m, x);
  }

  /** How `p`'s own flags move. */
  ghost predicate FlagsAfter(s: State, p: Path, n: Name, m: Name, out: Applied, s': State)
    requires p in s.ctxs && p in s'.ctxs
  {
    && (s'.ctxs[p].ok && s'.ctxs[p].empty ==>
          && s.ctxs[p].ok && s.ctxs[p].empty
          && (n !in NamesInUse(out.t) || IsDoomed(s'.ctxs, Sub(p, n))) && m !in NamesInUse(out.t))
  }

  lemma FlagsOf(s: State, p: Path, n: Name, r: Reconciliation, out: Applied, f: Faults)
    requires p in s.ctxs && OutcomeOf(s, p, n, r, f, out) && CtxsAfter(s, p, n, out, Conclude(s, p, n, out, f))
    requires NewName(s, p, n) !in NamesInUse(s.ctxs[p].t)
    ensures FlagsAfter(s, p, n, NewName(s, p, n), out, Conclude(s, p, n, out, f))
  {
  }

  lemma VacantAt(s: State, p: Path, n: Name, m: Name, out: Applied, s': State, x: Path)
    requires Stepped(s, p, n, m, out, s') && Vacant(s) && FlagsAfter(s, p, n, m, out, s')
    requires x.Sub? && x.parent in s'.ctxs && s'.ctxs[x.parent].phase.Active? && s'.ctxs[x.parent].ok
    requires s'.ctxs[x.parent].empty && x.name !in s'.ctxs[x.parent].todo && Exists(s'.w, x)
    ensures IsDoomed(s'.ctxs, x)
  {
    assert x.parent in s'.ctxs.Keys - {Sub(p, n)};
    if x == Sub(p, n) || x == Sub(p, m) {
    } else {
      ElsewhereKept(s, p, n, m, out, s', x);
      if !IsDoomed(s.ctxs, x) { assert Exists(s.w, x); }
    }
  }

  lemma GoneAt(s: State, p: Path, n: Name, m: Name, out: Applied, s': State, q: Path)
    requires Stepped(s, p, n, m, out, s') && Gone(s) && s.ctxs[p].phase.Active?
    requires IsDoomed(s'.ctxs, q) && s'.ctxs[q].phase == Done(true, true)
    ensures !Exists(s'.w, q)
  {
    assert q in s'.ctxs.Keys - {Sub(p, n)};
    ElsewhereKept(s, p, n, m, out, s', q);
  }

  /** The names of a directory being deleted are never split, and the end they are written
      to is the one that lacks them. */
  lemma OneSidedStep(s: State, p: Path, n: Name, mode: SyncMode, f: Faults)
    requires Working(s, p, n) && OneSided(s) && IsDoomed(s.ctxs, p)
    ensures var out, y := ApplyStep(s, p, n, mode, f), Rev(s.ctxs[p].kind.side);
            && out.todo == s.ctxs[p].todo - {n}
            && (out.res.RecursiveDelete? ==> out.res.side == s.ctxs[p].kind.side)
            && Sub(p, n) !in End(s.w, y)
  {
    hide Compute.Choose, WellFormed, Placed, TreeClosed, ReplaceEnd;
    var ctx := s.ctxs[p];
    assert Shows(s.w, ctx.t, p, n);
    assert Sub(p, n) !in End(s.w, Rev(ctx.kind.side));
    Compute.DecisionShape(Look(ctx.t.cli, n), Look(ctx.t.anc, n), Look(ctx.t.srv, n), mode);
    EnteredTables(s, p, n, mode, f);
  }

  lemma OneSidedAt(s: State, p: Path, n: Name, m: Name, out: Applied, s': State, x: Path)
    requires Stepped(s, p, n, m, out, s') && OneSided(s) && IsDoomed(s'.ctxs, x)
    requires IsDoomed(s.ctxs, p) ==>
               out.todo == s.ctxs[p].todo - {n} &&
                   (IsDoomed(s'.ctxs, Sub(p, n)) ==> s'.ctxs[Sub(p, n)].kind.side == s.ctxs[p].kind.side)
    requires IsDoomed(s'.ctxs, Sub(p, n)) ==> Sub(p, n) !in End(s'.w, Rev(s'.ctxs[Sub(p, n)].kind.side))
    ensures var ctx := s'.ctxs[x];
            && (ctx.phase.Queued? ==> x !in End(s'.w, Rev(ctx.kind.side)))
            && (forall k :: k in ctx.todo ==> k !in EndTable(ctx.t, Rev(ctx.kind.side)))
            && (forall k :: Kid(s'.ctxs, x, k) && s'.ctxs[k].kind.Doomed? ==> s'.ctxs[k].kind.side == ctx.kind.side)
  {
    hide WellFormed, NamesInUse;
    var q := Sub(p, n);
    assert forall k :: k in s'.ctxs && k != q ==> k in s'.ctxs.Keys - {q};
    if x == q {
      assert forall k :: Kid(s'.ctxs, x, k) ==> k == q || k in s.ctxs;
      if q.parent == q { NotAboveItself(p, n); }
    } else {
      assert x in s.ctxs && IsDoomed(s.ctxs, x);
      ElsewhereKept(s, p, n, m, out, s', x);
      if s.ctxs[x].phase.Queued? && Under(x, p) { NoContextBelowQueued(s.ctxs, x, p); }
      forall k | Kid(s'.ctxs, x, k) && s'.ctxs[k].kind.Doomed? ensures s'.ctxs[k].kind.side == s'.ctxs[x].kind.side {
        if k != q { assert Kid(s.ctxs, x, k); }
      }
      if x == p {
        forall k | k in out.todo ensures k !in EndTable(out.t, Rev(s.ctxs[p].kind.side)) {
          assert k != n && k != m;
          assert Look(s.ctxs[p].t.cli, k) == Look(out.t.cli, k);
        }
      }
    }
  }

  lemma {:induction false} ChildToward(fs: Fs, x: Path, p: Path)
    requires WellFormed(fs) && p.Sub? && IsDir(fs, p) && Under(x, p) && x != p
    ensures HasChild(fs, x)
  {
    if p.parent != x { ChildToward(fs, x, p.parent); }
  }

  lemma StaysTainted(s: State, p: Path, n: Name, m: Name, out: Applied, s': State, x: Path)
    requires Stepped(s, p, n, m, out, s') && Tainted(s.ctxs, x) && (s'.ctxs[p].ok ==> s.ctxs[p].ok)
    ensures Tainted(s'.ctxs, x)
  {
    var y :| y in s.ctxs && Under(x, y) && !s.ctxs[y].ok;
    assert y in s'.ctxs && !s'.ctxs[y].ok;
  }

  lemma FilledAt(s: State, p: Path, n: Name, m: Name, out: Applied, s': State, x: Path)
    requires Stepped(s, p, n, m, out, s') && p in s.ctxs && !Exists(s.w, Sub(p, m))
    requires IsDoomed(s.ctxs, p) ==> Sub(p, n) !in End(s.w, Rev(s.ctxs[p].kind.side))
    requires IsDoomed(s.ctxs, x) && !s.ctxs[x].phase.Done? && Accounted(s, x) && x in s'.ctxs &&
        s'.ctxs[x].kind == s.ctxs[x].kind
    requires !s'.ctxs[p].ok || (Caused(s, p, Client, out.w.cli) && Caused(s, p, Server, out.w.srv))
    requires s'.ctxs[p].ok ==> s.ctxs[p].ok
    ensures Accounted(s', x)
  {
    var y := Rev(s.ctxs[x].kind.side);
    var fs := End(out.w, y);
    ElsewhereKept(s, p, n, m, out, s', x);
    if x in fs {
      if x in End(s.w, y) {
        if Tainted(s.ctxs, x) {
          StaysTainted(s, p, n, m, out, s', x);
        } else {
          var c :| c in End(s.w, y) && c.Sub? && c.parent == x;
          ElsewhereKept(s, p, n, m, out, s', c);
          assert c in fs;
        }
      } else if !s'.ctxs[p].ok {
        assert Under(x, p) && p in s'.ctxs;
      } else {
        assert HasChild(fs, p);
        var c :| c in fs && c.Sub? && c.parent == p;
        assert IsDir(fs, p);
        if x != p { ChildToward(fs, x, p); }
      }
    }
  }

  /** What entering a doomed subdirectory means for the sides. */
  lemma NewDoomed(s: State, p: Path, n: Name, mode: SyncMode, f: Faults)
    requires Working(s, p, n) && OneSided(s) && Sub(p, n) !in s.ctxs
    requires var out := ApplyStep(s, p, n, mode, f); Shows(out.w, out.t, p, n)
    ensures var s', q, out := File(s, p, n, mode, f), Sub(p, n), ApplyStep(s, p, n, mode, f);
            && (IsDoomed(s.ctxs, p) ==> out.todo == s.ctxs[p].todo - {n} && q !in End(s.w, Rev(s.ctxs[p].kind.side)))
            && (IsDoomed(s'.ctxs, q) ==>
                  && q !in End(s'.w, Rev(s'.ctxs[q].kind.side))
                  && (IsDoomed(s.ctxs, p) ==> s'.ctxs[q].kind.side == s.ctxs[p].kind.side))
  {
    if IsDoomed(s.ctxs, p) { OneSidedStep(s, p, n, mode, f); }
    var out := ApplyStep(s, p, n, mode, f);
    EnteredTables(s, p, n, mode, f);
    SpawnKind(s, p, n, out, f);
  }

  lemma SpawnKind(s: State, p: Path, n: Name, out: Applied, f: Faults)
    requires p in s.ctxs && Sub(p, n) !in s.ctxs
    ensures var s', q := Conclude(s, p, n, out, f), Sub(p, n);
            && s'.w == out.w
            && (IsDoomed(s'.ctxs, q) ==>
                out.res.RecursiveDelete? && s'.ctxs[q].kind == Doomed(out.res.side, out.res.mode))
  {
    assert Sub(p, n) != p;
  }

  lemma VacantKept(s: State, p: Path, n: Name, m: Name, out: Applied, s': State)
    requires Stepped(s, p, n, m, out, s') && Vacant(s) && FlagsAfter(s, p, n, m, out, s')
    ensures Vacant(s')
  {
    forall x: Path | x.Sub? && x.parent in s'.ctxs && s'.ctxs[x.parent].phase.Active? && s'.ctxs[x.parent].ok
                     && s'.ctxs[x.parent].empty && x.name !in s'.ctxs[x.parent].todo && Exists(s'.w, x)
      ensures IsDoomed(s'.ctxs, x)
    { VacantAt(s, p, n, m, out, s', x); }
  }

  lemma GoneKept(s: State, p: Path, n: Name, m: Name, out: Applied, s': State)
    requires Stepped(s, p, n, m, out, s') && Gone(s)
    ensures Gone(s')
  {
    forall x | IsDoomed(s'.ctxs, x) && s'.ctxs[x].phase == Done(true, true) ensures !Exists(s'.w, x)
    { GoneAt(s, p, n, m, out, s', x); }
  }

  lemma OneSidedKept(s: State, p: Path, n: Name, m: Name, out: Applied, s': State)
    requires Stepped(s, p, n, m, out, s') && OneSided(s)
    requires IsDoomed(s.ctxs, p) ==>
               out.todo == s.ctxs[p].todo - {n} &&
                   (IsDoomed(s'.ctxs, Sub(p, n)) ==> s'.ctxs[Sub(p, n)].kind.side == s.ctxs[p].kind.side)
    requires IsDoomed(s'.ctxs, Sub(p, n)) ==> Sub(p, n) !in End(s'.w, Rev(s'.ctxs[Sub(p, n)].kind.side))
    ensures OneSided(s')
  {
    forall x | IsDoomed(s'.ctxs, x)
      ensures var ctx := s'.ctxs[x];
              && (ctx.phase.Queued? ==> x !in End(s'.w, Rev(ctx.kind.side)))
              && (forall k :: k in ctx.todo ==> k !in EndTable(ctx.t, Rev(ctx.kind.side)))
              && (forall k :: Kid(s'.ctxs, x, k) && s'.ctxs[k].kind.Doomed? ==> s'.ctxs[k].kind.side == ctx.kind.side)
    { OneSidedAt(s, p, n, m, out, s', x); }
  }

  lemma FilledKept(s: State, p: Path, n: Name, m: Name, out: Applied, s': State)
    requires Stepped(s, p, n, m, out, s') && FilledForCause(s) && !Exists(s.w, Sub(p, m))
    requires IsDoomed(s.ctxs, p) ==> Sub(p, n) !in End(s.w, Rev(s.ctxs[p].kind.side))
    requires IsDoomed(s'.ctxs, Sub(p, n)) ==> Sub(p, n) !in End(s'.w, Rev(s'.ctxs[Sub(p, n)].kind.side))
    requires !s'.ctxs[p].ok || (Caused(s, p, Client, out.w.cli) && Caused(s, p, Server, out.w.srv))
    requires s'.ctxs[p].ok ==> s.ctxs[p].ok
    ensures FilledForCause(s')
  {
    hide Accounted, Caused, LocalStep;
    forall x | IsDoomed(s'.ctxs, x) && !s'.ctxs[x].phase.Done? ensures Accounted(s', x) {
      if x == Sub(p, n) {
        AccountedNew(s', x);
      } else {
        assert x in s'.ctxs.Keys - {Sub(p, n)};
        FilledAt(s, p, n, m, out, s', x);
      }
    }
  }

  lemma AccountedNew(s: State, x: Path)
    requires IsDoomed(s.ctxs, x) && x !in End(s.w, Rev(s.ctxs[x].kind.side))
    ensures Accounted(s, x)
  {
  }

  lemma SteppedBy(s: State, p: Path, n: Name, mode: SyncMode, f: Faults)
    requires Working(s, p, n)
    ensures var m, out := NewName(s, p, n), ApplyStep(s, p, n, mode, f);
            Stepped(s, p, n, m, out, File(s, p, n, mode, f)) && !Exists(s.w, Sub(p, m)) && m !in NamesInUse(s.ctxs[p].t)
            && Sub(p, n) !in s.ctxs && n in NamesInUse(s.ctxs[p].t)
  {
    StepLocal(s, p, n, mode, f);
    FileKeeps(s, p, n, mode, f);
    NewNameFree(s, p, n);
  }

  lemma FileDel(s: State, p: Path, n: Name, mode: SyncMode, f: Faults)
    requires Working(s, p, n) && Del(s)
    ensures Del(File(s, p, n, mode, f))
  {
    var m, out, s' := NewName(s, p, n), ApplyStep(s, p, n, mode, f), File(s, p, n, mode, f);
    SteppedBy(s, p, n, mode, f);
    StepOutcome(s, p, n, mode, f);
    FlagsOf(s, p, n, Decide(s.ctxs[p], n, mode), out, f);
    NewDoomed(s, p, n, mode, f);
    OkOnlyIf(s, p, n, out, f);
    if out.res != Fail { StepCaused(s, p, n, mode, f); }
    hide Str, LocalStep, Caused, OutcomeOf, Compute.Choose, Apply, CtxsAfter;
    VacantKept(s, p, n, m, out, s');
    GoneKept(s, p, n, m, out, s');
    OneSidedKept(s, p, n, m, out, s');
    FilledKept(s, p, n, m, out, s');
    FileTruthful(s, p, n, m, out, s');
  }

  lemma OkOnlyIf(s: State, p: Path, n: Name, out: Applied, f: Faults)
    requires p in s.ctxs && Sub(p, n) != p
    ensures var s' := Conclude(s, p, n, out, f); s'.ctxs[p].ok ==> s.ctxs[p].ok && out.res != Fail
  {
  }

  lemma FileTruthful(s: State, p: Path, n: Name, m: Name, out: Applied, s': State)
    requires Stepped(s, p, n, m, out, s') && Truthful(s)
    ensures Truthful(s')
  {
    forall p', q | p' in s'.ctxs && s'.ctxs[p'].phase.Done? && s'.ctxs[p'].phase.success && Kid(s'.ctxs, p', q)
      ensures s'.ctxs[q].phase.Done? && s'.ctxs[q].phase.success
    {
      assert p' in s'.ctxs.Keys - {Sub(p, n)} && p' != p;
      assert q in s'.ctxs.Keys - {Sub(p, n)};
      assert Kid(s.ctxs, p', q);
    }
    forall p' | p' in s'.ctxs && s'.ctxs[p'].phase.Done? && s'.ctxs[p'].phase.success ensures s'.ctxs[p'].ok {
      assert p' in s'.ctxs.Keys - {Sub(p, n)};
    }
  }

  // ----- Listing -----

  /** The listing of `p` failed, perhaps after the ancestor was purged. */
  ghost predicate ListingFailed(s: State, p: Path, s': State) {
    && p in s.ctxs && s.ctxs[p].phase.Queued? && s.ctxs[p].todo == {} && PurgedBelow(s.w, s'.w, p)
    && s'.ctxs == s.ctxs[p := s.ctxs[p].(phase := Done(false, true))]
  }

  lemma FailedOneSided(s: State, p: Path, s': State)
    requires OneSided(s) && ListingFailed(s, p, s')
    ensures OneSided(s')
  {
    assert forall x, k :: Kid(s'.ctxs, x, k) <==> Kid(s.ctxs, x, k);
    assert forall x :: IsDoomed(s'.ctxs, x) <==> IsDoomed(s.ctxs, x);
  }

  lemma FailedVacant(s: State, p: Path, s': State)
    requires Vacant(s) && Gone(s) && ListingFailed(s, p, s')
    ensures Vacant(s') && Gone(s')
  {
    assert forall x :: IsDoomed(s'.ctxs, x) <==> IsDoomed(s.ctxs, x);
    assert forall x :: Exists(s'.w, x) ==> Exists(s.w, x);
  }

  /** Contexts only change phase. */
  lemma SameAccounts(s: State, s': State, x: Path)
    requires s'.w.cli == s.w.cli && s'.w.srv == s.w.srv && IsDoomed(s.ctxs, x) && Accounted(s, x)
    requires x in s'.ctxs && s'.ctxs[x].kind == s.ctxs[x].kind
    requires forall y :: y in s.ctxs && !s.ctxs[y].ok ==> y in s'.ctxs && !s'.ctxs[y].ok
    ensures Accounted(s', x)
  {
    if Tainted(s.ctxs, x) {
      var y :| y in s.ctxs && Under(x, y) && !s.ctxs[y].ok;
      assert y in s'.ctxs && !s'.ctxs[y].ok;
    }
  }

  lemma FailedFilled(s: State, p: Path, s': State)
    requires FilledForCause(s) && ListingFailed(s, p, s')
    ensures FilledForCause(s')
  {
    hide Accounted;
    forall x | IsDoomed(s'.ctxs, x) && !s'.ctxs[x].phase.Done? ensures Accounted(s', x) { SameAccounts(s, s', x); }
  }

  lemma StartTruthful(s: State, p: Path, s': State)
    requires TreeClosed(s.ctxs) && Truthful(s) && p in s.ctxs && s.ctxs[p].phase.Queued?
    requires p in s'.ctxs && s'.ctxs == s.ctxs[p := s'.ctxs[p]] &&
        (s'.ctxs[p].phase.Active? || s'.ctxs[p].phase == Done(false, true))
    ensures Truthful(s')
  {
    hide NoneFailed, Nested;
    forall x | x in s'.ctxs && s'.ctxs[x].phase.Done? && s'.ctxs[x].phase.success ensures NoneFailed(s'.ctxs, x) {
      StillTruthful(s.ctxs, p, s'.ctxs[p], x);
    }
  }

  /** A directory in progress or queued is not the child of one that is done. */
  lemma NotBelowDone(ctxs: map<Path, Ctx>, p: Path, x: Path)
    requires TreeClosed(ctxs) && p in ctxs && !ctxs[p].phase.Done? && x in ctxs && ctxs[x].phase.Done?
    ensures p.Sub? ==> p.parent != x
  {
    if p.Sub? { assert Nested(ctxs, p); }
  }

  lemma StillTruthful(ctxs: map<Path, Ctx>, p: Path, c: Ctx, x: Path)
    requires TreeClosed(ctxs) && p in ctxs && !ctxs[p].phase.Done? && x in ctxs && x != p && ctxs[x].phase.Done? &&
        NoneFailed(ctxs, x)
    ensures NoneFailed(ctxs[p := c], x)
  {
    hide TreeClosed;
    NotBelowDone(ctxs, p, x);
    forall k | Kid(ctxs[p := c], x, k) ensures k != p && Kid(ctxs, x, k) { }
  }

  lemma StartFailDel(s: State, p: Path, s': State)
    requires Del(s) && TreeClosed(s.ctxs) && ListingFailed(s, p, s')
    ensures Del(s')
  {
    hide Vacant, Gone, OneSided, FilledForCause, Truthful, TreeClosed;
    FailedOneSided(s, p, s');
    FailedVacant(s, p, s');
    FailedFilled(s, p, s');
    StartTruthful(s, p, s');
  }

  lemma StartDel(s: State, p: Path, fault: ListFault)
    requires Str(s) && Del(s) && p in s.ctxs && s.ctxs[p].phase.Queued?
    ensures Del(Start(s, p, fault))
  {
    var s' := Start(s, p, fault);
    StartKeeps(s, p, fault);
    assert s.ctxs[p].todo == {};
    hide Start, Listed, PurgedBelow, Del;
    if fault.Lists? {
      StartListedDel(s, p, s');
    } else {
      StartFailDel(s, p, s');
    }
  }

  lemma StartListedDel(s: State, p: Path, s': State)
    requires TreesWellFormed(s.w) && TreeClosed(s.ctxs) && Placed(s) && Del(s) && p in s.ctxs && s.ctxs[p].phase.Queued?
    requires PurgedBelow(s.w, s'.w, p) && p in s'.ctxs && Listed(s'.w, p, s'.ctxs[p]) &&
        s'.ctxs == s.ctxs[p := s'.ctxs[p]]
    requires s'.ctxs[p].kind == s.ctxs[p].kind
    ensures Del(s')
  {
    forall n | n !in s'.ctxs[p].todo ensures !Exists(s'.w, Sub(p, n)) { ListedShows(s'.w, p, s'.ctxs[p], n); }
    if IsDoomed(s.ctxs, p) {
      assert PlacedAt(s.w, p, s.ctxs[p].kind);
      DoomedListing(s, p, s');
    }
    StartDelParts(s, p, s');
  }

  /** The end that lacks a doomed directory contributes no name to its listing. */
  lemma DoomedListing(s: State, p: Path, s': State)
    requires TreesWellFormed(s.w) && OneSided(s) && IsDoomed(s.ctxs, p) && s.ctxs[p].phase.Queued? && p.Sub?
    requires PurgedBelow(s.w, s'.w, p) && p in s'.ctxs && Listed(s'.w, p, s'.ctxs[p])
    ensures EndTable(s'.ctxs[p].t, Rev(s.ctxs[p].kind.side)) == map[]
  {
    var y := Rev(s.ctxs[p].kind.side);
    forall n ensures n !in EndTable(s'.ctxs[p].t, y) {
      ListGet(End(s'.w, y), p, n);
      assert Sub(p, n) !in End(s.w, y);
    }
  }

  ghost predicate ListedNow(s: State, p: Path, s': State) {
    && p in s.ctxs && s.ctxs[p].phase.Queued? && PurgedBelow(s.w, s'.w, p) && p in s'.ctxs
    && s'.ctxs == s.ctxs[p := s'.ctxs[p]] && s'.ctxs[p].phase.Active? && s'.ctxs[p].kind == s.ctxs[p].kind
  }

  lemma ListedOneSided(s: State, p: Path, s': State)
    requires OneSided(s) && ListedNow(s, p, s')
    requires IsDoomed(s.ctxs, p) ==> EndTable(s'.ctxs[p].t, Rev(s.ctxs[p].kind.side)) == map[]
    ensures OneSided(s')
  {
    assert forall x, k :: Kid(s'.ctxs, x, k) <==> Kid(s.ctxs, x, k);
    forall x | IsDoomed(s'.ctxs, x)
      ensures var ctx := s'.ctxs[x];
              && (ctx.phase.Queued? ==> x !in End(s'.w, Rev(ctx.kind.side)))
              && (forall k :: k in ctx.todo ==> k !in EndTable(ctx.t, Rev(ctx.kind.side)))
              && (forall k :: Kid(s'.ctxs, x, k) && s'.ctxs[k].kind.Doomed? ==> s'.ctxs[k].kind.side == ctx.kind.side)
    { assert IsDoomed(s.ctxs, x); }
  }

  lemma ListedVacant(s: State, p: Path, s': State)
    requires Vacant(s) && Gone(s) && ListedNow(s, p, s')
    requires forall n :: n !in s'.ctxs[p].todo ==> !Exists(s'.w, Sub(p, n))
    ensures Vacant(s') && Gone(s')
  {
    assert forall x :: Exists(s'.w, x) ==> Exists(s.w, x);
    forall x: Path | x.Sub? && x.parent in s'.ctxs && s'.ctxs[x.parent].phase.Active? && s'.ctxs[x.parent].ok
                     && s'.ctxs[x.parent].empty && x.name !in s'.ctxs[x.parent].todo && Exists(s'.w, x)
      ensures IsDoomed(s'.ctxs, x)
    {
    }
  }

  lemma ListedFilled(s: State, p: Path, s': State)
    requires FilledForCause(s) && ListedNow(s, p, s') && s.ctxs[p].ok
    ensures FilledForCause(s')
  {
    hide Accounted;
    forall x | IsDoomed(s'.ctxs, x) && !s'.ctxs[x].phase.Done? ensures Accounted(s', x) { SameAccounts(s, s', x); }
  }

  lemma StartDelParts(s: State, p: Path, s': State)
    requires Del(s) && TreeClosed(s.ctxs) && ListedNow(s, p, s') && s.ctxs[p].ok
    requires forall n :: n !in s'.ctxs[p].todo ==> !Exists(s'.w, Sub(p, n))
    requires IsDoomed(s.ctxs, p) ==> EndTable(s'.ctxs[p].t, Rev(s.ctxs[p].kind.side)) == map[]
    ensures Del(s')
  {
    hide Vacant, Gone, OneSided, FilledForCause, Truthful, TreeClosed, PurgedBelow;
    ListedOneSided(s, p, s');
    ListedVacant(s, p, s');
    ListedFilled(s, p, s');
    StartTruthful(s, p, s');
  }

  // ----- Completing -----

  ghost predicate Ready(s: State, p: Path) {
    p in s.ctxs && s.ctxs[p].phase.Active? && s.ctxs[p].todo == {} && KidsDone(s, p)
  }

  /** When a directory completes with both flags standing, nothing is left in it on any of
      the three replicas, and if it was to be deleted the other end does not have it. */
  lemma NothingLeft(s: State, p: Path)
    requires TreeClosed(s.ctxs) && Del(s) && Ready(s, p) && MergedOk(s, p) && MergedEmpty(s, p)
    ensures !HasChild(s.w.cli, p) && !HasChild(s.w.anc, p) && !HasChild(s.w.srv, p)
    ensures IsDoomed(s.ctxs, p) ==> p !in End(s.w, Rev(s.ctxs[p].kind.side))
  {
    NoChildLeft(s, p);
    hide Vacant, Gone, OneSided, MergedEmpty, KidsDone;
    if IsDoomed(s.ctxs, p) {
      assert Accounted(s, p);
      NotTainted(s, p);
    }
  }

  lemma NoChildLeft(s: State, p: Path)
    requires Vacant(s) && Gone(s) && Ready(s, p) && MergedOk(s, p) && MergedEmpty(s, p)
    ensures !HasChild(s.w.cli, p) && !HasChild(s.w.anc, p) && !HasChild(s.w.srv, p)
  {
    forall x: Path | x.Sub? && x.parent == p ensures !Exists(s.w, x) {
      if Exists(s.w, x) {
        assert IsDoomed(s.ctxs, x);
        assert Kid(s.ctxs, p, x);
      }
    }
  }

  /** Nothing failed in `x`, nor, if it is below the directory asked about, in completing it. */
  ghost predicate WentWell(s: State, p: Path, x: Path) {
    x in s.ctxs ==> s.ctxs[x].ok && (x != p ==> s.ctxs[x].phase.Done? && s.ctxs[x].phase.success)
  }

  lemma {:induction false} AllBelowWentWell(s: State, p: Path, x: Path)
    requires TreeClosed(s.ctxs) && Truthful(s) && p in s.ctxs && MergedOk(s, p) && Under(p, x) && x in s.ctxs
    ensures WentWell(s, p, x)
  {
    if x != p {
      UpClosed(s.ctxs, p, x);
      assert Nested(s.ctxs, x);
      AllBelowWentWell(s, p, x.parent);
      assert Kid(s.ctxs, x.parent, x);
    }
  }

  lemma NotTainted(s: State, p: Path)
    requires TreeClosed(s.ctxs) && Truthful(s) && p in s.ctxs && MergedOk(s, p)
    ensures !Tainted(s.ctxs, p)
  {
    hide TreeClosed, Truthful, MergedOk;
    forall x | x in s.ctxs && Under(p, x) ensures s.ctxs[x].ok { AllBelowWentWell(s, p, x); }
  }

  /** Removing an empty doomed directory leaves nothing of it, and cannot fail by itself. */
  lemma RmAllClears(s: State, p: Path, f: EndFaults)
    requires Str(s) && Del(s) && Ready(s, p) && MergedOk(s, p) && MergedEmpty(s, p) && IsDoomed(s.ctxs, p)
    ensures var (ok, w') := RmAll(s.w, p, f);
            && (f == NO_END_FAULTS ==> ok) && (ok ==> !Exists(w', p))
            && End(w', Rev(s.ctxs[p].kind.side)) == End(s.w, Rev(s.ctxs[p].kind.side))
  {
    hide WellFormed, Coherent, Known, Nested, HasChild;
    NothingLeft(s, p);
    assert PlacedAt(s.w, p, s.ctxs[p].kind);
  }

  ghost predicate Completed(s: State, p: Path, s': State) {
    && Ready(s, p) && GoneAtMost(s.w, s'.w, p) && p in s'.ctxs
    && s'.ctxs == s.ctxs[p := s.ctxs[p].(phase := s'.ctxs[p].phase)] && s'.ctxs[p].phase.Done?
    && (s'.w != s.w ==>
        IsDoomed(s.ctxs, p) && End(s'.w, Rev(s.ctxs[p].kind.side)) == End(s.w, Rev(s.ctxs[p].kind.side)))
  }

  lemma CompleteOneSided(s: State, p: Path, s': State)
    requires OneSided(s) && Completed(s, p, s')
    ensures OneSided(s')
  {
    hide HasChild, Exists, NamesInUse;
    assert forall x, k :: Kid(s'.ctxs, x, k) <==> Kid(s.ctxs, x, k);
    forall x | IsDoomed(s'.ctxs, x)
      ensures var ctx := s'.ctxs[x];
              && (ctx.phase.Queued? ==> x !in End(s'.w, Rev(ctx.kind.side)))
              && (forall k :: k in ctx.todo ==> k !in EndTable(ctx.t, Rev(ctx.kind.side)))
              && (forall k :: Kid(s'.ctxs, x, k) && s'.ctxs[k].kind.Doomed? ==> s'.ctxs[k].kind.side == ctx.kind.side)
    {
      assert IsDoomed(s.ctxs, x);
      if x != p { assert Get(s'.w.cli, x) == Get(s.w.cli, x); }
    }
  }

  lemma CompleteFilled(s: State, p: Path, s': State, x: Path)
    requires OneSided(s) && Completed(s, p, s') && IsDoomed(s'.ctxs, x) && !s'.ctxs[x].phase.Done?
    requires IsDoomed(s.ctxs, x) && Accounted(s, x)
    ensures Accounted(s', x)
  {
    var y := Rev(s.ctxs[x].kind.side);
    assert Get(s'.w.cli, x) == Get(s.w.cli, x);
    if x in End(s'.w, y) {
      if Tainted(s.ctxs, x) {
        var z :| z in s.ctxs && Under(x, z) && !s.ctxs[z].ok;
        assert z in s'.ctxs && !s'.ctxs[z].ok;
      } else {
        var c :| c in End(s.w, y) && c.Sub? && c.parent == x;
        if c == p && s'.w != s.w { assert Kid(s.ctxs, x, p); }
        assert Get(s'.w.cli, c) == Get(s.w.cli, c) || c == p;
        assert c in End(s'.w, y);
      }
    }
  }

  lemma CompleteTruthful(s: State, p: Path, s': State)
    requires Truthful(s) && Completed(s, p, s') && TreeClosed(s.ctxs)
    requires s'.ctxs[p].phase.success ==> MergedOk(s, p)
    ensures Truthful(s')
  {
    hide NoneFailed, Nested, GoneAtMost, MergedOk, KidsDone;
    forall x | x in s'.ctxs && s'.ctxs[x].phase.Done? && s'.ctxs[x].phase.success ensures NoneFailed(s'.ctxs, x) {
      if x == p { MergedMeansNone(s, p, s'.ctxs[p].phase); } else { StillTruthful(s.ctxs, p, s'.ctxs[p], x); }
    }
  }

  lemma MergedMeansNone(s: State, p: Path, phase: Phase)
    requires p in s.ctxs && MergedOk(s, p) && !s.ctxs[p].phase.Done?
    ensures NoneFailed(s.ctxs[p := s.ctxs[p].(phase := phase)], p)
  {
    var ctxs := s.ctxs[p := s.ctxs[p].(phase := phase)];
    forall q | Kid(ctxs, p, q) ensures ctxs[q].phase.Done? && ctxs[q].phase.success {
      assert Kid(s.ctxs, p, q);
    }
  }

  lemma CompleteDelParts(s: State, p: Path, s': State)
    requires Del(s) && Completed(s, p, s') && TreeClosed(s.ctxs)
    requires IsDoomed(s.ctxs, p) && s'.ctxs[p].phase == Done(true, true) ==> !Exists(s'.w, p)
    requires s'.ctxs[p].phase.success ==> MergedOk(s, p)
    ensures Del(s')
  {
    CompleteOneSided(s, p, s');
    CompleteTruthful(s, p, s');
    hide OneSided, Truthful, TreeClosed;
    assert FilledForCause(s') by {
      hide Accounted, GoneAtMost, Vacant, Gone;
      forall x | IsDoomed(s'.ctxs, x) && !s'.ctxs[x].phase.Done? ensures Accounted(s', x) {
        CompleteFilled(s, p, s', x);
      }
    }
    hide FilledForCause;
    assert Gone(s') by { hide Vacant; }
    assert Vacant(s') by { hide Gone; }
  }

  lemma CompleteDel(s: State, p: Path, f: EndFaults)
    requires Str(s) && Del(s) && Ready(s, p)
    ensures Del(Complete(s, p, f))
    ensures f == NO_END_FAULTS && MergedOk(s, p) ==> Complete(s, p, f).ctxs[p].phase.success
  {
    var s' := Complete(s, p, f);
    CompleteKeeps(s, p, f);
    if MergedOk(s, p) && MergedEmpty(s, p) && IsDoomed(s.ctxs, p) { RmAllClears(s, p, f); }
    CompleteDelParts(s, p, s');
  }

  // ----- Whole runs -----

  /** A directory just brought together, or doomed, can be entered. */
  lemma CanEnter(s: State, p: Path, n: Name, r: Reconciliation, out: Applied)
    requires p in s.ctxs && OutcomeOf(s, p, n, r, NO_FAULTS, out) && Shows(s.w, s.ctxs[p].t, p, n)
    requires Compute.WellShaped(r, Look(s.ctxs[p].t.cli, n), Look(s.ctxs[p].t.srv, n))
    ensures out.res == Clean(true) ==> Enters(out.w, Sub(p, n), Normal, NO_FAULTS)
    ensures out.res.RecursiveDelete? ==> Enters(out.w, Sub(p, n), Doomed(out.res.side, out.res.mode), NO_FAULTS)
  {
  }

  lemma ConcludeSucceeds(s: State, p: Path, n: Name, out: Applied)
    requires p in s.ctxs && AllOk(s) && out.res != Fail && Sub(p, n) != p && !s.ctxs[p].phase.Done?
    requires out.res == Clean(true) ==> Enters(out.w, Sub(p, n), Normal, NO_FAULTS)
    requires out.res.RecursiveDelete? ==> Enters(out.w, Sub(p, n), Doomed(out.res.side, out.res.mode), NO_FAULTS)
    ensures AllOk(Conclude(s, p, n, out, NO_FAULTS))
  {
  }

  lemma StartSucceeds(s: State, p: Path)
    requires Str(s) && AllOk(s) && p in s.ctxs && s.ctxs[p].phase.Queued?
    ensures AllOk(Start(s, p, Lists))
  {
    QueuedListable(s, p);
    hide Str;
  }

  lemma FileSucceeds(s: State, p: Path, n: Name, mode: SyncMode)
    requires Working(s, p, n) && AllOk(s)
    ensures AllOk(File(s, p, n, mode, NO_FAULTS))
  {
    StepOutcome(s, p, n, mode, NO_FAULTS);
    assert Shows(s.w, s.ctxs[p].t, p, n);
    assert Sub(p, n) !in s.ctxs;
    hide Str, Compute.Choose, Apply, AllOk;
    var out := ApplyStep(s, p, n, mode, NO_FAULTS);
    CanEnter(s, p, n, Decide(s.ctxs[p], n, mode), out);
    ConcludeSucceeds(s, p, n, out);
  }

  lemma AllOkMerges(s: State, p: Path)
    requires AllOk(s) && p in s.ctxs && KidsDone(s, p)
    ensures MergedOk(s, p)
  {
  }

  lemma CompleteSucceeds(s: State, p: Path)
    requires Str(s) && Del(s) && AllOk(s) && Ready(s, p)
    ensures AllOk(Complete(s, p, NO_END_FAULTS))
  {
    hide Str, Del, RmAll, MergedOk, MergedEmpty, KidsDone;
    AllOkMerges(s, p);
    CompleteDel(s, p, NO_END_FAULTS);
  }

  lemma NextSucceeds(s: State, a: Action, mode: SyncMode)
    requires Str(s) && Del(s) && AllOk(s) && Enabled(s, a) && Faultless(a)
    ensures AllOk(Next(s, a, mode))
  {
    hide Str, Del, AllOk;
    match a
    case DoStart(p, _) => StartSucceeds(s, p);
    case DoFile(p, n, _) => FileSucceeds(s, p, n, mode);
    case DoComplete(p, _) => CompleteSucceeds(s, p);
  }

  lemma InitDel(w: World)
    ensures Del(Init(w)) && AllOk(Init(w))
  {
  }

  lemma NextDel(s: State, a: Action, mode: SyncMode)
    requires Str(s) && Del(s) && Enabled(s, a)
    ensures Del(Next(s, a, mode))
  {
    match a
    case DoStart(p, fault) => StartDel(s, p, fault);
    case DoFile(p, n, f) => FileDel(s, p, n, mode, f);
    case DoComplete(p, ef) => CompleteDel(s, p, ef);
  }

  lemma {:induction false} RunDel(s: State, run: seq<Action>, mode: SyncMode)
    requires Str(s) && Del(s) && Legal(s, run, mode)
    ensures Str(Final(s, run, mode)) && Del(Final(s, run, mode))
    decreases |run|
  {
    if run != [] {
      NextKeeps(s, run[0], mode);
      NextDel(s, run[0], mode);
      RunDel(Next(s, run[0], mode), run[1..], mode);
    }
  }

  ghost predicate FaultlessRun(run: seq<Action>) {
    forall i :: 0 <= i < |run| ==> Faultless(run[i])
  }

  lemma {:induction false} RunSucceeds(s: State, run: seq<Action>, mode: SyncMode)
    requires Str(s) && Del(s) && AllOk(s) && Legal(s, run, mode) && FaultlessRun(run)
    ensures AllOk(Final(s, run, mode))
    decreases |run|
  {
    if run != [] {
      NextKeeps(s, run[0], mode);
      NextDel(s, run[0], mode);
      NextSucceeds(s, run[0], mode);
      RunSucceeds(Next(s, run[0], mode), run[1..], mode);
    }
  }

  /** In every run over any three trees, under any mode and in any interleaving, nothing
      fails unless an operation is made to fail: no expected state is ever wrong, no
      directory to be removed is ever found non-empty, no directory is missing when it is
      entered. */
  lemma FaultlessRunsSucceed(w: World, run: seq<Action>, mode: SyncMode)
    requires TreesWellFormed(w) && Legal(Init(w), run, mode) && FaultlessRun(run)
    ensures AllOk(Final(Init(w), run, mode))
  {
    InitStr(w);
    InitDel(w);
    RunSucceeds(Init(w), run, mode);
  }

  /** Whatever failed before, the removal of a directory is reached only when it is empty
      on the client, in the ancestor and on the server, and it removes nothing from the
      end that does not have the directory. */
  lemma RemovalOnlyWhenEmpty(w: World, run: seq<Action>, mode: SyncMode, p: Path)
    requires TreesWellFormed(w) && Legal(Init(w), run, mode)
    requires var s := Final(Init(w), run, mode);
             Ready(s, p) && s.ctxs[p].kind.Doomed? && MergedOk(s, p) && MergedEmpty(s, p)
    ensures var s := Final(Init(w), run, mode);
            && !HasChild(s.w.cli, p) && !HasChild(s.w.anc, p) && !HasChild(s.w.srv, p)
            && p !in End(s.w, Rev(s.ctxs[p].kind.side)) && p in End(s.w, s.ctxs[p].kind.side)
  {
    InitStr(w);
    InitDel(w);
    RunDel(Init(w), run, mode);
    var s := Final(Init(w), run, mode);
    NothingLeft(s, p);
    assert PlacedAt(s.w, p, s.ctxs[p].kind);
  }
}
