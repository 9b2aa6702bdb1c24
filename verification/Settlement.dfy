/** What a pass without failures has achieved at every name it has dealt with, in any mode:
    the decision function would now leave it alone. */
module Settlement {
  import opened Defs
  import opened Replica
  import opened AltName
  import opened Mutate
  import opened Effects
  import opened Walk
  import opened Structure
  import opened StructureKept
  import opened Outcomes
  import opened Deletion
  import Compute

  /** A settled name that was not entered: left alone on purpose, or in sync with a
      truthful ancestor and not a directory; or the one exception, a pair that differs
      only in modification time under a mode that carries updates inward only. */
  ghost predicate LeafSettled(c: Option<FileData>, a: Option<FileData>, v: Option<FileData>, mode: SyncMode) {
    var r := Compute.Choose(c, a, v, mode);
    || r.Unsync? || r.Irreconcilable?
    || (r.InSync? && a == c && !IsDirectory(c))
    || (Compute.Echoes(mode) && Compute.TouchedOnly(c, v) && a == c)
  }

  /** A directory that was entered: the same on all three, or one whose deletion is allowed
      and which is gone, or waits for its contents, or is kept because of them. */
  ghost predicate DirSettled(w: World, x: Path, ctx: Ctx, mode: SyncMode) {
    match ctx.kind
    case Normal => IsDirectory(Get(w.cli, x)) && Unanimous(w, x, Get(w.cli, x))
    case Doomed(side, dm) =>
      && Toward(mode, side).delete.IsOn()
      && if ctx.phase.Done? && ctx.phase.empty then !Exists(w, x)
         else && Get(End(w, side), x) == Some(Directory(dm)) && Get(w.anc, x) == Some(Directory(dm))
              && (x in End(w, Rev(side)) ==> End(w, Rev(side))[x] == Directory(dm))
  }

  ghost predicate SettledAt(s: State, mode: SyncMode, x: Path) {
    if x in s.ctxs then DirSettled(s.w, x, s.ctxs[x], mode)
    else LeafSettled(Get(s.w.cli, x), Get(s.w.anc, x), Get(s.w.srv, x), mode)
  }

  ghost predicate DealtWith(s: State, x: Path) {
    x.Sub? && x.parent in s.ctxs && !s.ctxs[x.parent].phase.Queued? && x.name !in s.ctxs[x.parent].todo
  }

  ghost predicate Sound(s: State, mode: SyncMode) {
    forall x :: DealtWith(s, x) ==> SettledAt(s, mode, x)
  }

  /** `x` shows why its directory is not empty. */
  ghost predicate Evidence(s: State, p: Path, x: Path) {
    p in s.ctxs && x.Sub? && x.parent == p && x.name !in s.ctxs[p].todo && Exists(s.w, x) && !IsDoomed(s.ctxs, x)
  }

  /** A doomed directory that is not empty holds something that stays. */
  ghost predicate Justified(s: State) {
    forall p :: IsDoomed(s.ctxs, p) && !s.ctxs[p].empty ==> exists x :: Evidence(s, p, x)
  }

  /** A doomed directory completed as not empty still holds something. */
  ghost predicate Alive(s: State) {
    forall p :: IsDoomed(s.ctxs, p) && s.ctxs[p].phase.Done? && !s.ctxs[p].phase.empty ==>
      exists x: Path :: x.Sub? && x.parent == p && Exists(s.w, x)
  }

  /** Nothing is condemned in a directory that has been listed. */
  ghost predicate Absolved(s: State) {
    forall x: Path :: x in s.w.condemned && x.Sub? && x.parent in s.ctxs ==> s.ctxs[x.parent].phase.Queued?
  }

  ghost predicate Achieved(s: State, mode: SyncMode) {
    AllOk(s) ==> Sound(s, mode) && Justified(s) && Alive(s) && Absolved(s)
  }

  // ----- Processing a name -----

  lemma InSyncLeaf(c: Option<FileData>, a: Option<FileData>, v: Option<FileData>, mode: SyncMode)
    requires Compute.Choose(c, a, v, mode).InSync? && !IsDirectory(c)
    ensures LeafSettled(c, c, v, mode)
  {
    Compute.InSyncSettlesIff(c, a, v, mode);
  }

  lemma EqualLeaf(data: Option<FileData>, mode: SyncMode)
    requires !IsDirectory(data)
    ensures LeafSettled(data, data, data, mode)
  {
    Compute.EqualEndsInSync(data, data, mode);
  }

  /** Whether and how the subdirectory was entered, when nothing failed. */
  lemma SpawnExact(s: State, p: Path, n: Name, out: Applied, f: Faults)
    requires p in s.ctxs && Sub(p, n) !in s.ctxs && Sub(p, n) != p
    ensures var s', q := Conclude(s, p, n, out, f), Sub(p, n);
            p in s'.ctxs && (s'.ctxs[p].ok ==>
              && out.res != Fail && s.ctxs[p].ok
              && (q in s'.ctxs <==> out.res == Clean(true) || out.res.RecursiveDelete?)
              && (q in s'.ctxs ==>
                  s'.ctxs[q] == Fresh(if out.res.RecursiveDelete? then Doomed(out.res.side, out.res.mode) else Normal)))
  {
  }

  /** What the step's own name is left as. */
  lemma OwnNameSettled(s: State, p: Path, n: Name, mode: SyncMode, f: Faults, r: Reconciliation, out: Applied,
      s': State)
    requires p in s.ctxs && Shows(s.w, s.ctxs[p].t, p, n) && Shows(out.w, out.t, p, n)
    requires r == Compute.Choose(Look(s.ctxs[p].t.cli, n), Look(s.ctxs[p].t.anc, n), Look(s.ctxs[p].t.srv, n), mode)
    requires OutcomeOf(s, p, n, r, f, out) && s'.w == out.w && out.res != Fail && Enterable(out, n) && !r.Split?
    requires var q := Sub(p, n);
             && (q in s'.ctxs <==> out.res == Clean(true) || out.res.RecursiveDelete?)
             && (q in s'.ctxs ==>
                 s'.ctxs[q] == Fresh(if out.res.RecursiveDelete? then Doomed(out.res.side, out.res.mode) else Normal))
    requires Compute.WellShaped(r, Look(s.ctxs[p].t.cli, n), Look(s.ctxs[p].t.srv, n))
    requires Compute.Permitted(r, Look(s.ctxs[p].t.cli, n), Look(s.ctxs[p].t.srv, n), mode)
    ensures SettledAt(s', mode, Sub(p, n))
  {
    var t := s.ctxs[p].t;
    var c, a, v := Look(t.cli, n), Look(t.anc, n), Look(t.srv, n);
    match r
    case InSync => if !IsDirectory(c) { InSyncLeaf(c, a, v, mode); }
    case Use(src) =>
      var data := Resolved(s.ctxs[p], n, r);
      if !DeletesDir(s.ctxs[p], n, r) && !IsDirectory(data) { EqualLeaf(data, mode); }
    case _ =>
  }

  /** A settled path stays settled when only a missing doomed directory is filled in. */
  lemma StaysSettled(s: State, p: Path, s': State, mode: SyncMode, x: Path)
    requires SettledAt(s, mode, x) && (x in s.ctxs <==> x in s'.ctxs)
    requires x in s.ctxs ==> s'.ctxs[x].kind == s.ctxs[x].kind && s'.ctxs[x].phase == s.ctxs[x].phase
    requires Get(s'.w.anc, x) == Get(s.w.anc, x) && EndKept(s, p, Client, s'.w.cli, x) &&
        EndKept(s, p, Server, s'.w.srv, x)
    ensures SettledAt(s', mode, x)
  {
    hide LeafSettled, HasChild;
  }

  lemma SettledElsewhere(s: State, p: Path, n: Name, m: Name, out: Applied, s': State, mode: SyncMode, x: Path)
    requires Stepped(s, p, n, m, out, s') && Sound(s, mode) && DealtWith(s', x) && x != Sub(p, n)
    requires x == Sub(p, m) ==> !Exists(out.w, x)
    ensures SettledAt(s', mode, x)
  {
    var q := Sub(p, n);
    assert x.parent in s'.ctxs.Keys;
    assert x.parent in s.ctxs;
    if x == Sub(p, m) {
      assert x !in s.ctxs && x !in s'.ctxs;
      EqualLeaf(None, mode);
    } else {
      assert DealtWith(s, x);
      ElsewhereKept(s, p, n, m, out, s', x);
      assert SettledAt(s, mode, x);
      assert x in s.ctxs <==> x in s'.ctxs;
      hide SettledAt, LocalStep, EndKept, WellFormed;
      StaysSettled(s, p, s', mode, x);
    }
  }

  lemma FileSound(s: State, p: Path, n: Name, mode: SyncMode, f: Faults)
    requires Working(s, p, n) && Sound(s, mode) && File(s, p, n, mode, f).ctxs[p].ok
    ensures Sound(File(s, p, n, mode, f), mode)
  {
    var m, out, s', r := NewName(s, p, n), ApplyStep(s, p, n, mode, f), File(s, p, n, mode, f),
        Decide(s.ctxs[p], n, mode);
    SteppedBy(s, p, n, mode, f);
    StepOutcome(s, p, n, mode, f);
    EnteredTables(s, p, n, mode, f);
    SpawnExact(s, p, n, out, f);
    var t := s.ctxs[p].t;
    Compute.DecisionPermitted(Look(t.cli, n), Look(t.anc, n), Look(t.srv, n), mode);
    assert Shows(s.w, t, p, n);
    if !r.Split? { OwnNameSettled(s, p, n, mode, f, r, out, s'); }
    SoundFromParts(s, p, n, m, out, s', mode);
  }

  lemma SoundFromParts(s: State, p: Path, n: Name, m: Name, out: Applied, s': State, mode: SyncMode)
    requires Stepped(s, p, n, m, out, s') && Sound(s, mode)
    requires n in out.todo || SettledAt(s', mode, Sub(p, n))
    requires m in out.todo || m !in NamesInUse(out.t)
    ensures Sound(s', mode)
  {
    forall x | DealtWith(s', x) ensures SettledAt(s', mode, x) {
      if x != Sub(p, n) { SettledElsewhere(s, p, n, m, out, s', mode, x); }
    }
  }

  lemma EvidenceKept(s: State, p: Path, n: Name, m: Name, out: Applied, s': State, p': Path, x: Path)
    requires Stepped(s, p, n, m, out, s') && Evidence(s, p', x) && !Exists(s.w, Sub(p, m))
    requires p' == p ==> out.todo == s.ctxs[p].todo - {n}
    ensures Evidence(s', p', x)
  {
    assert x != Sub(p, n) && x != Sub(p, m);
    ElsewhereKept(s, p, n, m, out, s', x);
    assert x in s.ctxs <==> x in s'.ctxs.Keys - {Sub(p, n)};
  }

  lemma JustifiedKept(s: State, p: Path, n: Name, m: Name, out: Applied, s': State)
    requires Stepped(s, p, n, m, out, s') && Justified(s) && !Exists(s.w, Sub(p, m))
    requires IsDoomed(s.ctxs, p) ==> out.todo == s.ctxs[p].todo - {n}
    requires IsDoomed(s.ctxs, p) && s.ctxs[p].empty && !s'.ctxs[p].empty ==> Evidence(s', p, Sub(p, n))
    requires !s.ctxs[p].empty ==> !s'.ctxs[p].empty
    ensures Justified(s')
  {
    forall p' | IsDoomed(s'.ctxs, p') && !s'.ctxs[p'].empty ensures exists x :: Evidence(s', p', x) {
      assert p' in s'.ctxs.Keys - {Sub(p, n)};
      if p' == p && s.ctxs[p].empty {
      } else {
        var x :| Evidence(s, p', x);
        EvidenceKept(s, p, n, m, out, s', p', x);
      }
    }
  }

  lemma AliveKept(s: State, p: Path, n: Name, m: Name, out: Applied, s': State)
    requires Stepped(s, p, n, m, out, s') && Alive(s)
    ensures Alive(s')
  {
    forall p' | IsDoomed(s'.ctxs, p') && s'.ctxs[p'].phase.Done? && !s'.ctxs[p'].phase.empty
      ensures exists x: Path :: x.Sub? && x.parent == p' && Exists(s'.w, x)
    {
      assert p' in s'.ctxs.Keys - {Sub(p, n)};
      var x: Path :| x.Sub? && x.parent == p' && Exists(s.w, x);
      ElsewhereKept(s, p, n, m, out, s', x);
      assert Exists(s'.w, x);
    }
  }

  /** How a step that did not fail shows that its directory is not empty. */
  lemma NewEvidence(s: State, p: Path, n: Name, out: Applied, f: Faults)
    requires p in s.ctxs && Sub(p, n) !in s.ctxs && Sub(p, n) != p && Shows(out.w, out.t, p, n) && Enterable(out, n)
    requires n !in out.todo
    ensures var s' := Conclude(s, p, n, out, f);
            p in s'.ctxs && (s'.ctxs[p].ok && s.ctxs[p].empty && !s'.ctxs[p].empty ==> Evidence(s', p, Sub(p, n)))
            && (!s.ctxs[p].empty ==> !s'.ctxs[p].empty)
  {
  }

  lemma CondemnedUse(w: World, t: Tables, todo: set<Name>, synth: Synthetics, p: Path, n: Name, src: Side, f: Faults)
    ensures ApplyUse(w, t, todo, synth, p, n, src, f).w.condemned <= w.condemned
  {
    var dst := Rev(src);
    var r := ReplaceEnd(w, dst, synth, p, n, Look(EndTable(t, dst), n), Look(EndTable(t, src), n), f.end);
    assert r.Some? ==> r.value.condemned == w.condemned;
  }

  lemma CondemnedDetach(w: World, t: Tables, p: Path, n: Name, fate: AncestorFate, f: Faults)
    ensures SplitDetach(w, t, p, n, fate, f).1.condemned <= w.condemned + {Sub(p, n)}
    ensures fate.Delete? ==> SplitDetach(w, t, p, n, fate, f).1.condemned <= w.condemned
  {
  }

  /** Nothing is newly condemned, except that names condemned in a directory that was
      renamed to `m` have moved with it. */
  ghost predicate CondemnedWithin(w: World, w': World, p: Path, m: Name) {
    forall x: Path :: x in w'.condemned ==> x in w.condemned || (x.Sub? && Under(Sub(p, m), x.parent))
  }

  lemma CarriedWithin(condemned: set<Path>, p: Path, n: Name, m: Name, x: Path)
    requires x in Carried(condemned, Sub(p, n), Sub(p, m))
    ensures x in condemned || (x.Sub? && Under(Sub(p, m), x.parent))
  {
    var q :| q in condemned && x == if q.Sub? && Under(Sub(p, n), q.parent) then Graft(q, Sub(p, n), Sub(p, m)) else q;
    if q.Sub? && Under(Sub(p, n), q.parent) {
      UnderDepth(Sub(p, n), q.parent);
      GraftBack(q.parent, Sub(p, n), Sub(p, m));
    }
  }

  lemma CondemnedReattach(w: World, t: Tables, p: Path, n: Name, m: Name, f: Faults)
    ensures var r := SplitReattach(w, t, p, n, m, f);
            r.0 ==> Sub(p, n) !in r.1.condemned && CondemnedWithin(w, r.1, p, m)
  {
    forall x | x in Carried(w.condemned, Sub(p, n), Sub(p, m))
        ensures x in w.condemned || (x.Sub? && Under(Sub(p, m), x.parent)) {
      CarriedWithin(w.condemned, p, n, m, x);
    }
  }

  lemma CondemnedSplit(w: World, t: Tables, todo: set<Name>, p: Path, n: Name, side: Side, fate: AncestorFate,
      f: Faults)
    ensures var out := ApplySplit(w, t, todo, p, n, side, fate, f);
            out.res != Fail ==> CondemnedWithin(w, out.w, p, Alternate(n, NamesInUse(t)))
  {
    var out := ApplySplit(w, t, todo, p, n, side, fate, f);
    var m := Alternate(n, NamesInUse(t));
    var d := SplitDetach(w, t, p, n, fate, f);
    CondemnedDetach(w, t, p, n, fate, f);
    var r := RenameEnd(d.1, side, p, n, m, f.rename);
    if d.0 && r.Some? {
      assert r.value.condemned == d.1.condemned;
      var t2 := WithEndTable(d.2, side, RenameTable(EndTable(d.2, side), n, m));
      if fate.Move? {
        CondemnedReattach(r.value, t2, p, n, m, f);
        assert out.res != Fail ==> out.w == SplitReattach(r.value, t2, p, n, m, f).1;
      } else {
        assert out.w == r.value;
      }
    }
  }

  lemma CondemnedAfter(w: World, t: Tables, todo: set<Name>, synth: Synthetics, p: Path, n: Name, r: Reconciliation,
      f: Faults)
    ensures var out := Apply(w, t, todo, synth, p, n, r, f);
            out.res != Fail ==>
              && CondemnedWithin(w, out.w, p, Alternate(n, NamesInUse(t)))
              && (!r.Split? ==> out.w.condemned <= w.condemned)
  {
    match r
    case Use(src) => CondemnedUse(w, t, todo, synth, p, n, src, f);
    case Split(side, fate) => CondemnedSplit(w, t, todo, p, n, side, fate, f);
    case _ =>
  }

  lemma FileJustified(s: State, p: Path, n: Name, mode: SyncMode, f: Faults)
    requires Working(s, p, n) && OneSided(s) && Justified(s) && Alive(s) && File(s, p, n, mode, f).ctxs[p].ok
    ensures var s' := File(s, p, n, mode, f); Justified(s') && Alive(s')
  {
    var m, out, s' := NewName(s, p, n), ApplyStep(s, p, n, mode, f), File(s, p, n, mode, f);
    SteppedBy(s, p, n, mode, f);
    EnteredTables(s, p, n, mode, f);
    if IsDoomed(s.ctxs, p) { OneSidedStep(s, p, n, mode, f); }
    if n !in out.todo { NewEvidence(s, p, n, out, f); } else { StillNonEmpty(s, p, n, out, f); }
    JustifiedKept(s, p, n, m, out, s');
    AliveKept(s, p, n, m, out, s');
  }

  lemma FileAbsolved(s: State, p: Path, n: Name, mode: SyncMode, f: Faults)
    requires Working(s, p, n) && Absolved(s) && File(s, p, n, mode, f).ctxs[p].ok
    ensures Absolved(File(s, p, n, mode, f))
  {
    var out, r := ApplyStep(s, p, n, mode, f), Decide(s.ctxs[p], n, mode);
    SteppedBy(s, p, n, mode, f);
    SpawnExact(s, p, n, out, f);
    CondemnedAfter(s.w, s.ctxs[p].t, s.ctxs[p].todo - {n}, if r.Use? then Synth(s.ctxs, p, Rev(r.src)) else [], p, n,
        r, f);
    hide Str, LocalStep, Apply, Compute.Choose, Absolved, CondemnedWithin, CtxsAfter;
    AbsolvedKept(s, p, n, NewName(s, p, n), out, File(s, p, n, mode, f));
  }

  lemma StillNonEmpty(s: State, p: Path, n: Name, out: Applied, f: Faults)
    requires p in s.ctxs && Sub(p, n) !in s.ctxs && Sub(p, n) != p
    ensures var s' := Conclude(s, p, n, out, f); p in s'.ctxs && (!s.ctxs[p].empty ==> !s'.ctxs[p].empty)
  {
  }

  lemma AbsolvedKept(s: State, p: Path, n: Name, m: Name, out: Applied, s': State)
    requires p in s.ctxs && CtxsAfter(s, p, n, out, s') && Absolved(s) && CondemnedWithin(s.w, out.w, p, m)
    requires s.ctxs[p].phase.Active? && TreeClosed(s.ctxs) && Untouched(s.ctxs, p, m) && n != m
    ensures Absolved(s')
  {
    forall x: Path | x in s'.w.condemned && x.Sub? && x.parent in s'.ctxs ensures s'.ctxs[x.parent].phase.Queued? {
      if x.parent != Sub(p, n) {
        assert x.parent in s'.ctxs.Keys - {Sub(p, n)};
        if Under(Sub(p, m), x.parent) { Region(s.ctxs, p, m, x.parent); }
      }
    }
  }

  // ----- Listing -----

  lemma StartUntouched(s: State, p: Path, s': State, x: Path)
    requires TreeClosed(s.ctxs) && p in s.ctxs && s.ctxs[p].phase.Queued? && PurgedBelow(s.w, s'.w, p)
    requires x in s.ctxs || (x.Sub? && x.parent in s.ctxs && x.parent != p)
    ensures Get(s'.w.cli, x) == Get(s.w.cli, x) && Get(s'.w.anc, x) == Get(s.w.anc, x) &&
        Get(s'.w.srv, x) == Get(s.w.srv, x)
  {
    if Under(p, x) && x != p { QueuedRegion(s.ctxs, p, x); }
  }

  lemma StartSound(s: State, p: Path, s': State, mode: SyncMode)
    requires TreeClosed(s.ctxs) && p in s.ctxs && s.ctxs[p].phase.Queued? && PurgedBelow(s.w, s'.w, p)
    requires p in s'.ctxs && Listed(s'.w, p, s'.ctxs[p]) && s'.ctxs == s.ctxs[p := s'.ctxs[p]] &&
        s'.ctxs[p].kind == s.ctxs[p].kind
    requires Sound(s, mode)
    ensures Sound(s', mode)
  {
    hide SettledAt;
    forall x | DealtWith(s', x) ensures SettledAt(s', mode, x) {
      StartSoundAt(s, p, s', mode, x);
    }
  }

  lemma StartSoundAt(s: State, p: Path, s': State, mode: SyncMode, x: Path)
    requires TreeClosed(s.ctxs) && p in s.ctxs && s.ctxs[p].phase.Queued? && PurgedBelow(s.w, s'.w, p)
    requires p in s'.ctxs && Listed(s'.w, p, s'.ctxs[p]) && s'.ctxs == s.ctxs[p := s'.ctxs[p]] &&
        s'.ctxs[p].kind == s.ctxs[p].kind
    requires DealtWith(s', x) && (DealtWith(s, x) ==> SettledAt(s, mode, x))
    ensures SettledAt(s', mode, x)
  {
    if x.parent == p {
      BelowQueued(s.ctxs, p, x);
      hide TreeClosed, PurgedBelow, SettledAt;
      NewlyListed(s', p, x, mode);
    } else {
      StartUntouched(s, p, s', x);
      hide TreeClosed, PurgedBelow, SettledAt, Listed;
      SameSettled(s, s', mode, x);
    }
  }

  lemma BelowQueued(ctxs: map<Path, Ctx>, p: Path, x: Path)
    requires TreeClosed(ctxs) && p in ctxs && ctxs[p].phase.Queued? && x.Sub? && x.parent == p
    ensures x !in ctxs
  {
    if x in ctxs { NoContextBelowQueued(ctxs, p, x); }
  }

  lemma SameSettled(s: State, s': State, mode: SyncMode, x: Path)
    requires SettledAt(s, mode, x) && (x in s.ctxs <==> x in s'.ctxs)
    requires x in s.ctxs ==>
        s'.ctxs[x].kind == s.ctxs[x].kind && (s'.ctxs[x].phase == s.ctxs[x].phase || !s'.ctxs[x].phase.Done?)
    requires x in s.ctxs && s.ctxs[x].phase.Done? ==> s'.ctxs[x].phase == s.ctxs[x].phase
    requires Get(s'.w.cli, x) == Get(s.w.cli, x) && Get(s'.w.anc, x) == Get(s.w.anc, x) &&
        Get(s'.w.srv, x) == Get(s.w.srv, x)
    ensures SettledAt(s', mode, x)
  {
    hide LeafSettled;
  }

  /** A name that no replica showed. */
  lemma NewlyListed(s: State, p: Path, x: Path, mode: SyncMode)
    requires p in s.ctxs && Listed(s.w, p, s.ctxs[p]) && x.Sub? && x.parent == p && x.name !in s.ctxs[p].todo &&
        x !in s.ctxs
    ensures SettledAt(s, mode, x)
  {
    ListedShows(s.w, p, s.ctxs[p], x.name);
    EqualLeaf(None, mode);
  }

  lemma StartJustified(s: State, p: Path, s': State)
    requires TreeClosed(s.ctxs) && p in s.ctxs && s.ctxs[p].phase.Queued? && PurgedBelow(s.w, s'.w, p)
    requires p in s'.ctxs && Listed(s'.w, p, s'.ctxs[p]) && s'.ctxs == s.ctxs[p := s'.ctxs[p]] &&
        s'.ctxs[p].kind == s.ctxs[p].kind
    requires Justified(s) && Alive(s)
    ensures Justified(s') && Alive(s')
  {
    forall p' | IsDoomed(s'.ctxs, p') && !s'.ctxs[p'].empty ensures exists x :: Evidence(s', p', x) {
      assert IsDoomed(s.ctxs, p') && p' != p;
      var x :| Evidence(s, p', x);
      StartUntouched(s, p, s', x);
      assert Evidence(s', p', x);
    }
    forall p' | IsDoomed(s'.ctxs, p') && s'.ctxs[p'].phase.Done? && !s'.ctxs[p'].phase.empty
      ensures exists x: Path :: x.Sub? && x.parent == p' && Exists(s'.w, x)
    {
      assert IsDoomed(s.ctxs, p') && p' != p;
      var x: Path :| x.Sub? && x.parent == p' && Exists(s.w, x);
      StartUntouched(s, p, s', x);
      assert Exists(s'.w, x);
    }
  }

  lemma StartAchieves(s: State, p: Path, mode: SyncMode)
    requires Str(s) && p in s.ctxs && s.ctxs[p].phase.Queued?
    requires Sound(s, mode) && Justified(s) && Alive(s) && Absolved(s)
    ensures var s' := Start(s, p, Lists); Sound(s', mode) && Justified(s') && Alive(s') && Absolved(s')
  {
    var s' := Start(s, p, Lists);
    StartKeeps(s, p, Lists);
    StartSound(s, p, s', mode);
    StartJustified(s, p, s');
    QueuedListable(s, p);
    assert s'.w.condemned == Purge(s.w, p).condemned;
    assert Absolved(s');
  }

  // ----- Completing -----

  lemma CompleteSound(s: State, p: Path, s': State, mode: SyncMode)
    requires Sound(s, mode) && p in s.ctxs && s.ctxs[p].phase.Active? && GoneAtMost(s.w, s'.w, p)
    requires p in s'.ctxs && s'.ctxs == s.ctxs[p := s.ctxs[p].(phase := s'.ctxs[p].phase)] && s'.ctxs[p].phase.Done?
    requires DealtWith(s, p) ==> SettledAt(s', mode, p)
    ensures Sound(s', mode)
  {
    forall x | DealtWith(s', x) ensures SettledAt(s', mode, x) {
      assert DealtWith(s, x);
      assert SettledAt(s, mode, x);
      if x != p { assert Get(s'.w.cli, x) == Get(s.w.cli, x); }
    }
  }

  /** A directory completed as not empty has something in it. */
  lemma WhyNotEmpty(s: State, p: Path, mode: SyncMode)
    requires Ready(s, p) && Sound(s, mode) && Justified(s) && IsDoomed(s.ctxs, p) && !MergedEmpty(s, p)
    ensures exists x: Path :: x.Sub? && x.parent == p && Exists(s.w, x)
  {
    if !s.ctxs[p].empty {
      var x :| Evidence(s, p, x);
    } else {
      var k :| k in s.ctxs && Kid(s.ctxs, p, k) && !(s.ctxs[k].phase.Done? && s.ctxs[k].phase.empty);
      assert DealtWith(s, k);
      assert SettledAt(s, mode, k);
      assert Exists(s.w, k);
    }
  }

  lemma CompleteAlive(s: State, p: Path, s': State, mode: SyncMode)
    requires TreeClosed(s.ctxs) && Ready(s, p) && Sound(s, mode) && Justified(s) && Alive(s) && GoneAtMost(s.w, s'.w, p)
    requires p in s'.ctxs && s'.ctxs == s.ctxs[p := s.ctxs[p].(phase := s'.ctxs[p].phase)]
    requires s'.ctxs[p].phase.Done? && s'.ctxs[p].phase.empty == MergedEmpty(s, p)
    requires s'.w != s.w ==> IsDoomed(s.ctxs, p)
    ensures Alive(s') && Justified(s')
  {
    forall p' | IsDoomed(s'.ctxs, p') && s'.ctxs[p'].phase.Done? && !s'.ctxs[p'].phase.empty
      ensures exists x: Path :: x.Sub? && x.parent == p' && Exists(s'.w, x)
    {
      if p' == p { WhyNotEmpty(s, p, mode); }
      assert IsDoomed(s.ctxs, p');
      var x: Path :| x.Sub? && x.parent == p' && Exists(s.w, x);
      assert x != p;
      assert Get(s'.w.cli, x) == Get(s.w.cli, x);
      assert Exists(s'.w, x);
    }
    forall p' | IsDoomed(s'.ctxs, p') && !s'.ctxs[p'].empty ensures exists x :: Evidence(s', p', x) {
      assert IsDoomed(s.ctxs, p');
      var x :| Evidence(s, p', x);
      if x != p { assert Get(s'.w.cli, x) == Get(s.w.cli, x); }
      assert Evidence(s', p', x);
    }
  }

  lemma CompleteSettles(s: State, p: Path, f: EndFaults, mode: SyncMode)
    requires Str(s) && Del(s) && Ready(s, p) && DealtWith(s, p) && Sound(s, mode)
    requires Complete(s, p, f).ctxs[p].phase.success
    ensures SettledAt(Complete(s, p, f), mode, p)
  {
    assert MergedOk(s, p) && SettledAt(s, mode, p);
    hide Sound;
    if MergedEmpty(s, p) && IsDoomed(s.ctxs, p) { RmAllClears(s, p, f); }
    hide Str, Del, RmAll, MergedOk, MergedEmpty, KidsDone;
  }

  lemma CompleteShape(s: State, p: Path, f: EndFaults)
    requires TreesWellFormed(s.w) && Ready(s, p)
    ensures var s' := Complete(s, p, f);
            && p in s'.ctxs && s'.ctxs == s.ctxs[p := s.ctxs[p].(phase := s'.ctxs[p].phase)]
            && s'.ctxs[p].phase.Done? && s'.ctxs[p].phase.empty == MergedEmpty(s, p)
            && (s'.w != s.w ==> IsDoomed(s.ctxs, p)) && s'.w.condemned <= s.w.condemned
  {
    RmAllEffect(s.w, p, f);
    hide RmAll, MergedOk, MergedEmpty, KidsDone, TreesWellFormed;
  }

  lemma CompleteAchieves(s: State, p: Path, f: EndFaults, mode: SyncMode)
    requires Str(s) && Del(s) && Ready(s, p)
    requires Sound(s, mode) && Justified(s) && Alive(s) && Absolved(s)
    requires Complete(s, p, f).ctxs[p].phase.success
    ensures var s' := Complete(s, p, f); Sound(s', mode) && Justified(s') && Alive(s') && Absolved(s')
  {
    var s' := Complete(s, p, f);
    CompleteShape(s, p, f);
    assert Absolved(s');
    hide Sound, Justified, Alive, Absolved, Del, Complete, GoneAtMost, SettledAt, TreesWellFormed, Coherent, Known;
    hide Placed, KidsDone, MergedEmpty;
    CompleteKeeps(s, p, f);
    if DealtWith(s, p) { CompleteSettles(s, p, f, mode); }
    CompleteSound(s, p, s', mode);
    CompleteAlive(s, p, s', mode);
    assert Sound(s', mode) && Justified(s') && Alive(s') && Absolved(s');
  }
}
