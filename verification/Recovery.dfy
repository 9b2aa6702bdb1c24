/** Data safety over any number of passes, each of them cut short anywhere: no trace of where
    a file came from is needed, only that some copy of its content is not the kind of copy
    that a pass may delete. */
module Recovery {
  import opened Defs
  import opened Replica
  import opened AltName
  import opened Mutate
  import opened Effects
  import opened Walk
  import opened Structure
  import opened StructureKept
  import opened Deletion
  import opened Settlement
  import opened DataSafety
  import opened Crash
  import Compute

  // ----- Copies -----

  /** The record at `x`, if there is one, will be purged before it is read. */
  ghost predicate Dead(condemned: set<Path>, x: Path) {
    exists top :: top in condemned && Under(top, x)
  }

  ghost predicate SameAt(fs: Fs, x: Path, d: FileData) {
    x in fs && fs[x].MatchesContent(d)
  }

  /** The file at `x` is on one end only and is what the ancestor has recorded for it: for
      all one can tell it was deleted or replaced on the other end. */
  ghost predicate Lone(w: World, side: Side, x: Path)
    requires x in End(w, side)
  {
    && SameAt(w.anc, x, End(w, side)[x]) && !Dead(w.condemned, x)
    && !SameAt(End(w, Rev(side)), x, End(w, side)[x])
  }

  /** A file at `x` with the content of `d` that is not such a copy. */
  ghost predicate Copy(w: World, d: FileData, side: Side, x: Path) {
    x in End(w, side) && d.MatchesContent(End(w, side)[x]) && !Lone(w, side, x)
  }

  ghost predicate Secure(w: World, d: FileData) {
    exists side, x :: Copy(w, d, side, x)
  }

  lemma SameContent(a: FileData, b: FileData, c: FileData)
    ensures a.MatchesContent(b) && b.MatchesContent(c) ==> a.MatchesContent(c)
    ensures a.MatchesContent(b) <==> b.MatchesContent(a)
  {
  }

  /** Nothing about the copy has changed, unless its record is gone. */
  ghost predicate KeptAt(w: World, w': World, x: Path) {
    && Get(w'.cli, x) == Get(w.cli, x) && Get(w'.srv, x) == Get(w.srv, x)
    && (x in w'.anc ==> Get(w'.anc, x) == Get(w.anc, x) && (Dead(w.condemned, x) ==> Dead(w'.condemned, x)))
  }

  lemma KeptCopy(w: World, w': World, d: FileData, side: Side, x: Path)
    requires Copy(w, d, side, x) && KeptAt(w, w', x)
    ensures Copy(w', d, side, x)
  {
  }

  /** Both ends hold the content: no pass takes either for deleted. */
  lemma BothCopy(w: World, d: FileData, side: Side, x: Path)
    requires SameAt(w.cli, x, d) && SameAt(w.srv, x, d)
    ensures Copy(w, d, side, x)
  {
    SameContent(d, w.cli[x], w.srv[x]);
    SameContent(d, w.srv[x], w.cli[x]);
    SameContent(w.cli[x], d, w.srv[x]);
    SameContent(w.srv[x], d, w.cli[x]);
  }

  // ----- Condemned names -----

  /** No condemned name is at or above a directory that has been entered, nor still to do;
      in a directory that has been listed it is in use. */
  ghost predicate Clear(s: State, top: Path) {
    && top.Sub? && (forall p :: p in s.ctxs ==> !Under(top, p))
    && (top.parent in s.ctxs && s.ctxs[top.parent].phase.Active? ==>
          top.name !in s.ctxs[top.parent].todo && top.name in NamesInUse(s.ctxs[top.parent].t))
  }

  ghost predicate Cleared(s: State) {
    forall top :: top in s.w.condemned ==> Clear(s, top)
  }

  lemma TodoNotDead(s: State, p: Path, n: Name)
    requires Cleared(s) && p in s.ctxs && s.ctxs[p].phase.Active? && n in s.ctxs[p].todo
    ensures !Dead(s.w.condemned, Sub(p, n))
  {
  }

  lemma SetAncestorDead(w: World, t: Tables, p: Path, n: Name, data: Option<FileData>, fault: AncestorFault,
      top: Path, x: Path)
    requires var w' := SetAncestor(w, t, p, n, data, fault).1; WellFormed(w'.anc) && x in w'.anc
    requires top in w.condemned && top.Sub? && Under(top, x)
    ensures top in SetAncestor(w, t, p, n, data, fault).1.condemned
  {
    var w' := SetAncestor(w, t, p, n, data, fault).1;
    UnderTransitive(top.parent, top, x);
    if top.parent == x { UnderDepth(top, x); }
    AboveIsDir(w'.anc, top.parent, x);
  }

  ghost predicate SubOnly(condemned: set<Path>) {
    forall top :: top in condemned ==> top.Sub?
  }

  /** A condemned record that is still there is still condemned. */
  ghost predicate StillDead(w: World, w': World, x: Path) {
    x in w'.anc && Dead(w.condemned, x) ==> Dead(w'.condemned, x)
  }

  lemma RecordStillDead(w: World, t: Tables, todo: set<Name>, p: Path, n: Name, data: Option<FileData>,
      fault: AncestorFault, x: Path)
    requires SubOnly(w.condemned) && WellFormed(Record(w, t, todo, p, n, data, fault).w.anc)
    ensures StillDead(w, Record(w, t, todo, p, n, data, fault).w, x)
  {
    var w' := Record(w, t, todo, p, n, data, fault).w;
    if x in w'.anc && Dead(w.condemned, x) {
      var top :| top in w.condemned && Under(top, x);
      SetAncestorDead(w, t, p, n, data, fault, top, x);
    }
  }

  lemma UseStillDead(w: World, t: Tables, todo: set<Name>, synth: Synthetics, p: Path, n: Name, src: Side, f: Faults,
      x: Path)
    requires SubOnly(w.condemned) && WellFormed(ApplyUse(w, t, todo, synth, p, n, src, f).w.anc)
    ensures StillDead(w, ApplyUse(w, t, todo, synth, p, n, src, f).w, x)
  {
    var dst := Rev(src);
    var was, data := Look(EndTable(t, dst), n), Look(EndTable(t, src), n);
    var out := ApplyUse(w, t, todo, synth, p, n, src, f);
    var r := ReplaceEnd(w, dst, synth, p, n, was, data, f.end);
    if IsDirectory(was) && data.None? {
      RecordStillDead(w, t, todo, p, n, was, f.anc, x);
    } else if r.Some? {
      assert r.value.condemned == w.condemned;
      RecordStillDead(r.value, WithEndTable(t, dst, Put(EndTable(t, dst), n, data)), todo, p, n, data, f.anc, x);
    }
  }

  lemma ApplyStillDead(w: World, t: Tables, todo: set<Name>, synth: Synthetics, p: Path, n: Name, r: Reconciliation,
      f: Faults, x: Path)
    requires SubOnly(w.condemned) && WellFormed(Apply(w, t, todo, synth, p, n, r, f).w.anc) && !r.Split?
    ensures StillDead(w, Apply(w, t, todo, synth, p, n, r, f).w, x)
  {
    hide ApplyUse, Record;
    if !f.stop {
      match r
      case InSync => RecordStillDead(w, t, todo, p, n, Look(t.cli, n), f.anc, x);
      case Use(src) => UseStillDead(w, t, todo, synth, p, n, src, f, x);
      case _ =>
    }
  }

  // ----- How a split can end -----

  /** The ends have not moved; records may have gone or been condemned. */
  ghost predicate Unmoved(w: World, w': World) {
    && w'.cli == w.cli && w'.srv == w.srv
    && forall x :: x in w'.anc ==> Get(w'.anc, x) == Get(w.anc, x) && StillDead(w, w', x)
  }

  /** The end has moved and its records have not come along: none is left at the old name but
      condemned, and none is at the new one. */
  ghost predicate MovedBare(w: World, w': World, p: Path, n: Name, m: Name, side: Side) {
    var q, q2 := Sub(p, n), Sub(p, m);
    && End(w', Rev(side)) == End(w, Rev(side)) && End(w', side) == Rekey(End(w, side), q, q2)
    && (forall x :: x in w'.anc ==> Get(w'.anc, x) == Get(w.anc, x))
    && (forall x :: x in w'.anc && Outside(p, n, m, x) ==> StillDead(w, w', x))
    && (forall x :: x in w'.anc && Under(q2, x) ==> false)
    && (forall x :: x in w'.anc && Under(q, x) ==> q in w'.condemned)
  }

  /** The end has moved and its records with it. */
  ghost predicate MovedWith(w: World, w': World, p: Path, n: Name, m: Name, side: Side) {
    var q, q2 := Sub(p, n), Sub(p, m);
    && End(w', Rev(side)) == End(w, Rev(side)) && End(w', side) == Rekey(End(w, side), q, q2)
    && w'.anc == Rekey(w.anc, q, q2)
    && (w'.condemned == Carried(w.condemned + {q}, q, q2) || w'.condemned == Carried(w.condemned + {q}, q, q2) - {q})
  }

  lemma DetachEnds(s: State, p: Path, n: Name, m: Name, fate: AncestorFate, f: Faults)
    requires StepReady(s, p, n, m) && SubOnly(s.w.condemned)
    ensures var d := SplitDetach(s.w, s.ctxs[p].t, p, n, fate, f);
            && Unmoved(s.w, d.1) && WellFormed(d.1.anc)
            && (fate.Move? ==>
                  && d.1.anc == s.w.anc && d.2.anc == s.ctxs[p].t.anc
                  && (d.0 ==> d.1.condemned == s.w.condemned + {Sub(p, n)}))
            && (fate.Delete? && d.0 ==> forall x :: x in d.1.anc ==> !Under(Sub(p, n), x))
  {
    var t, d := s.ctxs[p].t, SplitDetach(s.w, s.ctxs[p].t, p, n, fate, f);
    if fate.Delete? {
      AncestorEffect(s.w.anc, p, n, Look(t.anc, n), None, f.anc);
      forall x ensures StillDead(s.w, d.1, x) {
        if x in d.1.anc && Dead(s.w.condemned, x) {
          var top :| top in s.w.condemned && Under(top, x);
          SetAncestorDead(s.w, t, p, n, None, f.anc, top, x);
        }
      }
      assert Under(Sub(p, n), Sub(p, n));
      forall x | x in d.1.anc ensures Get(d.1.anc, x) == Get(s.w.anc, x) { }
    }
  }

  lemma BareRename(s: State, w1: World, w2: World, p: Path, n: Name, m: Name, side: Side)
    requires StepReady(s, p, n, m) && Unmoved(s.w, w1) && w2.anc == w1.anc && w2.condemned == w1.condemned
    requires End(w2, Rev(side)) == End(s.w, Rev(side)) && End(w2, side) == Rekey(End(s.w, side), Sub(p, n), Sub(p, m))
    requires forall x :: x in w1.anc && Under(Sub(p, n), x) ==> Sub(p, n) in w1.condemned
    ensures MovedBare(s.w, w2, p, n, m, side)
  {
    forall x | x in w2.anc ensures !Under(Sub(p, m), x) {
      assert Get(w1.anc, x) == Get(s.w.anc, x);
      if Under(Sub(p, m), x) { NothingBelowAbsent(s.w.anc, Sub(p, m), x); }
    }
    hide WellFormed, Rekey, Dead;
    assert MovedBare(s.w, w2, p, n, m, side);
  }

  lemma SplitWays(s: State, p: Path, n: Name, m: Name, side: Side, fate: AncestorFate, f: Faults, out: Applied)
    requires StepReady(s, p, n, m) && m == NewName(s, p, n) && SubOnly(s.w.condemned)
    requires out == ApplySplit(s.w, s.ctxs[p].t, s.ctxs[p].todo - {n}, p, n, side, fate, f)
    ensures || Unmoved(s.w, out.w) || MovedBare(s.w, out.w, p, n, m, side)
            || (fate.Move? && MovedWith(s.w, out.w, p, n, m, side))
  {
    var t, todo := s.ctxs[p].t, s.ctxs[p].todo - {n};
    var d := SplitDetach(s.w, t, p, n, fate, f);
    DetachEnds(s, p, n, m, fate, f);
    var r := RenameEnd(d.1, side, p, n, m, f.rename);
    if d.0 && r.Some? {
      var t2 := WithEndTable(d.2, side, RenameTable(EndTable(d.2, side), n, m));
      assert Under(Sub(p, n), Sub(p, n));
      if fate.Delete? {
        assert out.w == r.value;
        hide SplitDetach, ApplySplit, Alternate, WellFormed, Dead, Rekey;
        BareRename(s, d.1, r.value, p, n, m, side);
      } else {
        assert out.w == SplitReattach(r.value, t2, p, n, m, f).1;
        assert r.value.anc == s.w.anc && r.value.condemned == s.w.condemned + {Sub(p, n)};
        hide SplitDetach, ApplySplit, Alternate, WellFormed, Dead, Rekey, SplitReattach, MovedBare, MovedWith;
        ReattachWays(s, d.1, r.value, t2, p, n, m, side, f);
      }
    } else {
      assert out.w == d.1;
    }
  }

  lemma ReattachWays(s: State, w1: World, w: World, t: Tables, p: Path, n: Name, m: Name, side: Side, f: Faults)
    requires StepReady(s, p, n, m) && Unmoved(s.w, w1) && w.anc == w1.anc == s.w.anc &&
        w.condemned == w1.condemned == s.w.condemned + {Sub(p, n)}
    requires t.anc == s.ctxs[p].t.anc
    requires End(w, Rev(side)) == End(s.w, Rev(side)) && End(w, side) == Rekey(End(s.w, side), Sub(p, n), Sub(p, m))
    ensures var w' := SplitReattach(w, t, p, n, m, f).1;
            MovedBare(s.w, w', p, n, m, side) || MovedWith(s.w, w', p, n, m, side)
  {
    hide SplitReattach, Rekey, Rename, Carried, Unmoved;
    ReattachIs(w, t, p, n, m, f);
    var w' := SplitReattach(w, t, p, n, m, f).1;
    if n !in t.anc {
      NoRecord(s, p, n, m);
      NothingToBring(s.w, w', p, n, m, side);
    } else if w' == w {
      BareRename(s, w1, w, p, n, m, side);
    } else {
      assert MovedWith(s.w, w', p, n, m, side);
    }
    assert MovedBare(s.w, w', p, n, m, side) || MovedWith(s.w, w', p, n, m, side);
  }

  lemma ReattachIs(w: World, t: Tables, p: Path, n: Name, m: Name, f: Faults)
    ensures var w', q, q2 := SplitReattach(w, t, p, n, m, f).1, Sub(p, n), Sub(p, m);
            && w'.cli == w.cli && w'.srv == w.srv
            && (n !in t.anc ==> w'.anc == w.anc && w.condemned - {q} <= w'.condemned)
            && (n in t.anc ==>
                  || w' == w
                  || (w'.anc == Rekey(w.anc, q, q2)
                      && (w'.condemned == Carried(w.condemned, q, q2) ||
                          w'.condemned == Carried(w.condemned, q, q2) - {q})))
  {
    hide Rekey, Carried;
  }

  lemma NothingToBring(w: World, w': World, p: Path, n: Name, m: Name, side: Side)
    requires w'.anc == w.anc && w.condemned - {Sub(p, n)} <= w'.condemned &&
        (forall x :: x in w.anc ==> Outside(p, n, m, x))
    requires End(w', Rev(side)) == End(w, Rev(side)) && End(w', side) == Rekey(End(w, side), Sub(p, n), Sub(p, m))
    ensures MovedBare(w, w', p, n, m, side)
  {
    hide StillDead, Rekey;
    forall x | x in w'.anc ensures StillDead(w, w', x) { StaysCondemned(w, w', p, n, x); }
  }

  lemma NoRecord(s: State, p: Path, n: Name, m: Name)
    requires StepReady(s, p, n, m) && n !in s.ctxs[p].t.anc
    ensures forall x :: x in s.w.anc ==> Outside(p, n, m, x)
  {
    forall x | x in s.w.anc ensures Outside(p, n, m, x) {
      if Under(Sub(p, n), x) { NothingBelowAbsent(s.w.anc, Sub(p, n), x); }
      if Under(Sub(p, m), x) { NothingBelowAbsent(s.w.anc, Sub(p, m), x); }
    }
  }

  lemma StaysCondemned(w: World, w': World, p: Path, n: Name, x: Path)
    requires w.condemned - {Sub(p, n)} <= w'.condemned && !Under(Sub(p, n), x)
    ensures StillDead(w, w', x)
  {
    if Dead(w.condemned, x) {
      var top :| top in w.condemned && Under(top, x);
      assert top in w'.condemned;
    }
  }

  // ----- Copies away from the step -----

  lemma FileIsNoDir(d: FileData, e: FileData)
    requires !d.Directory? && d.MatchesContent(e)
    ensures !e.Directory?
  {
  }

  lemma CopyOutside(s: State, p: Path, n: Name, m: Name, out: Applied, d: FileData, side: Side, x: Path)
    requires p in s.ctxs && LocalStep(s, p, n, m, out) && Placed(s) && Outside(p, n, m, x) && !d.Directory? &&
        Copy(s.w, d, side, x)
    requires StillDead(s.w, out.w, x)
    ensures Copy(out.w, d, side, x)
  {
    assert EndKept(s, p, Client, out.w.cli, x) && EndKept(s, p, Server, out.w.srv, x);
    FileIsNoDir(d, End(s.w, side)[x]);
    if x in s.ctxs && !s.ctxs[x].phase.Done? { assert PlacedAt(s.w, x, s.ctxs[x].kind); }
    assert KeptAt(s.w, out.w, x);
    KeptCopy(s.w, out.w, d, side, x);
  }

  lemma CopyBelow(s: State, p: Path, n: Name, m: Name, r: Reconciliation, out: Applied, d: FileData, side: Side,
      x: Path)
    requires EndsAfter(s.w, out.w, p, n, m, r) && !r.Split? && AncestorOnlyShrinks(s.w, out.w, Sub(p, n))
    requires Under(Sub(p, n), x) && x != Sub(p, n) && Copy(s.w, d, side, x) && StillDead(s.w, out.w, x)
    ensures Copy(out.w, d, side, x)
  {
    assert EndAfter(s.w, out.w, p, n, m, r, Client) && EndAfter(s.w, out.w, p, n, m, r, Server);
    assert KeptAt(s.w, out.w, x);
    KeptCopy(s.w, out.w, d, side, x);
  }

  // ----- The step's own file -----

  /** What a `Use` leaves at its name. */
  lemma UseAt(s: State, p: Path, n: Name, src: Side, f: Faults, out: Applied)
    requires p in s.ctxs && StepReady(s, p, n, NewName(s, p, n)) &&
        Prepared(End(s.w, Rev(src)), Synth(s.ctxs, p, Rev(src)), p)
    requires Compute.WellShaped(Use(src), Look(s.ctxs[p].t.cli, n), Look(s.ctxs[p].t.srv, n))
    requires out == ApplyUse(s.w, s.ctxs[p].t, s.ctxs[p].todo - {n}, Synth(s.ctxs, p, Rev(src)), p, n, src, f)
    ensures var q := Sub(p, n);
            var was, data := Get(End(s.w, Rev(src)), q), Get(End(s.w, src), q);
            || (IsDirectory(was) && data.None?)
            || (EndsUntouched(s.w, out.w, q) && out.w.anc == s.w.anc && out.w.condemned == s.w.condemned)
            || (Get(out.w.cli, q) == data && Get(out.w.srv, q) == data)
  {
    var dst, t, q := Rev(src), s.ctxs[p].t, Sub(p, n);
    var was, data := Look(EndTable(t, dst), n), Look(EndTable(t, src), n);
    UseShape(s.w, t, s.ctxs[p].todo - {n}, Synth(s.ctxs, p, dst), p, n, src, f);
    HalfMadeUntouched(s.w, dst, Synth(s.ctxs, p, dst), p, n, was, f.made);
    if !(IsDirectory(was) && data.None?) {
      if was.Some? { assert q in End(s.w, dst) && IsDir(End(s.w, dst), q.parent); }
      EndEffect(s.w, dst, Synth(s.ctxs, p, dst), p, n, was, data, f.end);
    }
    hide ApplyUse, ReplaceEnd, Prepared, WellFormed, EndsUntouched, Materialise;
  }

  lemma UsedCopy(w: World, w': World, q: Path, src: Side, mode: SyncMode, d: FileData, side: Side)
    requires Copy(w, d, side, q) && !d.Directory? && !Dead(w.condemned, q) && Compute.Gentle(mode)
    requires Compute.Choose(Get(w.cli, q), Get(w.anc, q), Get(w.srv, q), mode) == Use(src)
    requires var was, data := Get(End(w, Rev(src)), q), Get(End(w, src), q);
             || (IsDirectory(was) && data.None?)
             || (EndsUntouched(w, w', q) && w'.anc == w.anc && w'.condemned == w.condemned)
             || (Get(w'.cli, q) == data && Get(w'.srv, q) == data)
    ensures Secure(w', d)
  {
    var was, data := Get(End(w, Rev(src)), q), Get(End(w, src), q);
    Compute.GentleLosesNothing(Get(w.cli, q), Get(w.anc, q), Get(w.srv, q), mode);
    FileIsNoDir(d, End(w, side)[q]);
    hide Compute.Choose, Compute.Gentle, Dead;
    assert Under(q, q);
    if EndsUntouched(w, w', q) && w'.anc == w.anc && w'.condemned == w.condemned {
      KeptCopy(w, w', d, side, q);
    } else {
      assert data.Some? && data.value.MatchesContent(d) by {
        SourceHasIt(w, q, src, d, side);
      }
      SameContent(data.value, d, data.value);
      BothCopy(w', d, side, q);
    }
  }

  /** A copy that is not lone is the source, or the source has the same content. */
  lemma SourceHasIt(w: World, q: Path, src: Side, d: FileData, side: Side)
    requires Copy(w, d, side, q) && !d.Directory? && !Dead(w.condemned, q)
    requires var was, a, data := Get(End(w, Rev(src)), q), Get(w.anc, q), Get(End(w, src), q);
             was.Some? ==>
               || (a.Some? && a.value.MatchesContent(was.value))
               || (data.Some? && data.value.MatchesContent(was.value))
    ensures Get(End(w, src), q).Some? && Get(End(w, src), q).value.MatchesContent(d)
  {
    var e := End(w, side)[q];
    SameContent(d, e, d);
    if side != src {
      var data := Get(End(w, src), q);
      if data.Some? {
        SameContent(data.value, e, d);
        SameContent(e, data.value, d);
      }
    }
  }

  lemma InSyncCopy(w: World, w': World, q: Path, d: FileData, side: Side)
    requires Copy(w, d, side, q) && w'.cli == w.cli && w'.srv == w.srv
    requires q in w.cli && q in w.srv && w.cli[q].MatchesData(w.srv[q])
    ensures Secure(w', d)
  {
    assert w.cli[q].MatchesContent(w.srv[q]);
    var e := End(w, side)[q];
    SameContent(d, e, d);
    SameContent(w.cli[q], w.srv[q], d);
    SameContent(w.srv[q], w.cli[q], d);
    BothCopy(w', d, side, q);
  }

  // ----- Splits -----

  lemma UnmovedCopy(w: World, w': World, d: FileData, side: Side, x: Path)
    requires Copy(w, d, side, x) && Unmoved(w, w')
    ensures Copy(w', d, side, x)
  {
    assert KeptAt(w, w', x);
    KeptCopy(w, w', d, side, x);
  }

  /** A record that is absent or condemned makes no copy lone. */
  lemma NoRecordCopy(w: World, d: FileData, side: Side, x: Path)
    requires x in End(w, side) && d.MatchesContent(End(w, side)[x]) && (x !in w.anc || Dead(w.condemned, x))
    ensures Copy(w, d, side, x)
  {
  }

  lemma BareCopy(w: World, w': World, p: Path, n: Name, m: Name, renamed: Side, d: FileData, side: Side, x: Path)
    requires TreesWellFormed(w) && n != m && !Exists(w, Sub(p, m)) && MovedBare(w, w', p, n, m, renamed)
    requires Copy(w, d, side, x) && Under(Sub(p, n), x)
    ensures Secure(w', d)
  {
    var q, q2 := Sub(p, n), Sub(p, m);
    if side == renamed {
      var y := Graft(x, q, q2);
      GraftBack(x, q, q2);
      RekeyGet(End(w, side), p, n, m, y);
      NoRecordCopy(w', d, side, y);
    } else {
      NoRecordCopy(w', d, side, x);
    }
  }

  lemma WithCopy(w: World, w': World, p: Path, n: Name, m: Name, renamed: Side, d: FileData, side: Side, x: Path)
    requires TreesWellFormed(w) && n != m && !Exists(w, Sub(p, m)) && MovedWith(w, w', p, n, m, renamed)
    requires Copy(w, d, side, x) && Under(Sub(p, n), x) && !d.Directory? && !Dead(w.condemned, Sub(p, n)) &&
        SubOnly(w.condemned)
    requires IsDirectory(Get(End(w, renamed), Sub(p, n))) && !IsDirectory(Get(End(w, Rev(renamed)), Sub(p, n)))
    ensures Secure(w', d)
  {
    var q, q2 := Sub(p, n), Sub(p, m);
    FileIsNoDir(d, End(w, side)[x]);
    LeafHasNothingBelow(End(w, Rev(renamed)), q);
    if side == renamed {
      MovedCopy(w, w', p, n, m, renamed, d, x);
    } else {
      assert x == q;
      RekeyGet(w.anc, p, n, m, q);
      SiblingsDisjoint(p, n, m, q);
      NoRecordCopy(w', d, side, q);
    }
  }

  lemma MovedCopy(w: World, w': World, p: Path, n: Name, m: Name, side: Side, d: FileData, x: Path)
    requires TreesWellFormed(w) && n != m && !Exists(w, Sub(p, m)) && MovedWith(w, w', p, n, m, side)
    requires Copy(w, d, side, x) && Under(Sub(p, n), x) && x != Sub(p, n) && !Dead(w.condemned, Sub(p, n)) &&
        SubOnly(w.condemned)
    requires x !in End(w, Rev(side))
    ensures Secure(w', d)
  {
    var q, q2 := Sub(p, n), Sub(p, m);
    var y := Graft(x, q, q2);
    GraftBack(x, q, q2);
    RekeyGet(End(w, side), p, n, m, y);
    RekeyGet(w.anc, p, n, m, y);
    if y in w'.anc && Dead(w.condemned, x) { CarriedDead(w, w', p, n, m, x); }
    assert Copy(w', d, side, y);
  }

  /** What was condemned below the old name is condemned below the new one. */
  lemma CarriedDead(w: World, w': World, p: Path, n: Name, m: Name, x: Path)
    requires n != m && Under(Sub(p, n), x) && Dead(w.condemned, x) && !Dead(w.condemned, Sub(p, n)) &&
        SubOnly(w.condemned)
    requires var q, q2 := Sub(p, n), Sub(p, m);
             w'.condemned == Carried(w.condemned + {q}, q, q2) ||
                 w'.condemned == Carried(w.condemned + {q}, q, q2) - {q}
    ensures Dead(w'.condemned, Graft(x, Sub(p, n), Sub(p, m)))
  {
    var q, q2 := Sub(p, n), Sub(p, m);
    var top :| top in w.condemned && Under(top, x);
    UnderComparable(q, top, x);
    assert Under(q, top) && top != q && Under(q, top.parent);
    var moved := Graft(top, q, q2);
    GraftBack(top, q, q2);
    assert top in w.condemned + {q};
    assert moved in Carried(w.condemned + {q}, q, q2);
    GraftUnder(top, x, q, q2);
    SiblingsDisjoint(p, m, n, moved);
    assert Under(q, q);
  }

  lemma {:induction false} GraftUnder(a: Path, x: Path, top: Path, to: Path)
    requires Under(top, a) && Under(a, x)
    ensures Under(top, x) && Under(Graft(a, top, to), Graft(x, top, to))
  {
    UnderTransitive(top, a, x);
    if x != a {
      GraftUnder(a, x.parent, top, to);
      if x == top { UnderDepth(a, x.parent); UnderDepth(top, a); }
    }
  }

  // ----- Processing a name -----

  lemma SplitCopy(s: State, p: Path, n: Name, m: Name, r: Reconciliation, f: Faults, out: Applied, d: FileData,
      side: Side, x: Path)
    requires StepReady(s, p, n, m) && m == NewName(s, p, n) && SubOnly(s.w.condemned) && r.Split? && !f.stop
    requires Compute.WellShaped(r, Get(s.w.cli, Sub(p, n)), Get(s.w.srv, Sub(p, n)))
    requires out == ApplySplit(s.w, s.ctxs[p].t, s.ctxs[p].todo - {n}, p, n, r.renamed, r.fate, f)
    requires Copy(s.w, d, side, x) && Under(Sub(p, n), x) && !d.Directory? && !Dead(s.w.condemned, Sub(p, n))
    ensures Secure(out.w, d)
  {
    SplitWays(s, p, n, m, r.renamed, r.fate, f, out);
    hide ApplySplit, Unmoved, MovedBare, MovedWith, Copy, Dead, Alternate, WellFormed;
    if Unmoved(s.w, out.w) {
      UnmovedCopy(s.w, out.w, d, side, x);
    } else if MovedBare(s.w, out.w, p, n, m, r.renamed) {
      BareCopy(s.w, out.w, p, n, m, r.renamed, d, side, x);
    } else {
      WithCopy(s.w, out.w, p, n, m, r.renamed, d, side, x);
    }
  }

  lemma OwnCopy(s: State, p: Path, n: Name, r: Reconciliation, f: Faults, synth: Synthetics, out: Applied,
      mode: SyncMode, d: FileData, side: Side)
    requires p in s.ctxs && StepReady(s, p, n, NewName(s, p, n)) && !r.Split? && Compute.Gentle(mode)
    requires Prepared(s.w.cli, Synth(s.ctxs, p, Client), p) && Prepared(s.w.srv, Synth(s.ctxs, p, Server), p)
    requires var q := Sub(p, n); r == Compute.Choose(Get(s.w.cli, q), Get(s.w.anc, q), Get(s.w.srv, q), mode)
    requires Compute.WellShaped(r, Get(s.w.cli, Sub(p, n)), Get(s.w.srv, Sub(p, n)))
    requires r.Use? ==> synth == Synth(s.ctxs, p, Rev(r.src))
    requires out == Apply(s.w, s.ctxs[p].t, s.ctxs[p].todo - {n}, synth, p, n, r, f)
    requires Copy(s.w, d, side, Sub(p, n)) && !d.Directory? && !Dead(s.w.condemned, Sub(p, n))
    ensures Secure(out.w, d)
  {
    var q := Sub(p, n);
    ApplyCases(s.w, s.ctxs[p].t, s.ctxs[p].todo - {n}, synth, p, n, r, f);
    hide Compute.Choose, ApplyUse, Prepared, Dead, Alternate, WellFormed, Compute.Gentle;
    if f.stop || r.Unsync? || r.Irreconcilable? {
      assert out.w == s.w;
    } else if r.InSync? {
      assert q in End(s.w, side);
      InSyncCopy(s.w, out.w, q, d, side);
    } else {
      hide Apply, Copy, StepReady;
      UseAt(s, p, n, r.src, f, out);
      UsedCopy(s.w, out.w, q, r.src, mode, d, side);
    }
  }

  lemma StepCopy(s: State, p: Path, n: Name, m: Name, r: Reconciliation, f: Faults, synth: Synthetics, out: Applied,
      s': State, mode: SyncMode, d: FileData, side: Side, x: Path)
    requires StepFacts(s, p, n, m, r, out, s') && QueueFacts(s, p, n, m, r, out, s') && StepReady(s, p, n, m) &&
        m == NewName(s, p, n)
    requires Placed(s) && SubOnly(s.w.condemned) && !Dead(s.w.condemned, Sub(p, n)) && Compute.Gentle(mode)
    requires Prepared(s.w.cli, Synth(s.ctxs, p, Client), p) && Prepared(s.w.srv, Synth(s.ctxs, p, Server), p)
    requires var q := Sub(p, n); r == Compute.Choose(Get(s.w.cli, q), Get(s.w.anc, q), Get(s.w.srv, q), mode)
    requires Compute.WellShaped(r, Get(s.w.cli, Sub(p, n)), Get(s.w.srv, Sub(p, n)))
    requires r.Use? ==> synth == Synth(s.ctxs, p, Rev(r.src))
    requires out == Apply(s.w, s.ctxs[p].t, s.ctxs[p].todo - {n}, synth, p, n, r, f)
    requires Copy(s.w, d, side, x) && !d.Directory?
    ensures Secure(out.w, d)
  {
    var q, q2 := Sub(p, n), Sub(p, m);
    assert LocalStep(s, p, n, m, out) && TreesWellFormed(out.w) && EndsAfter(s.w, out.w, p, n, m, r);
    ApplyCases(s.w, s.ctxs[p].t, s.ctxs[p].todo - {n}, synth, p, n, r, f);
    OutsideDead(s, p, n, m, r, f, synth, out, x);
    assert x in End(s.w, side);
    if Under(q2, x) { NothingBelowAbsent(End(s.w, side), q2, x); }
    hide Compute.Choose, Apply, ApplyUse, ApplySplit, Prepared, Dead, Copy, Compute.Gentle, StepReady, LocalStep,
        StillDead;
    if Outside(p, n, m, x) {
      CopyOutside(s, p, n, m, out, d, side, x);
    } else if r.Split? {
      if f.stop { assert out.w == s.w by { StopsDead(s, p, n, synth, r, f); } }
      else { SplitCopy(s, p, n, m, r, f, out, d, side, x); }
    } else if x == q {
      OwnCopy(s, p, n, r, f, synth, out, mode, d, side);
    } else {
      CopyBelow(s, p, n, m, r, out, d, side, x);
    }
  }

  lemma StopsDead(s: State, p: Path, n: Name, synth: Synthetics, r: Reconciliation, f: Faults)
    requires p in s.ctxs && f.stop
    ensures Apply(s.w, s.ctxs[p].t, s.ctxs[p].todo - {n}, synth, p, n, r, f).w == s.w
  {
  }

  /** Away from a split, or outside its names, a condemned record stays condemned. */
  lemma OutsideDead(s: State, p: Path, n: Name, m: Name, r: Reconciliation, f: Faults, synth: Synthetics,
      out: Applied, x: Path)
    requires StepReady(s, p, n, m) && m == NewName(s, p, n) && SubOnly(s.w.condemned) && TreesWellFormed(out.w)
    requires out == Apply(s.w, s.ctxs[p].t, s.ctxs[p].todo - {n}, synth, p, n, r, f)
    ensures !r.Split? || Outside(p, n, m, x) ==> StillDead(s.w, out.w, x)
  {
    ApplyCases(s.w, s.ctxs[p].t, s.ctxs[p].todo - {n}, synth, p, n, r, f);
    hide ApplyUse, ApplySplit, Record, Alternate;
    if !r.Split? {
      ApplyStillDead(s.w, s.ctxs[p].t, s.ctxs[p].todo - {n}, synth, p, n, r, f, x);
    } else if f.stop {
      assert out.w == s.w;
    } else if Outside(p, n, m, x) {
      SplitWays(s, p, n, m, r.renamed, r.fate, f, out);
      hide Apply, Unmoved, MovedBare;
      if Unmoved(s.w, out.w) { UnmovedDead(s.w, out.w, x); }
      else if MovedBare(s.w, out.w, p, n, m, r.renamed) { BareDead(s.w, out.w, p, n, m, r.renamed, x); }
      else { WithDead(s.w, out.w, p, n, m, x); }
    }
  }

  lemma UnmovedDead(w: World, w': World, x: Path)
    requires Unmoved(w, w')
    ensures StillDead(w, w', x)
  {
  }

  lemma BareDead(w: World, w': World, p: Path, n: Name, m: Name, side: Side, x: Path)
    requires MovedBare(w, w', p, n, m, side) && Outside(p, n, m, x)
    ensures StillDead(w, w', x)
  {
  }

  lemma WithDead(w: World, w': World, p: Path, n: Name, m: Name, x: Path)
    requires var q, q2 := Sub(p, n), Sub(p, m);
             w'.condemned == Carried(w.condemned + {q}, q, q2) ||
                 w'.condemned == Carried(w.condemned + {q}, q, q2) - {q}
    requires Outside(p, n, m, x)
    ensures StillDead(w, w', x)
  {
    var q, q2 := Sub(p, n), Sub(p, m);
    if Dead(w.condemned, x) {
      var top :| top in w.condemned && Under(top, x);
      if top.Sub? && Under(q, top.parent) {
        UnderTransitive(top.parent, top, x);
        UnderTransitive(q, top.parent, x);
      }
      assert top in w.condemned + {q};
      assert top in Carried(w.condemned + {q}, q, q2);
    }
  }

  /** What `StepCopy` needs to know about a step. */
  ghost predicate Context(s: State, p: Path, n: Name, r: Reconciliation, mode: SyncMode)
    requires p in s.ctxs
  {
    var q := Sub(p, n);
    && StepReady(s, p, n, NewName(s, p, n)) && Placed(s) && SubOnly(s.w.condemned) && !Dead(s.w.condemned, q)
    && Prepared(s.w.cli, Synth(s.ctxs, p, Client), p) && Prepared(s.w.srv, Synth(s.ctxs, p, Server), p)
    && r == Compute.Choose(Get(s.w.cli, q), Get(s.w.anc, q), Get(s.w.srv, q), mode)
    && Compute.WellShaped(r, Get(s.w.cli, q), Get(s.w.srv, q))
  }

  lemma ContextOf(s: State, p: Path, n: Name, mode: SyncMode)
    requires Working(s, p, n) && Cleared(s)
    ensures Context(s, p, n, Decide(s.ctxs[p], n, mode), mode)
  {
    var t := s.ctxs[p].t;
    assert Shows(s.w, t, p, n);
    ReadyToStep(s, p, n);
    HandlePrepared(s, p, Client);
    HandlePrepared(s, p, Server);
    Compute.DecisionShape(Look(t.cli, n), Look(t.anc, n), Look(t.srv, n), mode);
    TodoNotDead(s, p, n);
    ClearedSubs(s);
    hide StepReady, Prepared, Compute.Choose, Compute.WellShaped, Cleared, Dead, SubOnly;
    assert Context(s, p, n, Decide(s.ctxs[p], n, mode), mode);
  }

  lemma FileSecure(s: State, p: Path, n: Name, mode: SyncMode, f: Faults, d: FileData)
    requires Working(s, p, n) && Cleared(s) && Compute.Gentle(mode) && !d.Directory? && Secure(s.w, d)
    ensures Secure(File(s, p, n, mode, f).w, d)
  {
    hide StepFacts, QueueFacts, StepReady, Prepared, Compute.Choose, Apply, Cleared, Dead, Copy, Compute.Gentle,
        Conclude, Str, SubOnly, Placed;
    var r, out, s' := Decide(s.ctxs[p], n, mode), ApplyStep(s, p, n, mode, f), File(s, p, n, mode, f);
    FactsOf(s, p, n, mode, f);
    QueueFactsOf(s, p, n, mode, f);
    ContextOf(s, p, n, mode);
    var side, x :| Copy(s.w, d, side, x);
    StepCopy(s, p, n, NewName(s, p, n), r, f, if r.Use? then Synth(s.ctxs, p, Rev(r.src)) else [], out, s', mode, d,
        side, x);
    assert s'.w == out.w;
  }

  lemma ClearedSubs(s: State)
    requires Cleared(s)
    ensures SubOnly(s.w.condemned)
  {
    forall top | top in s.w.condemned ensures top.Sub? { assert Clear(s, top); }
  }

  // ----- Condemned names stay out of the way -----

  /** Where a condemned name after a step comes from. */
  ghost predicate Sources(w: World, p: Path, n: Name, m: Name, out: Applied, top: Path) {
    || top in w.condemned
    || (top == Sub(p, n) && out.res == Fail && n !in out.todo && n in NamesInUse(out.t))
    || (top.Sub? && Under(Sub(p, m), top.parent))
  }

  lemma PlainSources(w: World, t: Tables, todo: set<Name>, synth: Synthetics, p: Path, n: Name, m: Name,
      r: Reconciliation, f: Faults, top: Path)
    requires !r.Split? || f.stop
    requires top in Apply(w, t, todo, synth, p, n, r, f).w.condemned
    ensures Sources(w, p, n, m, Apply(w, t, todo, synth, p, n, r, f), top)
  {
    match r
    case Use(src) => CondemnedUse(w, t, todo, synth, p, n, src, f);
    case _ =>
  }

  lemma SplitSources(w: World, t: Tables, todo: set<Name>, p: Path, n: Name, side: Side, fate: AncestorFate,
      f: Faults, top: Path)
    requires n !in todo && n in t.cli && n in t.srv
    requires top in ApplySplit(w, t, todo, p, n, side, fate, f).w.condemned
    ensures Sources(w, p, n, Alternate(n, NamesInUse(t)), ApplySplit(w, t, todo, p, n, side, fate, f), top)
  {
    var m := Alternate(n, NamesInUse(t));
    var out := ApplySplit(w, t, todo, p, n, side, fate, f);
    if out.res != Fail {
      CondemnedSplit(w, t, todo, p, n, side, fate, f);
    } else {
      FailedSplit(w, t, todo, p, n, side, fate, f);
      hide ApplySplit, Alternate;
      if top !in w.condemned && top != Sub(p, n) {
        CarriedWithin(w.condemned + {Sub(p, n)}, p, n, m, top);
      }
    }
  }

  lemma FailedSplit(w: World, t: Tables, todo: set<Name>, p: Path, n: Name, side: Side, fate: AncestorFate, f: Faults)
    requires ApplySplit(w, t, todo, p, n, side, fate, f).res == Fail && n in t.cli && n in t.srv
    ensures var out, m := ApplySplit(w, t, todo, p, n, side, fate, f), Alternate(n, NamesInUse(t));
            && out.todo == todo && n in NamesInUse(out.t)
            && (out.w.condemned <= w.condemned + {Sub(p, n)} ||
                out.w.condemned == Carried(w.condemned + {Sub(p, n)}, Sub(p, n), Sub(p, m)))
  {
    var m := Alternate(n, NamesInUse(t));
    var d := SplitDetach(w, t, p, n, fate, f);
    DetachKeepsEnds(w, t, p, n, fate, f);
    CondemnedDetach(w, t, p, n, fate, f);
    var r := RenameEnd(d.1, side, p, n, m, f.rename);
    if d.0 && r.Some? && fate.Move? {
      var t2 := WithEndTable(d.2, side, RenameTable(EndTable(d.2, side), n, m));
      FailedReattach(r.value, t2, p, n, m, f);
      assert n in EndTable(t2, Rev(side));
    }
    hide Alternate, SplitReattach, Carried;
  }

  lemma FailedReattach(w: World, t: Tables, p: Path, n: Name, m: Name, f: Faults)
    ensures var e := SplitReattach(w, t, p, n, m, f);
            && e.2.cli == t.cli && e.2.srv == t.srv
            && (!e.0 ==> e.1.condemned == w.condemned || e.1.condemned == Carried(w.condemned, Sub(p, n), Sub(p, m)))
  {
  }

  lemma ClearAfter(s: State, p: Path, n: Name, m: Name, out: Applied, s': State, top: Path)
    requires Stepped(s, p, n, m, out, s') && Cleared(s) && Sources(s.w, p, n, m, out, top) &&
        m !in NamesInUse(s.ctxs[p].t) && n != m
    requires s.ctxs[p].phase.Active? && (out.res == Fail ==> Sub(p, n) !in s'.ctxs)
    ensures Clear(s', top)
  {
    var q := Sub(p, n);
    if top in s.w.condemned {
      assert Clear(s, top);
      forall x | x in s'.ctxs ensures !Under(top, x) { if x != q { assert x in s'.ctxs.Keys - {q}; } }
      if top.parent in s'.ctxs && s'.ctxs[top.parent].phase.Active? {
        if top.parent != q { assert top.parent in s'.ctxs.Keys - {q}; }
        if top.parent == p {
          assert top == Sub(p, top.name);
          KidNameKept(s, p, n, m, out, top.name);
        }
      }
    } else if top == q {
      NotAboveItself(p, m);
      forall x | x in s'.ctxs ensures !Under(top, x) {
        assert x in s'.ctxs.Keys - {q};
        if Under(q, x) { Region(s.ctxs, p, n, x); }
      }
    } else {
      forall x | x in s'.ctxs ensures !Under(Sub(p, m), x) {
        if x == q { assert Under(q, q); SiblingsDisjoint(p, n, m, q); }
        else { assert x in s'.ctxs.Keys - {q}; if Under(Sub(p, m), x) { Region(s.ctxs, p, m, x); } }
      }
      forall x | x in s'.ctxs ensures !Under(top, x) {
        if Under(top, x) { UnderTransitive(Sub(p, m), top.parent, top); UnderTransitive(Sub(p, m), top, x); }
      }
    }
  }

  lemma StepSources(s: State, p: Path, n: Name, mode: SyncMode, f: Faults, top: Path)
    requires Working(s, p, n) && top in ApplyStep(s, p, n, mode, f).w.condemned
    ensures Sources(s.w, p, n, NewName(s, p, n), ApplyStep(s, p, n, mode, f), top)
  {
    var r, t := Decide(s.ctxs[p], n, mode), s.ctxs[p].t;
    Compute.DecisionShape(Look(t.cli, n), Look(t.anc, n), Look(t.srv, n), mode);
    var synth := if r.Use? then Synth(s.ctxs, p, Rev(r.src)) else [];
    ApplyCases(s.w, t, s.ctxs[p].todo - {n}, synth, p, n, r, f);
    hide Compute.Choose, Apply, ApplySplit, Alternate, Str, Sources;
    if r.Split? && !f.stop {
      SplitSources(s.w, t, s.ctxs[p].todo - {n}, p, n, r.renamed, r.fate, f, top);
    } else {
      PlainSources(s.w, t, s.ctxs[p].todo - {n}, synth, p, n, NewName(s, p, n), r, f, top);
    }
  }

  lemma FileCleared(s: State, p: Path, n: Name, mode: SyncMode, f: Faults)
    requires Working(s, p, n) && Cleared(s)
    ensures Cleared(File(s, p, n, mode, f))
  {
    var m, out, s' := NewName(s, p, n), ApplyStep(s, p, n, mode, f), File(s, p, n, mode, f);
    SteppedBy(s, p, n, mode, f);
    NewNameFree(s, p, n);
    FailSpawnsNone(s, p, n, out, f);
    assert s'.w == out.w;
    hide Str, LocalStep, CtxsAfter, Clear, Sources, Conclude, Apply, Compute.Choose;
    forall top | top in s'.w.condemned ensures Clear(s', top) {
      StepSources(s, p, n, mode, f, top);
      ClearAfter(s, p, n, m, out, s', top);
    }
  }

  lemma FailSpawnsNone(s: State, p: Path, n: Name, out: Applied, f: Faults)
    requires p in s.ctxs && Sub(p, n) !in s.ctxs
    ensures out.res == Fail ==> Sub(p, n) !in Conclude(s, p, n, out, f).ctxs
  {
  }

  // ----- Listing and completing -----

  lemma PurgeKeptAt(w: World, p: Path, x: Path)
    requires SubOnly(w.condemned)
    ensures KeptAt(w, Purge(w, p), x)
  {
    var w' := Purge(w, p);
    if x in w'.anc && Dead(w.condemned, x) {
      var top :| top in w.condemned && Under(top, x);
      if top !in w'.condemned {
        var up :| up in w.condemned && up.Sub? && up.parent == p && (top == up || Under(up, top.parent));
        if top != up { UnderTransitive(top.parent, top, x); UnderTransitive(up, top.parent, x); }
      }
    }
  }

  lemma StartSecure(s: State, p: Path, fault: ListFault, d: FileData)
    requires Str(s) && p in s.ctxs && s.ctxs[p].phase.Queued? && Cleared(s) && Secure(s.w, d)
    ensures Secure(Start(s, p, fault).w, d) && Cleared(Start(s, p, fault))
  {
    var s' := Start(s, p, fault);
    assert s'.w == s.w || s'.w == Purge(s.w, p);
    StartKeeps(s, p, fault);
    ClearedSubs(s);
    var side, x :| Copy(s.w, d, side, x);
    PurgeKeptAt(s.w, p, x);
    assert s'.ctxs[p].phase.Active? ==> s'.w == Purge(s.w, p);
    hide Str, Copy, Purge, Clear, Start, Listed, PurgedBelow, KeptAt;
    if s'.w == Purge(s.w, p) { KeptCopy(s.w, s'.w, d, side, x); }
    StartCleared(s, p, s');
  }

  lemma StartCleared(s: State, p: Path, s': State)
    requires Cleared(s) && p in s.ctxs && p in s'.ctxs && s'.ctxs == s.ctxs[p := s'.ctxs[p]]
    requires (s'.w == s.w && !s'.ctxs[p].phase.Active?) || s'.w == Purge(s.w, p)
    ensures Cleared(s')
  {
    forall top | top in s'.w.condemned ensures Clear(s', top) { assert Clear(s, top); }
  }

  lemma CompleteSecure(s: State, p: Path, f: EndFaults, d: FileData)
    requires Str(s) && Ready(s, p) && Cleared(s) && !d.Directory? && Secure(s.w, d)
    ensures Secure(Complete(s, p, f).w, d) && Cleared(Complete(s, p, f))
  {
    var s' := Complete(s, p, f);
    CompleteKeeps(s, p, f);
    assert PlacedAt(s.w, p, s.ctxs[p].kind);
    ClearedSubs(s);
    var side, x :| Copy(s.w, d, side, x);
    FileIsNoDir(d, End(s.w, side)[x]);
    CompleteKeptAt(s, p, f, side, x);
    KeptCopy(s.w, s'.w, d, side, x);
    CompleteCondemned(s, p, f);
    hide Str, Copy, Complete, KeptAt;
    CompleteCleared(s, p, s');
  }

  lemma CompleteCondemned(s: State, p: Path, f: EndFaults)
    requires p in s.ctxs
    ensures var s' := Complete(s, p, f);
            s'.w.condemned <= s.w.condemned && s'.ctxs == s.ctxs[p := s.ctxs[p].(phase := s'.ctxs[p].phase)] &&
                s'.ctxs[p].phase.Done?
  {
  }

  lemma CompleteCleared(s: State, p: Path, s': State)
    requires Cleared(s) && p in s.ctxs && p in s'.ctxs && s'.ctxs == s.ctxs[p := s.ctxs[p].(phase := s'.ctxs[p].phase)]
    requires s'.w.condemned <= s.w.condemned && s'.ctxs[p].phase.Done?
    ensures Cleared(s')
  {
    forall top | top in s'.w.condemned ensures Clear(s', top) { assert Clear(s, top); }
  }

  /** A directory that is removed takes no file with it, and no record that is condemned. */
  lemma CompleteKeptAt(s: State, p: Path, f: EndFaults, side: Side, x: Path)
    requires TreesWellFormed(s.w) && p in s.ctxs && PlacedAt(s.w, p, s.ctxs[p].kind) &&
        GoneAtMost(s.w, Complete(s, p, f).w, p)
    requires x in End(s.w, side) && !End(s.w, side)[x].Directory? && SubOnly(s.w.condemned)
    ensures KeptAt(s.w, Complete(s, p, f).w, x)
  {
    var w' := Complete(s, p, f).w;
    if w' != s.w {
      assert s.ctxs[p].kind.Doomed?;
      assert x != p;
      assert Get(w'.cli, x) == Get(s.w.cli, x) && Get(w'.srv, x) == Get(s.w.srv, x) &&
          Get(w'.anc, x) == Get(s.w.anc, x);
      if x in w'.anc && Dead(s.w.condemned, x) { SurvivingDead(s, p, f, x); }
    }
  }

  lemma SurvivingDead(s: State, p: Path, f: EndFaults, x: Path)
    requires WellFormed(s.w.anc) && p in s.ctxs && Dead(s.w.condemned, x) && SubOnly(s.w.condemned) && p.Sub? &&
        IsDir(s.w.anc, p)
    requires var w' := Complete(s, p, f).w; w' != s.w && x in w'.anc && x in s.w.anc && x != p
    ensures Dead(Complete(s, p, f).w.condemned, x)
  {
    var w' := Complete(s, p, f).w;
    var top :| top in s.w.condemned && Under(top, x);
    assert w'.condemned == Surviving(s.w.condemned, p) && !HasChild(s.w.anc, p);
    if Under(p, top.parent) {
      UnderTransitive(top.parent, top, x);
      UnderTransitive(p, top.parent, x);
      NothingBelowChildless(s.w.anc, p, x);
    }
  }

  // ----- Whole runs -----

  lemma NextSecure(s: State, a: Action, mode: SyncMode, d: FileData)
    requires Str(s) && Enabled(s, a) && Cleared(s) && Compute.Gentle(mode) && !d.Directory? && Secure(s.w, d)
    ensures Secure(Next(s, a, mode).w, d) && Cleared(Next(s, a, mode))
  {
    hide Str, Cleared, Secure, Compute.Gentle;
    match a
    case DoStart(p, fault) => StartSecure(s, p, fault, d);
    case DoFile(p, n, f) =>
      FileSecure(s, p, n, mode, f, d);
      FileCleared(s, p, n, mode, f);
    case DoComplete(p, ef) => CompleteSecure(s, p, ef, d);
  }

  lemma {:induction false} RunSecure(s: State, run: seq<Action>, mode: SyncMode, d: FileData)
    requires Str(s) && Legal(s, run, mode) && Cleared(s) && Compute.Gentle(mode) && !d.Directory? && Secure(s.w, d)
    ensures Secure(Final(s, run, mode).w, d) && Cleared(Final(s, run, mode)) && Str(Final(s, run, mode))
    decreases |run|
  {
    if run != [] {
      NextKeeps(s, run[0], mode);
      NextSecure(s, run[0], mode, d);
      hide Str, Cleared, Secure, Compute.Gentle, Next, Enabled;
      RunSecure(Next(s, run[0], mode), run[1..], mode, d);
    }
  }

  /** One pass after the other, each over what the one before it left when it was cut short
      or came to its end, each in its own mode. */
  datatype Pass = Pass(run: seq<Action>, mode: SyncMode)

  ghost predicate Passes(w: World, passes: seq<Pass>)
    decreases |passes|
  {
    passes == [] || (Legal(Init(w), passes[0].run, passes[0].mode)
                     && Passes(Final(Init(w), passes[0].run, passes[0].mode).w, passes[1..]))
  }

  ghost function After(w: World, passes: seq<Pass>): World
    requires Passes(w, passes)
    decreases |passes|
  {
    if passes == [] then w else After(Final(Init(w), passes[0].run, passes[0].mode).w, passes[1..])
  }

  ghost predicate AllGentle(passes: seq<Pass>) {
    forall i :: 0 <= i < |passes| ==> Compute.Gentle(passes[i].mode)
  }

  lemma InitCleared(w: World)
    requires SubOnly(w.condemned)
    ensures Cleared(Init(w))
  {
    forall top | top in w.condemned ensures Clear(Init(w), top) { }
  }

  lemma {:induction false} PassesSecure(w: World, passes: seq<Pass>, d: FileData)
    requires TreesWellFormed(w) && SubOnly(w.condemned) && Passes(w, passes) && AllGentle(passes) && !d.Directory? &&
        Secure(w, d)
    ensures Secure(After(w, passes), d)
    decreases |passes|
  {
    if passes != [] {
      var s := Final(Init(w), passes[0].run, passes[0].mode);
      InitStr(w);
      InitCleared(w);
      RunSecure(Init(w), passes[0].run, passes[0].mode, d);
      ClearedSubs(s);
      hide Legal, Final, Secure, Cleared;
      PassesSecure(s.w, passes[1..], d);
    }
  }

  /** The main theorem on recovery. Over any trees, through any number of passes, each cut
      short at any point of any interleaving with anything failing, and in modes that force
      no loss: the content of a file or symlink is on an end ever after, unless at the outset
      that file was on one end only and just as the ancestor had recorded it. */
  lemma NothingIsLostOverCrashes(w: World, passes: seq<Pass>, side: Side, o: Path)
    requires TreesWellFormed(w) && SubOnly(w.condemned) && Passes(w, passes) && AllGentle(passes)
    requires o in End(w, side) && !End(w, side)[o].Directory? && !Lone(w, side, o)
    ensures exists x :: HoldsAt(After(w, passes), x, End(w, side)[o])
  {
    var d := End(w, side)[o];
    assert Copy(w, d, side, o);
    PassesSecure(w, passes, d);
    var w' := After(w, passes);
    var side', x :| Copy(w', d, side', x);
    assert HoldsAt(w', x, d);
  }
}
