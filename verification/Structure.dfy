/** What every step of the walk keeps, whatever fails: trees stay trees, the tables show
    the truth about every name still to do, and a step touches only its own name. */
module Structure {
  import opened Defs
  import opened Replica
  import opened AltName
  import opened Mutate
  import opened Effects
  import opened Walk
  import Compute

  /** The parent of `q` is a directory met before, in which the name of `q` is settled and
      in use; it is in progress as long as `q` is not done. */
  ghost predicate Nested(ctxs: map<Path, Ctx>, q: Path)
    requires q in ctxs && q.Sub?
  {
    && q.parent in ctxs && !ctxs[q.parent].phase.Queued?
    && q.name !in ctxs[q.parent].todo && q.name in NamesInUse(ctxs[q.parent].t)
    && (!ctxs[q].phase.Done? ==> ctxs[q.parent].phase.Active?)
  }

  /** The directories met so far form a tree. */
  ghost predicate TreeClosed(ctxs: map<Path, Ctx>) {
    && Root in ctxs && ctxs[Root].kind.Normal?
    && (forall q :: q in ctxs && !ctxs[q].phase.Active? ==> ctxs[q].todo == {})
    && (forall q :: q in ctxs && ctxs[q].phase.Queued? ==> ctxs[q] == Fresh(ctxs[q].kind))
    && (forall q :: q in ctxs && q.Sub? ==> Nested(ctxs, q))
  }

  ghost predicate Coherent(s: State) {
    forall p, n :: p in s.ctxs && n in s.ctxs[p].todo ==>
      Shows(s.w, s.ctxs[p].t, p, n) && n in NamesInUse(s.ctxs[p].t)
  }

  ghost predicate Exists(w: World, q: Path) {
    q in w.cli || q in w.anc || q in w.srv
  }

  /** No file hides from the tables of a directory in progress. */
  ghost predicate Known(s: State) {
    forall q :: Exists(s.w, q) && q.Sub? && q.parent in s.ctxs && s.ctxs[q.parent].phase.Active? ==>
      q.name in NamesInUse(s.ctxs[q.parent].t)
  }

  /** Where the directory of an unfinished context stands in the three trees. */
  ghost predicate PlacedAt(w: World, p: Path, kind: Kind) {
    && IsDir(w.anc, p)
    && match kind
       case Normal => IsDir(w.cli, p) && IsDir(w.srv, p)
       case Doomed(side, mode) =>
         && p.Sub? && Get(End(w, side), p) == Some(Directory(mode))
         && (p in End(w, Rev(side)) ==> End(w, Rev(side))[p] == Directory(mode))
  }

  ghost predicate Placed(s: State) {
    forall p :: p in s.ctxs && !s.ctxs[p].phase.Done? ==> PlacedAt(s.w, p, s.ctxs[p].kind)
  }

  ghost predicate Str(s: State) {
    TreesWellFormed(s.w) && TreeClosed(s.ctxs) && Coherent(s) && Known(s) && Placed(s)
  }

  // ----- Regions -----

  lemma {:induction false} UpClosed(ctxs: map<Path, Ctx>, top: Path, q: Path)
    requires TreeClosed(ctxs) && q in ctxs && Under(top, q)
    ensures top in ctxs
  {
    if q != top { UpClosed(ctxs, top, q.parent); }
  }

  /** A name of `p` that has not been entered: still to do, or not used at all. */
  ghost predicate Untouched(ctxs: map<Path, Ctx>, p: Path, n: Name) {
    p in ctxs && ctxs[p].phase.Active? && (n in ctxs[p].todo || n !in NamesInUse(ctxs[p].t))
  }

  /** The tree of an unentered name contains no context, and of all names of all contexts
      only itself. */
  lemma Region(ctxs: map<Path, Ctx>, p: Path, n: Name, x: Path)
    requires TreeClosed(ctxs) && Untouched(ctxs, p, n) && Under(Sub(p, n), x)
    ensures x !in ctxs
    ensures x.parent in ctxs ==> x == Sub(p, n)
  {
    if x in ctxs { UpClosed(ctxs, Sub(p, n), x); }
    if x != Sub(p, n) && x.parent in ctxs { UpClosed(ctxs, Sub(p, n), x.parent); }
  }

  // ----- Synthetic directories -----

  /** `x` is a directory being deleted on the other end, missing on `side`, that a handle
      would create with its recorded mode. */
  ghost predicate Fillable(s: State, side: Side, x: Path, data: FileData) {
    && x in s.ctxs && !s.ctxs[x].phase.Done? && x !in End(s.w, side)
    && s.ctxs[x].kind.Doomed? && s.ctxs[x].kind.side == Rev(side) && data == Directory(s.ctxs[x].kind.mode)
  }

  /** `fs1` is the end with nothing changed but some directories above `p` filled in. */
  ghost predicate FilledIn(s: State, p: Path, side: Side, fs1: Fs) {
    && WellFormed(fs1) && IsDir(fs1, p)
    && (forall x :: x in End(s.w, side) ==> Get(fs1, x) == Get(End(s.w, side), x))
    && (forall x :: x in fs1 && x !in End(s.w, side) ==> Fillable(s, side, x, fs1[x]) && Under(x, p))
  }

  lemma FillOne(s: State, p: Path, side: Side, fs0: Fs)
    requires p.Sub? && FilledIn(s, p.parent, side, fs0)
    requires p in s.ctxs && PlacedAt(s.w, p, s.ctxs[p].kind) && !s.ctxs[p].phase.Done? && s.ctxs[p].kind.Doomed? &&
        side == Rev(s.ctxs[p].kind.side)
    ensures FilledIn(s, p, side, if p in fs0 then fs0 else fs0[p := Directory(s.ctxs[p].kind.mode)])
  {
    if p in fs0 {
      if p !in End(s.w, side) { UnderDepth(p, p.parent); }
    } else {
      SetWellFormed(fs0, p, Directory(s.ctxs[p].kind.mode));
    }
  }

  lemma {:induction false} MaterialiseFills(s: State, p: Path, side: Side)
    requires TreesWellFormed(s.w) && TreeClosed(s.ctxs) && Placed(s) && p in s.ctxs && !s.ctxs[p].phase.Done?
    ensures FilledIn(s, p, side, Materialise(End(s.w, side), Synth(s.ctxs, p, side)))
  {
    var fs, synth := End(s.w, side), Synth(s.ctxs, p, side);
    assert PlacedAt(s.w, p, s.ctxs[p].kind);
    if synth != [] {
      var front := Synth(s.ctxs, p.parent, side);
      assert synth[..|synth| - 1] == front;
      hide WellFormed, FilledIn;
      MaterialiseFills(s, p.parent, side);
      FillOne(s, p, side, Materialise(fs, front));
    }
  }

  lemma MaterialiseEffect(s: State, p: Path, side: Side)
    requires TreesWellFormed(s.w) && TreeClosed(s.ctxs) && Placed(s) && p in s.ctxs && !s.ctxs[p].phase.Done?
    ensures var fs := End(s.w, side);
            var fs1 := Materialise(fs, Synth(s.ctxs, p, side));
            && WellFormed(fs1) && IsDir(fs1, p)
            && (forall x :: x in fs ==> Get(fs1, x) == Get(fs, x))
            && (forall x :: x in fs1 && x !in fs ==> Fillable(s, side, x, fs1[x]) && Under(x, p))
  {
    MaterialiseFills(s, p, side);
  }

  /** As `FilledIn`, but `p` itself need not be there. */
  ghost predicate PartlyFilled(s: State, p: Path, side: Side, fs1: Fs) {
    && WellFormed(fs1)
    && (forall x :: x in End(s.w, side) ==> Get(fs1, x) == Get(End(s.w, side), x))
    && (forall x :: x in fs1 && x !in End(s.w, side) ==> Fillable(s, side, x, fs1[x]) && Under(x, p))
  }

  lemma FilledPartly(s: State, p: Path, side: Side, fs1: Fs)
    requires FilledIn(s, p, side, fs1)
    ensures PartlyFilled(s, p, side, fs1)
  {
  }

  lemma PartlyFilledBelow(s: State, p: Path, side: Side, fs1: Fs)
    requires p.Sub? && PartlyFilled(s, p.parent, side, fs1)
    ensures PartlyFilled(s, p, side, fs1)
  {
  }

  lemma {:induction false} MaterialiseSome(s: State, p: Path, side: Side, k: nat)
    requires TreesWellFormed(s.w) && TreeClosed(s.ctxs) && Placed(s) && p in s.ctxs && !s.ctxs[p].phase.Done?
    ensures PartlyFilled(s, p, side, Materialise(End(s.w, side), FirstOf(Synth(s.ctxs, p, side), k)))
  {
    var synth := Synth(s.ctxs, p, side);
    if k < |synth| {
      var front := Synth(s.ctxs, p.parent, side);
      assert synth[..|synth| - 1] == front;
      assert synth[..k] == FirstOf(front, k);
      assert Nested(s.ctxs, p);
      hide Materialise, PartlyFilled, TreesWellFormed;
      MaterialiseSome(s, p.parent, side, k);
      PartlyFilledBelow(s, p, side, Materialise(End(s.w, side), FirstOf(synth, k)));
    } else {
      hide Materialise, FilledIn, PartlyFilled;
      MaterialiseFills(s, p, side);
      FilledPartly(s, p, side, Materialise(End(s.w, side), synth));
    }
  }

  lemma HandlePrepared(s: State, p: Path, side: Side)
    requires TreesWellFormed(s.w) && TreeClosed(s.ctxs) && Placed(s) && p in s.ctxs && !s.ctxs[p].phase.Done?
    ensures Prepared(End(s.w, side), Synth(s.ctxs, p, side), p)
  {
    MaterialiseEffect(s, p, side);
  }

  // ----- The reach of one step -----

  /** An end at a path outside the step's names: unchanged, or a directory at or above the
      step's own that was filled in because something was to be created. */
  ghost predicate EndKept(s: State, p: Path, side: Side, fs: Fs, x: Path) {
    Get(fs, x) == Get(End(s.w, side), x) || (x in fs && Fillable(s, side, x, fs[x]) && Under(x, p))
  }

  ghost predicate Outside(p: Path, n: Name, m: Name, x: Path) {
    !Under(Sub(p, n), x) && !Under(Sub(p, m), x)
  }

  ghost predicate SameNames(t: Tables, t': Tables, n: Name, m: Name) {
    forall k :: k != n && k != m ==>
      Look(t.cli, k) == Look(t'.cli, k) && Look(t.anc, k) == Look(t'.anc, k) && Look(t.srv, k) == Look(t'.srv, k)
  }

  function NewName(s: State, p: Path, n: Name): Name
    requires p in s.ctxs
  {
    Alternate(n, NamesInUse(s.ctxs[p].t))
  }

  /** The step for `n` in `p` reaches only the trees of `n` and of the new name `m`, and
      leaves the tables truthful about both. */
  ghost predicate LocalStep(s: State, p: Path, n: Name, m: Name, out: Applied)
    requires p in s.ctxs
  {
    && TreesWellFormed(out.w)
    && (forall x :: Outside(p, n, m, x) ==>
          && Get(out.w.anc, x) == Get(s.w.anc, x)
          && EndKept(s, p, Client, out.w.cli, x) && EndKept(s, p, Server, out.w.srv, x))
    && SameNames(s.ctxs[p].t, out.t, n, m)
    && Shows(out.w, out.t, p, n) && Shows(out.w, out.t, p, m)
    && (out.todo == s.ctxs[p].todo - {n} ||
        (out.todo == s.ctxs[p].todo + {m} && n in NamesInUse(out.t) && m in NamesInUse(out.t)))
  }

  ghost predicate Working(s: State, p: Path, n: Name) {
    Str(s) && p in s.ctxs && s.ctxs[p].phase.Active? && n in s.ctxs[p].todo
  }

  lemma NewNameFree(s: State, p: Path, n: Name)
    requires Working(s, p, n)
    ensures var m := NewName(s, p, n);
            m != n && m !in s.ctxs[p].todo && !Exists(s.w, Sub(p, m)) && Shows(s.w, s.ctxs[p].t, p, m)
  {
    var m := NewName(s, p, n);
    assert m !in NamesInUse(s.ctxs[p].t);
    assert n in NamesInUse(s.ctxs[p].t);
    assert !Exists(s.w, Sub(p, m));
  }

  lemma RecordLocal(s: State, p: Path, n: Name, m: Name, w: World, t: Tables, data: Option<FileData>,
      fault: AncestorFault)
    requires p in s.ctxs && m != n && IsDir(w.anc, p) && w.anc == s.w.anc
    requires LocalStep(s, p, n, m, Applied(w, t, s.ctxs[p].todo - {n}, Fail))
    ensures var out := Record(w, t, s.ctxs[p].todo - {n}, p, n, data, fault);
            && LocalStep(s, p, n, m, out) && out.w == w.(anc := out.w.anc, condemned := out.w.condemned)
            && (fault.Works? ==> out.res == Clean(IsDirectory(data)))
            && (out.res != Fail ==> out.res == Clean(IsDirectory(data)) && Get(out.w.anc, Sub(p, n)) == data)
            && (out.res == Fail ==> Get(out.w.anc, Sub(p, n)) == Get(s.w.anc, Sub(p, n)))
  {
    hide WellFormed, NamesInUse;
    AncestorEffect(w.anc, p, n, Look(t.anc, n), data, fault);
    SiblingsDisjoint(p, m, n, Sub(p, m));
    var out := Record(w, t, s.ctxs[p].todo - {n}, p, n, data, fault);
    forall x | Outside(p, n, m, x) ensures Get(out.w.anc, x) == Get(s.w.anc, x) {
    }
  }

  /** What a step may assume about its own name and the new one. */
  ghost predicate StepReady(s: State, p: Path, n: Name, m: Name) {
    && p in s.ctxs && m != n && TreesWellFormed(s.w) && IsDir(s.w.anc, p)
    && Shows(s.w, s.ctxs[p].t, p, n) && Shows(s.w, s.ctxs[p].t, p, m) && !Exists(s.w, Sub(p, m))
  }

  /** A step that changes nothing. */
  lemma StayLocal(s: State, p: Path, n: Name, m: Name, out: Applied)
    requires StepReady(s, p, n, m)
    requires out.w == s.w && out.t == s.ctxs[p].t && out.todo == s.ctxs[p].todo - {n}
    ensures LocalStep(s, p, n, m, out)
  {
  }

  ghost predicate FillsOnly(s: State, p: Path, side: Side, fs1: Fs) {
    forall x :: x in fs1 && x !in End(s.w, side) ==> Fillable(s, side, x, fs1[x]) && Under(x, p)
  }

  lemma WrittenEndLocal(s: State, p: Path, n: Name, m: Name, dst: Side, data: Option<FileData>, w: World)
    requires StepReady(s, p, n, m)
    requires var fs1 := Materialise(End(s.w, dst), Synth(s.ctxs, p, dst));
             && Prepared(End(s.w, dst), Synth(s.ctxs, p, dst), p) && FillsOnly(s, p, dst, fs1)
             && w.anc == s.w.anc && End(w, Rev(dst)) == End(s.w, Rev(dst)) && WellFormed(End(w, dst))
             && Get(End(w, dst), Sub(p, n)) == data
             && (|| (data.Some? && forall x :: x != Sub(p, n) ==> Get(End(w, dst), x) == Get(fs1, x))
                 || (forall x :: x != Sub(p, n) ==> Get(End(w, dst), x) == Get(End(s.w, dst), x)))
    ensures var t := WithEndTable(s.ctxs[p].t, dst, Put(EndTable(s.ctxs[p].t, dst), n, data));
            LocalStep(s, p, n, m, Applied(w, t, s.ctxs[p].todo - {n}, Fail))
  {
    hide WellFormed, NamesInUse, Synth;
    SiblingsDisjoint(p, m, n, Sub(p, m));
    var fs, fs1 := End(s.w, dst), Materialise(End(s.w, dst), Synth(s.ctxs, p, dst));
    PreparedBelow(fs, Synth(s.ctxs, p, dst), p, m, Sub(p, m));
    forall x | Outside(p, n, m, x) ensures EndKept(s, p, dst, End(w, dst), x) {
      assert x != Sub(p, n);
    }
  }

  /** Some directories above `p`, and nothing else, have been filled in. */
  ghost predicate FilledSome(s: State, p: Path, side: Side, fs1: Fs) {
    && WellFormed(fs1) && FillsOnly(s, p, side, fs1)
    && (forall x :: x in End(s.w, side) ==> Get(fs1, x) == Get(End(s.w, side), x))
  }

  /** What a handle must offer for `Use(src)`. */
  ghost predicate HandleReady(s: State, p: Path, dst: Side) {
    && Prepared(End(s.w, dst), Synth(s.ctxs, p, dst), p)
    && FillsOnly(s, p, dst, Materialise(End(s.w, dst), Synth(s.ctxs, p, dst)))
    && (forall k: nat :: FilledSome(s, p, dst, Materialise(End(s.w, dst), FirstOf(Synth(s.ctxs, p, dst), k))))
  }

  /** A create that failed half-way. */
  lemma HalfMadeLocal(s: State, p: Path, n: Name, m: Name, dst: Side, was: Option<FileData>, made: nat)
    requires StepReady(s, p, n, m) && HandleReady(s, p, dst)
    ensures var w := HalfMade(s.w, dst, Synth(s.ctxs, p, dst), was, made);
            LocalStep(s, p, n, m, Applied(w, s.ctxs[p].t, s.ctxs[p].todo - {n}, Fail))
  {
    var w := HalfMade(s.w, dst, Synth(s.ctxs, p, dst), was, made);
    var fs1 := Materialise(End(s.w, dst), FirstOf(Synth(s.ctxs, p, dst), made));
    assert FilledSome(s, p, dst, fs1);
    NotAboveItself(p, n);
    NotAboveItself(p, m);
    forall x | x in fs1 && x !in End(s.w, dst) ensures Outside(p, n, m, x) {
      if Under(Sub(p, n), x) { UnderTransitive(Sub(p, n), x, p); }
      if Under(Sub(p, m), x) { UnderTransitive(Sub(p, m), x, p); }
    }
    assert Under(Sub(p, n), Sub(p, n)) && Under(Sub(p, m), Sub(p, m));
  }

  lemma UseLocal(s: State, p: Path, n: Name, m: Name, src: Side, f: Faults)
    requires StepReady(s, p, n, m)
    requires HandleReady(s, p, Rev(src))
    requires var was, data := Look(EndTable(s.ctxs[p].t, Rev(src)), n), Look(EndTable(s.ctxs[p].t, src), n);
             (was.Some? || data.Some?) && (IsDirectory(was) && data.Some? ==> IsDirectory(data))
    ensures var out := ApplyUse(s.w, s.ctxs[p].t, s.ctxs[p].todo - {n}, Synth(s.ctxs, p, Rev(src)), p, n, src, f);
            LocalStep(s, p, n, m, out)
  {
    var dst, t, q := Rev(src), s.ctxs[p].t, Sub(p, n);
    var was, data := Look(EndTable(t, dst), n), Look(EndTable(t, src), n);
    var todo := s.ctxs[p].todo - {n};
    assert LocalStep(s, p, n, m, Applied(s.w, t, todo, Fail));
    if IsDirectory(was) && data.None? {
      RecordLocal(s, p, n, m, s.w, t, was, f.anc);
    } else {
      if was.Some? { assert q in End(s.w, dst) && IsDir(End(s.w, dst), q.parent); }
      EndEffect(s.w, dst, Synth(s.ctxs, p, dst), p, n, was, data, f.end);
      var r := ReplaceEnd(s.w, dst, Synth(s.ctxs, p, dst), p, n, was, data, f.end);
      if r.Some? {
        WrittenEndLocal(s, p, n, m, dst, data, r.value);
        RecordLocal(s, p, n, m, r.value, WithEndTable(t, dst, Put(EndTable(t, dst), n, data)), data, f.anc);
      } else {
        HalfMadeLocal(s, p, n, m, dst, was, f.made);
      }
    }
  }

  // ----- Splitting -----

  lemma RenamedTable(fs: Fs, tbl: map<Name, FileData>, p: Path, n: Name, m: Name)
    requires WellFormed(fs) && n != m && Sub(p, n) in fs && Sub(p, m) !in fs
    requires Look(tbl, n) == Get(fs, Sub(p, n)) && Look(tbl, m) == None
    ensures var fs', t' := Rekey(fs, Sub(p, n), Sub(p, m)), RenameTable(tbl, n, m);
            && Look(t', n) == Get(fs', Sub(p, n)) == None && Look(t', m) == Get(fs', Sub(p, m)) == Get(fs, Sub(p, n))
            && (forall k :: k != n && k != m ==> Look(t', k) == Look(tbl, k))
            && Rename(fs, p, n, m) == Some(fs') && WellFormed(fs')
            && (forall x :: Outside(p, n, m, x) ==> Get(fs', x) == Get(fs, x))
  {
    RenameEffect(fs, p, n, m);
  }

  lemma DetachLocal(s: State, p: Path, n: Name, m: Name, fate: AncestorFate, f: Faults)
    requires StepReady(s, p, n, m)
    ensures var (ok, w, t) := SplitDetach(s.w, s.ctxs[p].t, p, n, fate, f);
            && LocalStep(s, p, n, m, Applied(w, t, s.ctxs[p].todo - {n}, Fail))
            && w.cli == s.w.cli && w.srv == s.w.srv && t.cli == s.ctxs[p].t.cli && t.srv == s.ctxs[p].t.srv
            && Sub(p, m) !in w.anc
            && (fate.Move? ==> w.anc == s.w.anc && t == s.ctxs[p].t)
            && (fate.Delete? && ok ==> Sub(p, n) !in w.anc && n !in t.anc)
            && (f.anc.Works? && !f.condemn ==> ok)
  {
    assert LocalStep(s, p, n, m, Applied(s.w, s.ctxs[p].t, s.ctxs[p].todo - {n}, Fail));
    if fate.Delete? {
      RecordLocal(s, p, n, m, s.w, s.ctxs[p].t, None, f.anc);
      AncestorEffect(s.w.anc, p, n, Look(s.ctxs[p].t.anc, n), None, f.anc);
    }
  }

  lemma RenamedEndLocal(s: State, p: Path, n: Name, m: Name, side: Side, w1: World, t1: Tables)
    requires StepReady(s, p, n, m)
    requires LocalStep(s, p, n, m, Applied(w1, t1, s.ctxs[p].todo - {n}, Fail))
    requires w1.cli == s.w.cli && w1.srv == s.w.srv && t1.cli == s.ctxs[p].t.cli && t1.srv == s.ctxs[p].t.srv
    requires n in s.ctxs[p].t.cli && n in s.ctxs[p].t.srv
    ensures var r := RenameEnd(w1, side, p, n, m, false);
            var t2 := WithEndTable(t1, side, RenameTable(EndTable(t1, side), n, m));
            && r.Some? && LocalStep(s, p, n, m, Applied(r.value, t2, s.ctxs[p].todo - {n}, Fail))
            && r.value.anc == w1.anc && t2.anc == t1.anc && n in EndTable(t2, Rev(side)) && m in EndTable(t2, side)
            && End(r.value, side) == Rekey(End(s.w, side), Sub(p, n), Sub(p, m))
            && End(r.value, Rev(side)) == End(s.w, Rev(side))
  {
    RenamedTable(End(w1, side), EndTable(t1, side), p, n, m);
  }

  lemma ReattachLocal(s: State, p: Path, n: Name, m: Name, w: World, t: Tables, f: Faults)
    requires StepReady(s, p, n, m)
    requires LocalStep(s, p, n, m, Applied(w, t, s.ctxs[p].todo - {n}, Fail)) && Sub(p, m) !in w.anc
    ensures var (ok, w', t') := SplitReattach(w, t, p, n, m, f);
            && LocalStep(s, p, n, m, Applied(w', t', s.ctxs[p].todo - {n}, Fail))
            && w'.cli == w.cli && w'.srv == w.srv && t'.cli == t.cli && t'.srv == t.srv
            && (!f.ancRename && !f.uncondemn ==> ok)
  {
    if n in t.anc {
      RenamedTable(w.anc, t.anc, p, n, m);
    }
  }

  lemma Requeue(s: State, p: Path, n: Name, m: Name, w: World, t: Tables)
    requires p in s.ctxs && n in s.ctxs[p].todo && n in NamesInUse(t) && m in NamesInUse(t)
    requires LocalStep(s, p, n, m, Applied(w, t, s.ctxs[p].todo - {n}, Fail))
    ensures LocalStep(s, p, n, m, Applied(w, t, s.ctxs[p].todo - {n} + {n, m}, Clean(false)))
  {
    assert s.ctxs[p].todo - {n} + {n, m} == s.ctxs[p].todo + {m};
  }

  lemma SplitLocal(s: State, p: Path, n: Name, m: Name, side: Side, fate: AncestorFate, f: Faults)
    requires StepReady(s, p, n, m) && m == NewName(s, p, n)
    requires n in s.ctxs[p].todo && n in s.ctxs[p].t.cli && n in s.ctxs[p].t.srv
    ensures var out := ApplySplit(s.w, s.ctxs[p].t, s.ctxs[p].todo - {n}, p, n, side, fate, f);
            LocalStep(s, p, n, m, out) && (f == NO_FAULTS ==> out.res == Clean(false))
  {
    var todo := s.ctxs[p].todo - {n};
    var out := ApplySplit(s.w, s.ctxs[p].t, todo, p, n, side, fate, f);
    DetachLocal(s, p, n, m, fate, f);
    var (ok1, w1, t1) := SplitDetach(s.w, s.ctxs[p].t, p, n, fate, f);
    if !ok1 || f.rename {
      assert out == Applied(w1, t1, todo, Fail);
    } else {
      RenamedEndLocal(s, p, n, m, side, w1, t1);
      var w2 := RenameEnd(w1, side, p, n, m, f.rename).value;
      var t2 := WithEndTable(t1, side, RenameTable(EndTable(t1, side), n, m));
      if fate.Delete? {
        assert out == Applied(w2, t2, todo + {n, m}, Clean(false));
        Requeue(s, p, n, m, w2, t2);
      } else {
        ReattachLocal(s, p, n, m, w2, t2, f);
        var (ok3, w3, t3) := SplitReattach(w2, t2, p, n, m, f);
        if ok3 {
          assert out == Applied(w3, t3, todo + {n, m}, Clean(false));
          Requeue(s, p, n, m, w3, t3);
        } else {
          assert out == Applied(w3, t3, todo, Fail);
        }
      }
    }
  }

  lemma ApplyLocal(s: State, p: Path, n: Name, m: Name, r: Reconciliation, f: Faults, out: Applied)
    requires StepReady(s, p, n, m) && m == NewName(s, p, n) && n in s.ctxs[p].todo
    requires Compute.WellShaped(r, Look(s.ctxs[p].t.cli, n), Look(s.ctxs[p].t.srv, n))
    requires r.Use? ==> HandleReady(s, p, Rev(r.src))
    requires out ==
        Apply(s.w, s.ctxs[p].t, s.ctxs[p].todo - {n}, if r.Use? then Synth(s.ctxs, p, Rev(r.src)) else [], p, n, r, f)
    ensures LocalStep(s, p, n, m, out)
  {
    assert p in s.ctxs;
    hide StepReady, HandleReady, LocalStep, Record, ApplyUse, ApplySplit, WellFormed, Alternate;
    var stay := Applied(s.w, s.ctxs[p].t, s.ctxs[p].todo - {n}, out.res);
    StayLocal(s, p, n, m, stay);
    if !f.stop {
      match r
      case InSync => RecordAtOnce(s, p, n, m, Look(s.ctxs[p].t.cli, n), f.anc);
      case Use(src) => UseLocal(s, p, n, m, src, f);
      case Split(side, fate) => SplitLocal(s, p, n, m, side, fate, f);
      case _ =>
    }
  }

  lemma RecordAtOnce(s: State, p: Path, n: Name, m: Name, data: Option<FileData>, fault: AncestorFault)
    requires StepReady(s, p, n, m)
    ensures LocalStep(s, p, n, m, Record(s.w, s.ctxs[p].t, s.ctxs[p].todo - {n}, p, n, data, fault))
  {
    StayLocal(s, p, n, m, Applied(s.w, s.ctxs[p].t, s.ctxs[p].todo - {n}, Fail));
    RecordLocal(s, p, n, m, s.w, s.ctxs[p].t, data, fault);
  }

  lemma ReadyToStep(s: State, p: Path, n: Name)
    requires Working(s, p, n)
    ensures StepReady(s, p, n, NewName(s, p, n))
  {
    NewNameFree(s, p, n);
    assert Shows(s.w, s.ctxs[p].t, p, n);
    assert PlacedAt(s.w, p, s.ctxs[p].kind);
  }

  lemma ReadyHandle(s: State, p: Path, n: Name, dst: Side)
    requires Working(s, p, n)
    ensures HandleReady(s, p, dst)
  {
    HandlePrepared(s, p, dst);
    MaterialiseEffect(s, p, dst);
    forall k: nat ensures FilledSome(s, p, dst, Materialise(End(s.w, dst), FirstOf(Synth(s.ctxs, p, dst), k))) {
      MaterialiseSome(s, p, dst, k);
    }
  }

  /** Every step, failed or not, is local to its name. */
  lemma StepLocal(s: State, p: Path, n: Name, mode: SyncMode, f: Faults)
    requires Working(s, p, n)
    ensures StepReady(s, p, n, NewName(s, p, n))
    ensures LocalStep(s, p, n, NewName(s, p, n), ApplyStep(s, p, n, mode, f))
  {
    ReadyToStep(s, p, n);
    var t, r := s.ctxs[p].t, Decide(s.ctxs[p], n, mode);
    Compute.DecisionShape(Look(t.cli, n), Look(t.anc, n), Look(t.srv, n), mode);
    if r.Use? { ReadyHandle(s, p, n, Rev(r.src)); }
    hide Compute.Choose, Apply, Str;
    ApplyLocal(s, p, n, NewName(s, p, n), r, f, ApplyStep(s, p, n, mode, f));
  }
}
