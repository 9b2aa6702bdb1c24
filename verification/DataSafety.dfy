/** Unless the mode forces a loss nothing is lost: every file or symlink of either end survives on an end,
    or its content is what the ancestor had recorded for that very file. */
module DataSafety {
  import opened Defs
  import opened Replica
  import opened AltName
  import opened Mutate
  import opened Effects
  import opened Walk
  import opened Structure
  import opened StructureKept
  import opened Outcomes
  import opened Deletion
  import opened Regions
  import Compute

  // ----- What a step does to an end, below its own names -----

  ghost predicate KeptEnd(fs: Fs, fs': Fs, p: Path, n: Name, m: Name, r: Reconciliation, side: Side, other: Fs) {
    var q, q2 := Sub(p, n), Sub(p, m);
    && (forall x :: x != q && (Under(q, x) || Under(q2, x)) ==> Get(fs', x) == Get(fs, x))
    && (Get(fs', q) == Get(fs, q) || (r.Use? && side == Rev(r.src) && Get(fs', q) == Get(other, q)))
  }

  ghost predicate MovedEnd(fs: Fs, fs': Fs, p: Path, n: Name, m: Name, r: Reconciliation, side: Side) {
    r.Split? && r.renamed == side && fs' == Rekey(fs, Sub(p, n), Sub(p, m)) && Sub(p, n) in fs && Sub(p, m) !in fs
  }

  ghost predicate EndAfter(w: World, w': World, p: Path, n: Name, m: Name, r: Reconciliation, side: Side) {
    || KeptEnd(End(w, side), End(w', side), p, n, m, r, side, End(w, Rev(side)))
    || MovedEnd(End(w, side), End(w', side), p, n, m, r, side)
  }

  lemma UntouchedEnd(w: World, w': World, p: Path, n: Name, m: Name, r: Reconciliation, side: Side)
    requires End(w', side) == End(w, side)
    ensures EndAfter(w, w', p, n, m, r, side)
  {
  }

  lemma WrittenEnd(fs: Fs, synth: Synthetics, fs': Fs, p: Path, n: Name, m: Name, src: Side, other: Fs)
    requires Prepared(fs, synth, p) && Get(fs', Sub(p, n)) == Get(other, Sub(p, n))
    requires || (forall x :: x != Sub(p, n) ==> Get(fs', x) == Get(Materialise(fs, synth), x))
             || (forall x :: x != Sub(p, n) ==> Get(fs', x) == Get(fs, x))
    ensures KeptEnd(fs, fs', p, n, m, Use(src), Rev(src), other)
  {
    forall x | x != Sub(p, n) && (Under(Sub(p, n), x) || Under(Sub(p, m), x)) ensures Get(fs', x) == Get(fs, x) {
      PreparedBelow(fs, synth, p, if Under(Sub(p, n), x) then n else m, x);
    }
  }

  lemma ReplacedEnd(w: World, w': World, synth: Synthetics, p: Path, n: Name, m: Name, src: Side, fault: bool)
    requires WellFormed(End(w, Rev(src))) && Prepared(End(w, Rev(src)), synth, p)
    requires var was, data := Get(End(w, Rev(src)), Sub(p, n)), Get(End(w, src), Sub(p, n));
             var r := ReplaceEnd(w, Rev(src), synth, p, n, was, data, fault);
             && (was.Some? || data.Some?) && (IsDirectory(was) ==> IsDirectory(data))
             && r.Some? && w'.cli == r.value.cli && w'.srv == r.value.srv
    ensures End(w', src) == End(w, src) && EndAfter(w, w', p, n, m, Use(src), Rev(src))
  {
    var dst, q := Rev(src), Sub(p, n);
    var was, data := Get(End(w, dst), q), Get(End(w, src), q);
    if was.Some? { assert q in End(w, dst) && IsDir(End(w, dst), q.parent); }
    EndEffect(w, dst, synth, p, n, was, data, fault);
    WrittenEnd(End(w, dst), synth, End(w', dst), p, n, m, src, End(w, src));
  }

  lemma HalfMadeEnd(w: World, w': World, synth: Synthetics, p: Path, n: Name, m: Name, src: Side,
      was: Option<FileData>, made: nat)
    requires Prepared(End(w, Rev(src)), synth, p) && w' == HalfMade(w, Rev(src), synth, was, made)
    ensures End(w', src) == End(w, src) && EndAfter(w, w', p, n, m, Use(src), Rev(src))
  {
    var fs := End(w, Rev(src));
    var fs' := End(w', Rev(src));
    forall x | Under(Sub(p, n), x) || Under(Sub(p, m), x) ensures Get(fs', x) == Get(fs, x) {
      HalfMadeBelow(fs, synth, p, if Under(Sub(p, n), x) then n else m, made, x);
    }
    assert Under(Sub(p, n), Sub(p, n));
    hide Prepared, Materialise, Under;
    assert KeptEnd(fs, fs', p, n, m, Use(src), Rev(src), End(w, src));
  }

  lemma UseEnds(s: State, p: Path, n: Name, m: Name, src: Side, f: Faults, w': World)
    requires StepReady(s, p, n, m)
    requires Prepared(End(s.w, Rev(src)), Synth(s.ctxs, p, Rev(src)), p)
    requires var was, data := Look(EndTable(s.ctxs[p].t, Rev(src)), n), Look(EndTable(s.ctxs[p].t, src), n);
             (was.Some? || data.Some?) && (IsDirectory(was) && data.Some? ==> IsDirectory(data))
    requires w' == ApplyUse(s.w, s.ctxs[p].t, s.ctxs[p].todo - {n}, Synth(s.ctxs, p, Rev(src)), p, n, src, f).w
    ensures End(w', src) == End(s.w, src) && EndAfter(s.w, w', p, n, m, Use(src), Rev(src))
  {
    var dst, t := Rev(src), s.ctxs[p].t;
    var was, data := Look(EndTable(t, dst), n), Look(EndTable(t, src), n);
    var r := ReplaceEnd(s.w, dst, Synth(s.ctxs, p, dst), p, n, was, data, f.end);
    UseShape(s.w, t, s.ctxs[p].todo - {n}, Synth(s.ctxs, p, dst), p, n, src, f);
    if IsDirectory(was) && data.None? {
      UntouchedEnd(s.w, w', p, n, m, Use(src), dst);
    } else if r.None? {
      HalfMadeEnd(s.w, w', Synth(s.ctxs, p, dst), p, n, m, src, was, f.made);
    } else {
      ReplacedEnd(s.w, w', Synth(s.ctxs, p, dst), p, n, m, src, f.end);
    }
  }

  lemma SplitMoves(s: State, p: Path, n: Name, m: Name, side: Side, fate: AncestorFate, f: Faults, w': World)
    requires p in s.ctxs && m == NewName(s, p, n) && StepReady(s, p, n, m)
    requires w' == ApplySplit(s.w, s.ctxs[p].t, s.ctxs[p].todo - {n}, p, n, side, fate, f).w
    ensures EndsAfter(s.w, w', p, n, m, Split(side, fate))
  {
    hide ApplySplit, Alternate, Rekey, WellFormed;
    SplitEnds(s.w, s.ctxs[p].t, s.ctxs[p].todo - {n}, p, n, side, fate, f);
    UntouchedEnd(s.w, w', p, n, m, Split(side, fate), Rev(side));
    if End(w', side) == End(s.w, side) {
      UntouchedEnd(s.w, w', p, n, m, Split(side, fate), side);
    } else {
      assert MovedEnd(End(s.w, side), End(w', side), p, n, m, Split(side, fate), side);
    }
  }

  ghost predicate EndsAfter(w: World, w': World, p: Path, n: Name, m: Name, r: Reconciliation) {
    EndAfter(w, w', p, n, m, r, Client) && EndAfter(w, w', p, n, m, r, Server)
  }

  lemma DecisionEnds(s: State, p: Path, n: Name, m: Name, r: Reconciliation, f: Faults, synth: Synthetics, out: Applied)
    requires p in s.ctxs && m == NewName(s, p, n) && StepReady(s, p, n, m)
    requires Compute.WellShaped(r, Look(s.ctxs[p].t.cli, n), Look(s.ctxs[p].t.srv, n))
    requires Prepared(s.w.cli, Synth(s.ctxs, p, Client), p) && Prepared(s.w.srv, Synth(s.ctxs, p, Server), p)
    requires r.Use? ==> synth == Synth(s.ctxs, p, Rev(r.src))
    requires out == Apply(s.w, s.ctxs[p].t, s.ctxs[p].todo - {n}, synth, p, n, r, f)
    ensures EndsAfter(s.w, out.w, p, n, m, r)
  {
    hide *;
    ApplyCases(s.w, s.ctxs[p].t, s.ctxs[p].todo - {n}, synth, p, n, r, f);
    if !f.stop && r.Use? {
      UseEndsBoth(s, p, n, m, r.src, f, out.w);
    } else if !f.stop && r.Split? {
      SplitMoves(s, p, n, m, r.renamed, r.fate, f, out.w);
    } else {
      UntouchedEnds(s.w, out.w, p, n, m, r);
    }
  }

  lemma UntouchedEnds(w: World, w': World, p: Path, n: Name, m: Name, r: Reconciliation)
    requires w'.cli == w.cli && w'.srv == w.srv
    ensures EndsAfter(w, w', p, n, m, r)
  {
    UntouchedEnd(w, w', p, n, m, r, Client);
    UntouchedEnd(w, w', p, n, m, r, Server);
  }

  lemma UseEndsBoth(s: State, p: Path, n: Name, m: Name, src: Side, f: Faults, w': World)
    requires StepReady(s, p, n, m)
    requires Prepared(s.w.cli, Synth(s.ctxs, p, Client), p) && Prepared(s.w.srv, Synth(s.ctxs, p, Server), p)
    requires Compute.WellShaped(Use(src), Look(s.ctxs[p].t.cli, n), Look(s.ctxs[p].t.srv, n))
    requires w' == ApplyUse(s.w, s.ctxs[p].t, s.ctxs[p].todo - {n}, Synth(s.ctxs, p, Rev(src)), p, n, src, f).w
    ensures EndsAfter(s.w, w', p, n, m, Use(src))
  {
    hide StepReady, Prepared, ApplyUse, EndAfter;
    UseEnds(s, p, n, m, src, f, w');
    UntouchedEnd(s.w, w', p, n, m, Use(src), src);
    if src.Client? { assert Rev(src) == Server; } else { assert Rev(src) == Client; }
  }

  // ----- The history -----

  /** The log grew by `done` only, without renames unless a split says so. */
  ghost predicate LogAfter(w: World, w': World, p: Path, n: Name, m: Name, r: Reconciliation) {
    && |w.log| <= |w'.log| && w'.log[..|w.log|] == w.log
    && var done := w'.log[|w.log|..];
       || NoRenames(done)
       || (&& r.Split?
           && var e := Renamed(Sub(p, n), Sub(p, m));
              done == [Logged(PlaceOf(r.renamed), e)] || done == [Logged(PlaceOf(r.renamed), e), Logged(AtAncestor, e)])
  }

  lemma {:induction false} MaterialiseNoRenames(fs: Fs, synth: Synthetics, at: Place)
    ensures NoRenames(MaterialiseLog(fs, synth, at))
  {
    if synth != [] { MaterialiseNoRenames(fs, synth[..|synth| - 1], at); }
  }

  lemma LogExtends(w: World, w': World, p: Path, n: Name, m: Name, r: Reconciliation, done: seq<Logged>)
    requires w'.log == w.log + done
    requires NoRenames(done)
             || (r.Split? && var e := Renamed(Sub(p, n), Sub(p, m));
                             done == [Logged(PlaceOf(r.renamed), e)] ||
                                 done == [Logged(PlaceOf(r.renamed), e), Logged(AtAncestor, e)])
    ensures LogAfter(w, w', p, n, m, r)
  {
    assert w'.log[|w.log|..] == done && w'.log[..|w.log|] == w.log;
  }

  lemma UseLog(w: World, t: Tables, todo: set<Name>, synth: Synthetics, p: Path, n: Name, m: Name, src: Side, f: Faults)
    ensures LogAfter(w, ApplyUse(w, t, todo, synth, p, n, src, f).w, p, n, m, Use(src))
  {
    var dst := Rev(src);
    var was, data, out := Look(EndTable(t, dst), n), Look(EndTable(t, src), n),
        ApplyUse(w, t, todo, synth, p, n, src, f);
    MaterialiseNoRenames(End(w, dst), synth, PlaceOf(dst));
    var r := ReplaceEnd(w, dst, synth, p, n, was, data, f.end);
    if (IsDirectory(was) && data.None?) || was == data || (r.None? && was.Some?) {
      assert out.w.log == w.log == w.log + [];
      LogExtends(w, out.w, p, n, m, Use(src), []);
    } else if r.None? {
      var some := FirstOf(synth, f.made);
      MaterialiseNoRenames(End(w, dst), some, PlaceOf(dst));
      LogExtends(w, out.w, p, n, m, Use(src), MaterialiseLog(End(w, dst), some, PlaceOf(dst)));
    } else {
      assert out.w.log == r.value.log;
      var done :=
        if data.None? then [Logged(PlaceOf(dst), Erased(Sub(p, n), was.value))]
        else if was.Some? then [Logged(PlaceOf(dst), Replaced(Sub(p, n), was.value, data.value))]
        else MaterialiseLog(End(w, dst), synth, PlaceOf(dst)) + [Logged(PlaceOf(dst), Made(Sub(p, n), data.value))];
      assert NoRenames(done);
      LogExtends(w, out.w, p, n, m, Use(src), done);
    }
  }

  lemma SplitLog(w: World, t: Tables, todo: set<Name>, p: Path, n: Name, side: Side, fate: AncestorFate, f: Faults)
    ensures LogAfter(w, ApplySplit(w, t, todo, p, n, side, fate, f).w, p, n, Alternate(n, NamesInUse(t)),
        Split(side, fate))
  {
    hide ApplySplit, Alternate, Rename, LogAfter;
    var out, m := ApplySplit(w, t, todo, p, n, side, fate, f), Alternate(n, NamesInUse(t));
    SplitEnds(w, t, todo, p, n, side, fate, f);
    var e := Renamed(Sub(p, n), Sub(p, m));
    var ren, anc := Logged(PlaceOf(side), e), Logged(AtAncestor, e);
    if out.w.log == w.log {
      assert w.log == w.log + [];
      LogExtends(w, out.w, p, n, m, Split(side, fate), []);
    } else if out.w.log == w.log + [ren] {
      LogExtends(w, out.w, p, n, m, Split(side, fate), [ren]);
    } else {
      assert w.log + [ren] + [anc] == w.log + [ren, anc];
      LogExtends(w, out.w, p, n, m, Split(side, fate), [ren, anc]);
    }
  }

  lemma DecisionLog(w: World, t: Tables, todo: set<Name>, synth: Synthetics, p: Path, n: Name, r: Reconciliation,
      f: Faults)
    ensures LogAfter(w, Apply(w, t, todo, synth, p, n, r, f).w, p, n, Alternate(n, NamesInUse(t)), r)
  {
    var m := Alternate(n, NamesInUse(t));
    if f.stop {
      LogExtends(w, w, p, n, m, r, []);
    } else {
      match r
      case Use(src) => UseLog(w, t, todo, synth, p, n, m, src, f);
      case Split(side, fate) => SplitLog(w, t, todo, p, n, side, fate, f);
      case _ => LogExtends(w, Apply(w, t, todo, synth, p, n, r, f).w, p, n, m, r, []);
    }
  }

  /** Renames do not disturb the origin of a path outside the new name. */
  lemma TraceAfter(w: World, w': World, p: Path, n: Name, m: Name, r: Reconciliation, at: Place, x: Path)
    requires LogAfter(w, w', p, n, m, r) && (r.Split? ==> !Under(Sub(p, m), x))
    ensures Trace(w'.log, at, x) == Trace(w.log, at, x)
  {
    var done := w'.log[|w.log|..];
    assert w'.log == w.log + done;
    TraceSkips(w.log, done, at, x);
  }

  // ----- Both facts for a step of the walk -----

  ghost predicate StepFacts(s: State, p: Path, n: Name, m: Name, r: Reconciliation, out: Applied, s': State) {
    && Stepped(s, p, n, m, out, s') && !Exists(s.w, Sub(p, m)) && s'.w == out.w && Sub(p, n) !in s.ctxs
    && EndsAfter(s.w, out.w, p, n, m, r)
    && LogAfter(s.w, out.w, p, n, m, r) && TreesWellFormed(s.w)
  }

  lemma FactsOf(s: State, p: Path, n: Name, mode: SyncMode, f: Faults)
    requires Working(s, p, n)
    ensures StepFacts(s, p, n, NewName(s, p, n), Decide(s.ctxs[p], n, mode), ApplyStep(s, p, n, mode, f),
        File(s, p, n, mode, f))
  {
    var r, t := Decide(s.ctxs[p], n, mode), s.ctxs[p].t;
    SteppedBy(s, p, n, mode, f);
    StepLocal(s, p, n, mode, f);
    HandlePrepared(s, p, Client);
    HandlePrepared(s, p, Server);
    Compute.DecisionShape(Look(t.cli, n), Look(t.anc, n), Look(t.srv, n), mode);
    hide Compute.Choose, Apply, EndsAfter, LogAfter, Stepped, LocalStep;
    var synth := if r.Use? then Synth(s.ctxs, p, Rev(r.src)) else [];
    DecisionEnds(s, p, n, NewName(s, p, n), r, f, synth, ApplyStep(s, p, n, mode, f));
    DecisionLog(s.w, t, s.ctxs[p].todo - {n}, synth, p, n, r, f);
  }

  // ----- The ancestor -----

  lemma AncestorBelow(s: State, p: Path, n: Name, r: Reconciliation, f: Faults, synth: Synthetics, out: Applied,
      x: Path)
    requires p in s.ctxs && WellFormed(s.w.anc) && IsDir(s.w.anc, p) &&
        Look(s.ctxs[p].t.anc, n) == Get(s.w.anc, Sub(p, n))
    requires !r.Split? && x != Sub(p, n) && x in out.w.anc
    requires out == Apply(s.w, s.ctxs[p].t, s.ctxs[p].todo - {n}, synth, p, n, r, f)
    ensures Get(s.w.anc, x) == Get(out.w.anc, x)
  {
    var t := s.ctxs[p].t;
    if !f.stop && r.Use? {
      UseAncestor(s.w, t, s.ctxs[p].todo - {n}, synth, p, n, r.src, f);
    }
    AncestorBelowParts(s.w.anc, out.w.anc, t, p, n, f.anc, x);
  }

  lemma AncestorBelowParts(anc: Fs, anc': Fs, t: Tables, p: Path, n: Name, fault: AncestorFault, x: Path)
    requires WellFormed(anc) && IsDir(anc, p) && Look(t.anc, n) == Get(anc, Sub(p, n)) && x != Sub(p, n) && x in anc'
    requires || anc' == anc
             || anc' == ReplaceAncestor(anc, p, n, Look(t.anc, n), Look(t.cli, n), fault).1
             || anc' == ReplaceAncestor(anc, p, n, Look(t.anc, n), Look(t.srv, n), fault).1
    ensures Get(anc, x) == Get(anc', x)
  {
    AncestorEffect(anc, p, n, Look(t.anc, n), Look(t.cli, n), fault);
    AncestorEffect(anc, p, n, Look(t.anc, n), Look(t.srv, n), fault);
  }

  /** Where the record of a split file is once the split has succeeded. */
  ghost predicate SplitResult(w: World, w': World, p: Path, n: Name, m: Name, side: Side) {
    var q, q2 := Sub(p, n), Sub(p, m);
    var e := Renamed(q, q2);
    && q in End(w, side) && End(w', side) == Rekey(End(w, side), q, q2) && End(w', Rev(side)) == End(w, Rev(side))
    && (|| (&& q in w.anc && w'.anc == Rekey(w.anc, q, q2)
            && w'.log == w.log + [Logged(PlaceOf(side), e)] + [Logged(AtAncestor, e)])
        || (&& (forall x :: Under(q, x) || Under(q2, x) ==> x !in w'.anc)
            && w'.log == w.log + [Logged(PlaceOf(side), e)]))
  }

  lemma NoneBelowEither(fs: Fs, p: Path, n: Name, m: Name)
    requires WellFormed(fs) && Sub(p, n) !in fs && Sub(p, m) !in fs
    ensures forall x :: Under(Sub(p, n), x) || Under(Sub(p, m), x) ==> x !in fs
  {
    forall x | Under(Sub(p, n), x) || Under(Sub(p, m), x) ensures x !in fs {
      if Under(Sub(p, n), x) { NothingBelowAbsent(fs, Sub(p, n), x); } else { NothingBelowAbsent(fs, Sub(p, m), x); }
    }
  }

  lemma SplitDeletes(s: State, p: Path, n: Name, m: Name, f: Faults)
    requires StepReady(s, p, n, m)
    ensures var d := SplitDetach(s.w, s.ctxs[p].t, p, n, Delete, f);
            d.0 ==> forall x :: Under(Sub(p, n), x) || Under(Sub(p, m), x) ==> x !in d.1.anc
  {
    var d := SplitDetach(s.w, s.ctxs[p].t, p, n, Delete, f);
    AncestorEffect(s.w.anc, p, n, Look(s.ctxs[p].t.anc, n), None, f.anc);
    if d.0 {
      SiblingsDisjoint(p, m, n, Sub(p, m));
      assert Get(d.1.anc, Sub(p, m)) == Get(s.w.anc, Sub(p, m));
      NoneBelowEither(d.1.anc, p, n, m);
    }
  }

  lemma SplitAncestor(s: State, p: Path, n: Name, m: Name, side: Side, fate: AncestorFate, f: Faults, out: Applied)
    requires StepReady(s, p, n, m) && m == NewName(s, p, n)
    requires out == ApplySplit(s.w, s.ctxs[p].t, s.ctxs[p].todo - {n}, p, n, side, fate, f) && out.res != Fail
    ensures SplitResult(s.w, out.w, p, n, m, side)
  {
    var t, todo := s.ctxs[p].t, s.ctxs[p].todo - {n};
    var d := SplitDetach(s.w, t, p, n, fate, f);
    DetachKeepsEnds(s.w, t, p, n, fate, f);
    var r := RenameEnd(d.1, side, p, n, m, f.rename);
    assert d.0 && r.Some?;
    if fate.Delete? {
      SplitDeletes(s, p, n, m, f);
      assert out.w == r.value;
    } else {
      var t2 := WithEndTable(d.2, side, RenameTable(EndTable(d.2, side), n, m));
      ReattachKeepsEnds(r.value, t2, p, n, m, f);
      assert out.w == SplitReattach(r.value, t2, p, n, m, f).1;
      if n !in t.anc { NoneBelowEither(s.w.anc, p, n, m); }
    }
  }

  // ----- Origins of pending files -----

  function FsAt(w: World, at: Place): Fs {
    match at case AtClient => w.cli case AtAncestor => w.anc case AtServer => w.srv
  }

  ghost predicate Unmoved(w0: World, w: World, at: Place, x: Path) {
    x in FsAt(w, at) ==> Get(FsAt(w0, at), Trace(w.log, at, x)) == Get(FsAt(w, at), x)
  }

  /** What stands at `x` is what stood at its origin, a record paired with a file is the
      record of that file, and files paired with each other were so from the start. */
  ghost predicate OriginalAt(w0: World, w: World, x: Path) {
    && Unmoved(w0, w, AtClient, x) && Unmoved(w0, w, AtAncestor, x) && Unmoved(w0, w, AtServer, x)
    && (x in w.anc && x in w.cli ==> Trace(w.log, AtAncestor, x) == Trace(w.log, AtClient, x))
    && (x in w.anc && x in w.srv ==> Trace(w.log, AtAncestor, x) == Trace(w.log, AtServer, x))
    && (x in w.cli && x in w.srv ==> Trace(w.log, AtClient, x) == Trace(w.log, AtServer, x))
  }

  ghost predicate Original(w0: World, s: State) {
    forall x :: Pending(s, x) ==> OriginalAt(w0, s.w, x)
  }

  lemma OriginalOutside(w0: World, s: State, p: Path, n: Name, m: Name, r: Reconciliation, out: Applied, s': State,
      x: Path)
    requires StepFacts(s, p, n, m, r, out, s') && Original(w0, s) && Pending(s', x) && Outside(p, n, m, x)
    ensures OriginalAt(w0, s'.w, x)
  {
    PendingElsewhere(s, p, n, m, out, s', x);
    if x in s.ctxs { ContextNotPending(s, x); }
    TraceAfter(s.w, out.w, p, n, m, r, AtClient, x);
    TraceAfter(s.w, out.w, p, n, m, r, AtAncestor, x);
    TraceAfter(s.w, out.w, p, n, m, r, AtServer, x);
    assert EndKept(s, p, Client, out.w.cli, x) && EndKept(s, p, Server, out.w.srv, x);
  }

  lemma OriginalEntered(w0: World, s: State, p: Path, n: Name, m: Name, r: Reconciliation, out: Applied, s': State,
      x: Path)
    requires StepFacts(s, p, n, m, r, out, s') && Original(w0, s) && !r.Split?
    requires Under(Sub(p, n), x) && x != Sub(p, n) && (x in out.w.anc ==> Get(s.w.anc, x) == Get(out.w.anc, x))
    ensures OriginalAt(w0, s'.w, x)
  {
    hide WellFormed, CtxsAfter, LogAfter, Nested;
    TodoPending(s, p, n, x);
    TraceAfter(s.w, out.w, p, n, m, r, AtClient, x);
    TraceAfter(s.w, out.w, p, n, m, r, AtAncestor, x);
    TraceAfter(s.w, out.w, p, n, m, r, AtServer, x);
    assert OriginalAt(w0, s.w, x);
  }

  lemma SplitTraces(w: World, w': World, p: Path, n: Name, m: Name, side: Side, x: Path)
    requires SplitResult(w, w', p, n, m, side) && Under(Sub(p, m), x)
    ensures var y := Graft(x, Sub(p, m), Sub(p, n));
            && Trace(w'.log, PlaceOf(side), x) == Trace(w.log, PlaceOf(side), y)
            && (x in w'.anc ==> Trace(w'.log, AtAncestor, x) == Trace(w.log, AtAncestor, y))
  {
    var q, q2 := Sub(p, n), Sub(p, m);
    var y, e := Graft(x, q2, q), Renamed(q, q2);
    var ren, anc := [Logged(PlaceOf(side), e)], [Logged(AtAncestor, e)];
    TraceRename(w.log, PlaceOf(side), q, q2, x);
    if x in w'.anc {
      TraceSkips(w.log + ren, anc, PlaceOf(side), x);
      TraceRename(w.log + ren, AtAncestor, q, q2, x);
      TraceSkips(w.log, ren, AtAncestor, y);
    } else if w'.log == w.log + ren + anc {
      TraceSkips(w.log + ren, anc, PlaceOf(side), x);
    }
  }

  /** Below the new name everything is as it was below the old one. */
  lemma OriginalMoved(w0: World, s: State, p: Path, n: Name, m: Name, side: Side, w': World, x: Path)
    requires TreesWellFormed(s.w) && Original(w0, s) && p in s.ctxs && n in s.ctxs[p].todo && n != m &&
        !Exists(s.w, Sub(p, m))
    requires SplitResult(s.w, w', p, n, m, side) && Under(Sub(p, m), x)
    ensures OriginalAt(w0, w', x)
  {
    hide WellFormed;
    var q, q2 := Sub(p, n), Sub(p, m);
    var y := Graft(x, q2, q);
    GraftBack(x, q2, q);
    TodoPending(s, p, n, y);
    assert OriginalAt(w0, s.w, y);
    SplitTraces(s.w, w', p, n, m, side, x);
    RekeyGet(End(s.w, side), p, n, m, x);
    if q in s.w.anc { RekeyGet(s.w.anc, p, n, m, x); }
    NothingBelowAbsent(End(s.w, Rev(side)), q2, x);
  }

  /** What stays below the old name has lost its record and kept its place. */
  lemma OriginalLeft(w0: World, s: State, p: Path, n: Name, m: Name, r: Reconciliation, w': World, x: Path)
    requires TreesWellFormed(s.w) && Original(w0, s) && p in s.ctxs && n in s.ctxs[p].todo && n != m &&
        !Exists(s.w, Sub(p, m))
    requires r.Split? && LogAfter(s.w, w', p, n, m, r)
    requires SplitResult(s.w, w', p, n, m, r.renamed) && Under(Sub(p, n), x)
    ensures OriginalAt(w0, w', x)
  {
    TodoPending(s, p, n, x);
    assert OriginalAt(w0, s.w, x);
    SiblingsDisjoint(p, n, m, x);
    RekeyGet(End(s.w, r.renamed), p, n, m, x);
    if Sub(p, n) in s.w.anc { RekeyGet(s.w.anc, p, n, m, x); }
    TraceAfter(s.w, w', p, n, m, r, AtClient, x);
    TraceAfter(s.w, w', p, n, m, r, AtServer, x);
  }

  lemma RequeuedOnlyBySplit(w: World, t: Tables, todo: set<Name>, synth: Synthetics, p: Path, n: Name,
      r: Reconciliation, f: Faults)
    ensures var out := Apply(w, t, todo, synth, p, n, r, f); out.todo != todo ==> r.Split? && !f.stop && out.res != Fail
  {
  }

  ghost predicate AncestorOnlyShrinks(w: World, w': World, q: Path) {
    forall x :: x != q && x in w'.anc ==> Get(w.anc, x) == Get(w'.anc, x)
  }

  /** What a step of the walk tells about names put back on the queue and entered. */
  ghost predicate QueueFacts(s: State, p: Path, n: Name, m: Name, r: Reconciliation, out: Applied, s': State) {
    && p in s.ctxs && p in s'.ctxs && TreeClosed(s'.ctxs) && s'.ctxs[p].phase.Active? && Sub(p, m) !in s'.ctxs
    && (n in s'.ctxs[p].todo || m in s'.ctxs[p].todo ==> r.Split? && SplitResult(s.w, out.w, p, n, m, r.renamed))
    && (Sub(p, n) in s'.ctxs ==> !r.Split? && s'.ctxs[Sub(p, n)].phase.Queued?)
    && (!r.Split? ==> AncestorOnlyShrinks(s.w, out.w, Sub(p, n)))
  }

  lemma QueueFactsOf(s: State, p: Path, n: Name, mode: SyncMode, f: Faults)
    requires Working(s, p, n)
    ensures QueueFacts(s, p, n, NewName(s, p, n), Decide(s.ctxs[p], n, mode), ApplyStep(s, p, n, mode, f),
        File(s, p, n, mode, f))
  {
    var m, r, out, s' := NewName(s, p, n), Decide(s.ctxs[p], n, mode), ApplyStep(s, p, n, mode, f),
        File(s, p, n, mode, f);
    var synth := if r.Use? then Synth(s.ctxs, p, Rev(r.src)) else [];
    SteppedBy(s, p, n, mode, f);
    FileKeeps(s, p, n, mode, f);
    StepLocal(s, p, n, mode, f);
    StepOutcome(s, p, n, mode, f);
    hide Compute.Choose, Apply, LocalStep, OutcomeOf, AncestorOnlyShrinks, SplitResult, Alternate;
    RequeuedIsSplit(s, p, n, m, r, f, synth, out);
    EnteredIsNotSplit(s, p, n, r, f, out);
    if !r.Split? { ShrinksOnly(s, p, n, r, f, synth, out); }
    assert n in s'.ctxs[p].todo || m in s'.ctxs[p].todo ==> out.todo != s.ctxs[p].todo - {n};
    assert Sub(p, m) !in s.ctxs;
  }

  lemma RequeuedIsSplit(s: State, p: Path, n: Name, m: Name, r: Reconciliation, f: Faults, synth: Synthetics,
      out: Applied)
    requires p in s.ctxs && StepReady(s, p, n, m) && m == NewName(s, p, n)
    requires out == Apply(s.w, s.ctxs[p].t, s.ctxs[p].todo - {n}, synth, p, n, r, f)
    ensures out.todo != s.ctxs[p].todo - {n} ==> r.Split? && SplitResult(s.w, out.w, p, n, m, r.renamed)
  {
    hide *;
    RequeuedOnlyBySplit(s.w, s.ctxs[p].t, s.ctxs[p].todo - {n}, synth, p, n, r, f);
    ApplyCases(s.w, s.ctxs[p].t, s.ctxs[p].todo - {n}, synth, p, n, r, f);
    if out.todo != s.ctxs[p].todo - {n} {
      SplitAncestor(s, p, n, m, r.renamed, r.fate, f, out);
    }
  }

  lemma EnteredIsNotSplit(s: State, p: Path, n: Name, r: Reconciliation, f: Faults, out: Applied)
    requires p in s.ctxs && Sub(p, n) !in s.ctxs && OutcomeOf(s, p, n, r, f, out)
    ensures var s' := Conclude(s, p, n, out, f);
            Sub(p, n) in s'.ctxs ==> !r.Split? && s'.ctxs[Sub(p, n)].phase.Queued?
  {
    hide Alternate;
    SpawnedOnly(s, p, n, out, f);
  }

  lemma ShrinksOnly(s: State, p: Path, n: Name, r: Reconciliation, f: Faults, synth: Synthetics, out: Applied)
    requires p in s.ctxs && WellFormed(s.w.anc) && IsDir(s.w.anc, p) &&
        Look(s.ctxs[p].t.anc, n) == Get(s.w.anc, Sub(p, n))
    requires out == Apply(s.w, s.ctxs[p].t, s.ctxs[p].todo - {n}, synth, p, n, r, f) && !r.Split?
    ensures AncestorOnlyShrinks(s.w, out.w, Sub(p, n))
  {
    hide Apply, WellFormed;
    forall x | x != Sub(p, n) && x in out.w.anc ensures Get(s.w.anc, x) == Get(out.w.anc, x) {
      AncestorBelow(s, p, n, r, f, synth, out, x);
    }
  }

  lemma SpawnedOnly(s: State, p: Path, n: Name, out: Applied, f: Faults)
    requires p in s.ctxs && Sub(p, n) !in s.ctxs
    ensures var s' := Conclude(s, p, n, out, f);
            Sub(p, n) in s'.ctxs ==> out.res == Clean(true) || out.res.RecursiveDelete?
  {
    assert Sub(p, n) != p;
  }

  lemma OriginalAfter(w0: World, s: State, p: Path, n: Name, m: Name, r: Reconciliation, out: Applied, s': State,
      x: Path)
    requires StepFacts(s, p, n, m, r, out, s') && QueueFacts(s, p, n, m, r, out, s') && Original(w0, s) &&
        Pending(s', x) && n != m
    ensures OriginalAt(w0, s'.w, x)
  {
    var q, q2 := Sub(p, n), Sub(p, m);
    if Outside(p, n, m, x) {
      OriginalOutside(w0, s, p, n, m, r, out, s', x);
    } else if Under(q, x) {
      if n in s'.ctxs[p].todo {
        OriginalLeft(w0, s, p, n, m, r, s'.w, x);
      } else if q in s'.ctxs {
        if x == q { ContextNotPending(s', x); }
        OriginalEntered(w0, s, p, n, m, r, out, s', x);
      } else {
        ClosedNotPending(s', p, n, x);
      }
    } else {
      if m in s'.ctxs[p].todo {
        OriginalMoved(w0, s, p, n, m, r.renamed, s'.w, x);
      } else {
        ClosedNotPending(s', p, m, x);
      }
    }
  }

  // ----- Nothing is lost -----

  ghost predicate Waiting(s: State, side: Side, o: Path, x: Path) {
    Pending(s, x) && x in End(s.w, side) && Trace(s.w.log, PlaceOf(side), x) == o
  }

  ghost predicate HoldsAt(w: World, x: Path, d: FileData) {
    (x in w.cli && d.MatchesContent(w.cli[x])) || (x in w.srv && d.MatchesContent(w.srv[x]))
  }

  ghost predicate Held(s: State, d: FileData, x: Path) {
    !Pending(s, x) && HoldsAt(s.w, x, d)
  }

  ghost predicate Recorded(w0: World, o: Path, d: FileData) {
    o in w0.anc && w0.anc[o].MatchesContent(d)
  }

  /** The file that stood at `o` on `side` is still to be dealt with, or its content is
      held somewhere for good, or the ancestor had recorded it. */
  ghost predicate SafeFile(w0: World, s: State, side: Side, o: Path)
    requires o in End(w0, side)
  {
    var d := End(w0, side)[o];
    || (exists x :: Waiting(s, side, o, x))
    || (exists x :: Held(s, d, x))
    || Recorded(w0, o, d)
  }

  ghost predicate Safe(w0: World, s: State) {
    forall side, o :: o in End(w0, side) && !End(w0, side)[o].Directory? ==> SafeFile(w0, s, side, o)
  }

  lemma HeldStays(s: State, p: Path, n: Name, m: Name, r: Reconciliation, out: Applied, s': State, d: FileData, x: Path)
    requires StepFacts(s, p, n, m, r, out, s') && Held(s, d, x) && !d.Directory?
    ensures Held(s', d, x)
  {
    if Under(Sub(p, n), x) { TodoPending(s, p, n, x); }
    if Under(Sub(p, m), x) {
      NothingBelowAbsent(s.w.cli, Sub(p, m), x);
      NothingBelowAbsent(s.w.srv, Sub(p, m), x);
    }
    PendingElsewhere(s, p, n, m, out, s', x);
    assert EndKept(s, p, Client, out.w.cli, x) && EndKept(s, p, Server, out.w.srv, x);
  }

  /** The place of a file after the step: where it was, or below the new name. */
  lemma StillThere(s: State, p: Path, n: Name, m: Name, r: Reconciliation, out: Applied, side: Side, x: Path)
      returns (y: Path)
    requires EndAfter(s.w, out.w, p, n, m, r, side) && TreesWellFormed(s.w) && n != m
    requires x in End(s.w, side) && Under(Sub(p, n), x)
    requires x == Sub(p, n) ==> !(r.Use? && side == Rev(r.src))
    ensures y in End(out.w, side) && End(out.w, side)[y] == End(s.w, side)[x]
    ensures || (y == x && (x != Sub(p, n) ==> Get(End(out.w, side), x) == Get(End(s.w, side), x)))
            || (Under(Sub(p, m), y) && Graft(y, Sub(p, m), Sub(p, n)) == x &&
                MovedEnd(End(s.w, side), End(out.w, side), p, n, m, r, side))
  {
    if KeptEnd(End(s.w, side), End(out.w, side), p, n, m, r, side, End(s.w, Rev(side))) {
      y := x;
      if x != Sub(p, n) { assert Get(End(out.w, side), x) == Get(End(s.w, side), x); }
    } else {
      y := Graft(x, Sub(p, n), Sub(p, m));
      GraftBack(x, Sub(p, n), Sub(p, m));
      RekeyGet(End(s.w, side), p, n, m, y);
    }
  }

  lemma OwnNameNotPending(s: State, p: Path, n: Name, m: Name, r: Reconciliation, out: Applied, s': State)
    requires QueueFacts(s, p, n, m, r, out, s') && !r.Split?
    ensures !Pending(s', Sub(p, n))
  {
    if Sub(p, n) in s'.ctxs { ContextNotPending(s', Sub(p, n)); } else { ClosedNotPending(s', p, n, Sub(p, n)); }
  }

  /** A file that `Use` overwrites. */
  lemma OverwrittenSafe(w0: World, s: State, q: Path, src: Side, s': State, o: Path)
    requires OriginalAt(w0, s.w, q) && !Pending(s', q) && Get(End(s'.w, src), q) == Get(End(s.w, src), q)
    requires q in End(s.w, Rev(src)) && Trace(s.w.log, PlaceOf(Rev(src)), q) == o && o in End(w0, Rev(src))
    requires var a, data, was := Get(s.w.anc, q), Get(End(s.w, src), q), End(s.w, Rev(src))[q];
             (a.Some? && a.value.MatchesContent(was)) || (data.Some? && data.value.MatchesContent(was))
    ensures SafeFile(w0, s', Rev(src), o)
  {
    var d, a, data := End(w0, Rev(src))[o], Get(s.w.anc, q), Get(End(s.w, src), q);
    assert Get(End(s.w, Rev(src)), q) == Some(d);
    if a.Some? && a.value.MatchesContent(d) {
      assert Recorded(w0, o, d);
    } else {
      assert Held(s', d, q);
    }
  }

  lemma WaitingIsOriginal(w0: World, s: State, side: Side, o: Path, x: Path)
    requires OriginalAt(w0, s.w, x) && Waiting(s, side, o, x) && o in End(w0, side)
    ensures x in End(s.w, side) && End(s.w, side)[x] == End(w0, side)[o]
  {
    hide Pending;
    assert Unmoved(w0, s.w, PlaceOf(side), x);
  }

  /** Where a file of the step's own tree went. */
  ghost predicate WentTo(p: Path, n: Name, m: Name, x: Path, y: Path) {
    || y == x
    || (Under(Sub(p, m), y) && Graft(y, Sub(p, m), Sub(p, n)) == x)
  }

  lemma StillWaiting(s: State, p: Path, n: Name, m: Name, r: Reconciliation, out: Applied, s': State, side: Side,
      x: Path, y: Path)
    requires LogAfter(s.w, s'.w, p, n, m, r) && n != m && Under(Sub(p, n), x)
    requires QueueFacts(s, p, n, m, r, out, s') && s'.w == out.w && WentTo(p, n, m, x, y) && Pending(s', y)
    requires y != x ==> r.Split? && side == r.renamed
    ensures Trace(s'.w.log, PlaceOf(side), y) == Trace(s.w.log, PlaceOf(side), x)
  {
    hide LogAfter, SplitResult, Pending, AncestorOnlyShrinks;
    SiblingsDisjoint(p, n, m, x);
    if y == x {
      TraceAfter(s.w, out.w, p, n, m, r, PlaceOf(side), x);
    } else {
      if m !in s'.ctxs[p].todo { ClosedNotPending(s', p, m, y); }
      hide TreeClosed;
      SplitTraces(s.w, s'.w, p, n, m, side, y);
    }
  }

  /** A file that is renamed, kept or carried along. */
  lemma CarriedSafe(w0: World, s: State, p: Path, n: Name, m: Name, r: Reconciliation, out: Applied, s': State,
      side: Side, o: Path, x: Path)
    requires StepFacts(s, p, n, m, r, out, s') && QueueFacts(s, p, n, m, r, out, s') && OriginalAt(w0, s.w, x) && n != m
    requires Waiting(s, side, o, x) && Under(Sub(p, n), x) && (x == Sub(p, n) ==> !(r.Use? && side == Rev(r.src)))
    requires o in End(w0, side) && !End(w0, side)[o].Directory?
    ensures SafeFile(w0, s', side, o)
  {
    var q, d := Sub(p, n), End(w0, side)[o];
    WaitingIsOriginal(w0, s, side, o, x);
    assert EndAfter(s.w, out.w, p, n, m, r, side);
    hide OriginalAt, EndsAfter, LogAfter, Stepped, KeptEnd, QueueFacts, TreesWellFormed, Pending;
    var y := StillThere(s, p, n, m, r, out, side, x);
    if Pending(s', y) {
      StillWaiting(s, p, n, m, r, out, s', side, x, y);
      assert Waiting(s', side, o, y);
    } else {
      assert Held(s', d, y);
    }
  }

  lemma WaitingOutside(w0: World, s: State, p: Path, n: Name, m: Name, r: Reconciliation, out: Applied, s': State,
      side: Side, o: Path, x: Path)
    requires StepFacts(s, p, n, m, r, out, s') && Waiting(s, side, o, x) && Outside(p, n, m, x)
    ensures Waiting(s', side, o, x)
  {
    PendingElsewhere(s, p, n, m, out, s', x);
    TraceAfter(s.w, out.w, p, n, m, r, PlaceOf(side), x);
    assert EndKept(s, p, Client, out.w.cli, x) && EndKept(s, p, Server, out.w.srv, x);
  }

  lemma OverwriteSafe(w0: World, s: State, p: Path, n: Name, m: Name, r: Reconciliation, out: Applied, s': State,
      mode: SyncMode, o: Path)
    requires StepFacts(s, p, n, m, r, out, s') && QueueFacts(s, p, n, m, r, out, s') && OriginalAt(w0, s.w, Sub(p, n))
    requires r.Use? && Compute.Gentle(mode)
    requires var c, a, v := Get(s.w.cli, Sub(p, n)), Get(s.w.anc, Sub(p, n)), Get(s.w.srv, Sub(p, n));
             r == Compute.Choose(c, a, v, mode)
    requires o in End(w0, Rev(r.src)) && Waiting(s, Rev(r.src), o, Sub(p, n))
    ensures SafeFile(w0, s', Rev(r.src), o)
  {
    var q := Sub(p, n);
    hide Compute.Choose, Compute.Gentle, LogAfter, LocalStep, CtxsAfter, Pending;
    Compute.GentleLosesNothing(Get(s.w.cli, q), Get(s.w.anc, q), Get(s.w.srv, q), mode);
    OwnNameNotPending(s, p, n, m, r, out, s');
    assert EndAfter(s.w, out.w, p, n, m, r, r.src);
    OverwrittenSafe(w0, s, q, r.src, s', o);
  }

  lemma FileSafeAt(w0: World, s: State, p: Path, n: Name, m: Name, r: Reconciliation, out: Applied, s': State,
      mode: SyncMode, side: Side, o: Path)
    requires StepFacts(s, p, n, m, r, out, s') && QueueFacts(s, p, n, m, r, out, s') && Original(w0, s) && n != m
    requires o in End(w0, side) && !End(w0, side)[o].Directory? && SafeFile(w0, s, side, o) && Compute.Gentle(mode)
    requires var c, a, v := Get(s.w.cli, Sub(p, n)), Get(s.w.anc, Sub(p, n)), Get(s.w.srv, Sub(p, n));
             r == Compute.Choose(c, a, v, mode)
    ensures SafeFile(w0, s', side, o)
  {
    var d, q := End(w0, side)[o], Sub(p, n);
    hide Compute.Choose, Compute.Gentle, QueueFacts, LogAfter, EndsAfter, LocalStep, CtxsAfter;
    if Recorded(w0, o, d) {
    } else if x :| Held(s, d, x) {
      HeldStays(s, p, n, m, r, out, s', d, x);
    } else {
      var x :| Waiting(s, side, o, x);
      assert OriginalAt(w0, s.w, x);
      if Under(q, x) {
        if x == q && r.Use? && side == Rev(r.src) {
          OverwriteSafe(w0, s, p, n, m, r, out, s', mode, o);
        } else {
          CarriedSafe(w0, s, p, n, m, r, out, s', side, o, x);
        }
      } else {
        if Under(Sub(p, m), x) { NothingBelowAbsent(End(s.w, side), Sub(p, m), x); }
        WaitingOutside(w0, s, p, n, m, r, out, s', side, o, x);
      }
    }
  }

  lemma FileOriginal(w0: World, s: State, p: Path, n: Name, mode: SyncMode, f: Faults)
    requires Working(s, p, n) && Original(w0, s)
    ensures Original(w0, File(s, p, n, mode, f))
  {
    var m, r, out, s' := NewName(s, p, n), Decide(s.ctxs[p], n, mode), ApplyStep(s, p, n, mode, f),
        File(s, p, n, mode, f);
    FactsOf(s, p, n, mode, f);
    QueueFactsOf(s, p, n, mode, f);
    assert n != m by { NewNameFree(s, p, n); }
    OriginalFromFacts(w0, s, p, n, m, r, out, s');
  }

  lemma OriginalFromFacts(w0: World, s: State, p: Path, n: Name, m: Name, r: Reconciliation, out: Applied, s': State)
    requires StepFacts(s, p, n, m, r, out, s') && QueueFacts(s, p, n, m, r, out, s') && Original(w0, s) && n != m
    ensures Original(w0, s')
  {
    forall x | Pending(s', x) ensures OriginalAt(w0, s'.w, x) { OriginalAfter(w0, s, p, n, m, r, out, s', x); }
  }

  lemma FileSafe(w0: World, s: State, p: Path, n: Name, mode: SyncMode, f: Faults)
    requires Working(s, p, n) && Original(w0, s) && Safe(w0, s) && Compute.Gentle(mode)
    ensures Safe(w0, File(s, p, n, mode, f))
  {
    var m, r, out, s' := NewName(s, p, n), Decide(s.ctxs[p], n, mode), ApplyStep(s, p, n, mode, f),
        File(s, p, n, mode, f);
    FactsOf(s, p, n, mode, f);
    QueueFactsOf(s, p, n, mode, f);
    assert n != m && Shows(s.w, s.ctxs[p].t, p, n) by { NewNameFree(s, p, n); }
    SafeFromFacts(w0, s, p, n, m, r, out, s', mode);
  }

  lemma SafeFromFacts(w0: World, s: State, p: Path, n: Name, m: Name, r: Reconciliation, out: Applied, s': State,
      mode: SyncMode)
    requires StepFacts(s, p, n, m, r, out, s') && QueueFacts(s, p, n, m, r, out, s') && Original(w0, s) &&
        Safe(w0, s) && n != m
    requires Compute.Gentle(mode) && Shows(s.w, s.ctxs[p].t, p, n) && r == Decide(s.ctxs[p], n, mode)
    ensures Safe(w0, s')
  {
    forall side, o | o in End(w0, side) && !End(w0, side)[o].Directory? ensures SafeFile(w0, s', side, o) {
      FileSafeAt(w0, s, p, n, m, r, out, s', mode, side, o);
    }
  }

  // ----- Listing and completing -----

  /** Whenever files stay where they are, dealing with a path can only make it safe. */
  lemma ShrinkSafe(w0: World, s: State, s': State)
    requires Original(w0, s) && s'.w.log == s.w.log
    requires forall x :: Pending(s', x) ==> Pending(s, x)
    requires forall x :: Pending(s, x) ==>
               Get(s'.w.cli, x) == Get(s.w.cli, x) && Get(s'.w.srv, x) == Get(s.w.srv, x)
               && (x in s'.w.anc ==> Get(s'.w.anc, x) == Get(s.w.anc, x))
    requires forall x, d: FileData :: HoldsAt(s.w, x, d) && !d.Directory? ==> HoldsAt(s'.w, x, d)
    ensures Original(w0, s') && (Safe(w0, s) ==> Safe(w0, s'))
  {
    forall x | Pending(s', x) ensures OriginalAt(w0, s'.w, x) { assert OriginalAt(w0, s.w, x); }
    forall side, o | Safe(w0, s) && o in End(w0, side) && !End(w0, side)[o].Directory?
        ensures SafeFile(w0, s', side, o) {
      var d := End(w0, side)[o];
      assert SafeFile(w0, s, side, o);
      if Recorded(w0, o, d) {
      } else if x :| Held(s, d, x) {
        assert Held(s', d, x);
      } else {
        var x :| Waiting(s, side, o, x);
        assert OriginalAt(w0, s.w, x);
        assert Get(s'.w.cli, x) == Get(s.w.cli, x);
        if Pending(s', x) { assert Waiting(s', side, o, x); } else { assert Held(s', d, x); }
      }
    }
  }

  lemma ListedPending(s: State, p: Path, c: Ctx, w: World, x: Path)
    requires p in s.ctxs && s.ctxs[p].phase.Queued? && !c.phase.Queued? && Pending(State(w, s.ctxs[p := c]), x)
    ensures Pending(s, x)
  {
    var s' := State(w, s.ctxs[p := c]);
    var p' :| PendingIn(s', p', x);
    if p' == p {
      var k :| k in c.todo && Under(Sub(p, k), x);
      QueuedPending(s, p, x);
    } else {
      assert PendingIn(s, p', x);
    }
  }

  lemma StartSafe(w0: World, s: State, p: Path, fault: ListFault)
    requires Str(s) && p in s.ctxs && s.ctxs[p].phase.Queued? && Original(w0, s)
    ensures Original(w0, Start(s, p, fault)) && (Safe(w0, s) ==> Safe(w0, Start(s, p, fault)))
  {
    var s' := Start(s, p, fault);
    StartKeeps(s, p, fault);
    QueuedListable(s, p);
    assert s' == State(s'.w, s.ctxs[p := s'.ctxs[p]]) && !s'.ctxs[p].phase.Queued?;
    forall x | Pending(s', x) ensures Pending(s, x) { ListedPending(s, p, s'.ctxs[p], s'.w, x); }
    StartSafeParts(w0, s, p, s');
  }

  lemma StartSafeParts(w0: World, s: State, p: Path, s': State)
    requires Original(w0, s) && (s'.w == s.w || PurgedBelow(s.w, s'.w, p))
    requires forall x :: Pending(s', x) ==> Pending(s, x)
    ensures Original(w0, s') && (Safe(w0, s) ==> Safe(w0, s'))
  {
    ShrinkSafe(w0, s, s');
  }

  lemma CompleteSafe(w0: World, s: State, p: Path, f: EndFaults)
    requires Str(s) && p in s.ctxs && s.ctxs[p].phase.Active? && s.ctxs[p].todo == {} && KidsDone(s, p)
    requires Original(w0, s)
    ensures Original(w0, Complete(s, p, f)) && (Safe(w0, s) ==> Safe(w0, Complete(s, p, f)))
  {
    var s' := Complete(s, p, f);
    CompleteKeeps(s, p, f);
    assert PlacedAt(s.w, p, s.ctxs[p].kind);
    ContextNotPending(s, p);
    CompleteHolds(s, p, f);
    CompleteTraces(s, p, f);
    CompleteSafeParts(w0, s, p, s');
  }

  lemma CompleteHolds(s: State, p: Path, f: EndFaults)
    requires p in s.ctxs && PlacedAt(s.w, p, s.ctxs[p].kind) && GoneAtMost(s.w, Complete(s, p, f).w, p)
    ensures Complete(s, p, f).w == s.w || (forall d: FileData :: !d.Directory? ==> !HoldsAt(s.w, p, d))
  {
  }

  lemma CompleteTraces(s: State, p: Path, f: EndFaults)
    requires p in s.ctxs
    ensures var log := Complete(s, p, f).w.log;
            forall at, x :: Trace(log, at, x) == Trace(s.w.log, at, x)
  {
    var log := Complete(s, p, f).w.log;
    assert |s.w.log| <= |log| && log[..|s.w.log|] == s.w.log && NoRenames(log[|s.w.log|..]);
    forall at, x ensures Trace(log, at, x) == Trace(s.w.log, at, x) {
      assert log == s.w.log + log[|s.w.log|..];
      TraceSkips(s.w.log, log[|s.w.log|..], at, x);
    }
  }

  lemma CompletePending(s: State, p: Path, s': State, x: Path)
    requires p in s.ctxs && s.ctxs[p].phase.Active? && s.ctxs[p].todo == {} && p in s'.ctxs
    requires s'.ctxs == s.ctxs[p := s.ctxs[p].(phase := s'.ctxs[p].phase)] && s'.ctxs[p].phase.Done?
    ensures Pending(s', x) <==> Pending(s, x)
  {
    if Pending(s', x) {
      var p' :| PendingIn(s', p', x);
      assert PendingIn(s, p', x);
    }
    if Pending(s, x) {
      var p' :| PendingIn(s, p', x);
      assert PendingIn(s', p', x);
    }
  }

  lemma CompleteSafeParts(w0: World, s: State, p: Path, s': State)
    requires Original(w0, s) && GoneAtMost(s.w, s'.w, p) && !Pending(s, p)
    requires p in s.ctxs && s.ctxs[p].phase.Active? && s.ctxs[p].todo == {} && p in s'.ctxs
    requires s'.ctxs == s.ctxs[p := s.ctxs[p].(phase := s'.ctxs[p].phase)] && s'.ctxs[p].phase.Done?
    requires s'.w == s.w || (forall d: FileData :: !d.Directory? ==> !HoldsAt(s.w, p, d))
    requires forall at, x :: Trace(s'.w.log, at, x) == Trace(s.w.log, at, x)
    ensures Original(w0, s') && (Safe(w0, s) ==> Safe(w0, s'))
  {
    var s1 := s'.(w := s'.w.(log := s.w.log));
    forall x ensures Pending(s1, x) <==> Pending(s, x) { CompletePending(s, p, s1, x); }
    forall x | Pending(s, x)
      ensures Get(s1.w.cli, x) == Get(s.w.cli, x) && Get(s1.w.srv, x) == Get(s.w.srv, x) &&
          Get(s1.w.anc, x) == Get(s.w.anc, x)
    {
      assert x != p;
      assert Get(s'.w.cli, x) == Get(s.w.cli, x);
    }
    forall x, d: FileData | HoldsAt(s.w, x, d) && !d.Directory? ensures HoldsAt(s1.w, x, d) {
      if s'.w != s.w { assert x != p; assert Get(s'.w.cli, x) == Get(s.w.cli, x); }
    }
    ShrinkSafe(w0, s, s1);
    LogAside(w0, s1, s');
  }

  /** Only the origins that a history gives matter, not the history. */
  lemma LogAside(w0: World, s1: State, s': State)
    requires s1 == s'.(w := s'.w.(log := s1.w.log)) &&
        (forall at, x :: Trace(s'.w.log, at, x) == Trace(s1.w.log, at, x))
    requires Original(w0, s1)
    ensures Original(w0, s') && (Safe(w0, s1) ==> Safe(w0, s'))
  {
    forall x ensures Pending(s1, x) <==> Pending(s', x) {
      assert forall p :: PendingIn(s1, p, x) <==> PendingIn(s', p, x);
    }
    forall x | Pending(s', x) ensures OriginalAt(w0, s'.w, x) { assert OriginalAt(w0, s1.w, x); }
    forall side, o | Safe(w0, s1) && o in End(w0, side) && !End(w0, side)[o].Directory?
        ensures SafeFile(w0, s', side, o) {
      var d := End(w0, side)[o];
      assert SafeFile(w0, s1, side, o);
      if Recorded(w0, o, d) {
      } else if x :| Held(s1, d, x) {
        assert Held(s', d, x);
      } else {
        var x :| Waiting(s1, side, o, x);
        assert Waiting(s', side, o, x);
      }
    }
  }

  // ----- Whole runs -----

  lemma NextOriginal(w0: World, s: State, a: Action, mode: SyncMode)
    requires Str(s) && Original(w0, s) && Enabled(s, a)
    ensures Original(w0, Next(s, a, mode))
  {
    match a
    case DoStart(p, fault) => StartSafe(w0, s, p, fault);
    case DoFile(p, n, f) => FileOriginal(w0, s, p, n, mode, f);
    case DoComplete(p, ef) => CompleteSafe(w0, s, p, ef);
  }

  lemma NextSafe(w0: World, s: State, a: Action, mode: SyncMode)
    requires Str(s) && Original(w0, s) && Safe(w0, s) && Enabled(s, a) && Compute.Gentle(mode)
    ensures Safe(w0, Next(s, a, mode))
  {
    match a
    case DoStart(p, fault) => StartSafe(w0, s, p, fault);
    case DoFile(p, n, f) => FileSafe(w0, s, p, n, mode, f);
    case DoComplete(p, ef) => CompleteSafe(w0, s, p, ef);
  }

  lemma {:induction false} RunSafe(w0: World, s: State, run: seq<Action>, mode: SyncMode)
    requires Str(s) && Original(w0, s) && Safe(w0, s) && Legal(s, run, mode) && Compute.Gentle(mode)
    ensures Safe(w0, Final(s, run, mode)) && Original(w0, Final(s, run, mode))
    decreases |run|
  {
    if run != [] {
      NextKeeps(s, run[0], mode);
      NextOriginal(w0, s, run[0], mode);
      NextSafe(w0, s, run[0], mode);
      RunSafe(w0, Next(s, run[0], mode), run[1..], mode);
    }
  }

  lemma {:induction false} RootAbove(x: Path)
    ensures Under(Root, x)
  {
    if x.Sub? { RootAbove(x.parent); }
  }

  lemma InitSafe(w: World)
    requires TreesWellFormed(w) && w.log == []
    ensures Original(w, Init(w)) && Safe(w, Init(w))
  {
    var s := Init(w);
    forall side, o | o in End(w, side) && !End(w, side)[o].Directory? ensures SafeFile(w, s, side, o) {
      RootAbove(o);
      QueuedPending(s, Root, o);
      assert Waiting(s, side, o, o);
    }
  }

  /** The content of the file that was at `o` on `side` is found on an end, or is what the
      ancestor had recorded at `o`. */
  ghost predicate Survives(w: World, w': World, side: Side, o: Path)
    requires o in End(w, side)
  {
    var d := End(w, side)[o];
    (exists x :: HoldsAt(w', x, d)) || (o in w.anc && w.anc[o].MatchesContent(d))
  }

  lemma SafeSurvives(w: World, s: State, side: Side, o: Path)
    requires Safe(w, s) && Original(w, s) && o in End(w, side) && !End(w, side)[o].Directory?
    ensures Survives(w, s.w, side, o)
  {
    var d := End(w, side)[o];
    assert SafeFile(w, s, side, o);
    if Recorded(w, o, d) {
    } else if x :| Held(s, d, x) {
      assert HoldsAt(s.w, x, d);
    } else {
      var x :| Waiting(s, side, o, x);
      assert OriginalAt(w, s.w, x);
      assert HoldsAt(s.w, x, d);
    }
  }

  /** The main theorem on data: over any trees, in every mode that forces no update and
      forces a delete only where the opposite create is on, at every moment of every
      interleaving and whatever has failed, a file or symlink that was on an end when the
      run began still stands on an end, or its content is found on an end, or it is the
      content the ancestor had recorded for that file. */
  lemma NothingIsLost(w: World, run: seq<Action>, mode: SyncMode, side: Side, o: Path)
    requires TreesWellFormed(w) && w.log == [] && Legal(Init(w), run, mode) && Compute.Gentle(mode)
    requires o in End(w, side) && !End(w, side)[o].Directory?
    ensures Survives(w, Final(Init(w), run, mode).w, side, o)
  {
    InitStr(w);
    InitSafe(w);
    RunSafe(w, Init(w), run, mode);
    SafeSurvives(w, Final(Init(w), run, mode), side, o);
  }
}
