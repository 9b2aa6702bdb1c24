/** The mutation steps in the program's own form (src/reconcile/mutate.rs): an object that
    changes the replicas and the tables of names one operation after the other. Each method
    does what the function of module `Mutate` says, for the faults that happened. */
module Mutator {
  import opened Defs
  import opened Sets
  import opened Replica
  import opened AltName
  import opened Mutate
  import opened Effects
  import Compute

  // ----- Emptying a directory of the ancestor -----

  /** Once a path is gone, so is everything that was below it. */
  ghost predicate DownClosed(fs: Fs, gone: set<Path>) {
    forall q, x :: q in gone && x in fs && Under(q, x) ==> x in gone
  }

  /** `gone` are files strictly below `top`. */
  ghost predicate StrictlyBelow(fs: Fs, top: Path, gone: set<Path>) {
    forall q :: q in gone ==> q in fs && Under(top, q) && q != top
  }

  ghost predicate Emptied(was: Fs, now: Fs, top: Path, gone: set<Path>) {
    now == was - gone && DownClosed(was, gone) && StrictlyBelow(was, top, gone)
  }

  lemma EmptiedIsPartly(was: Fs, now: Fs, top: Path, gone: set<Path>)
    requires Emptied(was, now, top, gone)
    ensures now == PartlyEmptied(was, top, gone)
  {
    var r := PartlyEmptied(was, top, gone);
    forall q | q in was ensures q in now <==> q in r {
      if q !in gone { assert Under(q, q); }
    }
  }

  lemma EmptiedIsBelow(was: Fs, now: Fs, top: Path, gone: set<Path>)
    requires Emptied(was, now, top, gone) && (forall q :: q in was && Under(top, q) && q != top ==> q in gone)
    ensures now == RemoveBelow(was, top)
  {
  }

  lemma DropKeeps(was: Fs, gone: set<Path>)
    requires WellFormed(was) && DownClosed(was, gone)
    ensures WellFormed(was - gone)
  {
    var r := was - gone;
    forall q | q in r ensures q.Sub? && IsDir(r, q.parent) {
      if q.parent in gone { assert Under(q.parent, q); }
    }
  }

  function BelowStrictly(fs: Fs, top: Path): set<Path> {
    set q | q in fs && Under(top, q) && q != top
  }

  function AtOrBelow(fs: Fs, top: Path): set<Path> {
    set q | q in fs && Under(top, q)
  }

  function Dirs(fs: Fs, s: set<Path>): set<Path> {
    set q | q in s && IsDir(fs, q)
  }

  /** The operations that removing the files in `s` takes: one for each, and one more to list
      each directory. */
  function Weight(fs: Fs, s: set<Path>): nat {
    |s| + |Dirs(fs, s)|
  }

  lemma WeightSum(fs: Fs, a: set<Path>, b: set<Path>)
    requires a !! b
    ensures Weight(fs, a + b) == Weight(fs, a) + Weight(fs, b)
  {
    assert Dirs(fs, a + b) == Dirs(fs, a) + Dirs(fs, b);
  }

  lemma WeightGrows(fs: Fs, a: set<Path>, b: set<Path>)
    requires a <= b
    ensures Weight(fs, a) <= Weight(fs, b)
  {
    WeightSum(fs, a, b - a);
    assert a + (b - a) == b;
  }

  lemma WeightSame(fs: Fs, fs': Fs, s: set<Path>)
    requires forall q :: q in s ==> (IsDir(fs, q) <==> IsDir(fs', q))
    ensures Weight(fs, s) == Weight(fs', s)
  {
    assert Dirs(fs, s) == Dirs(fs', s);
  }

  /** A file and what is below it. */
  lemma WeightTop(fs: Fs, top: Path)
    requires top in fs
    ensures Weight(fs, AtOrBelow(fs, top)) == Weight(fs, BelowStrictly(fs, top)) + if IsDir(fs, top) then 2 else 1
  {
    assert Under(top, top);
    assert AtOrBelow(fs, top) == BelowStrictly(fs, top) + {top};
    WeightSum(fs, BelowStrictly(fs, top), {top});
    assert Dirs(fs, {top}) == if IsDir(fs, top) then {top} else {};
  }

  lemma ChildSmaller(fs: Fs, top: Path, q: Path)
    requires q in fs && q.Sub? && q.parent == top
    ensures |BelowStrictly(fs, q)| < |BelowStrictly(fs, top)|
  {
    forall x | x in BelowStrictly(fs, q) ensures x in BelowStrictly(fs, top) - {q} {
      UnderTransitive(top, q, x);
      if x == top { UnderDepth(q, top); }
    }
    SubsetSize(BelowStrictly(fs, q), BelowStrictly(fs, top) - {q});
    assert Under(top, q);
    if q == top { UnderDepth(q, top); }
    assert q in BelowStrictly(fs, top);
  }

  class Mutator {
    const dir: Path
    var w: World
    var t: Tables
    var todo: set<Name>
    /** How many more operations on the ancestor succeed while a directory is emptied. */
    var patience: nat

    constructor (dir: Path, w: World, t: Tables, todo: set<Name>, patience: nat)
      ensures this.dir == dir && this.w == w && this.t == t && this.todo == todo && this.patience == patience
    {
      this.dir, this.w, this.t, this.todo, this.patience := dir, w, t, todo, patience;
    }

    /** `remove_recursively`: children first, each directory after what is in it. */
    method RemoveRecursively(p: Path) returns (ok: bool, ghost gone: set<Path>)
      requires WellFormed(w.anc) && IsDir(w.anc, p)
      modifies this`w, this`patience
      ensures w == old(w).(anc := w.anc) && Emptied(old(w.anc), w.anc, p, gone)
      ensures ok <==> old(patience) >= 1 + Weight(old(w.anc), BelowStrictly(old(w.anc), p))
      ensures ok ==> gone == BelowStrictly(old(w.anc), p)
      ensures ok ==> patience == old(patience) - 1 - Weight(old(w.anc), gone)
      decreases |BelowStrictly(w.anc, p)|, 1
    {
      gone := {};
      ghost var was := w.anc;
      assert Weight(was, {}) == 0 by { assert Dirs(was, {}) == {}; }
      hide Weight, Progress, WellFormed, List;
      if patience == 0 { return false, gone; }
      patience := patience - 1;
      var listed := List(w.anc, p);
      var names := listed.Keys;
      ProgressStarts(was, p);
      while names != {}
        invariant w == old(w).(anc := w.anc) && names <= listed.Keys && Progress(was, w.anc, p, listed, names, gone)
        invariant patience == old(patience) - 1 - Weight(was, gone)
        decreases |names|
      {
        var n :| n in names;
        names := names - {n};
        ok, gone := RemoveNext(p, was, listed, names, n, gone);
        if !ok { return; }
      }
      ProgressEnds(was, w.anc, p, listed, gone);
      ok := true;
    }

    /** One turn of its loop. */
    method RemoveNext(p: Path, ghost was: Fs, listed: map<Name, FileData>, ghost names: set<Name>, n: Name,
                      ghost gone: set<Path>)
      returns (ok: bool, ghost all: set<Path>)
      requires WellFormed(was) && Progress(was, w.anc, p, listed, names + {n}, gone) && n in listed && n !in names
      modifies this`w, this`patience
      ensures w == old(w).(anc := w.anc) && Emptied(was, w.anc, p, all)
      ensures ok ==> Progress(was, w.anc, p, listed, names, all)
      ensures ok ==> patience + Weight(was, all) == old(patience) + Weight(was, gone)
      ensures !ok ==> old(patience) + Weight(was, gone) < Weight(was, BelowStrictly(was, p))
      decreases |BelowStrictly(was, p)|, 0
    {
      NextChild(was, w.anc, p, listed, names, n, gone);
      ghost var before := w.anc;
      ghost var more: set<Path>;
      hide Weight, AtOrBelow, WellFormed, Progress, Emptied;
      ok, more := RemoveChild(p, n, listed[n]);
      ChildDone(was, before, w.anc, p, listed, names, n, gone, more, ok);
      ChildWeight(was, before, p, names, n, listed, gone);
      all := gone + more;
    }

    /** A child with all that is below it. */
    method RemoveChild(p: Path, n: Name, data: FileData) returns (ok: bool, ghost more: set<Path>)
      requires WellFormed(w.anc) && Get(w.anc, Sub(p, n)) == Some(data)
      modifies this`w, this`patience
      ensures w == old(w).(anc := w.anc) && Dropped(old(w.anc), w.anc, Sub(p, n), more)
      ensures ok <==> old(patience) >= Weight(old(w.anc), AtOrBelow(old(w.anc), Sub(p, n)))
      ensures ok ==> more == AtOrBelow(old(w.anc), Sub(p, n)) && patience == old(patience) - Weight(old(w.anc), more)
      decreases |BelowStrictly(w.anc, Sub(p, n))|, 2
    {
      more := {};
      ghost var was := w.anc;
      var q := Sub(p, n);
      WeightTop(was, q);
      if data.Directory? {
        ok, more := RemoveRecursively(q);
        if !ok { return false, more; }
      } else {
        LeafHasNothingBelow(was, q);
        assert BelowStrictly(was, q) == {} && Dirs(was, {}) == {} && was == was - {};
      }
      hide WellFormed, HasChild, Weight, BelowStrictly, AtOrBelow, Dirs;
      if patience == 0 { return false, more; }
      patience := patience - 1;
      EmptiedChild(was, w.anc, p, n, more);
      var r := Remove(w.anc, p, n, data);
      w := w.(anc := r.value);
      more := more + {q};
      ok := true;
    }

    /** What the tables show of `n` is the truth. */
    ghost predicate Ready(n: Name)
      reads this
    {
      TreesWellFormed(w) && IsDir(w.anc, dir) && Shows(w, t, dir, n)
    }

    /** The record of `n` can be set to `data`: it is that already, or the final write works
        and there is patience for emptying a directory that gives way to something else. */
    ghost predicate Suffices(n: Name, data: Option<FileData>, works: bool)
      reads this
    {
      var was := Look(t.anc, n);
      || was == data
      || (works && (IsDirectory(was) && !IsDirectory(data) ==>
                      patience >= 1 + Weight(w.anc, BelowStrictly(w.anc, Sub(dir, n)))))
    }

    /** `replace_ancestor`: the record of `n` becomes `data`. `works` tells whether the final
        write succeeds; `fault` is what went wrong, if anything did. */
    method ReplaceAncestor(n: Name, data: Option<FileData>, works: bool) returns (ok: bool, ghost fault: AncestorFault)
      requires WellFormed(w.anc) && IsDir(w.anc, dir) && Look(t.anc, n) == Get(w.anc, Sub(dir, n))
      modifies this`w, this`t, this`patience
      ensures (ok, w, t) == SetAncestor(old(w), old(t), dir, n, data, fault)
      ensures ok == fault.Works? == old(Suffices(n, data, works))
    {
      var was, q := Look(t.anc, n), Sub(dir, n);
      if was == data {
        assert Put(t.anc, n, data) == t.anc;
        return true, Works;
      }
      ghost var anc0, gone := w.anc, {};
      assert w.anc == w.anc - gone && DownClosed(w.anc, gone);
      var emptying := IsDirectory(was) && !IsDirectory(data);
      if emptying {
        ok, gone := RemoveRecursively(q);
        if !ok {
          EmptiedIsPartly(anc0, w.anc, q, gone);
          DropStale(emptying);
          return false, Breaks(gone);
        }
        EmptiedIsBelow(anc0, w.anc, q, gone);
      }
      if !works {
        if emptying { EmptiedIsPartly(anc0, w.anc, q, gone); }
        DropStale(emptying);
        return false, Breaks(gone);
      }
      AncestorEffect(anc0, dir, n, was, data, Works);
      var r := if data.None? then Remove(w.anc, dir, n, was.value)
               else if was.None? then Create(w.anc, dir, n, data.value)
               else Update(w.anc, dir, n, was.value, data.value);
      w := w.(anc := r.value);
      DropStale(emptying);
      t := t.(anc := Put(t.anc, n, data));
      return true, Works;
    }

    /** Condemned names go with the directory they were in. */
    method DropStale(emptied: bool)
      modifies this`w
      ensures w == old(w).(condemned := if emptied then Standing(old(w.condemned), old(w.anc)) else old(w.condemned))
    {
      if emptied { w := w.(condemned := Standing(w.condemned, w.anc)); }
    }

    /** `replace_replica`: the file `n` of an end becomes `data`, and the table follows. */
    method ReplaceReplica(side: Side, synth: Synthetics, n: Name, data: Option<FileData>, fault: bool, made: nat)
        returns (ok: bool)
      requires Look(EndTable(t, side), n).Some? || data.Some?
      modifies this`w, this`t
      ensures var was := Look(EndTable(old(t), side), n);
              var r := ReplaceEnd(old(w), side, synth, dir, n, was, data, fault);
              && ok == r.Some? && w == (if ok then r.value else HalfMade(old(w), side, synth, was, made))
              && (ok && was != data ==> t == WithEndTable(old(t), side, Put(EndTable(old(t), side), n, data)))
              && (!ok || was == data ==> t == old(t))
              && w.anc == old(w.anc) && t.anc == old(t.anc)
    {
      var was, fs, q := Look(EndTable(t, side), n), End(w, side), Sub(dir, n);
      if was == data { return true; }
      if fault {
        LeaveHalfMade(side, synth, was, made);
        return false;
      }
      var r, events;
      if data.None? {
        r := Remove(fs, dir, n, was.value);
        events := [Logged(PlaceOf(side), Erased(q, was.value))];
      } else if was.Some? {
        r := Update(fs, dir, n, was.value, data.value);
        events := [Logged(PlaceOf(side), Replaced(q, was.value, data.value))];
      } else {
        r := Create(Materialise(fs, synth), dir, n, data.value);
        events := MaterialiseLog(fs, synth, PlaceOf(side)) + [Logged(PlaceOf(side), Made(q, data.value))];
      }
      if r.None? {
        LeaveHalfMade(side, synth, was, made);
        return false;
      }
      w := WithEnd(w, side, r.value, events);
      t := WithEndTable(t, side, Put(EndTable(t, side), n, data));
      ok := true;
    }

    /** A create that fails may have made some of the directories above. */
    method LeaveHalfMade(side: Side, synth: Synthetics, was: Option<FileData>, made: nat)
      modifies this`w
      ensures w == HalfMade(old(w), side, synth, was, made)
    {
      if was.None? {
        var fs, some := End(w, side), FirstOf(synth, made);
        w := WithEnd(w, side, Materialise(fs, some), MaterialiseLog(fs, some, PlaceOf(side)));
      }
    }

    /** `try_rename_replica` on an end. */
    method TryRename(side: Side, n: Name, m: Name, fault: bool) returns (ok: bool)
      modifies this`w, this`t
      ensures var r := RenameEnd(old(w), side, dir, n, m, fault);
              && ok == r.Some?
              && (ok ==> w == r.value && t == WithEndTable(old(t), side, RenameTable(EndTable(old(t), side), n, m)))
              && (!ok ==> w == old(w) && t == old(t))
    {
      var r := Rename(End(w, side), dir, n, m);
      if fault || r.None? { return false; }
      w := WithEnd(w, side, r.value, [Logged(PlaceOf(side), Renamed(Sub(dir, n), Sub(dir, m)))]);
      t := WithEndTable(t, side, RenameTable(EndTable(t, side), n, m));
      ok := true;
    }

    /** `try_rename_replica` on the ancestor, which has the name. */
    method TryRenameAncestor(n: Name, m: Name, fault: bool) returns (ok: bool)
      modifies this`w, this`t
      ensures var r := Rename(old(w.anc), dir, n, m);
              && ok == (!fault && r.Some?)
              && (ok ==>
                    && w == old(w).(anc := r.value,
                                    condemned := Carried(old(w.condemned), Sub(dir, n), Sub(dir, m)),
                                    log := old(w.log) + [Logged(AtAncestor, Renamed(Sub(dir, n), Sub(dir, m)))])
                    && t == old(t).(anc := RenameTable(old(t.anc), n, m)))
              && (!ok ==> w == old(w) && t == old(t))
    {
      var r := Rename(w.anc, dir, n, m);
      if fault || r.None? { return false; }
      w := w.(anc := r.value, condemned := Carried(w.condemned, Sub(dir, n), Sub(dir, m)),
              log := w.log + [Logged(AtAncestor, Renamed(Sub(dir, n), Sub(dir, m)))]);
      t := t.(anc := RenameTable(t.anc, n, m));
      ok := true;
    }

    /** The end of `apply_reconciliation`: the ancestor is set to what the ends now have. */
    method RecordAncestor(n: Name, data: Option<FileData>, works: bool)
        returns (res: ApplyResult, ghost fault: AncestorFault)
      requires WellFormed(w.anc) && IsDir(w.anc, dir) && Look(t.anc, n) == Get(w.anc, Sub(dir, n))
      modifies this`w, this`t, this`patience
      ensures Applied(w, t, todo, res) == Record(old(w), old(t), todo, dir, n, data, fault)
      ensures fault.Works? == old(Suffices(n, data, works)) && (res == Fail <==> !fault.Works?)
    {
      var ok;
      ok, fault := ReplaceAncestor(n, data, works);
      res := if ok then Clean(IsDirectory(data)) else Fail;
    }

    /** What a decision sets the record of `n` to; the record itself if it leaves it alone. */
    ghost function Recorded(n: Name, r: Reconciliation): Option<FileData>
      reads this
    {
      match r
      case InSync => Look(t.cli, n)
      case Use(src) =>
        var was, data := Look(EndTable(t, Rev(src)), n), Look(EndTable(t, src), n);
        if IsDirectory(was) && data.None? then was else data
      case Split(_, Delete) => None
      case _ => Look(t.anc, n)
    }

    /** `apply_use`, followed by recording the result. */
    method ApplyUse(n: Name, src: Side, synth: Synthetics, f: Faults, works: bool)
        returns (res: ApplyResult, ghost fault: AncestorFault)
      requires Ready(n) && (Look(EndTable(t, Rev(src)), n).Some? || Look(EndTable(t, src), n).Some?)
      modifies this`w, this`t, this`patience
      ensures Applied(w, t, todo, res) == Mutate.ApplyUse(old(w), old(t), todo, synth, dir, n, src, f.(anc := fault))
      ensures if old(Suffices(n, Recorded(n, Use(src)), works)) then fault == Works else res == Fail
    {
      hide ReplaceEnd, Record, SetAncestor, WellFormed;
      var dst, ok, t0 := Rev(src), true, t;
      var was, data := Look(EndTable(t, dst), n), Look(EndTable(t, src), n);
      if IsDirectory(was) && data.None? {
        ok, fault := ReplaceAncestor(n, was, works);
        res := if ok then RecursiveDelete(dst, was.value.mode) else Fail;
      } else {
        ok := ReplaceReplica(dst, synth, n, data, f.end, f.made);
        if ok {
          PutSame(t0, dst, n, data);
          res, fault := RecordAncestor(n, data, works);
        } else {
          res, fault := Fail, Works;
        }
      }
      assert Applied(w, t, todo, res) == Mutate.ApplyUse(old(w), old(t), todo, synth, dir, n, src, f.(anc := fault));
    }

    /** The start of the `Split` branch: the record is removed or condemned. */
    method Detach(n: Name, fate: AncestorFate, f: Faults, works: bool) returns (ok: bool, ghost fault: AncestorFault)
      requires Ready(n)
      modifies this`w, this`t, this`patience
      ensures (ok, w, t) == SplitDetach(old(w), old(t), dir, n, fate, f.(anc := fault))
      ensures if fate.Delete? then ok == fault.Works? == old(Suffices(n, None, works)) else fault == Works
    {
      fault := Works;
      if fate.Delete? {
        ok, fault := ReplaceAncestor(n, None, works);
      } else if f.condemn {
        ok := false;
      } else {
        w := w.(condemned := w.condemned + {Sub(dir, n)});
        ok := true;
      }
    }

    /** Its end: the record comes back under the new name. */
    method Reattach(n: Name, m: Name, f: Faults) returns (ok: bool)
      modifies this`w, this`t
      ensures (ok, w, t) == SplitReattach(old(w), old(t), dir, n, m, f)
    {
      hide Rename, Carried;
      ok := true;
      if n in t.anc { ok := TryRenameAncestor(n, m, f.ancRename); }
      if ok {
        ok := !f.uncondemn;
        if ok { w := w.(condemned := w.condemned - {Sub(dir, n)}); }
      }
    }

    /** The `Split` branch: detach the record, rename the end, bring the record back. */
    method ApplySplit(n: Name, side: Side, fate: AncestorFate, f: Faults, works: bool)
        returns (res: ApplyResult, ghost fault: AncestorFault)
      requires Ready(n)
      modifies this`w, this`t, this`todo, this`patience
      ensures Applied(w, t, todo, res) ==
          Mutate.ApplySplit(old(w), old(t), old(todo), dir, n, side, fate, f.(anc := fault))
      ensures if old(Suffices(n, Recorded(n, Split(side, fate)), works)) then fault == Works else res == Fail
    {
      hide SplitDetach, SplitReattach, RenameEnd, WellFormed, Alternate, Candidate, Mutate.ApplySplit;
      var m, _ := GenAlternateName(n, NamesInUse(t));
      var ok;
      ok, fault := Detach(n, fate, f, works);
      SplitIs(old(w), old(t), old(todo), dir, n, m, side, fate, f.(anc := fault));
      if ok { ok := TryRename(side, n, m, f.rename); }
      if ok && fate.Move? {
        ReattachIgnores(w, t, dir, n, m, f, fault);
        ok := Reattach(n, m, f);
      }
      if ok { todo := todo + {n, m}; }
      res := if ok then Clean(false) else Fail;
      assert Applied(w, t, todo, res) ==
          Mutate.ApplySplit(old(w), old(t), old(todo), dir, n, side, fate, f.(anc := fault));
    }

    /** The branches of `apply_reconciliation`. */
    method CarryOut(n: Name, r: Reconciliation, synth: Synthetics, f: Faults, works: bool)
      returns (res: ApplyResult, ghost fault: AncestorFault)
      requires Ready(n) && Compute.WellShaped(r, Look(t.cli, n), Look(t.srv, n)) && !f.stop
      modifies this`w, this`t, this`todo, this`patience
      ensures Applied(w, t, todo, res) == Apply(old(w), old(t), old(todo), synth, dir, n, r, f.(anc := fault))
      ensures if old(Suffices(n, Recorded(n, r), works)) then fault == Works else res == Fail
    {
      hide Mutate.ApplyUse, Mutate.ApplySplit, Record, WellFormed, Weight, BelowStrictly;
      fault := Works;
      match r
      case InSync => res, fault := RecordAncestor(n, Look(t.cli, n), works);
      case Unsync => res := Clean(false);
      case Irreconcilable => res := Clean(false);
      case Use(src) => res, fault := ApplyUse(n, src, synth, f, works);
      case Split(side, fate) => res, fault := ApplySplit(n, side, fate, f, works);
    }

    /** `apply_reconciliation`. It does all that the decision calls for if the record can be
        set as needed, and reports a failure otherwise. */
    method ApplyReconciliation(n: Name, r: Reconciliation, synth: Synthetics, f: Faults, works: bool)
      returns (res: ApplyResult, ghost fault: AncestorFault)
      requires Ready(n) && Compute.WellShaped(r, Look(t.cli, n), Look(t.srv, n))
      modifies this`w, this`t, this`todo, this`patience
      ensures Applied(w, t, todo, res) == Apply(old(w), old(t), old(todo), synth, dir, n, r, f.(anc := fault))
      ensures if old(Suffices(n, Recorded(n, r), works)) then fault == Works else res == Fail
      ensures old(Suffices(n, Recorded(n, r), works)) && f == NO_FAULTS ==>
                Applied(w, t, todo, res) == Apply(old(w), old(t), old(todo), synth, dir, n, r, NO_FAULTS)
    {
      hide Suffices, Recorded, Mutate.ApplyUse, Mutate.ApplySplit, Record, WellFormed;
      if f.stop {
        res, fault := Fail, Works;
      } else {
        hide Apply;
        res, fault := CarryOut(n, r, synth, f, works);
      }
      assert f == NO_FAULTS ==> f.(anc := Works) == NO_FAULTS;
    }
  }

  /** The stages of a split, one by one. */
  lemma SplitIs(w: World, t: Tables, todo: set<Name>, p: Path, n: Name, m: Name, side: Side, fate: AncestorFate,
      f: Faults)
    requires m == Alternate(n, NamesInUse(t))
    ensures var out, d := Mutate.ApplySplit(w, t, todo, p, n, side, fate, f), SplitDetach(w, t, p, n, fate, f);
            var r := RenameEnd(d.1, side, p, n, m, f.rename);
            if !d.0 || r.None? then out == Applied(d.1, d.2, todo, Fail)
            else
              var t2 := WithEndTable(d.2, side, RenameTable(EndTable(d.2, side), n, m));
              if fate.Delete? then out == Applied(r.value, t2, todo + {n, m}, Clean(false))
              else
                var e := SplitReattach(r.value, t2, p, n, m, f);
                out == if e.0 then Applied(e.1, e.2, todo + {n, m}, Clean(false)) else Applied(e.1, e.2, todo, Fail)
  {
    hide SplitDetach, SplitReattach, RenameEnd, Alternate;
  }

  lemma ReattachIgnores(w: World, t: Tables, p: Path, n: Name, m: Name, f: Faults, fault: AncestorFault)
    ensures SplitReattach(w, t, p, n, m, f) == SplitReattach(w, t, p, n, m, f.(anc := fault))
  {
  }

  lemma PutSame(t: Tables, side: Side, n: Name, data: Option<FileData>)
    ensures Look(EndTable(t, side), n) == data ==> WithEndTable(t, side, Put(EndTable(t, side), n, data)) == t
  {
    var m := EndTable(t, side);
    if Look(m, n) == data { assert Put(m, n, data) == m; }
  }

  /** Like `Emptied`, but `top` itself may be gone. */
  ghost predicate Dropped(was: Fs, now: Fs, top: Path, gone: set<Path>) {
    now == was - gone && DownClosed(was, gone) && forall q :: q in gone ==> q in was && Under(top, q)
  }

  /** The children not in `names` are gone with all that was below them, the others have not
      been touched. */
  ghost predicate Progress(was: Fs, now: Fs, p: Path, listed: map<Name, FileData>, names: set<Name>, gone: set<Path>) {
    && Emptied(was, now, p, gone) && listed == List(was, p)
    && (forall n :: n in listed && n !in names ==> Sub(p, n) in gone)
    && (forall n, q :: n in names && Under(Sub(p, n), q) ==> q !in gone)
  }

  lemma ProgressStarts(was: Fs, p: Path)
    ensures Progress(was, was, p, List(was, p), List(was, p).Keys, {})
  {
    assert was == was - {};
  }

  lemma ProgressEnds(was: Fs, now: Fs, p: Path, listed: map<Name, FileData>, gone: set<Path>)
    requires WellFormed(was) && Progress(was, now, p, listed, {}, gone)
    ensures Emptied(was, now, p, gone) && gone == BelowStrictly(was, p)
  {
    forall q | q in was && Under(p, q) && q != p ensures q in gone { AllGone(was, p, listed, gone, q); }
  }

  lemma NextChild(was: Fs, now: Fs, p: Path, listed: map<Name, FileData>, names: set<Name>, n: Name, gone: set<Path>)
    requires WellFormed(was) && Progress(was, now, p, listed, names + {n}, gone) && n in listed && n !in names
    ensures WellFormed(now) && Get(now, Sub(p, n)) == Some(listed[n])
    ensures |BelowStrictly(now, Sub(p, n))| < |BelowStrictly(was, p)|
  {
    ListGet(was, p, n);
    assert Under(Sub(p, n), Sub(p, n));
    DropKeeps(was, gone);
    ChildSmaller(was, p, Sub(p, n));
    SubsetSize(BelowStrictly(now, Sub(p, n)), BelowStrictly(was, Sub(p, n)));
  }

  /** What is below one of the children that are left weighs the same as at first, and does
      not weigh more than what is left. */
  lemma ChildWeight(was: Fs, before: Fs, p: Path, names: set<Name>, n: Name, listed: map<Name, FileData>,
                    gone: set<Path>)
    requires Progress(was, before, p, listed, names + {n}, gone) && n in listed && n !in names
    ensures var sub := AtOrBelow(before, Sub(p, n));
            && Weight(before, sub) == Weight(was, sub)
            && Weight(was, gone + sub) == Weight(was, gone) + Weight(was, sub)
            && Weight(was, gone + sub) <= Weight(was, BelowStrictly(was, p))
  {
    var sub := AtOrBelow(before, Sub(p, n));
    WeightSame(before, was, sub);
    WeightSum(was, gone, sub);
    forall q | q in sub ensures q in BelowStrictly(was, p) {
      UnderTransitive(p, Sub(p, n), q);
      if q == p { NotAboveItself(p, n); }
    }
    WeightGrows(was, gone + sub, BelowStrictly(was, p));
  }

  lemma ChildDone(was: Fs, before: Fs, now: Fs, p: Path, listed: map<Name, FileData>, names: set<Name>, n: Name,
                  gone: set<Path>, more: set<Path>, ok: bool)
    requires Progress(was, before, p, listed, names + {n}, gone) && n in listed && n !in names
    requires Dropped(before, now, Sub(p, n), more) && (ok ==> Sub(p, n) in more)
    ensures Emptied(was, now, p, gone + more) && (ok ==> Progress(was, now, p, listed, names, gone + more))
  {
    var all := gone + more;
    assert now == was - all;
    forall q, x | q in all && x in was && Under(q, x) ensures x in all {
      if q in more && x !in gone { assert x in before; }
    }
    forall q | q in all ensures q in was && Under(p, q) && q != p {
      if q in more {
        UnderTransitive(p, Sub(p, n), q);
        if q == p { NotAboveItself(p, n); }
      }
    }
    forall m, q | m in names && Under(Sub(p, m), q) ensures q !in all {
      if q in more { SiblingsDisjoint(p, n, m, q); }
    }
  }

  /** Everything below the child is gone: it can be removed itself. */
  lemma EmptiedChild(was: Fs, now: Fs, p: Path, n: Name, gone: set<Path>)
    requires Emptied(was, now, Sub(p, n), gone) && Sub(p, n) in was && gone == BelowStrictly(was, Sub(p, n))
    ensures Remove(now, p, n, was[Sub(p, n)]) == Some(now - {Sub(p, n)})
    ensures Dropped(was, now - {Sub(p, n)}, Sub(p, n), gone + {Sub(p, n)})
    ensures gone + {Sub(p, n)} == AtOrBelow(was, Sub(p, n))
  {
    var q := Sub(p, n);
    if HasChild(now, q) {
      var c :| c in now && c.Sub? && c.parent == q;
      assert Under(q, c);
      if c == q { UnderDepth(c, q); }
    }
    assert was[q].Matches(was[q]);
    assert Under(q, q) && now - {q} == was - (gone + {q});
  }

  lemma {:induction false} AllGone(was: Fs, p: Path, listed: map<Name, FileData>, gone: set<Path>, q: Path)
    requires WellFormed(was) && DownClosed(was, gone) && listed == List(was, p)
    requires (forall n :: n in listed ==> Sub(p, n) in gone) && q in was && Under(p, q) && q != p
    ensures q in gone
  {
    if q.parent == p {
      ListGet(was, p, q.name);
    } else {
      AllGone(was, p, listed, gone, q.parent);
      assert Under(q.parent, q);
    }
  }
}
