/** What each part of applying a decision does to each path, with or without faults. */
module Effects {
  import opened Defs
  import opened Replica
  import opened AltName
  import opened Mutate

  /** The tables show the truth about `n` in `p`. */
  ghost predicate Shows(w: World, t: Tables, p: Path, n: Name) {
    var q := Sub(p, n);
    Look(t.cli, n) == Get(w.cli, q) && Look(t.anc, n) == Get(w.anc, q) && Look(t.srv, n) == Get(w.srv, q)
  }

  ghost predicate TreesWellFormed(w: World) {
    WellFormed(w.cli) && WellFormed(w.anc) && WellFormed(w.srv)
  }

  /** `b` differs from `a` only at `top` and below. */
  ghost predicate SameOutside(a: Fs, b: Fs, top: Path) {
    forall x :: !Under(top, x) ==> Get(a, x) == Get(b, x)
  }

  lemma NotAboveItself(p: Path, n: Name)
    ensures !Under(Sub(p, n), p)
  {
    if Under(Sub(p, n), p) { UnderDepth(Sub(p, n), p); }
  }

  // ----- The ancestor -----

  lemma PartlyEmptiedWellFormed(fs: Fs, top: Path, lost: set<Path>)
    requires WellFormed(fs)
    ensures WellFormed(PartlyEmptied(fs, top, lost))
  {
    var r := PartlyEmptied(fs, top, lost);
    forall q | q in r ensures q.Sub? && IsDir(r, q.parent) {
      if q.parent.Sub? && q.parent != top && Under(top, q.parent) {
        if q == top { UnderDepth(top, q.parent); }
        var x :| x in fs && Under(q, x) && x !in lost;
        UnderTransitive(q.parent, q, x);
      }
    }
  }

  /** Writing the ancestor's record of a file that is shown truthfully succeeds unless it
      is made to fail, touches nothing outside that file's tree, and on success leaves
      exactly the new record; whatever else it leaves was there before. */
  lemma AncestorEffect(anc: Fs, p: Path, n: Name, was: Option<FileData>, data: Option<FileData>, fault: AncestorFault)
    requires WellFormed(anc) && IsDir(anc, p) && Get(anc, Sub(p, n)) == was
    ensures var (ok, anc') := ReplaceAncestor(anc, p, n, was, data, fault);
            var q := Sub(p, n);
            && WellFormed(anc') && SameOutside(anc, anc', q)
            && (fault.Works? ==> ok)
            && (ok ==> Get(anc', q) == data)
            && (!ok ==> Get(anc', q) == was)
            && (forall x :: x != q && x in anc' ==> Get(anc, x) == Get(anc', x))
            && (ok && !IsDirectory(data) ==> forall x :: x != q && Under(q, x) ==> x !in anc')
            && (was.None? ==> forall x :: x != q ==> Get(anc, x) == Get(anc', x))
  {
    var q := Sub(p, n);
    NotAboveItself(p, n);
    assert Under(q, q);
    if was == data {
      if !IsDirectory(data) { LeafHasNothingBelow(anc, q); }
    } else if fault.Breaks? {
      if was.Some? { PartlyEmptiedWellFormed(anc, q, fault.lost); }
    } else {
      var emptying := IsDirectory(was) && !IsDirectory(data);
      var anc1 := if emptying then RemoveBelow(anc, q) else anc;
      if emptying { RemoveBelowWellFormed(anc, q); }
      if !IsDirectory(was) { LeafHasNothingBelow(anc, q); }
      assert IsDir(anc1, p);
      assert !IsDirectory(data) ==> !HasChild(anc1, q);
      if data.Some? {
        SetWellFormed(anc1, q, data.value);
      } else {
        DropWellFormed(anc1, q);
      }
      if emptying {
      } else if !IsDirectory(data) {
        LeafHasNothingBelow(anc1, q);
      }
    }
  }

  lemma LeafHasNothingBelow(fs: Fs, q: Path)
    requires WellFormed(fs) && !IsDirectory(Get(fs, q)) && q.Sub?
    ensures forall x :: x != q && Under(q, x) ==> x !in fs
    ensures !HasChild(fs, q)
  {
    forall x | x != q && Under(q, x) ensures x !in fs {
      if x in fs { AboveIsDir(fs, q, x); }
    }
  }

  // ----- An end -----

  /** The end with the directories its handle creates on demand. */
  ghost predicate Prepared(fs: Fs, synth: Synthetics, p: Path) {
    var fs1 := Materialise(fs, synth);
    && WellFormed(fs1) && IsDir(fs1, p)
    && (forall x :: x in fs ==> Get(fs1, x) == Get(fs, x))
    && (forall x :: x in fs1 && x !in fs ==> Under(x, p))
  }

  lemma PreparedBelow(fs: Fs, synth: Synthetics, p: Path, n: Name, x: Path)
    requires Prepared(fs, synth, p) && Under(Sub(p, n), x)
    ensures Get(Materialise(fs, synth), x) == Get(fs, x)
  {
    var fs1 := Materialise(fs, synth);
    if x in fs1 && x !in fs {
      UnderTransitive(Sub(p, n), x, p);
      NotAboveItself(p, n);
    }
  }

  /** Making fewer directories makes no others. */
  lemma {:induction false} MaterialiseGrows(fs: Fs, synth: Synthetics, k: nat, x: Path)
    requires k <= |synth|
    ensures x in fs ==> Get(Materialise(fs, synth[..k]), x) == Get(fs, x)
    ensures x in Materialise(fs, synth[..k]) ==> Get(Materialise(fs, synth), x) == Get(Materialise(fs, synth[..k]), x)
    decreases |synth|
  {
    if k < |synth| {
      var front := synth[..|synth| - 1];
      assert front[..k] == synth[..k];
      MaterialiseGrows(fs, front, k, x);
    } else {
      assert synth[..k] == synth;
      if synth != [] {
        var front := synth[..|synth| - 1];
        MaterialiseGrows(fs, front, |front|, x);
        assert front[..|front|] == front;
      }
    }
  }

  /** What a failed create leaves below the names of `p` is what was there. */
  lemma HalfMadeBelow(fs: Fs, synth: Synthetics, p: Path, n: Name, made: nat, x: Path)
    requires Prepared(fs, synth, p) && Under(Sub(p, n), x)
    ensures Get(Materialise(fs, FirstOf(synth, made)), x) == Get(fs, x)
  {
    PreparedBelow(fs, synth, p, n, x);
    var k := if made < |synth| then made else |synth|;
    assert FirstOf(synth, made) == synth[..k];
    MaterialiseGrows(fs, synth, k, x);
  }

  lemma EndEffect(w: World, side: Side, synth: Synthetics, p: Path, n: Name,
                  was: Option<FileData>, data: Option<FileData>, fault: bool)
    requires WellFormed(End(w, side)) && Prepared(End(w, side), synth, p)
    requires Get(End(w, side), Sub(p, n)) == was
    requires was.Some? || data.Some?
    requires was.Some? ==> IsDir(End(w, side), p)
    requires IsDirectory(was) ==> IsDirectory(data)
    ensures var r := ReplaceEnd(w, side, synth, p, n, was, data, fault);
            var fs, q := End(w, side), Sub(p, n);
            && (!fault ==> r.Some?)
            && (r.Some? ==>
                  && r.value.anc == w.anc && r.value.condemned == w.condemned
                  && End(r.value, Rev(side)) == End(w, Rev(side))
                  && WellFormed(End(r.value, side))
                  && Get(End(r.value, side), q) == data
                  && (was.None? ==> forall x :: x != q ==> Get(End(r.value, side), x) == Get(Materialise(fs, synth), x))
                  && (was.Some? ==> forall x :: x != q ==> Get(End(r.value, side), x) == Get(fs, x)))
  {
    var fs, q := End(w, side), Sub(p, n);
    NotAboveItself(p, n);
    if was != data && !fault {
      if was.None? {
        assert Under(q, q);
        var fs1 := Materialise(fs, synth);
        PreparedBelow(fs, synth, p, n, q);
        LeafHasNothingBelow(fs1, q);
        SetWellFormed(fs1, q, data.value);
      } else if data.None? {
        LeafHasNothingBelow(fs, q);
        DropWellFormed(fs, q);
      } else {
        if !data.value.Directory? { LeafHasNothingBelow(fs, q); }
        SetWellFormed(fs, q, data.value);
      }
    } else if was == data {
    }
  }

  /** Recording the result in the ancestor does not touch the ends. */
  lemma UseShape(w: World, t: Tables, todo: set<Name>, synth: Synthetics, p: Path, n: Name, src: Side, f: Faults)
    ensures var w' := ApplyUse(w, t, todo, synth, p, n, src, f).w;
            var was, data := Look(EndTable(t, Rev(src)), n), Look(EndTable(t, src), n);
            var r := ReplaceEnd(w, Rev(src), synth, p, n, was, data, f.end);
            if IsDirectory(was) && data.None? then w'.cli == w.cli && w'.srv == w.srv && w'.log == w.log
            else if r.None? then w' == HalfMade(w, Rev(src), synth, was, f.made)
            else w'.cli == r.value.cli && w'.srv == r.value.srv && w'.log == r.value.log
  {
  }

  /** The ancestor is kept, or written once with what one of the ends showed. */
  lemma UseAncestor(w: World, t: Tables, todo: set<Name>, synth: Synthetics, p: Path, n: Name, src: Side, f: Faults)
    ensures var anc := ApplyUse(w, t, todo, synth, p, n, src, f).w.anc;
            || anc == w.anc
            || anc == ReplaceAncestor(w.anc, p, n, Look(t.anc, n), Look(EndTable(t, Rev(src)), n), f.anc).1
            || anc == ReplaceAncestor(w.anc, p, n, Look(t.anc, n), Look(EndTable(t, src), n), f.anc).1
  {
    hide ReplaceAncestor, Create, Update, Remove;
    var dst := Rev(src);
    var was, data := Look(EndTable(t, dst), n), Look(EndTable(t, src), n);
    var r := ReplaceEnd(w, dst, synth, p, n, was, data, f.end);
    if r.Some? { assert r.value.anc == w.anc; }
  }

  // ----- Splitting -----

  /** A rename within `p` to a name that is not there. */
  lemma RenameEffect(fs: Fs, p: Path, n: Name, m: Name)
    requires WellFormed(fs) && Sub(p, n) in fs && Sub(p, m) !in fs
    ensures Rename(fs, p, n, m) == Some(Rekey(fs, Sub(p, n), Sub(p, m))) && n != m
    ensures WellFormed(Rekey(fs, Sub(p, n), Sub(p, m)))
    ensures Sub(p, n) !in Rekey(fs, Sub(p, n), Sub(p, m))
    ensures Get(Rekey(fs, Sub(p, n), Sub(p, m)), Sub(p, m)) == Get(fs, Sub(p, n))
    ensures forall x :: !Under(Sub(p, n), x) && !Under(Sub(p, m), x) ==>
              Get(Rekey(fs, Sub(p, n), Sub(p, m)), x) == Get(fs, x)
  {
    assert n != m;
    RekeyWellFormed(fs, p, n, m);
    SiblingsDisjoint(p, n, m, Sub(p, n));
    RekeyGet(fs, p, n, m, Sub(p, n));
    RekeyGet(fs, p, n, m, Sub(p, m));
    forall x | !Under(Sub(p, n), x) && !Under(Sub(p, m), x)
      ensures Get(Rekey(fs, Sub(p, n), Sub(p, m)), x) == Get(fs, x)
    {
      RekeyGet(fs, p, n, m, x);
    }
  }

  lemma DetachKeepsEnds(w: World, t: Tables, p: Path, n: Name, fate: AncestorFate, f: Faults)
    ensures var d := SplitDetach(w, t, p, n, fate, f);
            d.1.cli == w.cli && d.1.srv == w.srv && d.1.log == w.log && d.2.cli == t.cli && d.2.srv == t.srv
  {
  }

  lemma ReattachKeepsEnds(w: World, t: Tables, p: Path, n: Name, m: Name, f: Faults)
    ensures var e := SplitReattach(w, t, p, n, m, f);
            && e.1.cli == w.cli && e.1.srv == w.srv
            && (e.1.log == w.log || e.1.log == w.log + [Logged(AtAncestor, Renamed(Sub(p, n), Sub(p, m)))])
  {
  }

  /** A split changes one end only, by renaming or not at all. */
  lemma SplitEnds(w: World, t: Tables, todo: set<Name>, p: Path, n: Name, side: Side, fate: AncestorFate, f: Faults)
    ensures var out, m := ApplySplit(w, t, todo, p, n, side, fate, f), Alternate(n, NamesInUse(t));
            var ren := Logged(PlaceOf(side), Renamed(Sub(p, n), Sub(p, m)));
            && End(out.w, Rev(side)) == End(w, Rev(side))
            && (|| (End(out.w, side) == End(w, side) && out.w.log == w.log)
                || (&& Rename(End(w, side), p, n, m) == Some(End(out.w, side))
                    && (out.w.log == w.log + [ren]
                        || out.w.log == w.log + [ren] + [Logged(AtAncestor, Renamed(Sub(p, n), Sub(p, m)))])))
  {
    var out := ApplySplit(w, t, todo, p, n, side, fate, f);
    var m := Alternate(n, NamesInUse(t));
    var d := SplitDetach(w, t, p, n, fate, f);
    DetachKeepsEnds(w, t, p, n, fate, f);
    var r := RenameEnd(d.1, side, p, n, m, f.rename);
    if d.0 && r.Some? {
      var t2 := WithEndTable(d.2, side, RenameTable(EndTable(d.2, side), n, m));
      if fate.Move? {
        ReattachKeepsEnds(r.value, t2, p, n, m, f);
        assert out.w == SplitReattach(r.value, t2, p, n, m, f).1;
      } else {
        assert out.w == r.value;
      }
    } else {
      assert out.w == d.1;
    }
  }

  /** What a decision amounts to for the ends. */
  lemma ApplyCases(w: World, t: Tables, todo: set<Name>, synth: Synthetics, p: Path, n: Name, r: Reconciliation,
      f: Faults)
    ensures var out := Apply(w, t, todo, synth, p, n, r, f);
            && (!f.stop && r.Use? ==> out == ApplyUse(w, t, todo, synth, p, n, r.src, f))
            && (!f.stop && r.Split? ==> out == ApplySplit(w, t, todo, p, n, r.renamed, r.fate, f))
            && (f.stop || !(r.Use? || r.Split?) ==> out.w.cli == w.cli && out.w.srv == w.srv && out.w.log == w.log)
  {
    hide ApplyUse, ApplySplit, ReplaceAncestor;
  }
}
