/** What the replica operations mean (src/replica.rs:64-277): a replica is the map from
    every path in its tree to the data of the file there. An operation either gives the
    new tree or fails and changes nothing. */
module Replica {
  import opened Defs

  /** The root directory, or a name inside the directory `parent`. */
  datatype Path = Root | Sub(parent: Path, name: Name)

  type Fs = map<Path, FileData>

  function Get(fs: Fs, q: Path): Option<FileData> {
    if q in fs then Some(fs[q]) else None
  }

  predicate IsDir(fs: Fs, p: Path) {
    p.Root? || (p in fs && fs[p].Directory?)
  }

  /** Every file lies in a directory. */
  ghost predicate WellFormed(fs: Fs) {
    forall q :: q in fs ==> q.Sub? && IsDir(fs, q.parent)
  }

  /** `q` is `top` or lies below it. */
  predicate Under(top: Path, q: Path) {
    q == top || (q.Sub? && Under(top, q.parent))
  }

  predicate HasChild(fs: Fs, p: Path) {
    exists q :: q in fs && q.Sub? && q.parent == p
  }

  // ----- Operations -----

  function List(fs: Fs, p: Path): map<Name, FileData> {
    map n | n in (set q | q in fs && q.Sub? && q.parent == p :: q.name) :: fs[Sub(p, n)]
  }

  function Create(fs: Fs, p: Path, n: Name, data: FileData): Option<Fs> {
    if IsDir(fs, p) && Sub(p, n) !in fs then Some(fs[Sub(p, n) := data]) else None
  }

  function Update(fs: Fs, p: Path, n: Name, was: FileData, data: FileData): Option<Fs> {
    var q := Sub(p, n);
    if q in fs && was.Matches(fs[q]) && (fs[q].Directory? && !data.Directory? ==> !HasChild(fs, q))
    then Some(fs[q := data]) else None
  }

  function Remove(fs: Fs, p: Path, n: Name, was: FileData): Option<Fs> {
    var q := Sub(p, n);
    if q in fs && was.Matches(fs[q]) && (fs[q].Directory? ==> !HasChild(fs, q))
    then Some(fs - {q}) else None
  }

  /** What operations on a replica refuse: to create over something, to update or remove
      something that is not as expected, and to do away with a directory that is not empty. */
  lemma Refusals(fs: Fs, p: Path, n: Name, was: FileData, data: FileData)
    ensures Sub(p, n) in fs ==> Create(fs, p, n, data).None?
    ensures Sub(p, n) in fs && !was.Matches(fs[Sub(p, n)]) ==>
              Update(fs, p, n, was, data).None? && Remove(fs, p, n, was).None?
    ensures HasChild(fs, Sub(p, n)) && WellFormed(fs) ==>
              Remove(fs, p, n, was).None? && (!data.Directory? ==> Update(fs, p, n, was, data).None?)
  {
    var q := Sub(p, n);
    if HasChild(fs, q) && WellFormed(fs) {
      var c :| c in fs && c.Sub? && c.parent == q;
      assert IsDir(fs, q);
    }
  }

  /** Removing a directory by its handle; succeeds when it is already gone. */
  function RmDir(fs: Fs, p: Path): Option<Fs> {
    if p.Root? || p !in fs || !fs[p].Directory? then Some(fs)
    else if HasChild(fs, p) then None
    else Some(fs - {p})
  }

  /** Everything strictly below `top` removed, which is what emptying a directory
      child by child amounts to. */
  function RemoveBelow(fs: Fs, top: Path): Fs {
    map q | q in fs && (q == top || !Under(top, q)) :: fs[q]
  }

  /** The path that `q`, below `top`, has once `top` is called `to`. */
  function Graft(q: Path, top: Path, to: Path): Path
    requires Under(top, q)
  {
    if q == top then to else Sub(Graft(q.parent, top, to), q.name)
  }

  function Moved(q: Path, top: Path, to: Path): Path {
    if Under(top, q) then Graft(q, top, to) else q
  }

  /** The tree after the file at `top`, with all below it, is renamed to `to`. */
  function Rekey(fs: Fs, top: Path, to: Path): Fs {
    map k | k in (set q | q in fs :: Moved(q, top, to)) && Moved(k, to, top) in fs :: fs[Moved(k, to, top)]
  }

  function Rename(fs: Fs, p: Path, from: Name, to: Name): Option<Fs> {
    if Sub(p, to) in fs || Sub(p, from) !in fs then None
    else Some(Rekey(fs, Sub(p, from), Sub(p, to)))
  }

  // ----- Paths -----

  lemma UnderTransitive(a: Path, b: Path, c: Path)
    requires Under(a, b) && Under(b, c)
    ensures Under(a, c)
  {
  }

  lemma {:induction false} UnderComparable(a: Path, b: Path, q: Path)
    requires Under(a, q) && Under(b, q)
    ensures Under(a, b) || Under(b, a)
  {
    if q != a && q != b { UnderComparable(a, b, q.parent); }
  }

  function Depth(p: Path): nat {
    if p.Root? then 0 else Depth(p.parent) + 1
  }

  lemma UnderDepth(a: Path, q: Path)
    requires Under(a, q)
    ensures Depth(a) <= Depth(q) && (Depth(a) == Depth(q) ==> a == q)
  {
  }

  /** Two names of one directory head disjoint trees. */
  lemma SiblingsDisjoint(p: Path, n: Name, m: Name, q: Path)
    requires n != m && Under(Sub(p, n), q)
    ensures !Under(Sub(p, m), q)
  {
    if Under(Sub(p, m), q) {
      UnderComparable(Sub(p, n), Sub(p, m), q);
      if Under(Sub(p, n), Sub(p, m)) { UnderDepth(Sub(p, n), Sub(p, m)); }
      else { UnderDepth(Sub(p, m), Sub(p, n)); }
    }
  }

  lemma {:induction false} GraftBack(q: Path, top: Path, to: Path)
    requires Under(top, q)
    ensures Under(to, Graft(q, top, to)) && Graft(Graft(q, top, to), to, top) == q
  {
    if q != top {
      GraftBack(q.parent, top, to);
      UnderDepth(to, Graft(q.parent, top, to));
    }
  }

  /** In a well-formed tree everything above a file is a directory. */
  lemma {:induction false} AboveIsDir(fs: Fs, top: Path, q: Path)
    requires WellFormed(fs) && q in fs && Under(top, q) && top != q
    ensures IsDir(fs, top)
  {
    if q.parent != top { AboveIsDir(fs, top, q.parent); }
  }

  lemma NothingBelowAbsent(fs: Fs, top: Path, q: Path)
    requires WellFormed(fs) && top !in fs && top.Sub? && Under(top, q)
    ensures q !in fs
  {
    if q in fs && q != top { AboveIsDir(fs, top, q); }
  }

  /** No child means nothing strictly below. */
  lemma {:induction false} NothingBelowChildless(fs: Fs, top: Path, q: Path)
    requires WellFormed(fs) && !HasChild(fs, top) && Under(top, q) && q != top
    ensures q !in fs
  {
    if q in fs && q.parent != top { NothingBelowChildless(fs, top, q.parent); }
  }

  // ----- Renaming, pointwise -----

  /** Renaming to an unused name of the same directory moves the whole tree there, and
      nothing else; what was at each path is found at its new path. */
  lemma RekeyGet(fs: Fs, p: Path, n: Name, m: Name, q: Path)
    requires WellFormed(fs) && n != m && Sub(p, m) !in fs
    ensures var top, to := Sub(p, n), Sub(p, m);
            Get(Rekey(fs, top, to), q) ==
              if Under(to, q) then Get(fs, Graft(q, to, top))
              else if Under(top, q) then None
              else Get(fs, q)
  {
    var top, to := Sub(p, n), Sub(p, m);
    var r := Rekey(fs, top, to);
    if Under(to, q) {
      var b := Graft(q, to, top);
      GraftBack(q, to, top);
      if b in fs { assert Moved(b, top, to) == q; }
    } else if Under(top, q) {
      if q in r {
        var b :| b in fs && Moved(b, top, to) == q;
        if Under(top, b) { GraftBack(b, top, to); }
      }
    } else {
      if q in fs { assert Moved(q, top, to) == q; }
      if q in r { assert Moved(q, to, top) == q; }
    }
  }

  lemma RekeyWellFormed(fs: Fs, p: Path, n: Name, m: Name)
    requires WellFormed(fs) && n != m && Sub(p, m) !in fs && IsDir(fs, p)
    ensures WellFormed(Rekey(fs, Sub(p, n), Sub(p, m)))
  {
    var top, to := Sub(p, n), Sub(p, m);
    var r := Rekey(fs, top, to);
    forall q | q in r ensures q.Sub? && IsDir(r, q.parent) {
      RekeyGet(fs, p, n, m, q);
      if Under(to, q) {
        if q == to {
          RekeyParentKept(fs, p, n, m);
        } else {
          RekeyGet(fs, p, n, m, q.parent);
        }
      } else {
        RekeyGet(fs, p, n, m, q.parent);
        if Under(top, q.parent) || Under(to, q.parent) {
        }
      }
    }
  }

  lemma RekeyParentKept(fs: Fs, p: Path, n: Name, m: Name)
    requires WellFormed(fs) && n != m && Sub(p, m) !in fs && IsDir(fs, p)
    ensures IsDir(Rekey(fs, Sub(p, n), Sub(p, m)), p)
  {
    if Under(Sub(p, n), p) { UnderDepth(Sub(p, n), p); }
    if Under(Sub(p, m), p) { UnderDepth(Sub(p, m), p); }
    RekeyGet(fs, p, n, m, p);
  }

  // ----- The other operations keep trees well formed -----

  lemma SetWellFormed(fs: Fs, q: Path, data: FileData)
    requires WellFormed(fs) && q.Sub? && IsDir(fs, q.parent)
    requires data.Directory? || !HasChild(fs, q)
    ensures WellFormed(fs[q := data])
  {
    var r := fs[q := data];
    forall x | x in r ensures x.Sub? && IsDir(r, x.parent) {
      if x == q && q.parent == q { UnderDepth(q, q.parent); }
    }
  }

  lemma DropWellFormed(fs: Fs, q: Path)
    requires WellFormed(fs) && !HasChild(fs, q)
    ensures WellFormed(fs - {q})
  {
    forall x: Path | x in fs - {q} && x.Sub? ensures IsDir(fs - {q}, x.parent) {
      assert IsDir(fs, x.parent);
    }
  }

  lemma RemoveBelowWellFormed(fs: Fs, top: Path)
    requires WellFormed(fs)
    ensures WellFormed(RemoveBelow(fs, top)) && !HasChild(RemoveBelow(fs, top), top)
  {
    var r := RemoveBelow(fs, top);
    forall q | q in r ensures q.Sub? && IsDir(r, q.parent) && q.parent != top {
      assert Under(top, q) ==> q == top;
      if q == top {
        if Under(top, q.parent) { UnderDepth(top, q.parent); }
      }
    }
  }

  lemma ListGet(fs: Fs, p: Path, n: Name)
    ensures (if n in List(fs, p) then Some(List(fs, p)[n]) else None) == Get(fs, Sub(p, n))
  {
    if Sub(p, n) in fs {
      var q := Sub(p, n);
      assert q.Sub? && q.parent == p && q.name == n;
    }
  }
}
