/** The in-memory replica (src/memory_replica.rs): a table of contents for each directory,
    found by its path, so that renaming or purging a directory moves or drops the tables of
    everything below it. Each operation does to the tables what module `Replica` says it
    does to the tree. */
module MemoryReplica {
  import opened Defs
  import opened Replica
  import opened Mutate
  import opened Effects

  datatype Table = Table(contents: map<Name, FileData>, condemned: set<Name>)

  type Dirs = map<Path, Table>

  const EMPTY := Table(map[], {})

  /** Exactly the directories have tables. */
  ghost predicate Linked(dirs: Dirs) {
    && Root in dirs
    && (forall p :: p in dirs && p.Sub? ==> p.parent in dirs && IsDirectory(Look(dirs[p.parent].contents, p.name)))
    && (forall p, n :: p in dirs && IsDirectory(Look(dirs[p].contents, n)) ==> Sub(p, n) in dirs)
  }

  /** What the tables say about a path. */
  function At(dirs: Dirs, q: Path): Option<FileData> {
    if q.Sub? && q.parent in dirs then Look(dirs[q.parent].contents, q.name) else None
  }

  ghost function Flat(dirs: Dirs): Fs {
    map q | q in (set p, n | p in dirs && n in dirs[p].contents :: Sub(p, n)) :: dirs[q.parent].contents[q.name]
  }

  ghost function Condemned(dirs: Dirs): set<Path> {
    set p, n | p in dirs && n in dirs[p].condemned :: Sub(p, n)
  }

  lemma FlatAt(dirs: Dirs, q: Path)
    ensures Get(Flat(dirs), q) == At(dirs, q)
  {
    if q in Flat(dirs) {
      var p, n :| p in dirs && n in dirs[p].contents && q == Sub(p, n);
    }
    if At(dirs, q).Some? { assert q == Sub(q.parent, q.name); }
  }

  lemma SameFs(a: Fs, b: Fs)
    requires forall q :: Get(a, q) == Get(b, q)
    ensures a == b
  {
    forall q ensures q in a <==> q in b { assert Get(a, q) == Get(b, q); }
    forall q | q in a ensures a[q] == b[q] { assert Get(a, q) == Get(b, q); }
  }

  /** The tree is `fs` if the tables say so at every path. */
  lemma FlatIs(dirs: Dirs, fs: Fs)
    requires forall q :: At(dirs, q) == Get(fs, q)
    ensures Flat(dirs) == fs
  {
    forall q ensures Get(Flat(dirs), q) == Get(fs, q) { FlatAt(dirs, q); assert At(dirs, q) == Get(fs, q); }
    SameFs(Flat(dirs), fs);
  }

  lemma FlatDir(dirs: Dirs, p: Path)
    requires Linked(dirs)
    ensures IsDir(Flat(dirs), p) <==> p in dirs
  {
    FlatAt(dirs, p);
  }

  lemma FlatWellFormed(dirs: Dirs)
    requires Linked(dirs)
    ensures WellFormed(Flat(dirs))
  {
    forall q | q in Flat(dirs) ensures q.Sub? && IsDir(Flat(dirs), q.parent) {
      FlatAt(dirs, q);
      FlatDir(dirs, q.parent);
    }
  }

  lemma FlatEmpty(dirs: Dirs, q: Path)
    requires Linked(dirs) && q in dirs
    ensures HasChild(Flat(dirs), q) <==> dirs[q].contents != map[]
  {
    if HasChild(Flat(dirs), q) {
      var c :| c in Flat(dirs) && c.Sub? && c.parent == q;
      FlatAt(dirs, c);
    }
    if n :| n in dirs[q].contents {
      FlatAt(dirs, Sub(q, n));
      assert Sub(q, n) in Flat(dirs);
    }
  }

  // ----- Changing one entry -----

  lemma LinkedIf(dirs: Dirs)
    requires Root in dirs && forall x: Path :: x.Sub? ==> (x in dirs <==> IsDirectory(At(dirs, x)))
    ensures Linked(dirs)
  {
    forall p, n | p in dirs && IsDirectory(Look(dirs[p].contents, n)) ensures Sub(p, n) in dirs {
      assert At(dirs, Sub(p, n)) == Look(dirs[p].contents, n);
    }
  }

  lemma LinkedAt(dirs: Dirs, x: Path)
    requires Linked(dirs) && x.Sub?
    ensures x in dirs <==> IsDirectory(At(dirs, x))
  {
    if IsDirectory(At(dirs, x)) { assert Sub(x.parent, x.name) in dirs; }
  }


  /** Only the entry `n` of the table of `p` changes. */
  function SetEntry(dirs: Dirs, p: Path, n: Name, data: Option<FileData>): Dirs
    requires p in dirs
  {
    dirs[p := dirs[p].(contents := Put(dirs[p].contents, n, data))]
  }

  lemma SetEntryAt(dirs: Dirs, p: Path, n: Name, data: Option<FileData>, q: Path)
    requires p in dirs
    ensures At(SetEntry(dirs, p, n, data), q) == if q == Sub(p, n) then data else At(dirs, q)
  {
  }

  lemma CondemnedSame(a: Dirs, b: Dirs)
    requires a.Keys == b.Keys && forall p :: p in a ==> a[p].condemned == b[p].condemned
    ensures Condemned(a) == Condemned(b)
  {
    forall q | q in Condemned(a) ensures q in Condemned(b) {
      var p, n :| p in a && n in a[p].condemned && q == Sub(p, n);
    }
    forall q | q in Condemned(b) ensures q in Condemned(a) {
      var p, n :| p in b && n in b[p].condemned && q == Sub(p, n);
    }
  }

  lemma SetPlain(dirs: Dirs, p: Path, n: Name, data: FileData)
    requires Linked(dirs) && p in dirs && !IsDirectory(Look(dirs[p].contents, n)) && !data.Directory?
    ensures var d := SetEntry(dirs, p, n, Some(data));
            Linked(d) && Flat(d) == Flat(dirs)[Sub(p, n) := data] && Condemned(d) == Condemned(dirs)
  {
    var d := SetEntry(dirs, p, n, Some(data));
    forall q ensures At(d, q) == Get(Flat(dirs)[Sub(p, n) := data], q) {
      SetEntryAt(dirs, p, n, Some(data), q); FlatAt(dirs, q);
    }
    FlatIs(d, Flat(dirs)[Sub(p, n) := data]);
    CondemnedSame(dirs, d);
  }

  lemma SetMode(dirs: Dirs, p: Path, n: Name, data: FileData)
    requires Linked(dirs) && p in dirs && IsDirectory(Look(dirs[p].contents, n)) && data.Directory?
    ensures var d := SetEntry(dirs, p, n, Some(data));
            Linked(d) && Flat(d) == Flat(dirs)[Sub(p, n) := data] && Condemned(d) == Condemned(dirs)
  {
    var d := SetEntry(dirs, p, n, Some(data));
    forall q ensures At(d, q) == Get(Flat(dirs)[Sub(p, n) := data], q) {
      SetEntryAt(dirs, p, n, Some(data), q); FlatAt(dirs, q);
    }
    FlatIs(d, Flat(dirs)[Sub(p, n) := data]);
    CondemnedSame(dirs, d);
  }

  lemma AddDirAt(dirs: Dirs, p: Path, n: Name, data: FileData, q: Path)
    requires Linked(dirs) && p in dirs && n !in dirs[p].contents && data.Directory?
    ensures At(SetEntry(dirs, p, n, Some(data))[Sub(p, n) := EMPTY], q) == if q == Sub(p, n) then Some(data)
        else At(dirs, q)
  {
    NotAboveItself(p, n);
    assert Under(p, p);
    SetEntryAt(dirs, p, n, Some(data), q);
    if q.Sub? && q.parent == Sub(p, n) { assert Sub(p, n) !in dirs; }
  }

  lemma AddDir(dirs: Dirs, p: Path, n: Name, data: FileData)
    requires Linked(dirs) && p in dirs && n !in dirs[p].contents && data.Directory?
    ensures var d := SetEntry(dirs, p, n, Some(data))[Sub(p, n) := EMPTY];
            Linked(d) && Flat(d) == Flat(dirs)[Sub(p, n) := data] && Condemned(d) == Condemned(dirs)
  {
    var q0 := Sub(p, n);
    var d := SetEntry(dirs, p, n, Some(data))[q0 := EMPTY];
    assert q0 !in dirs;
    hide Linked;
    forall q ensures At(d, q) == Get(Flat(dirs)[q0 := data], q) {
      AddDirAt(dirs, p, n, data, q);
      FlatAt(dirs, q);
    }
    FlatIs(d, Flat(dirs)[q0 := data]);
    assert Root in d by { RootKnown(dirs); }
    forall x: Path | x.Sub? ensures x in d <==> IsDirectory(At(d, x)) {
      AddDirAt(dirs, p, n, data, x);
      LinkedAt(dirs, x);
    }
    LinkedIf(d);
    AddDirCondemned(dirs, d, p, q0);
  }

  lemma RootKnown(dirs: Dirs)
    requires Linked(dirs)
    ensures Root in dirs
  {
  }

  lemma AddDirCondemned(dirs: Dirs, d: Dirs, p: Path, q0: Path)
    requires q0 !in dirs && q0 in d && d[q0] == EMPTY && d.Keys == dirs.Keys + {q0}
    requires forall r :: r in dirs ==> d[r].condemned == dirs[r].condemned
    ensures Condemned(d) == Condemned(dirs)
  {
    forall x | x in Condemned(d) ensures x in Condemned(dirs) {
      var r, m :| r in d && m in d[r].condemned && x == Sub(r, m);
    }
    forall x | x in Condemned(dirs) ensures x in Condemned(d) {
      var r, m :| r in dirs && m in dirs[r].condemned && x == Sub(r, m);
      assert r in d && m in d[r].condemned;
    }
  }

  lemma DropPlain(dirs: Dirs, p: Path, n: Name)
    requires Linked(dirs) && p in dirs && n in dirs[p].contents && !dirs[p].contents[n].Directory?
    ensures var d := SetEntry(dirs, p, n, None);
            Linked(d) && Flat(d) == Flat(dirs) - {Sub(p, n)} && Condemned(d) == Condemned(dirs)
  {
    var d := SetEntry(dirs, p, n, None);
    forall q ensures At(d, q) == Get(Flat(dirs) - {Sub(p, n)}, q) { SetEntryAt(dirs, p, n, None, q); FlatAt(dirs, q); }
    FlatIs(d, Flat(dirs) - {Sub(p, n)});
    CondemnedSame(dirs, d);
  }

  lemma DropDir(dirs: Dirs, p: Path, n: Name)
    requires Linked(dirs) && p in dirs && IsDirectory(Look(dirs[p].contents, n)) && dirs[Sub(p, n)].contents == map[]
    ensures var d := SetEntry(dirs, p, n, None) - {Sub(p, n)};
            Linked(d) && Flat(d) == Flat(dirs) - {Sub(p, n)} && Condemned(d) <= Condemned(dirs)
  {
    var q0 := Sub(p, n);
    NotAboveItself(p, n);
    assert Under(p, p);
    var d := SetEntry(dirs, p, n, None) - {q0};
    forall q ensures At(d, q) == Get(Flat(dirs) - {q0}, q) { SetEntryAt(dirs, p, n, None, q); FlatAt(dirs, q); }
    FlatIs(d, Flat(dirs) - {q0});
    forall x | x in d && x.Sub? ensures x.parent in d && IsDirectory(Look(d[x.parent].contents, x.name)) {
      assert x in dirs;
    }
    forall x | x in Condemned(d) ensures x in Condemned(dirs) {
      var r, m :| r in d && m in d[r].condemned && x == Sub(r, m);
      assert r in dirs && m in dirs[r].condemned;
    }
  }

  // ----- Moving the tables of a renamed directory -----

  /** The table of `k` is found where it belongs, the ones in `left` not having moved yet. */
  ghost predicate Lands(was: Dirs, now: Dirs, top: Path, to: Path, left: set<Path>, k: Path)
    requires k in was
  {
    var x := if Under(top, k) && k !in left then Graft(k, top, to) else k;
    x in now && now[x] == was[k]
  }

  ghost predicate Stems(was: Dirs, top: Path, to: Path, left: set<Path>, x: Path) {
    || (x in was && (Under(top, x) ==> x in left))
    || (Under(to, x) && Graft(x, to, top) in was && Graft(x, to, top) !in left)
  }

  /** `now` is `was` with the tables below `top` found below `to`, but for those in `left`. */
  ghost predicate MovedButFor(was: Dirs, now: Dirs, top: Path, to: Path, left: set<Path>) {
    && (forall k :: k in was ==> Lands(was, now, top, to, left, k))
    && (forall x :: x in now ==> Stems(was, top, to, left, x))
  }

  /** Nothing is below the new name yet. */
  ghost predicate Vacant(was: Dirs, top: Path, to: Path) {
    && (forall k :: k in was ==> !Under(to, k)) && (forall k :: !(Under(top, k) && Under(to, k)))
  }

  lemma LandsStill(was: Dirs, now: Dirs, top: Path, to: Path, left: set<Path>, k: Path, j: Path)
    requires Vacant(was, top, to) && k in left && k in was && k in now && now[k] == was[k] && Under(top, k)
    requires j in was && Lands(was, now, top, to, left, j)
    ensures Lands(was, (now - {k})[Graft(k, top, to) := now[k]], top, to, left - {k}, j)
  {
    GraftBack(k, top, to);
    if Under(top, j) { GraftBack(j, top, to); }
  }

  lemma MoveOne(was: Dirs, now: Dirs, top: Path, to: Path, left: set<Path>, k: Path)
    requires MovedButFor(was, now, top, to, left) && Vacant(was, top, to) && k in left && k in was && Under(top, k)
    ensures k in now && MovedButFor(was, (now - {k})[Graft(k, top, to) := now[k]], top, to, left - {k})
  {
    GraftBack(k, top, to);
    assert Lands(was, now, top, to, left, k);
    var after := (now - {k})[Graft(k, top, to) := now[k]];
    forall j | j in was ensures Lands(was, after, top, to, left - {k}, j) { LandsStill(was, now, top, to, left, k, j); }
    hide Lands;
    forall x | x in after ensures Stems(was, top, to, left - {k}, x) {
      if x != Graft(k, top, to) { assert Stems(was, top, to, left, x); }
    }
  }

  lemma MoveStarts(was: Dirs, top: Path, to: Path, left: set<Path>)
    requires left == set k | k in was && Under(top, k)
    ensures MovedButFor(was, was, top, to, left)
  {
  }

  /** The tables after the entry has been renamed and every table moved. */
  ghost predicate RenamedTables(was: Dirs, now: Dirs, p: Path, n: Name, m: Name)
    requires p in was && n in was[p].contents
  {
    MovedButFor(SetEntry(SetEntry(was, p, n, None), p, m, Some(was[p].contents[n])), now, Sub(p, n), Sub(p, m), {})
  }

  lemma {:induction false} NoneBelowAbsent(dirs: Dirs, p: Path, m: Name, k: Path)
    requires Linked(dirs) && p in dirs && !IsDirectory(Look(dirs[p].contents, m)) && k in dirs
    ensures !Under(Sub(p, m), k)
    decreases k
  {
    if k.Sub? && Under(Sub(p, m), k.parent) { NoneBelowAbsent(dirs, p, m, k.parent); }
  }

  lemma RenamedAt(was: Dirs, now: Dirs, p: Path, n: Name, m: Name, q: Path)
    requires Linked(was) && p in was && n in was[p].contents && m !in was[p].contents &&
        RenamedTables(was, now, p, n, m)
    ensures At(now, q) == Get(Rekey(Flat(was), Sub(p, n), Sub(p, m)), q)
  {
    var top, to := Sub(p, n), Sub(p, m);
    var mid := SetEntry(SetEntry(was, p, n, None), p, m, Some(was[p].contents[n]));
    FlatWellFormed(was);
    FlatAt(was, to);
    RekeyGet(Flat(was), p, n, m, q);
    FlatAt(was, q);
    NotAboveItself(p, n);
    NotAboveItself(p, m);
    if Under(to, q) {
      SiblingsDisjoint(p, m, n, q);
      FlatAt(was, Graft(q, to, top));
      if q != to { BelowNew(was, mid, now, p, n, m, q); } else { OwnTable(was, mid, now, p, n, m); }
    } else if Under(top, q) {
      if q != top { BelowOld(was, mid, now, p, n, m, q); } else { OwnTable(was, mid, now, p, n, m); }
    } else if q.Sub? {
      Elsewhere(was, mid, now, p, n, m, q);
    }
  }

  lemma OwnTable(was: Dirs, mid: Dirs, now: Dirs, p: Path, n: Name, m: Name)
    requires p in was && n in was[p].contents && m !in was[p].contents
    requires mid == SetEntry(SetEntry(was, p, n, None), p, m, Some(was[p].contents[n]))
    requires MovedButFor(mid, now, Sub(p, n), Sub(p, m), {}) && !Under(Sub(p, n), p)
    ensures p in now && now[p] == mid[p]
  {
  }

  lemma BelowNew(was: Dirs, mid: Dirs, now: Dirs, p: Path, n: Name, m: Name, q: Path)
    requires Linked(was) && p in was && n in was[p].contents && m !in was[p].contents
    requires mid == SetEntry(SetEntry(was, p, n, None), p, m, Some(was[p].contents[n]))
    requires MovedButFor(mid, now, Sub(p, n), Sub(p, m), {}) && Under(Sub(p, m), q) && q != Sub(p, m)
    ensures At(now, q) == At(was, Graft(q, Sub(p, m), Sub(p, n)))
  {
    var top, to, x := Sub(p, n), Sub(p, m), q.parent;
    var y := Graft(x, to, top);
    GraftBack(x, to, top);
    assert Graft(q, to, top) == Sub(y, q.name);
    if y == p { NotAboveItself(p, n); }
    if x in now {
      if x in mid { NoneBelowAbsent(was, p, m, x); }
      assert y in mid;
    }
    if y in was { assert y in mid && mid[y] == was[y]; }
  }

  lemma BelowOld(was: Dirs, mid: Dirs, now: Dirs, p: Path, n: Name, m: Name, q: Path)
    requires Linked(was) && p in was && n in was[p].contents && m !in was[p].contents
    requires mid == SetEntry(SetEntry(was, p, n, None), p, m, Some(was[p].contents[n]))
    requires MovedButFor(mid, now, Sub(p, n), Sub(p, m), {}) && Under(Sub(p, n), q) && q != Sub(p, n)
    ensures At(now, q) == None
  {
    var x := q.parent;
    if x in now { SiblingsDisjoint(p, n, m, x); }
  }

  lemma Elsewhere(was: Dirs, mid: Dirs, now: Dirs, p: Path, n: Name, m: Name, q: Path)
    requires p in was && n in was[p].contents && m !in was[p].contents && q.Sub?
    requires mid == SetEntry(SetEntry(was, p, n, None), p, m, Some(was[p].contents[n]))
    requires MovedButFor(mid, now, Sub(p, n), Sub(p, m), {}) && !Under(Sub(p, n), q) && !Under(Sub(p, m), q)
    ensures At(now, q) == At(was, q)
  {
    var x := q.parent;
    assert !Under(Sub(p, n), x) && !Under(Sub(p, m), x);
    if x in was { assert x in mid; }
    if x in now { assert x in mid; }
  }

  /** Renaming keeps tables and tree together. */
  lemma RenamedLinked(was: Dirs, now: Dirs, p: Path, n: Name, m: Name)
    requires Linked(was) && p in was && n in was[p].contents && m !in was[p].contents &&
        RenamedTables(was, now, p, n, m)
    ensures Linked(now) && Flat(now) == Rekey(Flat(was), Sub(p, n), Sub(p, m))
  {
    var top, to := Sub(p, n), Sub(p, m);
    var mid := SetEntry(SetEntry(was, p, n, None), p, m, Some(was[p].contents[n]));
    forall q ensures At(now, q) == Get(Rekey(Flat(was), top, to), q) { RenamedAt(was, now, p, n, m, q); }
    FlatIs(now, Rekey(Flat(was), top, to));
    assert Lands(mid, now, top, to, {}, Root);
    forall x: Path | x.Sub? ensures x in now <==> IsDirectory(At(now, x)) { RenamedKey(was, mid, now, p, n, m, x); }
    LinkedIf(now);
  }

  /** Which tables there are after a rename. */
  lemma RenamedKeys(mid: Dirs, now: Dirs, top: Path, to: Path, x: Path)
    requires MovedButFor(mid, now, top, to, {}) && Vacant(mid, top, to)
    ensures x in now <==> if Under(to, x) then Graft(x, to, top) in mid else x in mid && !Under(top, x)
  {
    if Under(to, x) {
      var y := Graft(x, to, top);
      GraftBack(x, to, top);
      if y in mid { assert Lands(mid, now, top, to, {}, y); }
    } else {
      if x in mid { assert Lands(mid, now, top, to, {}, x); }
    }
    if x in now { assert Stems(mid, top, to, {}, x); }
  }

  lemma VacantBefore(was: Dirs, p: Path, n: Name, m: Name)
    requires Linked(was) && p in was && m !in was[p].contents && n != m
    ensures Vacant(was, Sub(p, n), Sub(p, m))
  {
    forall k | k in was ensures !Under(Sub(p, m), k) { NoneBelowAbsent(was, p, m, k); }
    forall k ensures !(Under(Sub(p, n), k) && Under(Sub(p, m), k)) {
      if Under(Sub(p, n), k) { SiblingsDisjoint(p, n, m, k); }
    }
  }

  lemma RenamedKey(was: Dirs, mid: Dirs, now: Dirs, p: Path, n: Name, m: Name, x: Path)
    requires Linked(was) && p in was && n in was[p].contents && m !in was[p].contents && x.Sub?
    requires mid.Keys == was.Keys && MovedButFor(mid, now, Sub(p, n), Sub(p, m), {})
    requires At(now, x) == Get(Rekey(Flat(was), Sub(p, n), Sub(p, m)), x)
    ensures x in now <==> IsDirectory(At(now, x))
  {
    var top, to := Sub(p, n), Sub(p, m);
    FlatWellFormed(was);
    FlatAt(was, to);
    RekeyGet(Flat(was), p, n, m, x);
    VacantBefore(was, p, n, m);
    RenamedKeys(mid, now, top, to, x);
    var y := if Under(to, x) then Graft(x, to, top) else x;
    if Under(to, x) { GraftBack(x, to, top); }
    FlatAt(was, y);
    hide Linked, MovedButFor, Flat, Rekey, WellFormed, Vacant;
    assert y.Sub? by { if Under(to, x) { StaysSub(x, to, top); } }
    LinkedAt(was, y);
  }

  lemma StaysSub(x: Path, to: Path, top: Path)
    requires Under(to, x) && x.Sub? && top.Sub?
    ensures Graft(x, to, top).Sub?
  {
  }

  lemma RenamedCondemned(was: Dirs, now: Dirs, p: Path, n: Name, m: Name)
    requires Linked(was) && p in was && n in was[p].contents && m !in was[p].contents &&
        RenamedTables(was, now, p, n, m)
    ensures Condemned(now) == Carried(Condemned(was), Sub(p, n), Sub(p, m))
  {
    var top, to := Sub(p, n), Sub(p, m);
    var mid := SetEntry(SetEntry(was, p, n, None), p, m, Some(was[p].contents[n]));
    assert mid.Keys == was.Keys && forall r :: r in was ==> mid[r].condemned == was[r].condemned;
    forall x | x in Condemned(now) ensures x in Carried(Condemned(was), top, to) {
      var r, c :| r in now && c in now[r].condemned && x == Sub(r, c);
      assert Stems(mid, top, to, {}, r);
      if Under(to, r) && Graft(r, to, top) in mid {
        var y := Graft(r, to, top);
        GraftBack(r, to, top);
        assert Lands(mid, now, top, to, {}, y);
        var q := Sub(y, c);
        assert q in Condemned(was);
        assert Under(top, q.parent);
        GraftTail(y, c, top, to);
      } else {
        assert Lands(mid, now, top, to, {}, r);
        assert x in Condemned(was);
      }
    }
    forall x | x in Carried(Condemned(was), top, to) ensures x in Condemned(now) {
      var q :| q in Condemned(was) && x == if q.Sub? && Under(top, q.parent) then Graft(q, top, to) else q;
      var r, c :| r in was && c in was[r].condemned && q == Sub(r, c);
      assert Lands(mid, now, top, to, {}, r);
      if Under(top, r) { GraftTail(r, c, top, to); }
    }
  }

  lemma GraftTail(r: Path, c: Name, top: Path, to: Path)
    requires Under(top, r)
    ensures Under(top, Sub(r, c)) && Graft(Sub(r, c), top, to) == Sub(Graft(r, top, to), c)
  {
    UnderDepth(top, r);
  }

  // ----- Dropping the tables of purged directories -----

  /** The tables at and below the tops are dropped. */
  function WithoutBelow(dirs: Dirs, tops: set<Path>): Dirs {
    map k | k in dirs && !(exists top :: top in tops && Under(top, k)) :: dirs[k]
  }

  /** Files of `p` named in `names` taken off, with all that is below them. */
  ghost predicate Purged(was: Dirs, now: Dirs, p: Path, names: set<Name>)
    requires p in was
  {
    now == WithoutBelow(was[p := Table(was[p].contents - names, {})], set n | n in names &&
        IsDirectory(Look(was[p].contents, n)) :: Sub(p, n))
  }

  ghost predicate UnderSome(p: Path, names: set<Name>, q: Path) {
    exists n :: n in names && Under(Sub(p, n), q)
  }

  lemma PurgedAtPath(was: Dirs, now: Dirs, p: Path, names: set<Name>, q: Path)
    requires Linked(was) && p in was && Purged(was, now, p, names)
    ensures At(now, q) == if UnderSome(p, names, q) then None else At(was, q)
  {
    var tops := set n | n in names && IsDirectory(Look(was[p].contents, n)) :: Sub(p, n);
    if q.Sub? {
      var x := q.parent;
      if x == p {
        if top :| top in tops && Under(top, p) { UnderDepth(top, p); }
        if q.name in names { assert Under(Sub(p, q.name), q); }
        else if n :| n in names && Under(Sub(p, n), q) { if q != Sub(p, n) { UnderDepth(Sub(p, n), p); } }
      } else {
        if top :| top in tops && Under(top, x) {
          var n :| n in names && top == Sub(p, n);
          assert Under(Sub(p, n), q);
        }
        if n :| n in names && Under(Sub(p, n), q) {
          assert Under(Sub(p, n), x);
          if !IsDirectory(Look(was[p].contents, n)) {
            if x in was { NoneBelowAbsent(was, p, n, x); }
          } else {
            assert Sub(p, n) in tops;
          }
        }
      }
    }
  }

  /** The replica as the ancestor of a world of its own. */
  ghost function AsAncestor(dirs: Dirs): World {
    World(map[], Flat(dirs), map[], Condemned(dirs), [])
  }

  lemma CondemnedHere(dirs: Dirs, p: Path, q: Path)
    requires p in dirs
    ensures q in Condemned(dirs) && q.Sub? && q.parent == p <==> q.Sub? && q.parent == p && q.name in dirs[p].condemned
  {
    if q in Condemned(dirs) { var r, c :| r in dirs && c in dirs[r].condemned && q == Sub(r, c); }
    if q.Sub? && q.parent == p && q.name in dirs[p].condemned { assert q == Sub(p, q.name); }
  }

  lemma GoneTops(dirs: Dirs, p: Path, q: Path)
    requires p in dirs
    ensures UnderSome(p, dirs[p].condemned, q) <==>
            exists top: Path :: top in Condemned(dirs) && top.Sub? && top.parent == p && Under(top, q)
  {
    if n :| n in dirs[p].condemned && Under(Sub(p, n), q) { CondemnedHere(dirs, p, Sub(p, n)); }
    if top: Path :| top in Condemned(dirs) && top.Sub? && top.parent == p && Under(top, q) {
      CondemnedHere(dirs, p, top);
      assert top == Sub(p, top.name);
    }
  }

  lemma PurgedKeys(was: Dirs, now: Dirs, p: Path, names: set<Name>, x: Path)
    requires Linked(was) && p in was && Purged(was, now, p, names)
    ensures x in now <==> x in was && !UnderSome(p, names, x)
  {
    var tops := set n | n in names && IsDirectory(Look(was[p].contents, n)) :: Sub(p, n);
    if x in was && x !in now {
      var top :| top in tops && Under(top, x);
      var n :| n in names && top == Sub(p, n);
    }
    if n :| n in names && Under(Sub(p, n), x) {
      if x in was {
        if !IsDirectory(Look(was[p].contents, n)) { NoneBelowAbsent(was, p, n, x); }
        assert Sub(p, n) in tops;
      }
    }
  }

  lemma PurgedLinked(was: Dirs, now: Dirs, p: Path, names: set<Name>)
    requires Linked(was) && p in was && Purged(was, now, p, names)
    ensures Linked(now) && p in now && now[p] == Table(was[p].contents - names, {})
  {
    forall x ensures x in now <==> x in was && !UnderSome(p, names, x) { PurgedKeys(was, now, p, names, x); }
    if n :| n in names && Under(Sub(p, n), Root) { UnderDepth(Sub(p, n), Root); }
    if n :| n in names && Under(Sub(p, n), p) { UnderDepth(Sub(p, n), p); }
    forall x: Path | x.Sub? ensures x in now <==> IsDirectory(At(now, x)) {
      PurgedAtPath(was, now, p, names, x);
      LinkedAt(was, x);
    }
    LinkedIf(now);
  }

  /** Listing purges the tree of what is condemned in the directory. */
  lemma PurgedIsPurge(was: Dirs, now: Dirs, p: Path)
    requires Linked(was) && p in was && Purged(was, now, p, was[p].condemned)
    ensures Flat(now) == Purge(AsAncestor(was), p).anc && Condemned(now) == Purge(AsAncestor(was), p).condemned
  {
    var w := Purge(AsAncestor(was), p);
    forall q ensures At(now, q) == Get(w.anc, q) {
      PurgedAtPath(was, now, p, was[p].condemned, q);
      FlatAt(was, q);
      GoneTops(was, p, q);
    }
    FlatIs(now, w.anc);
    forall q ensures q in Condemned(now) <==> q in w.condemned { PurgedCondemned(was, now, p, q); }
  }

  lemma PurgedCondemned(was: Dirs, now: Dirs, p: Path, q: Path)
    requires Linked(was) && p in was && Purged(was, now, p, was[p].condemned)
    ensures q in Condemned(now) <==> q in Purge(AsAncestor(was), p).condemned
  {
    if q.Sub? {
      var r := q.parent;
      PurgedKeys(was, now, p, was[p].condemned, r);
      GoneTops(was, p, r);
      CondemnedHere(was, p, q);
      if r in was { CondemnedHere(was, r, q); }
      if r in now { CondemnedHere(now, r, q); }
      PurgedTable(was, now, p, r);
      KeyOfCondemned(was, q);
      KeyOfCondemned(now, q);
    } else {
      KeyOfCondemned(now, q);
      KeyOfCondemned(was, q);
    }
  }

  lemma KeyOfCondemned(dirs: Dirs, q: Path)
    ensures q in Condemned(dirs) ==> q.Sub? && q.parent in dirs
  {
    if q in Condemned(dirs) { var r, c :| r in dirs && c in dirs[r].condemned && q == Sub(r, c); }
  }

  lemma PurgedTable(was: Dirs, now: Dirs, p: Path, r: Path)
    requires p in was && Purged(was, now, p, was[p].condemned)
    ensures r in now ==> r in was && now[r].condemned == if r == p then {} else was[r].condemned
  {
  }

  // ----- The replica -----

  /** After those before it, the `i`-th synthetic directory is there, or its parent is and
      nothing has its name. */
  ghost predicate CanMake(fs: Fs, synth: Synthetics, i: nat)
    requires i < |synth| && synth[i].0.Sub?
  {
    var now, q := Materialise(fs, synth[..i]), synth[i].0;
    IsDir(now, q) || (IsDir(now, q.parent) && q !in now)
  }

  lemma MaterialiseNext(fs: Fs, synth: Synthetics, i: nat)
    requires i < |synth| && synth[i].0.Sub?
    ensures var now, (q, mode) := Materialise(fs, synth[..i]), synth[i];
            && Materialise(fs, synth[..i + 1]) == (if q in now then now else now[q := Directory(mode)])
            && (CanMake(fs, synth, i) <==> IsDir(now, q) || (IsDir(now, q.parent) && q !in now))
  {
    assert synth[..i + 1][..i] == synth[..i] && synth[..i + 1][i] == synth[i];
  }

  class Memory {
    var dirs: Dirs

    ghost predicate Valid()
      reads this
    {
      Linked(dirs)
    }

    constructor ()
      ensures Valid() && Flat(dirs) == map[] && Condemned(dirs) == {}
    {
      dirs := map[Root := EMPTY];
      new;
      FlatIs(dirs, map[]);
    }

    /** `list`: names condemned in the directory are taken out first, with everything below
        them; a directory that is only synthetic looks empty. */
    method ListDir(p: Path, synthetic: bool) returns (r: Option<map<Name, FileData>>)
      requires Valid()
      modifies this
      ensures Valid() && r.Some? == (IsDir(old(Flat(dirs)), p) || synthetic)
      ensures if IsDir(old(Flat(dirs)), p)
              then && Flat(dirs) == Purge(old(AsAncestor(dirs)), p).anc &&
                  Condemned(dirs) == Purge(old(AsAncestor(dirs)), p).condemned
                   && r == Some(List(Flat(dirs), p))
              else dirs == old(dirs) && (synthetic ==> r == Some(map[]))
    {
      FlatDir(dirs, p);
      if p !in dirs { return if synthetic then Some(map[]) else None; }
      ghost var was := dirs;
      var names, contents := dirs[p].condemned, dirs[p].contents;
      var tops: set<Path> := {};
      var rest := names;
      while rest != {}
        invariant rest <= names && contents == was[p].contents - (names - rest)
        invariant tops == set n | n in names - rest && IsDirectory(Look(was[p].contents, n)) :: Sub(p, n)
        decreases |rest|
      {
        var n :| n in rest;
        if n in contents && contents[n].Directory? { tops := tops + {Sub(p, n)}; }
        contents := contents - {n};
        rest := rest - {n};
      }
      assert names - rest == names;
      dirs := dirs[p := Table(contents, {})];
      DropBelow(tops);
      assert Purged(was, dirs, p, names);
      PurgedLinked(was, dirs, p, names);
      PurgedIsPurge(was, dirs, p);
      r := Some(dirs[p].contents);
      ListIsTable(dirs, p);
    }

    /** The second and third pass of `list`: finds the tables to drop, then drops them. */
    method DropBelow(tops: set<Path>)
      modifies this
      ensures dirs == WithoutBelow(old(dirs), tops)
    {
      var doomed := set k | k in dirs && exists top :: top in tops && Under(top, k);
      var left := doomed;
      ghost var was := dirs;
      while left != {}
        invariant left <= doomed && dirs == was - (doomed - left)
        decreases |left|
      {
        var k :| k in left;
        dirs := dirs - {k};
        left := left - {k};
      }
      assert dirs == was - doomed;
    }

    /** `rename`: the entry, its table, then the tables of everything below, one by one. */
    method Rename(p: Path, n: Name, m: Name) returns (ok: bool)
      requires Valid()
      modifies this
      ensures Valid() && ok == Replica.Rename(old(Flat(dirs)), p, n, m).Some?
      ensures ok ==> Some(Flat(dirs)) == Replica.Rename(old(Flat(dirs)), p, n, m)
      ensures ok ==> Condemned(dirs) == Carried(old(Condemned(dirs)), Sub(p, n), Sub(p, m))
      ensures !ok ==> dirs == old(dirs)
    {
      FlatAt(dirs, Sub(p, n));
      FlatAt(dirs, Sub(p, m));
      if p !in dirs || m in dirs[p].contents || n !in dirs[p].contents { return false; }
      ghost var was := dirs;
      var data, top, to := dirs[p].contents[n], Sub(p, n), Sub(p, m);
      dirs := SetEntry(SetEntry(dirs, p, n, None), p, m, Some(data));
      ghost var mid := dirs;
      VacantBefore(was, p, n, m);
      assert mid.Keys == was.Keys;
      if data.Directory? {
        MoveTables(top, to);
      } else {
        forall k | k in was ensures !Under(top, k) { NoneBelowAbsent(was, p, n, k); }
        assert MovedButFor(mid, dirs, top, to, {});
      }
      RenamedLinked(was, dirs, p, n, m);
      RenamedCondemned(was, dirs, p, n, m);
      ok := true;
    }

    method MoveTables(top: Path, to: Path)
      requires Vacant(dirs, top, to)
      modifies this
      ensures MovedButFor(old(dirs), dirs, top, to, {})
    {
      var left := set k | k in dirs && Under(top, k);
      ghost var was := dirs;
      MoveStarts(was, top, to, left);
      hide MovedButFor, Vacant, Under, Graft;
      while left != {}
        invariant MovedButFor(was, dirs, top, to, left)
        invariant forall k :: k in left ==> k in was && Under(top, k)
        decreases |left|
      {
        var k :| k in left;
        MoveOne(was, dirs, top, to, left, k);
        dirs := (dirs - {k})[Graft(k, top, to) := dirs[k]];
        left := left - {k};
      }
    }

    /** `remove`. */
    method Remove(p: Path, n: Name, expected: FileData) returns (ok: bool)
      requires Valid()
      modifies this
      ensures Valid() && ok == Replica.Remove(old(Flat(dirs)), p, n, expected).Some?
      ensures ok ==> Some(Flat(dirs)) == Replica.Remove(old(Flat(dirs)), p, n, expected)
      ensures ok ==> Condemned(dirs) <= old(Condemned(dirs))
      ensures !ok ==> dirs == old(dirs)
    {
      var q := Sub(p, n);
      FlatAt(dirs, q);
      if p !in dirs || n !in dirs[p].contents || !expected.Matches(dirs[p].contents[n]) { return false; }
      if dirs[p].contents[n].Directory? {
        assert q in dirs;
        FlatEmpty(dirs, q);
        if dirs[q].contents != map[] { return false; }
        DropDir(dirs, p, n);
        dirs := SetEntry(dirs, p, n, None) - {q};
      } else {
        DropPlain(dirs, p, n);
        dirs := SetEntry(dirs, p, n, None);
      }
      ok := true;
    }

    method CreateHere(p: Path, n: Name, data: FileData) returns (ok: bool)
      requires Valid()
      modifies this
      ensures Valid() && ok == Replica.Create(old(Flat(dirs)), p, n, data).Some?
      ensures ok ==> Some(Flat(dirs)) == Replica.Create(old(Flat(dirs)), p, n, data)
      ensures ok ==> Condemned(dirs) == old(Condemned(dirs))
      ensures !ok ==> dirs == old(dirs)
    {
      FlatAt(dirs, Sub(p, n));
      FlatDir(dirs, p);
      if p !in dirs || n in dirs[p].contents { return false; }
      if data.Directory? {
        AddDir(dirs, p, n, data);
        dirs := SetEntry(dirs, p, n, Some(data))[Sub(p, n) := EMPTY];
      } else {
        SetPlain(dirs, p, n, data);
        dirs := SetEntry(dirs, p, n, Some(data));
      }
      ok := true;
    }

    /** A directory that a handle only pretended to have. */
    method MakeOne(q: Path, mode: FileMode) returns (ok: bool)
      requires Valid() && q.Sub?
      modifies this
      ensures Valid() && Condemned(dirs) == old(Condemned(dirs))
      ensures ok <==> IsDir(old(Flat(dirs)), q) || (IsDir(old(Flat(dirs)), q.parent) && q !in old(Flat(dirs)))
      ensures Flat(dirs) == if ok && q !in old(Flat(dirs)) then old(Flat(dirs))[q := Directory(mode)]
                            else old(Flat(dirs))
    {
      FlatDir(dirs, q);
      assert q == Sub(q.parent, q.name);
      if q in dirs { return true; }
      ok := CreateHere(q.parent, q.name, Directory(mode));
    }

    /** All of them, outermost first. If one cannot be made, those before it stay. */
    method MakeAll(synth: Synthetics) returns (ok: bool, ghost made: nat)
      requires Valid() && (forall i :: 0 <= i < |synth| ==> synth[i].0.Sub?)
      modifies this
      ensures Valid() && Condemned(dirs) == old(Condemned(dirs)) && made <= |synth|
      ensures Flat(dirs) == Materialise(old(Flat(dirs)), synth[..made])
      ensures forall i: nat :: i < made ==> CanMake(old(Flat(dirs)), synth, i)
      ensures if ok then made == |synth| else made < |synth| && !CanMake(old(Flat(dirs)), synth, made)
    {
      hide Flat, Linked, Condemned;
      ghost var fs := Flat(dirs);
      made := 0;
      var i := 0;
      while i < |synth|
        invariant 0 <= i <= |synth| && made == i && Valid() && Condemned(dirs) == old(Condemned(dirs))
        invariant Flat(dirs) == Materialise(fs, synth[..i])
        invariant forall k: nat :: k < i ==> CanMake(fs, synth, k)
      {
        var (q, mode) := synth[i];
        MaterialiseNext(fs, synth, i);
        hide Materialise;
        ok := MakeOne(q, mode);
        if !ok { return; }
        i := i + 1;
        made := i;
      }
      ok := true;
    }

    /** `create`: the synthetic directories, then the file. */
    method Create(p: Path, synth: Synthetics, n: Name, data: FileData) returns (ok: bool, ghost made: nat)
      requires Valid() && (forall i :: 0 <= i < |synth| ==> synth[i].0.Sub?)
      modifies this
      ensures Valid() && made <= |synth| && Condemned(dirs) == old(Condemned(dirs))
      ensures ok <==> (forall i: nat :: i < |synth| ==> CanMake(old(Flat(dirs)), synth, i))
                      && Replica.Create(Materialise(old(Flat(dirs)), synth), p, n, data).Some?
      ensures made < |synth| ==> !CanMake(old(Flat(dirs)), synth, made)
      ensures forall i: nat :: i < made ==> CanMake(old(Flat(dirs)), synth, i)
      ensures ok ==> Some(Flat(dirs)) == Replica.Create(Materialise(old(Flat(dirs)), synth), p, n, data)
      ensures !ok ==> Flat(dirs) == Materialise(old(Flat(dirs)), synth[..made])
    {
      hide Flat, Linked, Condemned, Materialise, CanMake, Replica.Create;
      ok, made := MakeAll(synth);
      if ok {
        assert synth[..made] == synth;
        ok := CreateHere(p, n, data);
      }
    }

    predicate SameType(a: FileData, b: FileData) {
      || (a.Directory? && b.Directory?) || (a.Regular? && b.Regular?) || (a.Symlink? && b.Symlink?) ||
          (a.Special? && b.Special?)
    }

    /** `update`: in place if the type stays, else by way of a temporary name. That name is
        assumed to be free; if it is not, nothing happens. */
    method Update(p: Path, n: Name, expected: FileData, data: FileData) returns (ok: bool)
      requires Valid()
      modifies this
      ensures Valid() && (ok ==> Some(Flat(dirs)) == Replica.Update(old(Flat(dirs)), p, n, expected, data))
      ensures !ok ==> Flat(dirs) == old(Flat(dirs))
      ensures ok <==> Replica.Update(old(Flat(dirs)), p, n, expected, data).Some?
                      && (SameType(old(Flat(dirs))[Sub(p, n)], data) || expected.Directory? ||
                          Sub(p, n + "!testtmp") !in old(Flat(dirs)))
    {
      var q := Sub(p, n);
      FlatAt(dirs, q);
      if p !in dirs || n !in dirs[p].contents || !expected.Matches(dirs[p].contents[n]) { return false; }
      var now := dirs[p].contents[n];
      ghost var fs := Flat(dirs);
      if SameType(now, data) {
        if now.Directory? { SetMode(dirs, p, n, data); } else { SetPlain(dirs, p, n, data); }
        dirs := SetEntry(dirs, p, n, Some(data));
        return true;
      }
      if expected.Directory? {
        ok := ReplaceDirectory(p, n, expected, data);
      } else {
        ok := ReplaceByRename(p, n, expected, data);
      }
    }

    /** A directory becomes something else. */
    method ReplaceDirectory(p: Path, n: Name, expected: FileData, data: FileData) returns (ok: bool)
      requires Valid() && expected.Directory? && !data.Directory?
      requires p in dirs && n in dirs[p].contents && expected.Matches(dirs[p].contents[n])
      modifies this
      ensures Valid() && ok == !HasChild(old(Flat(dirs)), Sub(p, n))
      ensures Flat(dirs) == if ok then old(Flat(dirs))[Sub(p, n) := data] else old(Flat(dirs))
    {
      ghost var fs := Flat(dirs);
      FlatAt(dirs, Sub(p, n));
      FlatWellFormed(dirs);
      FlatDir(dirs, p);
      RemovesDirectory(fs, p, n, expected, data);
      hide Linked, Flat, WellFormed, HasChild, Condemned, Replica.Remove, Replica.Create;
      ok := Remove(p, n, expected);
      if ok { var _ := CreateHere(p, n, data); }
      assert ok == !HasChild(fs, Sub(p, n)) && Flat(dirs) == if ok then fs[Sub(p, n) := data] else fs;
    }

    /** Something else than a directory changes its type. */
    method ReplaceByRename(p: Path, n: Name, expected: FileData, data: FileData) returns (ok: bool)
      requires Valid() && !expected.Directory?
      requires p in dirs && n in dirs[p].contents && expected.Matches(dirs[p].contents[n])
      modifies this
      ensures Valid() && ok == (Sub(p, n + "!testtmp") !in old(Flat(dirs)))
      ensures Flat(dirs) == if ok then old(Flat(dirs))[Sub(p, n) := data] else old(Flat(dirs))
    {
      ghost var fs := Flat(dirs);
      var tmp := n + "!testtmp";
      FlatAt(dirs, Sub(p, n));
      FlatWellFormed(dirs);
      ok := Rename(p, n, tmp);
      if ok {
        RenameEffect(fs, p, n, tmp);
        ghost var mid := Flat(dirs);
        NotAboveItself(p, n);
        NotAboveItself(p, tmp);
        var _ := CreateHere(p, n, data);
        TypeChanged(fs, mid, Flat(dirs), p, n, tmp, data);
        var _ := Remove(p, tmp, expected);
      }
    }

    /** `rmdir`, which goes by way of the parent and so purges it too. The program insists
        that the parent still lists the directory. */
    method RmDirectory(p: Path) returns (ok: bool)
      requires Valid() && p.Sub? && (p in dirs && p.parent in dirs ==> p.name !in dirs[p.parent].condemned)
      modifies this
      ensures Valid()
      ensures var was := old(Flat(dirs));
              var fs := if IsDir(was, p) then Purge(old(AsAncestor(dirs)), p.parent).anc else was;
              var r := RmDir(fs, p);
              ok == r.Some? && Flat(dirs) == if ok then r.value else fs
    {
      FlatDir(dirs, p);
      FlatAt(dirs, p);
      if p !in dirs || p.parent !in dirs { return true; }
      FlatDir(dirs, p.parent);
      ghost var was := dirs;
      var listed := ListDir(p.parent, false);
      KeptByPurge(was, p);
      FlatAt(dirs, p);
      FlatDir(dirs, p);
      ListGet(Flat(dirs), p.parent, p.name);
      assert Sub(p.parent, p.name) == p;
      ghost var fs := Flat(dirs);
      var data := listed.value[p.name];
      RemoveIsRmDir(fs, p, data);
      hide Linked, Flat, Purge, HasChild, Condemned, List;
      ok := Remove(p.parent, p.name, data);
    }

    method CondemnName(p: Path, n: Name) returns (ok: bool)
      requires Valid()
      modifies this
      ensures Valid() && ok == IsDir(old(Flat(dirs)), p) && Flat(dirs) == old(Flat(dirs))
      ensures Condemned(dirs) == if ok then old(Condemned(dirs)) + {Sub(p, n)} else old(Condemned(dirs))
    {
      FlatDir(dirs, p);
      if p !in dirs { return false; }
      ghost var was := dirs;
      dirs := dirs[p := dirs[p].(condemned := dirs[p].condemned + {n})];
      OnlyCondemned(was, dirs, p, n);
      ok := true;
    }

    method UncondemnName(p: Path, n: Name) returns (ok: bool)
      requires Valid()
      modifies this
      ensures Valid() && ok == IsDir(old(Flat(dirs)), p) && Flat(dirs) == old(Flat(dirs))
      ensures Condemned(dirs) == if ok then old(Condemned(dirs)) - {Sub(p, n)} else old(Condemned(dirs))
    {
      FlatDir(dirs, p);
      if p !in dirs { return false; }
      ghost var was := dirs;
      dirs := dirs[p := dirs[p].(condemned := dirs[p].condemned - {n})];
      OnlyCondemned(was, dirs, p, n);
      ok := true;
    }
  }

  lemma RemovesDirectory(fs: Fs, p: Path, n: Name, expected: FileData, data: FileData)
    requires IsDir(fs, p) && Sub(p, n) in fs && expected.Matches(fs[Sub(p, n)]) && expected.Directory?
    ensures Replica.Remove(fs, p, n, expected) == if HasChild(fs, Sub(p, n)) then None else Some(fs - {Sub(p, n)})
    ensures Replica.Create(fs - {Sub(p, n)}, p, n, data) == Some(fs[Sub(p, n) := data])
  {
    NotAboveItself(p, n);
    assert Under(p, p);
    assert (fs - {Sub(p, n)})[Sub(p, n) := data] == fs[Sub(p, n) := data];
  }

  /** A directory that is not condemned is still there after its parent was purged. */
  lemma KeptByPurge(was: Dirs, p: Path)
    requires Linked(was) && p.Sub? && p in was && p.parent in was && p.name !in was[p.parent].condemned
    ensures Get(Purge(AsAncestor(was), p.parent).anc, p) == At(was, p) && IsDirectory(At(was, p))
  {
    LinkedAt(was, p);
    FlatAt(was, p);
    GoneTops(was, p.parent, p);
    if n :| n in was[p.parent].condemned && Under(Sub(p.parent, n), p) {
      if p != Sub(p.parent, n) { UnderDepth(Sub(p.parent, n), p.parent); }
    }
  }

  lemma RemoveIsRmDir(fs: Fs, p: Path, data: FileData)
    requires p.Sub? && Get(fs, p) == Some(data) && data.Directory?
    ensures Replica.Remove(fs, p.parent, p.name, data) == RmDir(fs, p)
  {
    assert Sub(p.parent, p.name) == p;
  }

  lemma CondemnedPoint(dirs: Dirs, q: Path)
    ensures q in Condemned(dirs) <==> q.Sub? && q.parent in dirs && q.name in dirs[q.parent].condemned
  {
    KeyOfCondemned(dirs, q);
    if q.Sub? && q.parent in dirs { CondemnedHere(dirs, q.parent, q); }
  }

  lemma SameContents(was: Dirs, now: Dirs)
    requires Linked(was) && now.Keys == was.Keys && forall k :: k in was ==> now[k].contents == was[k].contents
    ensures Linked(now) && Flat(now) == Flat(was)
  {
    forall q ensures At(now, q) == Get(Flat(was), q) { FlatAt(was, q); }
    hide Flat;
    FlatIs(now, Flat(was));
  }

  lemma OnlyCondemned(was: Dirs, now: Dirs, p: Path, n: Name)
    requires Linked(was) && p in was && now.Keys == was.Keys
    requires forall k :: k in was ==> now[k].contents == was[k].contents && (k != p ==> now[k] == was[k])
    requires now[p].condemned == was[p].condemned + {n} || now[p].condemned == was[p].condemned - {n}
    ensures Linked(now) && Flat(now) == Flat(was)
    ensures now[p].condemned == was[p].condemned + {n} ==> Condemned(now) == Condemned(was) + {Sub(p, n)}
    ensures now[p].condemned == was[p].condemned - {n} ==> Condemned(now) == Condemned(was) - {Sub(p, n)}
  {
    hide Condemned, Flat, Linked;
    SameContents(was, now);
    forall q ensures q in Condemned(now) <==> if q == Sub(p, n) then n in now[p].condemned else q in Condemned(was) {
      CondemnedPoint(was, q);
      CondemnedPoint(now, q);
    }
  }

  lemma TypeChanged(fs: Fs, mid: Fs, now: Fs, p: Path, n: Name, tmp: Name, data: FileData)
    requires WellFormed(fs) && Sub(p, n) in fs && Sub(p, tmp) !in fs && n != tmp && !fs[Sub(p, n)].Directory?
    requires mid == Rekey(fs, Sub(p, n), Sub(p, tmp)) && now == mid[Sub(p, n) := data]
    ensures Get(now, Sub(p, tmp)) == Get(fs, Sub(p, n)) && now - {Sub(p, tmp)} == fs[Sub(p, n) := data]
  {
    var q, t := Sub(p, n), Sub(p, tmp);
    forall x ensures Get(now - {t}, x) == Get(fs[q := data], x) {
      RekeyGet(fs, p, n, tmp, x);
      if Under(t, x) && x != t {
        GraftBack(x, t, q);
        LeafHasNothingBelow(fs, q);
        GraftNotTop(x, t, q);
        NothingBelowAbsent(fs, t, x);
      } else if Under(q, x) && x != q {
        LeafHasNothingBelow(fs, q);
      }
    }
    SameFs(now - {t}, fs[q := data]);
    RekeyGet(fs, p, n, tmp, t);
  }

  lemma GraftNotTop(x: Path, top: Path, to: Path)
    requires Under(top, x) && x != top
    ensures Graft(x, top, to) != to
  {
    GraftBack(x.parent, top, to);
    UnderDepth(to, Graft(x.parent, top, to));
  }

  lemma ListIsTable(dirs: Dirs, p: Path)
    requires p in dirs
    ensures List(Flat(dirs), p) == dirs[p].contents
  {
    forall n ensures Look(List(Flat(dirs), p), n) == Look(dirs[p].contents, n) {
      ListGet(Flat(dirs), p, n);
      FlatAt(dirs, Sub(p, n));
    }
    var a, b := List(Flat(dirs), p), dirs[p].contents;
    forall n ensures n in a <==> n in b { assert Look(a, n) == Look(b, n); }
    forall n | n in a ensures a[n] == b[n] { assert Look(a, n) == Look(b, n); }
  }
}
