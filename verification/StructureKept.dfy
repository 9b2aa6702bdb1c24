/** Every action of the walk keeps the structural invariant. */
module StructureKept {
  import opened Defs
  import opened Replica
  import opened AltName
  import opened Mutate
  import opened Effects
  import opened Walk
  import opened Structure

  /** What the tables say of a name whose directory is about to be entered. */
  ghost predicate EnteredBy(w: World, t: Tables, n: Name, r: Reconciliation, out: Applied) {
    && (out.res == Clean(true) ==> IsDirectory(Look(out.t.anc, n)) && n !in out.todo)
    && (out.res.RecursiveDelete? ==>
          var side, dir := out.res.side, Some(Directory(out.res.mode));
          && n !in out.todo && out.w.cli == w.cli && out.w.srv == w.srv && out.w.log == w.log
          && r == Use(Rev(side))
          && Look(EndTable(out.t, side), n) == dir && Look(EndTable(out.t, Rev(side)), n) == None
          && Look(out.t.anc, n) == dir && EndTable(out.t, side) == EndTable(t, side)
          && EndTable(out.t, Rev(side)) == EndTable(t, Rev(side)))
  }

  lemma RecordEnters(w0: World, t0: Tables, w: World, t: Tables, todo: set<Name>, p: Path, n: Name, r: Reconciliation,
                     data: Option<FileData>, fault: AncestorFault)
    requires n !in todo
    ensures EnteredBy(w0, t0, n, r, Record(w, t, todo, p, n, data, fault))
  {
    hide ReplaceAncestor;
  }

  lemma UseEnters(w: World, t: Tables, todo: set<Name>, synth: Synthetics, p: Path, n: Name, src: Side, f: Faults)
    requires n !in todo
    ensures EnteredBy(w, t, n, Use(src), ApplyUse(w, t, todo, synth, p, n, src, f))
  {
    var dst := Rev(src);
    var was, data := Look(EndTable(t, dst), n), Look(EndTable(t, src), n);
    var r := ReplaceEnd(w, dst, synth, p, n, was, data, f.end);
    hide ReplaceAncestor, ReplaceEnd;
    if !(IsDirectory(was) && data.None?) && r.Some? {
      RecordEnters(w, t, r.value, WithEndTable(t, dst, Put(EndTable(t, dst), n, data)), todo, p, n, Use(src), data,
          f.anc);
    }
  }

  lemma SplitEnters(w: World, t: Tables, todo: set<Name>, p: Path, n: Name, side: Side, fate: AncestorFate, f: Faults)
    ensures var out := ApplySplit(w, t, todo, p, n, side, fate, f); out.res == Fail || out.res == Clean(false)
  {
    hide SplitDetach, SplitReattach, RenameEnd, Alternate;
  }

  lemma ApplyEnters(w: World, t: Tables, todo: set<Name>, synth: Synthetics, p: Path, n: Name, r: Reconciliation,
      f: Faults)
    requires n !in todo
    ensures EnteredBy(w, t, n, r, Apply(w, t, todo, synth, p, n, r, f))
  {
    hide Record, ApplyUse, ApplySplit;
    if !f.stop {
      match r
      case InSync => RecordEnters(w, t, w, t, todo, p, n, r, Look(t.cli, n), f.anc);
      case Use(src) => UseEnters(w, t, todo, synth, p, n, src, f);
      case Split(side, fate) => SplitEnters(w, t, todo, p, n, side, fate, f);
      case _ =>
    }
  }

  lemma EnteredTables(s: State, p: Path, n: Name, mode: SyncMode, f: Faults)
    requires p in s.ctxs
    ensures EnteredBy(s.w, s.ctxs[p].t, n, Decide(s.ctxs[p], n, mode), ApplyStep(s, p, n, mode, f))
  {
    hide Apply, Decide, EnteredBy;
    var r := Decide(s.ctxs[p], n, mode);
    ApplyEnters(s.w, s.ctxs[p].t, s.ctxs[p].todo - {n}, if r.Use? then Synth(s.ctxs, p, Rev(r.src)) else [], p, n, r,
        f);
  }

  /** What `Conclude` needs to know of the result. */
  ghost predicate Enterable(out: Applied, n: Name) {
    && (out.res == Clean(true) ==> IsDirectory(Look(out.t.anc, n)) && n !in out.todo)
    && (out.res.RecursiveDelete? ==>
          && n !in out.todo && Look(EndTable(out.t, out.res.side), n) == Some(Directory(out.res.mode))
          && Look(EndTable(out.t, Rev(out.res.side)), n) == None && Look(out.t.anc, n) == Some(Directory(out.res.mode)))
  }

  /** The contexts after a step for `n` in `p`: `p` updated, perhaps a child added. */
  ghost predicate CtxsAfter(s: State, p: Path, n: Name, out: Applied, s': State)
    requires p in s.ctxs
  {
    var q := Sub(p, n);
    && s'.w == out.w && p in s'.ctxs && q !in s.ctxs && q != p
    && s'.ctxs[p].t == out.t && s'.ctxs[p].todo == out.todo && s'.ctxs[p].phase.Active?
    && s'.ctxs[p].kind == s.ctxs[p].kind
    && s'.ctxs.Keys - {q} == s.ctxs.Keys
    && (forall x :: x in s.ctxs && x != p ==> x in s'.ctxs && s'.ctxs[x] == s.ctxs[x])
    && (q in s'.ctxs ==>
          && s'.ctxs[q] == Fresh(s'.ctxs[q].kind)
          && n in NamesInUse(out.t) && n !in out.todo && PlacedAt(out.w, q, s'.ctxs[q].kind))
  }

  /** `p` is updated, and a child is added or not. */
  lemma ConcludeIs(s: State, p: Path, n: Name, out: Applied, f: Faults)
    requires p in s.ctxs && Sub(p, n) !in s.ctxs && Sub(p, n) != p
    ensures var s', q := Conclude(s, p, n, out, f), Sub(p, n);
            var ctx := s'.ctxs[p];
            && ctx == s.ctxs[p].(t := out.t, todo := out.todo, ok := ctx.ok, empty := ctx.empty)
            && (s'.ctxs == s.ctxs[p := ctx]
                || (q in s'.ctxs && s'.ctxs == s.ctxs[p := ctx][q := Fresh(s'.ctxs[q].kind)]))
            && (q in s'.ctxs ==>
                  match s'.ctxs[q].kind
                  case Normal => out.res == Clean(true)
                  case Doomed(side, mode) => out.res == RecursiveDelete(side, mode))
  {
    hide Enters;
  }

  lemma ConcludeCtxs(s: State, p: Path, n: Name, out: Applied, f: Faults)
    requires p in s.ctxs && s.ctxs[p].phase.Active? && Sub(p, n) !in s.ctxs
    requires Shows(out.w, out.t, p, n) && Enterable(out, n)
    ensures CtxsAfter(s, p, n, out, Conclude(s, p, n, out, f))
  {
    assert Sub(p, n) != p by { NotAboveItself(p, n); assert Under(p, p); }
    ConcludeIs(s, p, n, out, f);
    hide Conclude;
    var s', q := Conclude(s, p, n, out, f), Sub(p, n);
    assert s'.ctxs.Keys - {q} == s.ctxs.Keys;
  }

  lemma OwnNamesOutside(ctxs: map<Path, Ctx>, p: Path, n: Name, m: Name, x: Path)
    requires TreeClosed(ctxs) && Untouched(ctxs, p, n) && Untouched(ctxs, p, m)
    ensures x in ctxs ==> Outside(p, n, m, x)
    ensures x.Sub? && x.parent in ctxs && x != Sub(p, n) && x != Sub(p, m) ==> Outside(p, n, m, x)
  {
    if Under(Sub(p, n), x) { Region(ctxs, p, n, x); }
    if Under(Sub(p, m), x) { Region(ctxs, p, m, x); }
  }

  lemma KidNameKept(s: State, p: Path, n: Name, m: Name, out: Applied, k: Name)
    requires p in s.ctxs && SameNames(s.ctxs[p].t, out.t, n, m) && k != n && k != m && k in NamesInUse(s.ctxs[p].t)
    ensures k in NamesInUse(out.t)
  {
    assert Look(s.ctxs[p].t.cli, k) == Look(out.t.cli, k) && Look(s.ctxs[p].t.anc, k) == Look(out.t.anc, k)
           && Look(s.ctxs[p].t.srv, k) == Look(out.t.srv, k);
  }

  lemma FileTreeClosed(s: State, p: Path, n: Name, m: Name, out: Applied, s': State)
    requires TreeClosed(s.ctxs) && Untouched(s.ctxs, p, n) && n in s.ctxs[p].todo && m !in NamesInUse(s.ctxs[p].t)
    requires SameNames(s.ctxs[p].t, out.t, n, m) && out.todo <= s.ctxs[p].todo + {m}
    requires CtxsAfter(s, p, n, out, s')
    ensures TreeClosed(s'.ctxs)
  {
    var q := Sub(p, n);
    assert forall x :: x in s'.ctxs && x != q ==> x in s.ctxs.Keys;
    forall x | x in s'.ctxs && x.Sub? ensures Nested(s'.ctxs, x) {
      if x != q && x.parent == p { KidNameKept(s, p, n, m, out, x.name); }
    }
  }

  lemma ShownAt(s: State, p: Path, n: Name, m: Name, out: Applied, p': Path, n': Name)
    requires TreeClosed(s.ctxs) && Untouched(s.ctxs, p, n) && Untouched(s.ctxs, p, m) && LocalStep(s, p, n, m, out)
    requires p' in s.ctxs && n' in s.ctxs[p'].todo && Shows(s.w, s.ctxs[p'].t, p', n')
    requires !(p' == p && (n' == n || n' == m))
    ensures Shows(out.w, s.ctxs[p'].t, p', n')
  {
    var x := Sub(p', n');
    OwnNamesOutside(s.ctxs, p, n, m, x);
    assert x !in s.ctxs;
    assert EndKept(s, p, Client, out.w.cli, x) && EndKept(s, p, Server, out.w.srv, x);
  }

  lemma CoherentAt(s: State, p: Path, n: Name, m: Name, out: Applied, p': Path, n': Name)
    requires TreeClosed(s.ctxs) && Untouched(s.ctxs, p, n) && Untouched(s.ctxs, p, m) && LocalStep(s, p, n, m, out)
    requires Coherent(s) && n in s.ctxs[p].todo && m !in s.ctxs[p].todo && p' in s.ctxs
    requires n' in if p' == p then out.todo else s.ctxs[p'].todo
    ensures var t := if p' == p then out.t else s.ctxs[p'].t; Shows(out.w, t, p', n') && n' in NamesInUse(t)
  {
    if p' == p && (n' == n || n' == m) {
    } else {
      assert n' in s.ctxs[p'].todo;
      ShownAt(s, p, n, m, out, p', n');
      if p' == p {
        KidNameKept(s, p, n, m, out, n');
        assert Look(out.t.cli, n') == Look(s.ctxs[p].t.cli, n');
      }
    }
  }

  lemma FileCoherent(s: State, p: Path, n: Name, m: Name, out: Applied, s': State)
    requires TreeClosed(s.ctxs) && Untouched(s.ctxs, p, n) && Untouched(s.ctxs, p, m) && LocalStep(s, p, n, m, out)
    requires n in s.ctxs[p].todo && m !in s.ctxs[p].todo && Coherent(s) && CtxsAfter(s, p, n, out, s')
    ensures Coherent(s')
  {
    forall p', n' | p' in s'.ctxs && n' in s'.ctxs[p'].todo
      ensures Shows(s'.w, s'.ctxs[p'].t, p', n') && n' in NamesInUse(s'.ctxs[p'].t)
    {
      assert p' in s'.ctxs.Keys - {Sub(p, n)};
      CoherentAt(s, p, n, m, out, p', n');
    }
  }

  lemma KnownAt(s: State, p: Path, n: Name, m: Name, out: Applied, x: Path)
    requires TreeClosed(s.ctxs) && Untouched(s.ctxs, p, n) && Untouched(s.ctxs, p, m) && LocalStep(s, p, n, m, out)
    requires Known(s) && Exists(out.w, x) && x.Sub? && x.parent in s.ctxs && s.ctxs[x.parent].phase.Active?
    ensures x.name in NamesInUse(if x.parent == p then out.t else s.ctxs[x.parent].t)
  {
    if x != Sub(p, n) && x != Sub(p, m) {
      OwnNamesOutside(s.ctxs, p, n, m, x);
      assert EndKept(s, p, Client, out.w.cli, x) && EndKept(s, p, Server, out.w.srv, x);
      assert x.name in NamesInUse(s.ctxs[x.parent].t);
      if x.parent == p { KidNameKept(s, p, n, m, out, x.name); }
    }
  }

  lemma FileKnown(s: State, p: Path, n: Name, m: Name, out: Applied, s': State)
    requires TreeClosed(s.ctxs) && Untouched(s.ctxs, p, n) && Untouched(s.ctxs, p, m) && LocalStep(s, p, n, m, out)
    requires Known(s) && CtxsAfter(s, p, n, out, s')
    ensures Known(s')
  {
    forall x | Exists(s'.w, x) && x.Sub? && x.parent in s'.ctxs && s'.ctxs[x.parent].phase.Active?
      ensures x.name in NamesInUse(s'.ctxs[x.parent].t)
    {
      assert x.parent in s'.ctxs.Keys - {Sub(p, n)};
      KnownAt(s, p, n, m, out, x);
    }
  }

  lemma StillPlaced(s: State, p: Path, n: Name, m: Name, out: Applied, x: Path)
    requires TreeClosed(s.ctxs) && Untouched(s.ctxs, p, n) && Untouched(s.ctxs, p, m) && LocalStep(s, p, n, m, out)
    requires x in s.ctxs && !s.ctxs[x].phase.Done? && PlacedAt(s.w, x, s.ctxs[x].kind)
    ensures PlacedAt(out.w, x, s.ctxs[x].kind)
  {
    OwnNamesOutside(s.ctxs, p, n, m, x);
    assert EndKept(s, p, Client, out.w.cli, x) && EndKept(s, p, Server, out.w.srv, x);
  }

  lemma FilePlaced(s: State, p: Path, n: Name, m: Name, out: Applied, s': State)
    requires TreeClosed(s.ctxs) && Untouched(s.ctxs, p, n) && Untouched(s.ctxs, p, m) && LocalStep(s, p, n, m, out)
    requires Placed(s) && CtxsAfter(s, p, n, out, s')
    ensures Placed(s')
  {
    forall x | x in s'.ctxs && !s'.ctxs[x].phase.Done? ensures PlacedAt(s'.w, x, s'.ctxs[x].kind) {
      if x != Sub(p, n) {
        assert x in s'.ctxs.Keys - {Sub(p, n)};
        StillPlaced(s, p, n, m, out, x);
      }
    }
  }

  /** Processing a name keeps the structure, whichever operations fail. */
  lemma FileKeeps(s: State, p: Path, n: Name, mode: SyncMode, f: Faults)
    requires Working(s, p, n)
    ensures Str(File(s, p, n, mode, f))
    ensures CtxsAfter(s, p, n, ApplyStep(s, p, n, mode, f), File(s, p, n, mode, f))
    ensures Untouched(s.ctxs, p, n) && Untouched(s.ctxs, p, NewName(s, p, n))
  {
    var m, out, s' := NewName(s, p, n), ApplyStep(s, p, n, mode, f), File(s, p, n, mode, f);
    StepLocal(s, p, n, mode, f);
    EnteredTables(s, p, n, mode, f);
    assert Sub(p, n) !in s.ctxs;
    ConcludeCtxs(s, p, n, out, f);
    assert m !in NamesInUse(s.ctxs[p].t) && m !in s.ctxs[p].todo by { NewNameFree(s, p, n); }
    FileTreeClosed(s, p, n, m, out, s');
    FileCoherent(s, p, n, m, out, s');
    FileKnown(s, p, n, m, out, s');
    FilePlaced(s, p, n, m, out, s');
  }

  // ----- Listing -----

  lemma QueuedRegion(ctxs: map<Path, Ctx>, p: Path, x: Path)
    requires TreeClosed(ctxs) && p in ctxs && ctxs[p].phase.Queued? && Under(p, x) && x != p
    ensures x !in ctxs
    ensures x.parent in ctxs ==> x.parent == p
  {
    if x in ctxs { NoContextBelowQueued(ctxs, p, x); }
    if x.parent in ctxs && x.parent != p { NoContextBelowQueued(ctxs, p, x.parent); }
  }

  lemma {:induction false} NoContextBelowQueued(ctxs: map<Path, Ctx>, p: Path, x: Path)
    requires TreeClosed(ctxs) && p in ctxs && ctxs[p].phase.Queued? && Under(p, x) && x != p && x in ctxs
    ensures false
  {
    if x.parent != p { NoContextBelowQueued(ctxs, p, x.parent); }
  }

  /** A queued directory can always be listed. */
  lemma QueuedListable(s: State, p: Path)
    requires Str(s) && p in s.ctxs && s.ctxs[p].phase.Queued?
    ensures Listable(s, p)
  {
    assert PlacedAt(s.w, p, s.ctxs[p].kind);
  }

  lemma PurgeEffect(w: World, p: Path)
    requires TreesWellFormed(w)
    ensures var w' := Purge(w, p);
            && TreesWellFormed(w') && w'.cli == w.cli && w'.srv == w.srv && w'.log == w.log
            && (forall x :: x in w'.anc ==> Get(w.anc, x) == Get(w'.anc, x))
            && (forall x :: !Under(p, x) || x == p ==> Get(w.anc, x) == Get(w'.anc, x))
  {
    var w' := Purge(w, p);
    forall x | !Under(p, x) || x == p ensures Get(w.anc, x) == Get(w'.anc, x) {
      if top :| top in w.condemned && top.Sub? && top.parent == p && Under(top, x) {
        if x == p { UnderDepth(top, p); }
        UnderTransitive(p, top, x);
      }
    }
    forall x | x in w'.anc ensures x.Sub? && IsDir(w'.anc, x.parent) {
    }
  }

  /** A purged world: only the ancestor below `p` may have shrunk. */
  ghost predicate PurgedBelow(w: World, w': World, p: Path) {
    && w'.cli == w.cli && w'.srv == w.srv && w'.log == w.log
    && (forall x :: x in w'.anc ==> Get(w.anc, x) == Get(w'.anc, x))
    && (forall x :: !Under(p, x) || x == p ==> Get(w.anc, x) == Get(w'.anc, x))
  }

  ghost predicate Listed(w: World, p: Path, c: Ctx) {
    && c.phase.Active? && c.t == Tables(List(w.cli, p), List(w.anc, p), List(w.srv, p)) && c.todo == NamesInUse(c.t)
    && c.ok && c.empty
  }

  /** Or it could not be listed. */
  ghost predicate ListedOrNot(w: World, p: Path, c: Ctx) {
    Listed(w, p, c) || (c.phase.Done? && c.todo == {})
  }

  lemma ListedShows(w: World, p: Path, c: Ctx, n: Name)
    requires Listed(w, p, c)
    ensures Shows(w, c.t, p, n) && (Exists(w, Sub(p, n)) <==> n in NamesInUse(c.t))
  {
    ListGet(w.cli, p, n);
    ListGet(w.anc, p, n);
    ListGet(w.srv, p, n);
  }

  lemma StartCoherent(s: State, p: Path, s': State)
    requires Coherent(s) && TreeClosed(s.ctxs) && p in s.ctxs && s.ctxs[p].phase.Queued?
    requires PurgedBelow(s.w, s'.w, p) && p in s'.ctxs && ListedOrNot(s'.w, p, s'.ctxs[p]) &&
        s'.ctxs == s.ctxs[p := s'.ctxs[p]]
    ensures Coherent(s')
  {
    forall p', n' | p' in s'.ctxs && n' in s'.ctxs[p'].todo
      ensures Shows(s'.w, s'.ctxs[p'].t, p', n') && n' in NamesInUse(s'.ctxs[p'].t)
    {
      if p' == p {
        ListedShows(s'.w, p, s'.ctxs[p], n');
      } else {
        var x := Sub(p', n');
        assert Shows(s.w, s.ctxs[p'].t, p', n');
        if Under(p, x) && x != p { QueuedRegion(s.ctxs, p, x); }
      }
    }
  }

  lemma StartKnown(s: State, p: Path, s': State)
    requires Known(s) && p in s.ctxs
    requires PurgedBelow(s.w, s'.w, p) && p in s'.ctxs && ListedOrNot(s'.w, p, s'.ctxs[p]) &&
        s'.ctxs == s.ctxs[p := s'.ctxs[p]]
    ensures Known(s')
  {
    forall x | Exists(s'.w, x) && x.Sub? && x.parent in s'.ctxs && s'.ctxs[x.parent].phase.Active?
      ensures x.name in NamesInUse(s'.ctxs[x.parent].t)
    {
      if x.parent == p {
        ListedShows(s'.w, p, s'.ctxs[p], x.name);
      } else {
        assert Exists(s.w, x);
      }
    }
  }

  lemma StartPlaced(s: State, p: Path, s': State)
    requires Placed(s) && TreeClosed(s.ctxs) && p in s.ctxs && s.ctxs[p].phase.Queued?
    requires PurgedBelow(s.w, s'.w, p) && p in s'.ctxs && s'.ctxs == s.ctxs[p := s'.ctxs[p]]
    requires s'.ctxs[p].kind == s.ctxs[p].kind
    ensures Placed(s')
  {
    forall x | x in s'.ctxs && !s'.ctxs[x].phase.Done? ensures PlacedAt(s'.w, x, s'.ctxs[x].kind) {
      assert PlacedAt(s.w, x, s.ctxs[x].kind);
      if Under(p, x) && x != p { QueuedRegion(s.ctxs, p, x); }
    }
  }

  lemma StartTreeClosed(ctxs: map<Path, Ctx>, p: Path, c: Ctx)
    requires TreeClosed(ctxs) && p in ctxs && ctxs[p].phase.Queued? && c.kind == ctxs[p].kind
    requires c.phase.Active? || (c.phase.Done? && c.todo == {})
    ensures TreeClosed(ctxs[p := c])
  {
    var ctxs' := ctxs[p := c];
    hide Nested;
    forall q | q in ctxs' && q.Sub? ensures Nested(ctxs', q) { StaysNested(ctxs, p, c, q); }
  }

  lemma StaysNested(ctxs: map<Path, Ctx>, p: Path, c: Ctx, q: Path)
    requires TreeClosed(ctxs) && p in ctxs && ctxs[p].phase.Queued? && q in ctxs && q.Sub?
    ensures Nested(ctxs[p := c], q)
  {
    assert Nested(ctxs, q);
    hide TreeClosed;
  }

  /** Listing keeps the structure, and fails only if it is made to. */
  lemma StartKeeps(s: State, p: Path, fault: ListFault)
    requires Str(s) && p in s.ctxs && s.ctxs[p].phase.Queued?
    ensures var s' := Start(s, p, fault);
            && Str(s') && PurgedBelow(s.w, s'.w, p) && s'.ctxs == s.ctxs[p := s'.ctxs[p]]
            && if fault.Lists? then Listed(s'.w, p, s'.ctxs[p]) && s'.ctxs[p].kind == s.ctxs[p].kind
               else s'.ctxs[p] == s.ctxs[p].(phase := Done(false, true))
  {
    var s' := Start(s, p, fault);
    StartShape(s, p, fault);
    hide Start, Listed;
    StartTreeClosed(s.ctxs, p, s'.ctxs[p]);
    StartCoherent(s, p, s');
    StartKnown(s, p, s');
    StartPlaced(s, p, s');
  }

  lemma StartShape(s: State, p: Path, fault: ListFault)
    requires Str(s) && p in s.ctxs && s.ctxs[p].phase.Queued?
    ensures var s' := Start(s, p, fault);
            && PurgedBelow(s.w, s'.w, p) && TreesWellFormed(s'.w) && s'.ctxs == s.ctxs[p := s'.ctxs[p]]
            && s'.ctxs[p].kind == s.ctxs[p].kind && ListedOrNot(s'.w, p, s'.ctxs[p])
            && (s'.ctxs[p].phase.Active? || (s'.ctxs[p].phase.Done? && s'.ctxs[p].todo == {}))
            && if fault.Lists? then Listed(s'.w, p, s'.ctxs[p])
                else s'.ctxs[p] == s.ctxs[p].(phase := Done(false, true))
  {
    QueuedListable(s, p);
    PurgeEffect(s.w, p);
    assert s.ctxs[p].todo == {};
    hide Purge, List, NamesInUse, TreesWellFormed, Synth;
  }

  // ----- Completing -----

  lemma RmDirEffect(fs: Fs, p: Path)
    requires WellFormed(fs)
    ensures var r := RmDir(fs, p);
            r.Some? ==> && WellFormed(r.value) && (forall x :: x != p ==> Get(r.value, x) == Get(fs, x))
                        && (p in r.value ==> Get(r.value, p) == Get(fs, p))
  {
    if p.Sub? && p in fs && fs[p].Directory? && !HasChild(fs, p) { DropWellFormed(fs, p); }
  }

  /** Completion touches at most the directory itself. */
  /** At most `p` is gone from `fs`. */
  ghost predicate AtMostGone(fs: Fs, fs': Fs, p: Path) {
    WellFormed(fs') && (forall x :: x != p ==> Get(fs', x) == Get(fs, x)) && (p in fs' ==> p in fs)
  }

  lemma RmDirGone(fs: Fs, p: Path)
    requires WellFormed(fs)
    ensures AtMostGone(fs, fs, p)
    ensures RmDir(fs, p).Some? ==> AtMostGone(fs, RmDir(fs, p).value, p)
  {
    RmDirEffect(fs, p);
  }

  lemma RmAllGone(w: World, p: Path, f: EndFaults)
    requires TreesWellFormed(w)
    ensures var (_, w') := RmAll(w, p, f);
            && AtMostGone(w.cli, w'.cli, p) && AtMostGone(w.anc, w'.anc, p) && AtMostGone(w.srv, w'.srv, p)
            && w'.condemned <= w.condemned
  {
    RmDirGone(w.anc, p);
    RmDirGone(w.cli, p);
    RmDirGone(w.srv, p);
    hide AtMostGone, RmDir, TreesWellFormed;
    var w' := RmAll(w, p, f).1;
    assert AtMostGone(w.cli, w'.cli, p) && AtMostGone(w.anc, w'.anc, p) && AtMostGone(w.srv, w'.srv, p);
  }

  lemma RmAllEffect(w: World, p: Path, f: EndFaults)
    requires TreesWellFormed(w)
    ensures var (_, w') := RmAll(w, p, f);
            && TreesWellFormed(w') && w'.condemned <= w.condemned
            && (forall x :: x != p ==> Get(w'.cli, x) == Get(w.cli, x) && Get(w'.anc, x) == Get(w.anc, x)
                                       && Get(w'.srv, x) == Get(w.srv, x))
            && (forall x :: Exists(w', x) ==> Exists(w, x))
  {
    RmAllGone(w, p, f);
    hide RmAll, WellFormed;
  }

  /** Only `p` itself may have gone. */
  ghost predicate GoneAtMost(w: World, w': World, p: Path) {
    && (forall x :: x != p ==> Get(w'.cli, x) == Get(w.cli, x) && Get(w'.anc, x) == Get(w.anc, x)
                               && Get(w'.srv, x) == Get(w.srv, x))
    && (forall x :: Exists(w', x) ==> Exists(w, x))
  }

  lemma CompleteCoherent(s: State, p: Path, s': State)
    requires Coherent(s) && TreeClosed(s.ctxs) && p in s.ctxs && s.ctxs[p].todo == {}
    requires GoneAtMost(s.w, s'.w, p) && p in s'.ctxs && s'.ctxs == s.ctxs[p := s.ctxs[p].(phase := s'.ctxs[p].phase)]
    ensures Coherent(s')
  {
    forall p', n' | p' in s'.ctxs && n' in s'.ctxs[p'].todo
      ensures Shows(s'.w, s'.ctxs[p'].t, p', n') && n' in NamesInUse(s'.ctxs[p'].t)
    {
      assert Shows(s.w, s.ctxs[p'].t, p', n');
      assert Sub(p', n') != p;
    }
  }

  lemma CompletePlaced(s: State, p: Path, s': State)
    requires Placed(s) && p in s.ctxs
    requires GoneAtMost(s.w, s'.w, p) && p in s'.ctxs && s'.ctxs == s.ctxs[p := s.ctxs[p].(phase := s'.ctxs[p].phase)]
    requires s'.ctxs[p].phase.Done?
    ensures Placed(s')
  {
    forall x | x in s'.ctxs && !s'.ctxs[x].phase.Done? ensures PlacedAt(s'.w, x, s'.ctxs[x].kind) {
      assert Get(s'.w.cli, x) == Get(s.w.cli, x) && Get(s'.w.anc, x) == Get(s.w.anc, x);
      assert PlacedAt(s.w, x, s.ctxs[x].kind);
    }
  }

  lemma CompletesNested(s: State, p: Path, phase: Phase, q: Path)
    requires TreeClosed(s.ctxs) && p in s.ctxs && s.ctxs[p].todo == {} && phase.Done? && KidsDone(s, p) &&
        q in s.ctxs && q.Sub?
    ensures Nested(s.ctxs[p := s.ctxs[p].(phase := phase)], q)
  {
    assert Nested(s.ctxs, q);
    hide TreeClosed;
    if q.parent == p { assert Kid(s.ctxs, p, q); }
  }

  lemma CompleteTreeClosed(s: State, p: Path, phase: Phase)
    requires TreeClosed(s.ctxs) && p in s.ctxs && s.ctxs[p].todo == {} && phase.Done? && KidsDone(s, p)
    ensures TreeClosed(s.ctxs[p := s.ctxs[p].(phase := phase)])
  {
    hide Nested, KidsDone;
    var ctxs := s.ctxs[p := s.ctxs[p].(phase := phase)];
    forall q | q in ctxs && q.Sub? ensures Nested(ctxs, q) { CompletesNested(s, p, phase, q); }
  }

  lemma CompleteKeeps(s: State, p: Path, f: EndFaults)
    requires Str(s) && p in s.ctxs && s.ctxs[p].phase.Active? && s.ctxs[p].todo == {} && KidsDone(s, p)
    ensures Str(Complete(s, p, f)) && GoneAtMost(s.w, Complete(s, p, f).w, p)
  {
    var s' := Complete(s, p, f);
    RmAllEffect(s.w, p, f);
    assert GoneAtMost(s.w, s'.w, p) && TreesWellFormed(s'.w);
    CompleteCoherent(s, p, s');
    CompletePlaced(s, p, s');
    CompleteTreeClosed(s, p, s'.ctxs[p].phase);
  }

  // ----- Whole runs -----

  lemma InitStr(w: World)
    requires TreesWellFormed(w)
    ensures Str(Init(w))
  {
  }

  lemma NextKeeps(s: State, a: Action, mode: SyncMode)
    requires Str(s) && Enabled(s, a)
    ensures Str(Next(s, a, mode))
  {
    match a
    case DoStart(p, fault) => StartKeeps(s, p, fault);
    case DoFile(p, n, f) => FileKeeps(s, p, n, mode, f);
    case DoComplete(p, ef) => CompleteKeeps(s, p, ef);
  }

  /** The structure holds in every state of every run. */
  lemma {:induction false} RunKeeps(s: State, run: seq<Action>, mode: SyncMode)
    requires Str(s) && Legal(s, run, mode)
    ensures Str(Final(s, run, mode))
    decreases |run|
  {
    if run != [] {
      NextKeeps(s, run[0], mode);
      RunKeeps(Next(s, run[0], mode), run[1..], mode);
    }
  }
}
