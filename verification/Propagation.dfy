/** What a decision means for a whole pass: the end that the decision on the files as they
    were takes is the end whose file both ends have in the end, so that new files, edits and
    deletions propagate. */
module Propagation {
  import opened Defs
  import opened Replica
  import opened AltName
  import opened Mutate
  import opened Effects
  import opened Walk
  import opened Structure
  import opened StructureKept
  import opened Deletion
  import opened Settlement
  import opened Convergence
  import opened Regions
  import opened DataSafety
  import Recovery
  import Compute
  import Winners

  // ----- Renames that interfere -----

  /** The rename puts something at `q`, or takes away what is there if that matters. */
  predicate Displaces(e: Event, q: Path, away: bool) {
    e.Renamed? && (Under(e.to, q) || (away && Under(e.path, q)))
  }

  predicate Displaced(log: seq<Logged>, q: Path, away: bool) {
    exists i :: 0 <= i < |log| && Displaces(log[i].event, q, away)
  }

  lemma StaysDisplaced(log: seq<Logged>, log': seq<Logged>, q: Path, away: bool)
    requires |log| <= |log'| && log'[..|log|] == log && Displaced(log, q, away)
    ensures Displaced(log', q, away)
  {
    var i :| 0 <= i < |log| && Displaces(log[i].event, q, away);
    assert log'[i] == log'[..|log|][i];
  }

  // ----- The invariant -----

  ghost predicate SameTriple(w0: World, w: World, q: Path) {
    Get(w.cli, q) == Get(w0.cli, q) && Get(w.anc, q) == Get(w0.anc, q) && Get(w.srv, q) == Get(w0.srv, q)
  }

  /** The decision on `q` takes `win`, and no directory is involved. With `away` unset `q` was
      deleted on that end. */
  ghost predicate Setup(w0: World, q: Path, win: Side, away: bool, mode: SyncMode) {
    && q.Sub? && Compute.Choose(Get(w0.cli, q), Get(w0.anc, q), Get(w0.srv, q), mode) == Use(win)
    && !IsDirectory(Get(w0.cli, q)) && !IsDirectory(Get(w0.srv, q)) && Compute.Decisive(mode)
    && (!away ==> q !in End(w0, win) && q in w0.anc)
  }

  /** Names condemned at or above `q` are in directories already listed. */
  ghost predicate Spared(s: State, q: Path) {
    forall top :: top in s.w.condemned && Under(top, q) ==>
      top.Sub? && top.parent in s.ctxs && !s.ctxs[top.parent].phase.Queued?
  }

  /** As long as `q` is pending the three trees have there what they had, or nothing is on
      either end. */
  ghost predicate Waits(w0: World, s: State, q: Path, win: Side) {
    Spared(s, q) && (SameTriple(w0, s.w, q) || (q !in End(w0, win) && q !in End(s.w, Rev(win))))
  }

  ghost predicate Unbeaten(w0: World, s: State, q: Path, win: Side) {
    && Get(End(s.w, win), q) == Get(End(w0, win), q) && !IsDirectory(Get(End(s.w, Rev(win)), q))
    && (Pending(s, q) ==> Waits(w0, s, q, win))
  }

  ghost predicate OnCourse(w0: World, s: State, q: Path, win: Side, away: bool) {
    Displaced(s.w.log, q, away) || Unbeaten(w0, s, q, win)
  }

  lemma NotAContext(w0: World, s: State, q: Path, win: Side, away: bool, mode: SyncMode)
    requires Setup(w0, q, win, away, mode) && Unbeaten(w0, s, q, win) && Placed(s)
    ensures q in s.ctxs ==> s.ctxs[q].phase.Done?
  {
  }

  // ----- Listing and completing -----

  lemma PurgeSpares(w: World, p: Path, q: Path)
    requires forall top :: top in w.condemned && Under(top, q) ==> !(top.Sub? && top.parent == p)
    ensures Get(Purge(w, p).anc, q) == Get(w.anc, q)
  {
  }

  /** A listing changes the ancestor only, and that only by a purge. */
  lemma StartShape(s: State, p: Path, fault: ListFault)
    requires p in s.ctxs && s.ctxs[p].phase.Queued?
    ensures var s' := Start(s, p, fault);
            && s' == State(s'.w, s.ctxs[p := s'.ctxs[p]]) && !s'.ctxs[p].phase.Queued?
            && (s'.w == s.w || s'.w == Purge(s.w, p))
  {
    hide Purge, EndListable;
  }

  lemma PurgeShape(w: World, p: Path)
    ensures var w' := Purge(w, p);
            w'.cli == w.cli && w'.srv == w.srv && w'.condemned <= w.condemned && w'.log == w.log
  {
  }

  lemma StartWaits(w0: World, s: State, p: Path, s': State, q: Path, win: Side)
    requires p in s.ctxs && s.ctxs[p].phase.Queued? && p in s'.ctxs && !s'.ctxs[p].phase.Queued?
    requires s'.ctxs == s.ctxs[p := s'.ctxs[p]] && (s'.w == s.w || s'.w == Purge(s.w, p)) && Waits(w0, s, q, win)
    ensures Waits(w0, s', q, win)
  {
    PurgeSpares(s.w, p, q);
    PurgeShape(s.w, p);
    hide Purge;
    assert Spared(s', q);
  }

  lemma StartOnCourse(w0: World, s: State, p: Path, fault: ListFault, q: Path, win: Side)
    requires p in s.ctxs && s.ctxs[p].phase.Queued? && Unbeaten(w0, s, q, win)
    ensures Unbeaten(w0, Start(s, p, fault), q, win)
  {
    var s' := Start(s, p, fault);
    StartShape(s, p, fault);
    PurgeShape(s.w, p);
    hide Start, Purge, Waits, Pending;
    if Pending(s', q) {
      ListedPending(s, p, s'.ctxs[p], s'.w, q);
      StartWaits(w0, s, p, s', q, win);
    }
  }

  lemma CompleteOnCourse(w0: World, s: State, p: Path, f: EndFaults, q: Path, win: Side, away: bool, mode: SyncMode)
    requires Str(s) && Ready(s, p) && Setup(w0, q, win, away, mode) && Unbeaten(w0, s, q, win)
    ensures Unbeaten(w0, Complete(s, p, f), q, win)
  {
    var s' := Complete(s, p, f);
    NotAContext(w0, s, q, win, away, mode);
    assert q != p;
    hide Complete, Pending, Setup, Unbeaten, MergedEmpty;
    CompleteKeeps(s, p, f);
    CompleteShape(s, p, f);
    hide GoneAtMost, Str, KidsDone;
    CompleteUnbeaten(w0, s, p, s', q, win);
    assert Unbeaten(w0, s', q, win);
  }

  lemma CompleteUnbeaten(w0: World, s: State, p: Path, s': State, q: Path, win: Side)
    requires p in s.ctxs && s.ctxs[p].phase.Active? && s.ctxs[p].todo == {} && p in s'.ctxs && s'.ctxs[p].phase.Done?
    requires s'.ctxs == s.ctxs[p := s.ctxs[p].(phase := s'.ctxs[p].phase)] && s'.w.condemned <= s.w.condemned
    requires GoneAtMost(s.w, s'.w, p) && q != p && Unbeaten(w0, s, q, win)
    ensures Unbeaten(w0, s', q, win)
  {
    DataSafety.CompletePending(s, p, s', q);
    hide Pending;
  }

  lemma CompleteLogGrows(s: State, p: Path, f: EndFaults)
    requires p in s.ctxs
    ensures |s.w.log| <= |Complete(s, p, f).w.log| && Complete(s, p, f).w.log[..|s.w.log|] == s.w.log
  {
  }

  // ----- One name -----

  ghost predicate Renames(w: World, w': World, p: Path, n: Name, m: Name) {
    exists i :: |w.log| <= i < |w'.log| && w'.log[i].event == Renamed(Sub(p, n), Sub(p, m))
  }

  /** A split leaves both ends alone, or renames one and the log says so. */
  ghost predicate Tied(w: World, w': World, p: Path, n: Name, m: Name, r: Reconciliation) {
    r.Split? ==>
      && End(w', Rev(r.renamed)) == End(w, Rev(r.renamed))
      && (|| End(w', r.renamed) == End(w, r.renamed)
          || (End(w', r.renamed) == Rekey(End(w, r.renamed), Sub(p, n), Sub(p, m)) && Renames(w, w', p, n, m)))
  }

  lemma EndsTied(w: World, w': World, p: Path, n: Name, m: Name, r: Reconciliation)
    requires !r.Split? || (w'.cli == w.cli && w'.srv == w.srv)
    ensures Tied(w, w', p, n, m, r)
  {
  }

  lemma SplitTied(w: World, t: Tables, todo: set<Name>, p: Path, n: Name, side: Side, fate: AncestorFate, f: Faults)
    ensures Tied(w, ApplySplit(w, t, todo, p, n, side, fate, f).w, p, n, Alternate(n, NamesInUse(t)), Split(side, fate))
  {
    var out := ApplySplit(w, t, todo, p, n, side, fate, f);
    hide ApplySplit, Alternate;
    SplitEnds(w, t, todo, p, n, side, fate, f);
    if out.w.log != w.log {
      assert out.w.log[|w.log|].event == Renamed(Sub(p, n), Sub(p, Alternate(n, NamesInUse(t))));
    }
  }

  lemma StepTied(s: State, p: Path, n: Name, mode: SyncMode, f: Faults)
    requires Working(s, p, n)
    ensures Tied(s.w, ApplyStep(s, p, n, mode, f).w, p, n, NewName(s, p, n), Decide(s.ctxs[p], n, mode))
  {
    var r, t, todo, out := Decide(s.ctxs[p], n, mode), s.ctxs[p].t, s.ctxs[p].todo - {n}, ApplyStep(s, p, n, mode, f);
    var synth := if r.Use? then Synth(s.ctxs, p, Rev(r.src)) else [];
    hide Compute.Choose, Apply, ApplyUse, ApplySplit, Str, Tied, Alternate;
    ApplyCases(s.w, t, todo, synth, p, n, r, f);
    if !f.stop && r.Split? {
      SplitTied(s.w, t, todo, p, n, r.renamed, r.fate, f);
    } else {
      EndsTied(s.w, out.w, p, n, NewName(s, p, n), r);
    }
    assert Tied(s.w, out.w, p, n, NewName(s, p, n), r);
  }

  /** A record of a directory leaves the records below it alone. */
  lemma DirectoryRecord(w: World, t: Tables, p: Path, n: Name, data: Option<FileData>, fault: AncestorFault)
    requires IsDirectory(data)
    ensures forall x :: x != Sub(p, n) ==> Get(SetAncestor(w, t, p, n, data, fault).1.anc, x) == Get(w.anc, x)
  {
  }

  lemma EnteredUse(w: World, t: Tables, todo: set<Name>, synth: Synthetics, p: Path, n: Name, src: Side, f: Faults)
    ensures var out := ApplyUse(w, t, todo, synth, p, n, src, f);
            out.res == Clean(true) || out.res.RecursiveDelete? ==>
              forall x :: x != Sub(p, n) ==> Get(out.w.anc, x) == Get(w.anc, x)
  {
    var was, data := Look(EndTable(t, Rev(src)), n), Look(EndTable(t, src), n);
    var r := ReplaceEnd(w, Rev(src), synth, p, n, was, data, f.end);
    if r.Some? { assert r.value.anc == w.anc; }
    if IsDirectory(was) && data.None? {
      DirectoryRecord(w, t, p, n, was, f.anc);
    } else if r.Some? && IsDirectory(data) {
      DirectoryRecord(r.value, WithEndTable(t, Rev(src), Put(EndTable(t, Rev(src)), n, data)), p, n, data, f.anc);
    }
    hide SetAncestor, ReplaceEnd;
  }

  /** Entering a directory leaves the ancestor alone below it. */
  lemma EnteredApply(w: World, t: Tables, todo: set<Name>, synth: Synthetics, p: Path, n: Name, r: Reconciliation,
                     f: Faults)
    ensures var out := Apply(w, t, todo, synth, p, n, r, f);
            !r.Split? && (out.res == Clean(true) || out.res.RecursiveDelete?) ==>
              forall x :: x != Sub(p, n) ==> Get(out.w.anc, x) == Get(w.anc, x)
  {
    hide ApplyUse, ApplySplit, SetAncestor;
    if !f.stop && r.Use? { EnteredUse(w, t, todo, synth, p, n, r.src, f); }
    if r.InSync? && IsDirectory(Look(t.cli, n)) { DirectoryRecord(w, t, p, n, Look(t.cli, n), f.anc); }
  }

  lemma EnteredAncestor(s: State, p: Path, n: Name, mode: SyncMode, f: Faults)
    requires Working(s, p, n) && Sub(p, n) !in s.ctxs && Sub(p, n) in File(s, p, n, mode, f).ctxs
    requires !Decide(s.ctxs[p], n, mode).Split?
    ensures forall x :: x != Sub(p, n) ==> Get(File(s, p, n, mode, f).w.anc, x) == Get(s.w.anc, x)
  {
    var r, out := Decide(s.ctxs[p], n, mode), ApplyStep(s, p, n, mode, f);
    hide Compute.Choose, Apply, Str;
    SpawnedOnly(s, p, n, out, f);
    EnteredApply(s.w, s.ctxs[p].t, s.ctxs[p].todo - {n}, if r.Use? then Synth(s.ctxs, p, Rev(r.src)) else [], p, n, r,
                 f);
  }

  /** All that is used of a step. */
  ghost predicate StepsOn(s: State, p: Path, n: Name, m: Name, r: Reconciliation, out: Applied, s': State) {
    && StepFacts(s, p, n, m, r, out, s') && QueueFacts(s, p, n, m, r, out, s') && n != m
    && Tied(s.w, out.w, p, n, m, r) && s.ctxs[p].phase.Active? && Placed(s)
    && (forall top :: top in out.w.condemned ==> Recovery.Sources(s.w, p, n, m, out, top))
    && (Sub(p, n) in s'.ctxs && !r.Split? ==> forall x :: x != Sub(p, n) ==> Get(out.w.anc, x) == Get(s.w.anc, x))
  }

  lemma SourcesOf(s: State, p: Path, n: Name, mode: SyncMode, f: Faults)
    requires Working(s, p, n)
    ensures forall top :: top in ApplyStep(s, p, n, mode, f).w.condemned ==>
              Recovery.Sources(s.w, p, n, NewName(s, p, n), ApplyStep(s, p, n, mode, f), top)
  {
    hide ApplyStep, Recovery.Sources, Alternate, Str;
    forall top | top in ApplyStep(s, p, n, mode, f).w.condemned
      ensures Recovery.Sources(s.w, p, n, NewName(s, p, n), ApplyStep(s, p, n, mode, f), top)
    {
      Recovery.StepSources(s, p, n, mode, f, top);
    }
  }

  lemma StepsOnOf(s: State, p: Path, n: Name, mode: SyncMode, f: Faults)
    requires Working(s, p, n)
    ensures StepsOn(s, p, n, NewName(s, p, n), Decide(s.ctxs[p], n, mode), ApplyStep(s, p, n, mode, f),
                    File(s, p, n, mode, f))
  {
    var m, r, out, s' := NewName(s, p, n), Decide(s.ctxs[p], n, mode), ApplyStep(s, p, n, mode, f),
        File(s, p, n, mode, f);
    assert s'.w == out.w;
    hide ApplyStep, File, Decide, StepFacts, QueueFacts, Tied, Recovery.Sources, Alternate, TreeClosed, Stepped;
    hide TreesWellFormed, Coherent, Known, NamesInUse, Exists, Shows, PlacedAt;
    FactsOf(s, p, n, mode, f);
    QueueFactsOf(s, p, n, mode, f);
    NewNameFree(s, p, n);
    SteppedBy(s, p, n, mode, f);
    StepTied(s, p, n, mode, f);
    SourcesOf(s, p, n, mode, f);
    if Sub(p, n) in s'.ctxs && !r.Split? { EnteredAncestor(s, p, n, mode, f); }
    assert StepsOn(s, p, n, m, r, out, s');
  }

  lemma StepSpares(s: State, p: Path, n: Name, m: Name, r: Reconciliation, out: Applied, s': State, q: Path)
    requires StepsOn(s, p, n, m, r, out, s') && Spared(s, q) && !Under(Sub(p, m), q)
    ensures Spared(s', q)
  {
    forall top | top in s'.w.condemned && Under(top, q)
      ensures top.Sub? && top.parent in s'.ctxs && !s'.ctxs[top.parent].phase.Queued?
    {
      assert Recovery.Sources(s.w, p, n, m, out, top);
      if top.Sub? && Under(Sub(p, m), top.parent) {
        assert Under(top.parent, top);
        UnderTransitive(Sub(p, m), top.parent, top);
        UnderTransitive(Sub(p, m), top, q);
      }
    }
  }

  lemma OutsideOnCourse(w0: World, s: State, p: Path, n: Name, m: Name, r: Reconciliation, out: Applied, s': State,
                        q: Path, win: Side, away: bool, mode: SyncMode)
    requires StepsOn(s, p, n, m, r, out, s') && Setup(w0, q, win, away, mode) && Unbeaten(w0, s, q, win)
    requires Outside(p, n, m, q)
    ensures Unbeaten(w0, s', q, win)
  {
    PendingElsewhere(s, p, n, m, out, s', q);
    NotAContext(w0, s, q, win, away, mode);
    assert EndKept(s, p, Client, out.w.cli, q) && EndKept(s, p, Server, out.w.srv, q);
    assert SameTriple(s.w, out.w, q);
    if Pending(s, q) { StepSpares(s, p, n, m, r, out, s', q); }
  }

  /** No end that has the directory as recorded is made to share its name. */
  lemma NoSplitOver(cli: Option<FileData>, anc: Option<FileData>, srv: Option<FileData>, win: Side, mode: SyncMode)
    requires Compute.Decisive(mode) && IsDirectory(anc) && IsDirectory(Compute.DstOf(win, cli, srv))
    ensures var r := Compute.Choose(cli, anc, srv, mode); r.Split? ==> r.renamed != win
  {
  }

  /** The end that a deleted file is gone from is not renamed while the other one still has
      the file. */
  lemma WinRenamed(w0: World, s: State, q0: Path, r: Reconciliation, q: Path, win: Side, mode: SyncMode)
    requires TreesWellFormed(s.w) && Setup(w0, q, win, false, mode) && Waits(w0, s, q, win) && q0.Sub?
    requires Get(End(s.w, win), q) == Get(End(w0, win), q) && Under(q0, q) && r.Split? && r.renamed == win
    requires r == Compute.Choose(Get(s.w.cli, q0), Get(s.w.anc, q0), Get(s.w.srv, q0), mode)
    ensures q !in End(s.w, Rev(win))
  {
    if q in End(s.w, Rev(win)) && q != q0 {
      AboveIsDir(End(s.w, Rev(win)), q0, q);
      AboveIsDir(s.w.anc, q0, q);
      NoSplitOver(Get(s.w.cli, q0), Get(s.w.anc, q0), Get(s.w.srv, q0), win, mode);
    }
  }

  /** A split below whose name the deleted file is. */
  lemma SplitWaits(w0: World, s: State, p: Path, n: Name, m: Name, r: Reconciliation, w': World, q: Path, win: Side,
                   mode: SyncMode)
    requires TreesWellFormed(s.w) && Setup(w0, q, win, false, mode) && Waits(w0, s, q, win)
    requires q !in End(s.w, win) && Under(Sub(p, n), q) && r.Split? && n != m && !Exists(s.w, Sub(p, m))
    requires End(w', Rev(r.renamed)) == End(s.w, Rev(r.renamed))
    requires End(w', r.renamed) == Rekey(End(s.w, r.renamed), Sub(p, n), Sub(p, m))
    requires r == Compute.Choose(Get(s.w.cli, Sub(p, n)), Get(s.w.anc, Sub(p, n)), Get(s.w.srv, Sub(p, n)), mode)
    ensures q !in w'.cli && q !in w'.srv
  {
    SiblingsDisjoint(p, n, m, q);
    RekeyGet(End(s.w, r.renamed), p, n, m, q);
    hide Compute.Choose, Rekey, WellFormed;
    if r.renamed == win {
      WinRenamed(w0, s, Sub(p, n), r, q, win, mode);
    }
  }

  /** The step has renamed an end. */
  ghost predicate Moves(w: World, w': World, p: Path, n: Name, m: Name, r: Reconciliation) {
    && r.Split? && Renames(w, w', p, n, m) && End(w', Rev(r.renamed)) == End(w, Rev(r.renamed))
    && End(w', r.renamed) == Rekey(End(w, r.renamed), Sub(p, n), Sub(p, m))
  }

  /** Otherwise a split changes nothing on the ends, and puts nothing back on the queue. */
  lemma MovesOrStays(s: State, p: Path, n: Name, m: Name, r: Reconciliation, out: Applied, s': State)
    requires StepsOn(s, p, n, m, r, out, s')
    ensures || Moves(s.w, out.w, p, n, m, r)
            || (&& n !in s'.ctxs[p].todo && m !in s'.ctxs[p].todo
                && (r.Split? ==> out.w.cli == s.w.cli && out.w.srv == s.w.srv && Sub(p, n) !in s'.ctxs))
  {
    hide Stepped, EndsAfter, LogAfter, TreesWellFormed, Placed, Recovery.Sources, Rekey, TreeClosed;
    if n in s'.ctxs[p].todo || m in s'.ctxs[p].todo {
      var e := Renamed(Sub(p, n), Sub(p, m));
      assert SplitResult(s.w, out.w, p, n, m, r.renamed);
      assert out.w.log[|s.w.log|].event == e;
      assert Renames(s.w, out.w, p, n, m);
    }
  }

  lemma RenamesDisplace(w: World, w': World, p: Path, n: Name, m: Name, q: Path, away: bool)
    requires Renames(w, w', p, n, m) && (Under(Sub(p, m), q) || (away && Under(Sub(p, n), q)))
    ensures Displaced(w'.log, q, away)
  {
    var i :| |w.log| <= i < |w'.log| && w'.log[i].event == Renamed(Sub(p, n), Sub(p, m));
    assert Displaces(w'.log[i].event, q, away);
  }

  lemma EndsKeptBelow(s: State, p: Path, n: Name, m: Name, r: Reconciliation, out: Applied, s': State, q: Path)
    requires StepsOn(s, p, n, m, r, out, s') && (Under(Sub(p, n), q) || Under(Sub(p, m), q)) && q != Sub(p, n)
    requires !r.Split? || (out.w.cli == s.w.cli && out.w.srv == s.w.srv)
    ensures Get(out.w.cli, q) == Get(s.w.cli, q) && Get(out.w.srv, q) == Get(s.w.srv, q)
  {
    assert EndAfter(s.w, out.w, p, n, m, r, Client) && EndAfter(s.w, out.w, p, n, m, r, Server);
    hide Stepped, LogAfter, QueueFacts, Tied, Placed, TreesWellFormed;
  }

  /** A name of which `q` is, or is below, the new one. */
  lemma OntoOnCourse(w0: World, s: State, p: Path, n: Name, m: Name, r: Reconciliation, out: Applied, s': State,
                     q: Path, win: Side, away: bool)
    requires StepsOn(s, p, n, m, r, out, s') && Unbeaten(w0, s, q, win) && Under(Sub(p, m), q)
    ensures OnCourse(w0, s', q, win, away)
  {
    MovesOrStays(s, p, n, m, r, out, s');
    if Moves(s.w, out.w, p, n, m, r) {
      RenamesDisplace(s.w, out.w, p, n, m, q, away);
    } else {
      SiblingsDisjoint(p, m, n, q);
      EndsKeptBelow(s, p, n, m, r, out, s', q);
      ClosedNotPending(s', p, m, q);
    }
  }

  lemma OwnOnCourse(w0: World, s: State, p: Path, n: Name, m: Name, r: Reconciliation, out: Applied, s': State,
                    win: Side, away: bool, mode: SyncMode)
    requires StepsOn(s, p, n, m, r, out, s') && Setup(w0, Sub(p, n), win, away, mode)
    requires Unbeaten(w0, s, Sub(p, n), win) && Waits(w0, s, Sub(p, n), win)
    requires r == Compute.Choose(Get(s.w.cli, Sub(p, n)), Get(s.w.anc, Sub(p, n)), Get(s.w.srv, Sub(p, n)), mode)
    ensures Unbeaten(w0, s', Sub(p, n), win)
  {
    var q := Sub(p, n);
    assert s'.w == out.w && EndsAfter(s.w, out.w, p, n, m, r);
    hide StepFacts, EndsAfter, Tied, Placed, Recovery.Sources, QueueFacts, Pending;
    OwnDecision(w0, s, q, r, win, away, mode);
    hide Compute.Choose, Setup, Waits;
    OwnNameNotPending(s, p, n, m, r, out, s');
    OwnEnds(s.w, out.w, p, n, m, r, win);
    assert Unbeaten(w0, s', q, win);
  }

  lemma OwnDecision(w0: World, s: State, q: Path, r: Reconciliation, win: Side, away: bool, mode: SyncMode)
    requires Setup(w0, q, win, away, mode) && Get(End(s.w, win), q) == Get(End(w0, win), q) && Waits(w0, s, q, win)
    requires r == Compute.Choose(Get(s.w.cli, q), Get(s.w.anc, q), Get(s.w.srv, q), mode)
    ensures r == Use(win) || (r == InSync && q !in s.w.cli && q !in s.w.srv)
    ensures !IsDirectory(Get(End(s.w, win), q))
  {
  }

  lemma OwnEnds(w: World, w': World, p: Path, n: Name, m: Name, r: Reconciliation, win: Side)
    requires EndsAfter(w, w', p, n, m, r) && (r == Use(win) || r == InSync)
    requires !IsDirectory(Get(w.cli, Sub(p, n))) && !IsDirectory(Get(w.srv, Sub(p, n)))
    ensures Get(End(w', win), Sub(p, n)) == Get(End(w, win), Sub(p, n))
    ensures !IsDirectory(Get(End(w', Rev(win)), Sub(p, n)))
  {
    assert EndAfter(w, w', p, n, m, r, Client) && EndAfter(w, w', p, n, m, r, Server);
  }

  lemma BelowOnCourse(w0: World, s: State, p: Path, n: Name, m: Name, r: Reconciliation, out: Applied, s': State,
                      q: Path, win: Side, away: bool, mode: SyncMode)
    requires StepsOn(s, p, n, m, r, out, s') && Setup(w0, q, win, away, mode)
    requires Unbeaten(w0, s, q, win) && Waits(w0, s, q, win) && Under(Sub(p, n), q)
    requires r == Compute.Choose(Get(s.w.cli, Sub(p, n)), Get(s.w.anc, Sub(p, n)), Get(s.w.srv, Sub(p, n)), mode)
    ensures OnCourse(w0, s', q, win, away)
  {
    MovesOrStays(s, p, n, m, r, out, s');
    SiblingsDisjoint(p, n, m, q);
    StepSpares(s, p, n, m, r, out, s', q);
    if Moves(s.w, out.w, p, n, m, r) {
      if away {
        RenamesDisplace(s.w, out.w, p, n, m, q, away);
      } else {
        SplitWaits(w0, s, p, n, m, r, out.w, q, win, mode);
      }
    } else if q == Sub(p, n) && !r.Split? {
      OwnOnCourse(w0, s, p, n, m, r, out, s', win, away, mode);
    } else {
      StaysOnCourse(w0, s, p, n, m, r, out, s', q, win, away, mode);
    }
  }

  /** No end has been renamed and `q` is below the name. */
  lemma StaysOnCourse(w0: World, s: State, p: Path, n: Name, m: Name, r: Reconciliation, out: Applied, s': State,
                      q: Path, win: Side, away: bool, mode: SyncMode)
    requires StepsOn(s, p, n, m, r, out, s') && Setup(w0, q, win, away, mode)
    requires Unbeaten(w0, s, q, win) && Waits(w0, s, q, win) && Under(Sub(p, n), q) && Spared(s', q)
    requires n !in s'.ctxs[p].todo && (q == Sub(p, n) ==> r.Split?)
    requires r.Split? ==> out.w.cli == s.w.cli && out.w.srv == s.w.srv && Sub(p, n) !in s'.ctxs
    ensures Unbeaten(w0, s', q, win)
  {
    if q != Sub(p, n) { EndsKeptBelow(s, p, n, m, r, out, s', q); }
    if Sub(p, n) !in s'.ctxs {
      ClosedNotPending(s', p, n, q);
    }
    hide Pending, Compute.Choose, Stepped, EndsAfter, LogAfter, Tied, Placed, TreesWellFormed, Recovery.Sources;
  }

  lemma FileOnCourse(w0: World, s: State, p: Path, n: Name, f: Faults, q: Path, win: Side, away: bool, mode: SyncMode)
    requires Working(s, p, n) && Setup(w0, q, win, away, mode) && OnCourse(w0, s, q, win, away)
    ensures OnCourse(w0, File(s, p, n, mode, f), q, win, away)
  {
    var m, r, out, s' := NewName(s, p, n), Decide(s.ctxs[p], n, mode), ApplyStep(s, p, n, mode, f),
        File(s, p, n, mode, f);
    StepsOnOf(s, p, n, mode, f);
    assert Shows(s.w, s.ctxs[p].t, p, n);
    hide Compute.Choose, Apply, ApplyStep, File, Str, Setup, Unbeaten, Alternate;
    if Displaced(s.w.log, q, away) {
      StaysDisplaced(s.w.log, s'.w.log, q, away);
    } else {
      UnbeatenOnCourse(w0, s, p, n, m, r, out, s', q, win, away, mode);
    }
  }

  lemma UnbeatenOnCourse(w0: World, s: State, p: Path, n: Name, m: Name, r: Reconciliation, out: Applied, s': State,
                         q: Path, win: Side, away: bool, mode: SyncMode)
    requires StepsOn(s, p, n, m, r, out, s') && Setup(w0, q, win, away, mode) && Unbeaten(w0, s, q, win)
    requires r == Compute.Choose(Get(s.w.cli, Sub(p, n)), Get(s.w.anc, Sub(p, n)), Get(s.w.srv, Sub(p, n)), mode)
    requires n in s.ctxs[p].todo
    ensures OnCourse(w0, s', q, win, away)
  {
    hide Compute.Choose;
    if Under(Sub(p, n), q) {
      TodoPending(s, p, n, q);
      BelowOnCourse(w0, s, p, n, m, r, out, s', q, win, away, mode);
    } else if Under(Sub(p, m), q) {
      OntoOnCourse(w0, s, p, n, m, r, out, s', q, win, away);
    } else {
      OutsideOnCourse(w0, s, p, n, m, r, out, s', q, win, away, mode);
    }
  }

  // ----- Whole passes -----

  lemma NextOnCourse(w0: World, s: State, a: Action, q: Path, win: Side, away: bool, mode: SyncMode)
    requires Str(s) && Enabled(s, a) && Setup(w0, q, win, away, mode) && OnCourse(w0, s, q, win, away)
    ensures OnCourse(w0, Next(s, a, mode), q, win, away)
  {
    hide Setup, Unbeaten;
    match a
    case DoStart(p, fault) =>
      StartShape(s, p, fault);
      PurgeShape(s.w, p);
      if !Displaced(s.w.log, q, away) { StartOnCourse(w0, s, p, fault, q, win); }
    case DoFile(p, n, f) => FileOnCourse(w0, s, p, n, f, q, win, away, mode);
    case DoComplete(p, ef) =>
      CompleteLogGrows(s, p, ef);
      if Displaced(s.w.log, q, away) {
        StaysDisplaced(s.w.log, Complete(s, p, ef).w.log, q, away);
      } else {
        CompleteOnCourse(w0, s, p, ef, q, win, away, mode);
      }
  }

  lemma {:induction false} RunOnCourse(w0: World, s: State, run: seq<Action>, q: Path, win: Side, away: bool,
                                       mode: SyncMode)
    requires Str(s) && Legal(s, run, mode) && Setup(w0, q, win, away, mode) && OnCourse(w0, s, q, win, away)
    ensures OnCourse(w0, Final(s, run, mode), q, win, away)
    decreases |run|
  {
    if run != [] {
      hide Str, Setup, OnCourse;
      NextKeeps(s, run[0], mode);
      NextOnCourse(w0, s, run[0], q, win, away, mode);
      RunOnCourse(w0, Next(s, run[0], mode), run[1..], q, win, away, mode);
    }
  }

  lemma InitOnCourse(w: World, q: Path, win: Side, away: bool, mode: SyncMode)
    requires Setup(w, q, win, away, mode) && !Recovery.Dead(w.condemned, q)
    ensures OnCourse(w, Init(w), q, win, away)
  {
    assert Spared(Init(w), q);
  }

  /** A pass that has done all there was to do, over trees without special files. */
  ghost predicate Succeeds(w: World, run: seq<Action>, mode: SyncMode) {
    && TreesWellFormed(w) && PlainEnds(w) && w.log == [] && Legal(Init(w), run, mode) && Compute.Decisive(mode)
    && var s := Final(Init(w), run, mode); Drained(s) && Root in s.ctxs && s.ctxs[Root].phase.success
  }

  /** Both ends have `data` at `q`, or neither has anything there. */
  predicate BothHave(w: World, q: Path, data: Option<FileData>) {
    if data.None? then q !in w.cli && q !in w.srv
    else q in w.cli && q in w.srv && w.cli[q].Matches(data.value) && w.srv[q].Matches(data.value)
  }

  /** The main theorem on propagation: if the decision on the files that were at `q` takes an
      end, then after a pass that succeeds both ends have at `q` what that end had there,
      unless a split has renamed something to or from `q` or above it. */
  lemma DecisionCarriedOut(w: World, run: seq<Action>, mode: SyncMode, q: Path, win: Side)
    requires Succeeds(w, run, mode) && Setup(w, q, win, true, mode) && !Recovery.Dead(w.condemned, q)
    ensures var w' := Final(Init(w), run, mode).w;
            Displaced(w'.log, q, true) || BothHave(w', q, Get(End(w, win), q))
  {
    Outcome(w, run, mode, q, win, true);
  }

  lemma Outcome(w: World, run: seq<Action>, mode: SyncMode, q: Path, win: Side, away: bool)
    requires Succeeds(w, run, mode) && Setup(w, q, win, away, mode) && !Recovery.Dead(w.condemned, q)
    ensures var w' := Final(Init(w), run, mode).w;
            Displaced(w'.log, q, away) || BothHave(w', q, Get(End(w, win), q))
  {
    var s := Final(Init(w), run, mode);
    InitStr(w);
    InitOnCourse(w, q, win, away, mode);
    hide Setup, Pending;
    RunOnCourse(w, Init(w), run, q, win, away, mode);
    SuccessMeansAgreement(w, run, mode);
    assert AgreeAt(s.w, q);
  }

  // ----- Names that splits give -----

  predicate TildeFree(q: Path) {
    q.Root? || ('~' !in q.name && TildeFree(q.parent))
  }

  ghost predicate TildeLog(log: seq<Logged>) {
    forall i :: 0 <= i < |log| && log[i].event.Renamed? ==> log[i].event.to.Sub? && '~' in log[i].event.to.name
  }

  lemma AlternateHasTilde(name: Name, used: set<Name>)
    ensures '~' in Alternate(name, used)
  {
    BaseShape(name);
    var b := Base(name);
    assert Alternate(name, used)[|b| - 1] == '~';
  }

  lemma {:induction false} TildeAbove(top: Path, q: Path)
    requires Under(top, q) && top.Sub? && '~' in top.name
    ensures !TildeFree(q)
  {
    if q != top { TildeAbove(top, q.parent); }
  }

  lemma TildeNext(s: State, a: Action, mode: SyncMode)
    requires Str(s) && Enabled(s, a) && TildeLog(s.w.log)
    ensures TildeLog(Next(s, a, mode).w.log)
  {
    match a
    case DoStart(p, fault) =>
      StartShape(s, p, fault);
      PurgeShape(s.w, p);
    case DoFile(p, n, f) =>
      FactsOf(s, p, n, mode, f);
      AlternateHasTilde(n, NamesInUse(s.ctxs[p].t));
      TildeFile(s.w.log, File(s, p, n, mode, f).w.log, p, n, NewName(s, p, n), s.w, ApplyStep(s, p, n, mode, f).w,
                Decide(s.ctxs[p], n, mode));
    case DoComplete(p, ef) => TildeComplete(s, p, ef);
  }

  lemma TildeFile(log: seq<Logged>, log': seq<Logged>, p: Path, n: Name, m: Name, w: World, w': World,
                  r: Reconciliation)
    requires log == w.log && log' == w'.log && LogAfter(w, w', p, n, m, r) && TildeLog(log) && '~' in m
    ensures TildeLog(log')
  {
    var done := log'[|log|..];
    assert log' == log + done;
    forall i | 0 <= i < |log'| && log'[i].event.Renamed?
      ensures log'[i].event.to.Sub? && '~' in log'[i].event.to.name
    {
      if i < |log| { assert log'[i] == log[i]; } else { assert log'[i] == done[i - |log|]; }
    }
  }

  lemma TildeComplete(s: State, p: Path, f: EndFaults)
    requires p in s.ctxs && TildeLog(s.w.log)
    ensures TildeLog(Complete(s, p, f).w.log)
  {
  }

  lemma {:induction false} TildeRun(s: State, run: seq<Action>, mode: SyncMode)
    requires Str(s) && Legal(s, run, mode) && TildeLog(s.w.log)
    ensures TildeLog(Final(s, run, mode).w.log)
    decreases |run|
  {
    if run != [] {
      hide Str, TildeLog, Next, Enabled;
      NextKeeps(s, run[0], mode);
      TildeNext(s, run[0], mode);
      TildeRun(Next(s, run[0], mode), run[1..], mode);
    }
  }

  lemma NotOnto(log: seq<Logged>, q: Path)
    requires TildeLog(log) && TildeFree(q)
    ensures !Displaced(log, q, false)
  {
    forall i | 0 <= i < |log| ensures !Displaces(log[i].event, q, false) {
      if log[i].event.Renamed? && Under(log[i].event.to, q) { TildeAbove(log[i].event.to, q); }
    }
  }

  // ----- Deletions, edits and new files -----

  /** A file deleted on one end, with the recorded content on the other, is on neither end
      after a pass that succeeds, if the delete is on. Only something that a split has renamed
      to that path can be there, and that takes a tilde in the path. */
  lemma DeletionsPropagate(w: World, run: seq<Action>, mode: SyncMode, q: Path, side: Side)
    requires Succeeds(w, run, mode) && !Recovery.Dead(w.condemned, q)
    requires q in End(w, side) && !End(w, side)[q].Directory? && q !in End(w, Rev(side))
    requires q in w.anc && w.anc[q].MatchesContent(End(w, side)[q]) && Toward(mode, side).delete.IsOn()
    ensures var w' := Final(Init(w), run, mode).w;
            && (Displaced(w'.log, q, false) || (q !in w'.cli && q !in w'.srv))
            && (TildeFree(q) ==> q !in w'.cli && q !in w'.srv)
  {
    assert Compute.Plain(Get(End(w, side), q));
    Winners.DeletedFile(side, End(w, side)[q], w.anc[q], mode);
    hide Compute.Choose;
    Outcome(w, run, mode, q, Rev(side), false);
    if TildeFree(q) {
      InitStr(w);
      TildeRun(Init(w), run, mode);
      NotOnto(Final(Init(w), run, mode).w.log, q);
    }
  }

  /** A file that differs from the record on one end only is on both ends as that end has it,
      if updates go that way. */
  lemma EditsPropagate(w: World, run: seq<Action>, mode: SyncMode, q: Path, side: Side)
    requires Succeeds(w, run, mode) && !Recovery.Dead(w.condemned, q)
    requires q in w.cli && q in w.anc && q in w.srv && !w.cli[q].Directory? && !w.srv[q].Directory?
    requires End(w, Rev(side))[q].Matches(w.anc[q]) && !End(w, side)[q].Matches(w.anc[q])
    requires Toward(mode, Rev(side)).update.IsOn()
    ensures var w' := Final(Init(w), run, mode).w;
            Displaced(w'.log, q, true) || BothHave(w', q, Some(End(w, side)[q]))
  {
    var mine, theirs := End(w, side)[q], End(w, Rev(side))[q];
    assert Compute.Plain(Get(w.cli, q)) && Compute.Plain(Get(w.srv, q));
    if mine.MatchesData(theirs) {
      Winners.TimeOnly(side, mine, Some(w.anc[q]), theirs, mode);
    } else {
      Winners.OneChanged(side, mine, w.anc[q], theirs, mode);
    }
    hide Compute.Choose;
    DecisionCarriedOut(w, run, mode, q, side);
  }

  /** A new file is on both ends, if it may be created on the other. */
  lemma CreationsPropagate(w: World, run: seq<Action>, mode: SyncMode, q: Path, side: Side)
    requires Succeeds(w, run, mode) && !Recovery.Dead(w.condemned, q)
    requires q in End(w, side) && !End(w, side)[q].Directory? && q !in End(w, Rev(side)) && q !in w.anc
    requires Toward(mode, Rev(side)).create.IsOn()
    ensures var w' := Final(Init(w), run, mode).w;
            Displaced(w'.log, q, true) || BothHave(w', q, Some(End(w, side)[q]))
  {
    assert Compute.Plain(Get(End(w, side), q));
    Winners.NewFile(side, End(w, side)[q], mode);
    hide Compute.Choose;
    DecisionCarriedOut(w, run, mode, q, side);
  }

  const ALL_ON := HalfMode(On, On, On)

  /** Under `cud/cud`, without faults, a file deleted on one end and unchanged on the other is
      on neither. */
  lemma CudDeletes(w: World, run: seq<Action>, q: Path, side: Side)
    requires TreesWellFormed(w) && PlainEnds(w) && w.log == [] && Legal(Init(w), run, SyncMode(ALL_ON, ALL_ON))
    requires FaultlessRun(run) && Drained(Final(Init(w), run, SyncMode(ALL_ON, ALL_ON)))
    requires !Recovery.Dead(w.condemned, q) && TildeFree(q)
    requires q in End(w, side) && !End(w, side)[q].Directory? && q !in End(w, Rev(side))
    requires q in w.anc && w.anc[q].MatchesContent(End(w, side)[q])
    ensures var w' := Final(Init(w), run, SyncMode(ALL_ON, ALL_ON)).w; q !in w'.cli && q !in w'.srv
  {
    var mode := SyncMode(ALL_ON, ALL_ON);
    FaultlessSucceeds(w, run, mode);
    DeletionsPropagate(w, run, mode, q, side);
  }

  lemma FaultlessSucceeds(w: World, run: seq<Action>, mode: SyncMode)
    requires TreesWellFormed(w) && PlainEnds(w) && w.log == [] && Legal(Init(w), run, mode) && Compute.Decisive(mode)
    requires FaultlessRun(run) && Drained(Final(Init(w), run, mode))
    ensures Succeeds(w, run, mode)
  {
    FaultlessRunsSucceed(w, run, mode);
    InitInv(w, mode);
    RunInv(Init(w), run, mode);
    RootSuccess(Final(Init(w), run, mode));
  }

  /** A name that a deletion sets free is the next one that a split takes, which is why a
      path with a tilde is an exception. */
  lemma FreedNameIsTaken()
    ensures Alternate("a", {"a", "a~1"}) == "a~2" && Alternate("a", {"a"}) == "a~1"
  {
    assert Decimal(1) == "1" && Decimal(2) == "2";
    assert Candidate("a", 1) == "a~1" && Candidate("a", 2) == "a~2";
    FirstFreeIsFirst("a", 1, {"a", "a~1"});
    FirstFreeIsFirst("a", 1, {"a"});
  }
}
