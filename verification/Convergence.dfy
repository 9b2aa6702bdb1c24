/** A pass that reports success under a decisive mode leaves the two ends identical. */
module Convergence {
  import opened Defs
  import opened Sets
  import opened Replica
  import opened AltName
  import opened Mutate
  import opened Effects
  import opened Walk
  import opened Structure
  import opened StructureKept
  import opened Deletion
  import opened Settlement
  import Compute

  // ----- What success means -----

  /** If the root reports success, no directory failed. */
  lemma {:induction false} RootSpeaksForAll(s: State, q: Path)
    requires TreeClosed(s.ctxs) && Truthful(s) && Drained(s) && s.ctxs[Root].phase.success && q in s.ctxs
    ensures s.ctxs[q].phase.Done? && s.ctxs[q].phase.success && s.ctxs[q].ok
  {
    if q.Sub? {
      RootSpeaksForAll(s, q.parent);
      assert Kid(s.ctxs, q.parent, q);
    }
  }

  lemma RootSuccess(s: State)
    requires TreeClosed(s.ctxs) && Truthful(s) && Drained(s)
    ensures s.ctxs[Root].phase.success <==> AllOk(s)
  {
    if s.ctxs[Root].phase.success {
      forall q | q in s.ctxs ensures s.ctxs[q].ok && s.ctxs[q].phase.success { RootSpeaksForAll(s, q); }
    }
  }

  // ----- Whole runs -----

  lemma OkBeforeFile(s: State, p: Path, n: Name, m: Name, out: Applied, s': State)
    requires Stepped(s, p, n, m, out, s') && AllOk(s') && (s'.ctxs[p].ok ==> s.ctxs[p].ok)
    ensures AllOk(s)
  {
    forall x | x in s.ctxs ensures s.ctxs[x].ok && (s.ctxs[x].phase.Done? ==> s.ctxs[x].phase.success) {
      assert x in s'.ctxs.Keys;
    }
  }

  lemma FileAchieves(s: State, p: Path, n: Name, mode: SyncMode, f: Faults)
    requires Working(s, p, n) && Del(s) && Achieved(s, mode)
    ensures Achieved(File(s, p, n, mode, f), mode)
  {
    var s', out := File(s, p, n, mode, f), ApplyStep(s, p, n, mode, f);
    if AllOk(s') {
      SteppedBy(s, p, n, mode, f);
      SpawnExact(s, p, n, out, f);
      OkBeforeFile(s, p, n, NewName(s, p, n), out, s');
      FileSound(s, p, n, mode, f);
      FileJustified(s, p, n, mode, f);
      FileAbsolved(s, p, n, mode, f);
    }
  }

  lemma OkBeforeOther(s: State, p: Path)
    requires p in s.ctxs && s.ctxs[p].ok && !s.ctxs[p].phase.Done?
    requires forall x :: x in s.ctxs && x != p ==> s.ctxs[x].ok && (s.ctxs[x].phase.Done? ==> s.ctxs[x].phase.success)
    ensures AllOk(s)
  {
  }

  lemma StartAchieved(s: State, p: Path, fault: ListFault, mode: SyncMode)
    requires Str(s) && Achieved(s, mode) && p in s.ctxs && s.ctxs[p].phase.Queued?
    ensures Achieved(Start(s, p, fault), mode)
  {
    hide Str, Sound, Justified, Alive, Absolved;
    if AllOk(Start(s, p, fault)) {
      assert s.ctxs[p].ok by { QueuedIsFresh(s, p); }
      OkBeforeStart(s, p, fault);
      hide AllOk, Start;
      StartAchieves(s, p, mode);
    }
  }

  lemma QueuedIsFresh(s: State, p: Path)
    requires Str(s) && p in s.ctxs && s.ctxs[p].phase.Queued?
    ensures s.ctxs[p].ok
  {
  }

  lemma OkBeforeStart(s: State, p: Path, fault: ListFault)
    requires p in s.ctxs && s.ctxs[p].ok && s.ctxs[p].phase.Queued? && AllOk(Start(s, p, fault))
    ensures AllOk(s) && fault.Lists?
  {
    var s' := Start(s, p, fault);
    assert forall x :: x in s.ctxs && x != p ==> x in s'.ctxs && s'.ctxs[x] == s.ctxs[x];
    OkBeforeOther(s, p);
    assert p in s'.ctxs;
  }

  lemma OkBeforeComplete(s: State, p: Path, f: EndFaults)
    requires p in s.ctxs && s.ctxs[p].phase.Active? && AllOk(Complete(s, p, f))
    ensures AllOk(s) && Complete(s, p, f).ctxs[p].phase.success
  {
    var s' := Complete(s, p, f);
    assert forall x :: x in s.ctxs && x != p ==> x in s'.ctxs && s'.ctxs[x] == s.ctxs[x];
    assert s'.ctxs[p].ok == s.ctxs[p].ok && s'.ctxs[p].phase.success;
    OkBeforeOther(s, p);
  }

  lemma CompleteAchieved(s: State, p: Path, f: EndFaults, mode: SyncMode)
    requires Str(s) && Del(s) && Ready(s, p) && Achieved(s, mode)
    ensures Achieved(Complete(s, p, f), mode)
  {
    if AllOk(Complete(s, p, f)) {
      OkBeforeComplete(s, p, f);
      hide Str, Del, Complete, Sound, Justified, Alive, Absolved, AllOk;
      CompleteAchieves(s, p, f, mode);
    }
  }

  lemma NextAchieves(s: State, a: Action, mode: SyncMode)
    requires Str(s) && Del(s) && Achieved(s, mode) && Enabled(s, a)
    ensures Achieved(Next(s, a, mode), mode)
  {
    match a
    case DoStart(p, fault) => StartAchieved(s, p, fault, mode);
    case DoFile(p, n, f) => FileAchieves(s, p, n, mode, f);
    case DoComplete(p, ef) => CompleteAchieved(s, p, ef, mode);
  }

  ghost predicate Inv(s: State, mode: SyncMode) {
    Str(s) && Del(s) && Achieved(s, mode)
  }

  lemma InitInv(w: World, mode: SyncMode)
    requires TreesWellFormed(w)
    ensures Inv(Init(w), mode)
  {
    InitStr(w);
    InitDel(w);
  }

  lemma NextInv(s: State, a: Action, mode: SyncMode)
    requires Inv(s, mode) && Enabled(s, a)
    ensures Inv(Next(s, a, mode), mode)
  {
    NextKeeps(s, a, mode);
    NextDel(s, a, mode);
    NextAchieves(s, a, mode);
  }

  lemma {:induction false} RunInv(s: State, run: seq<Action>, mode: SyncMode)
    requires Inv(s, mode) && Legal(s, run, mode)
    ensures Inv(Final(s, run, mode), mode)
    decreases |run|
  {
    if run != [] {
      NextInv(s, run[0], mode);
      RunInv(Next(s, run[0], mode), run[1..], mode);
    }
  }

  // ----- Special files do not appear -----

  ghost predicate PlainFs(fs: Fs) {
    forall x :: x in fs ==> fs[x] != Special
  }

  ghost predicate PlainEnds(w: World) {
    PlainFs(w.cli) && PlainFs(w.srv)
  }

  lemma {:induction false} PlainMaterialise(fs: Fs, synth: Synthetics)
    requires PlainFs(fs)
    ensures PlainFs(Materialise(fs, synth))
  {
    if synth != [] { PlainMaterialise(fs, synth[..|synth| - 1]); }
  }

  lemma PlainReplaceEnd(w: World, side: Side, synth: Synthetics, p: Path, n: Name, was: Option<FileData>,
                        data: Option<FileData>, fault: bool)
    requires PlainEnds(w) && Compute.Plain(data)
    ensures var r := ReplaceEnd(w, side, synth, p, n, was, data, fault); r.Some? ==> PlainEnds(r.value)
  {
    PlainMaterialise(End(w, side), synth);
  }

  lemma PlainRekey(fs: Fs, top: Path, to: Path)
    requires PlainFs(fs)
    ensures PlainFs(Rekey(fs, top, to))
  {
  }

  lemma PlainRenamed(w: World, w': World, p: Path, n: Name, m: Name, side: Side)
    requires PlainEnds(w) && End(w', Rev(side)) == End(w, Rev(side))
    requires End(w', side) == End(w, side) || Rename(End(w, side), p, n, m) == Some(End(w', side))
    ensures PlainEnds(w')
  {
    PlainRekey(End(w, side), Sub(p, n), Sub(p, m));
  }

  lemma PlainSplit(w: World, t: Tables, todo: set<Name>, p: Path, n: Name, side: Side, fate: AncestorFate, f: Faults)
    requires PlainEnds(w)
    ensures PlainEnds(ApplySplit(w, t, todo, p, n, side, fate, f).w)
  {
    SplitEnds(w, t, todo, p, n, side, fate, f);
    PlainRenamed(w, ApplySplit(w, t, todo, p, n, side, fate, f).w, p, n, Alternate(n, NamesInUse(t)), side);
  }

  lemma PlainUse(w: World, t: Tables, todo: set<Name>, synth: Synthetics, p: Path, n: Name, src: Side, f: Faults)
    requires PlainEnds(w) && Compute.Plain(Look(t.cli, n)) && Compute.Plain(Look(t.srv, n))
    ensures PlainEnds(ApplyUse(w, t, todo, synth, p, n, src, f).w)
  {
    PlainReplaceEnd(w, Rev(src), synth, p, n, Look(EndTable(t, Rev(src)), n), Look(EndTable(t, src), n), f.end);
    PlainMaterialise(End(w, Rev(src)), FirstOf(synth, f.made));
    hide ReplaceEnd, Materialise, Compute.Plain;
  }

  lemma PlainApply(w: World, t: Tables, todo: set<Name>, synth: Synthetics, p: Path, n: Name, r: Reconciliation,
                   f: Faults)
    requires PlainEnds(w) && Compute.Plain(Look(t.cli, n)) && Compute.Plain(Look(t.srv, n))
    ensures PlainEnds(Apply(w, t, todo, synth, p, n, r, f).w)
  {
    hide ApplyUse, ApplySplit, Compute.Plain;
    match r
    case Use(src) => PlainUse(w, t, todo, synth, p, n, src, f);
    case Split(side, fate) => PlainSplit(w, t, todo, p, n, side, fate, f);
    case _ =>
  }

  lemma PlainFile(s: State, p: Path, n: Name, mode: SyncMode, f: Faults)
    requires PlainEnds(s.w) && p in s.ctxs && Shows(s.w, s.ctxs[p].t, p, n)
    ensures PlainEnds(File(s, p, n, mode, f).w)
  {
    var r := Decide(s.ctxs[p], n, mode);
    PlainApply(s.w, s.ctxs[p].t, s.ctxs[p].todo - {n}, if r.Use? then Synth(s.ctxs, p, Rev(r.src)) else [], p, n, r, f);
    assert File(s, p, n, mode, f).w == ApplyStep(s, p, n, mode, f).w;
  }

  lemma PlainComplete(s: State, p: Path, f: EndFaults)
    requires PlainEnds(s.w) && p in s.ctxs
    ensures PlainEnds(Complete(s, p, f).w)
  {
  }

  lemma NextPlain(s: State, a: Action, mode: SyncMode)
    requires Str(s) && PlainEnds(s.w) && Enabled(s, a)
    ensures PlainEnds(Next(s, a, mode).w)
  {
    match a
    case DoFile(p, n, f) => PlainFile(s, p, n, mode, f);
    case DoStart(p, fault) =>
    case DoComplete(p, ef) => PlainComplete(s, p, ef);
  }

  lemma {:induction false} RunPlain(s: State, run: seq<Action>, mode: SyncMode)
    requires Str(s) && PlainEnds(s.w) && Legal(s, run, mode)
    ensures PlainEnds(Final(s, run, mode).w)
    decreases |run|
  {
    if run != [] {
      NextKeeps(s, run[0], mode);
      NextPlain(s, run[0], mode);
      RunPlain(Next(s, run[0], mode), run[1..], mode);
    }
  }

  // ----- The ends agree -----

  ghost predicate Finished(s: State, mode: SyncMode) {
    Inv(s, mode) && AllOk(s) && Drained(s) && PlainEnds(s.w)
  }

  ghost predicate AgreeAt(w: World, q: Path) {
    Agree(Get(w.cli, q), Get(w.srv, q))
  }

  lemma LeafAgrees(s: State, mode: SyncMode, q: Path)
    requires PlainEnds(s.w) && Compute.Decisive(mode)
    requires LeafSettled(Get(s.w.cli, q), Get(s.w.anc, q), Get(s.w.srv, q), mode)
    ensures AgreeAt(s.w, q) && !IsDirectory(Get(s.w.cli, q)) && !IsDirectory(Get(s.w.srv, q))
    ensures Exists(s.w, q) ==> q in s.w.cli && q in s.w.srv
  {
    Compute.DecisiveResolves(Get(s.w.cli, q), Get(s.w.anc, q), Get(s.w.srv, q), mode);
    Compute.DecisionShape(Get(s.w.cli, q), Get(s.w.anc, q), Get(s.w.srv, q), mode);
  }

  function Below(fs: Fs, q: Path): set<Path> {
    set x | x in fs && Under(q, x)
  }

  lemma FewerBelow(fs: Fs, q: Path, x: Path)
    requires q in fs && x.Sub? && x.parent == q
    ensures |Below(fs, x)| < |Below(fs, q)|
  {
    forall y | y in Below(fs, x) ensures y in Below(fs, q) - {q} {
      UnderTransitive(q, x, y);
      if y == q { UnderDepth(x, q); }
    }
    SubsetSize(Below(fs, x), Below(fs, q) - {q});
    assert q in Below(fs, q);
  }

  /** A doomed directory kept because it is not empty exists on both ends. */
  lemma {:induction false} KeptOnBoth(s: State, mode: SyncMode, q: Path)
    requires Finished(s, mode) && Compute.Decisive(mode)
    requires IsDoomed(s.ctxs, q) && !s.ctxs[q].phase.empty && DealtWith(s, q)
    ensures q in s.w.cli && q in s.w.srv
    decreases |Below(End(s.w, s.ctxs[q].kind.side), q)|
  {
    var side := s.ctxs[q].kind.side;
    assert SettledAt(s, mode, q);
    var x: Path :| x.Sub? && x.parent == q && Exists(s.w, x);
    assert DealtWith(s, x);
    assert SettledAt(s, mode, x);
    if x in s.ctxs && IsDoomed(s.ctxs, x) {
      assert Kid(s.ctxs, q, x);
      FewerBelow(End(s.w, side), q, x);
      KeptOnBoth(s, mode, x);
    } else if x !in s.ctxs {
      LeafAgrees(s, mode, x);
    }
    assert IsDir(s.w.cli, x.parent) && IsDir(s.w.srv, x.parent);
  }

  lemma {:induction false} EndsAgreeAt(s: State, mode: SyncMode, q: Path)
    requires Finished(s, mode) && Compute.Decisive(mode)
    ensures AgreeAt(s.w, q)
    ensures q.Root? || IsDirectory(Get(s.w.cli, q)) || IsDirectory(Get(s.w.srv, q)) ==> q in s.ctxs
  {
    if q.Sub? {
      EndsAgreeAt(s, mode, q.parent);
      if q.parent in s.ctxs {
        assert DealtWith(s, q);
        assert SettledAt(s, mode, q);
        if q !in s.ctxs {
          LeafAgrees(s, mode, q);
        } else if IsDoomed(s.ctxs, q) && !s.ctxs[q].phase.empty {
          KeptOnBoth(s, mode, q);
        }
      } else {
        assert q !in s.w.cli && q !in s.w.srv;
      }
    }
  }

  /** The main theorem on convergence. Over any trees without special files, in every
      interleaving and whatever operations failed on the way, a pass under a decisive mode
      that drains with the root reporting success leaves the same files on both ends. */
  lemma SuccessMeansAgreement(w: World, run: seq<Action>, mode: SyncMode)
    requires TreesWellFormed(w) && PlainEnds(w) && Legal(Init(w), run, mode) && Compute.Decisive(mode)
    requires Drained(Final(Init(w), run, mode)) && Root in Final(Init(w), run, mode).ctxs
    requires Final(Init(w), run, mode).ctxs[Root].phase.success
    ensures forall q :: AgreeAt(Final(Init(w), run, mode).w, q)
  {
    var s := Final(Init(w), run, mode);
    InitInv(w, mode);
    RunInv(Init(w), run, mode);
    RunPlain(Init(w), run, mode);
    RootSuccess(s);
    forall q ensures AgreeAt(s.w, q) { EndsAgreeAt(s, mode, q); }
  }

  /** Without faults every drained pass under a decisive mode is such a pass. */
  lemma FaultlessAgreement(w: World, run: seq<Action>, mode: SyncMode)
    requires TreesWellFormed(w) && PlainEnds(w) && Legal(Init(w), run, mode) && Compute.Decisive(mode)
    requires FaultlessRun(run) && Drained(Final(Init(w), run, mode))
    ensures forall q :: AgreeAt(Final(Init(w), run, mode).w, q)
  {
    InitInv(w, mode);
    RunInv(Init(w), run, mode);
    FaultlessRunsSucceed(w, run, mode);
    SuccessMeansAgreement(w, run, mode);
  }
}
