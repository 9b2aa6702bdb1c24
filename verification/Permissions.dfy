/** The flags of the sync mode are permissions: whatever a run does to an end, step by
    step and under any faults, is an operation that direction's flags allow. */
module Permissions {
  import opened Defs
  import opened Replica
  import opened AltName
  import opened Mutate
  import opened Effects
  import opened Walk
  import opened Structure
  import opened StructureKept
  import opened Deletion
  import opened Convergence
  import Compute

  // ----- The history explains the trees -----

  function Perform(fs: Fs, e: Event): Fs {
    match e
    case Made(path, data) => fs[path := data]
    case Replaced(path, _, data) => fs[path := data]
    case Erased(path, _) => fs - {path}
    case Renamed(path, to) => Rekey(fs, path, to)
  }

  /** The tree that the operations recorded for `at` make of `fs`. */
  function Replay(fs: Fs, log: seq<Logged>, at: Place): Fs {
    if log == [] then fs
    else
      var before, last := Replay(fs, log[..|log| - 1], at), log[|log| - 1];
      if last.at == at then Perform(before, last.event) else before
  }

  lemma {:induction false} ReplayAppend(fs: Fs, a: seq<Logged>, b: seq<Logged>, at: Place)
    ensures Replay(fs, a + b, at) == Replay(Replay(fs, a, at), b, at)
  {
    if b == [] {
      assert a + b == a;
    } else {
      ReplayAppend(fs, a, b[..|b| - 1], at);
      assert (a + b)[..|a + b| - 1] == a + b[..|b| - 1];
    }
  }

  lemma {:induction false} ReplayOthers(fs: Fs, log: seq<Logged>, at: Place)
    requires forall i :: 0 <= i < |log| ==> log[i].at != at
    ensures Replay(fs, log, at) == fs
  {
    if log != [] { ReplayOthers(fs, log[..|log| - 1], at); }
  }

  // ----- What is allowed -----

  ghost predicate AllowedOn(side: Side, e: Event, mode: SyncMode) {
    var half := Toward(mode, side);
    match e
    case Made(_, data) => half.create.IsOn() && data != Special
    case Replaced(_, was, data) => half.update.IsOn() && was != Special && data != Special
    case Erased(_, was) => half.delete.IsOn() && was != Special
    case Renamed(_, _) => Compute.RenamePermitted(side, mode)
  }

  ghost predicate Allowed(l: Logged, mode: SyncMode) {
    match l.at
    case AtClient => AllowedOn(Client, l.event, mode)
    case AtServer => AllowedOn(Server, l.event, mode)
    case AtAncestor => true
  }

  ghost predicate AllAllowed(log: seq<Logged>, mode: SyncMode) {
    forall i :: 0 <= i < |log| ==> Allowed(log[i], mode)
  }

  /** From `w` to `w'` exactly `done` was performed on the ends, all of it allowed. */
  ghost predicate Legit(w: World, w': World, done: seq<Logged>, mode: SyncMode) {
    && w'.log == w.log + done && AllAllowed(done, mode)
    && w'.cli == Replay(w.cli, done, AtClient) && w'.srv == Replay(w.srv, done, AtServer)
  }

  lemma LegitStays(w: World, w': World, mode: SyncMode)
    requires w'.log == w.log && w'.cli == w.cli && w'.srv == w.srv
    ensures Legit(w, w', [], mode)
  {
  }

  lemma LegitThen(w: World, w1: World, w2: World, a: seq<Logged>, b: seq<Logged>, mode: SyncMode)
    requires Legit(w, w1, a, mode) && Legit(w1, w2, b, mode)
    ensures Legit(w, w2, a + b, mode)
  {
    ReplayAppend(w.cli, a, b, AtClient);
    ReplayAppend(w.srv, a, b, AtServer);
    assert w2.log == w.log + (a + b);
  }

  /** One operation on one end. */
  lemma LegitOne(w: World, side: Side, fs: Fs, e: Event, mode: SyncMode)
    requires fs == Perform(End(w, side), e) && AllowedOn(side, e, mode)
    ensures Legit(w, WithEnd(w, side, fs, [Logged(PlaceOf(side), e)]), [Logged(PlaceOf(side), e)], mode)
  {
    var one := [Logged(PlaceOf(side), e)];
    assert one[..0] == [];
    assert Replay(End(w, side), one, PlaceOf(side)) == fs;
  }

  lemma ReplaySnoc(fs: Fs, log: seq<Logged>, last: Logged, at: Place)
    ensures Replay(fs, log + [last], at) ==
            if last.at == at then Perform(Replay(fs, log, at), last.event) else Replay(fs, log, at)
  {
    assert (log + [last])[..|log|] == log;
  }

  lemma {:induction false} MaterialiseReplays(fs: Fs, synth: Synthetics, at: Place)
    ensures Replay(fs, MaterialiseLog(fs, synth, at), at) == Materialise(fs, synth)
  {
    if synth != [] {
      var front := synth[..|synth| - 1];
      MaterialiseReplays(fs, front, at);
      var (q, m) := synth[|synth| - 1];
      var log1, one := MaterialiseLog(fs, front, at), Logged(at, Made(q, Directory(m)));
      ReplaySnoc(fs, log1, one, at);
      hide Replay;
      assert log1 + [] == log1;
    }
  }

  lemma {:induction false} MaterialiseAllowed(fs: Fs, synth: Synthetics, side: Side, mode: SyncMode)
    requires Toward(mode, side).create.IsOn()
    ensures var log := MaterialiseLog(fs, synth, PlaceOf(side));
            AllAllowed(log, mode) && forall i :: 0 <= i < |log| ==> log[i].at == PlaceOf(side)
  {
    if synth != [] {
      hide Materialise;
      MaterialiseAllowed(fs, synth[..|synth| - 1], side, mode);
    }
  }

  lemma LegitMaterialise(w: World, side: Side, synth: Synthetics, mode: SyncMode)
    requires Toward(mode, side).create.IsOn()
    ensures var fs, log := End(w, side), MaterialiseLog(End(w, side), synth, PlaceOf(side));
            Legit(w, WithEnd(w, side, Materialise(fs, synth), log), log, mode)
  {
    var fs, log := End(w, side), MaterialiseLog(End(w, side), synth, PlaceOf(side));
    MaterialiseReplays(fs, synth, PlaceOf(side));
    MaterialiseAllowed(fs, synth, side, mode);
    ReplayOthers(End(w, Rev(side)), log, PlaceOf(Rev(side)));
  }

  // ----- Steps -----

  ghost predicate UsePermitted(was: Option<FileData>, data: Option<FileData>, side: Side, mode: SyncMode) {
    var half := Toward(mode, side);
    && (was.Some? || data.Some?) && was != Some(Special) && data != Some(Special)
    && (was.None? ==> half.create.IsOn()) && (data.None? ==> half.delete.IsOn())
    && (was.Some? && data.Some? ==> half.update.IsOn())
  }

  lemma ReplaceEndLegit(w: World, side: Side, synth: Synthetics, p: Path, n: Name, was: Option<FileData>,
                        data: Option<FileData>, fault: bool, mode: SyncMode) returns (done: seq<Logged>)
    requires UsePermitted(was, data, side, mode) && ReplaceEnd(w, side, synth, p, n, was, data, fault).Some?
    ensures Legit(w, ReplaceEnd(w, side, synth, p, n, was, data, fault).value, done, mode)
  {
    var fs, q, at := End(w, side), Sub(p, n), PlaceOf(side);
    var w' := ReplaceEnd(w, side, synth, p, n, was, data, fault).value;
    if was == data {
      LegitStays(w, w', mode);
      done := [];
    } else if data.None? {
      LegitOne(w, side, fs - {q}, Erased(q, was.value), mode);
      done := [Logged(at, Erased(q, was.value))];
    } else if was.Some? {
      LegitOne(w, side, fs[q := data.value], Replaced(q, was.value, data.value), mode);
      done := [Logged(at, Replaced(q, was.value, data.value))];
    } else {
      LegitMaterialise(w, side, synth, mode);
      var log := MaterialiseLog(fs, synth, at);
      var w1 := WithEnd(w, side, Materialise(fs, synth), log);
      LegitOne(w1, side, End(w1, side)[q := data.value], Made(q, data.value), mode);
      done := log + [Logged(at, Made(q, data.value))];
      var w2 := WithEnd(w1, side, End(w1, side)[q := data.value], [Logged(at, Made(q, data.value))]);
      LegitThen(w, w1, w2, log, [Logged(at, Made(q, data.value))], mode);
      assert w.log + log + [Logged(at, Made(q, data.value))] == w.log + (log + [Logged(at, Made(q, data.value))]);
      assert w2 == w';
    }
  }

  lemma UseLegit(w: World, t: Tables, todo: set<Name>, synth: Synthetics, p: Path, n: Name, src: Side, f: Faults,
      mode: SyncMode)
    returns (done: seq<Logged>)
    requires UsePermitted(Look(EndTable(t, Rev(src)), n), Look(EndTable(t, src), n), Rev(src), mode)
    ensures Legit(w, ApplyUse(w, t, todo, synth, p, n, src, f).w, done, mode)
  {
    var dst := Rev(src);
    var was, data := Look(EndTable(t, dst), n), Look(EndTable(t, src), n);
    var out := ApplyUse(w, t, todo, synth, p, n, src, f);
    done := [];
    if IsDirectory(was) && data.None? {
      LegitStays(w, out.w, mode);
    } else {
      var r := ReplaceEnd(w, dst, synth, p, n, was, data, f.end);
      if r.Some? {
        done := ReplaceEndLegit(w, dst, synth, p, n, was, data, f.end, mode);
        assert out.w.log == r.value.log && out.w.cli == r.value.cli && out.w.srv == r.value.srv;
      } else if was.None? {
        var some := FirstOf(synth, f.made);
        LegitMaterialise(w, dst, some, mode);
        done := MaterialiseLog(End(w, dst), some, PlaceOf(dst));
      } else {
        LegitStays(w, out.w, mode);
      }
    }
  }

  lemma RenameLegit(w: World, w': World, p: Path, n: Name, m: Name, side: Side, mode: SyncMode)
      returns (done: seq<Logged>)
    requires Compute.RenamePermitted(side, mode) && End(w', Rev(side)) == End(w, Rev(side))
    requires Rename(End(w, side), p, n, m) == Some(End(w', side))
    requires var ren := Logged(PlaceOf(side), Renamed(Sub(p, n), Sub(p, m)));
             || w'.log == w.log + [ren]
             || w'.log == w.log + [ren] + [Logged(AtAncestor, Renamed(Sub(p, n), Sub(p, m)))]
    ensures Legit(w, w', done, mode)
  {
    var e := Renamed(Sub(p, n), Sub(p, m));
    var ren, anc := [Logged(PlaceOf(side), e)], [Logged(AtAncestor, e)];
    LegitOne(w, side, End(w', side), e, mode);
    var w1 := WithEnd(w, side, End(w', side), ren);
    if w'.log == w.log + ren {
      done := ren;
    } else {
      ReplayOthers(w1.cli, anc, AtClient);
      ReplayOthers(w1.srv, anc, AtServer);
      assert Legit(w1, w', anc, mode);
      LegitThen(w, w1, w', ren, anc, mode);
      done := ren + anc;
    }
  }

  lemma SplitLegit(w: World, t: Tables, todo: set<Name>, p: Path, n: Name, side: Side, fate: AncestorFate, f: Faults,
      mode: SyncMode)
    returns (done: seq<Logged>)
    requires Compute.RenamePermitted(side, mode)
    ensures Legit(w, ApplySplit(w, t, todo, p, n, side, fate, f).w, done, mode)
  {
    var out, m := ApplySplit(w, t, todo, p, n, side, fate, f), Alternate(n, NamesInUse(t));
    SplitEnds(w, t, todo, p, n, side, fate, f);
    if End(out.w, side) == End(w, side) && out.w.log == w.log {
      LegitStays(w, out.w, mode);
      done := [];
    } else {
      done := RenameLegit(w, out.w, p, n, m, side, mode);
    }
  }

  lemma ApplyLegit(w: World, t: Tables, todo: set<Name>, synth: Synthetics, p: Path, n: Name, f: Faults, mode: SyncMode)
    returns (done: seq<Logged>)
    ensures var r := Compute.Choose(Look(t.cli, n), Look(t.anc, n), Look(t.srv, n), mode);
            Legit(w, Apply(w, t, todo, synth, p, n, r, f).w, done, mode)
  {
    var c, a, v := Look(t.cli, n), Look(t.anc, n), Look(t.srv, n);
    var r := Compute.Choose(c, a, v, mode);
    Compute.DecisionPermitted(c, a, v, mode);
    Compute.DecisionShape(c, a, v, mode);
    if c == Some(Special) || v == Some(Special) { Compute.SpecialUntouched(c, a, v, mode); }
    done := ApplyDecisionLegit(w, t, todo, synth, p, n, r, f, mode);
  }

  lemma ApplyDecisionLegit(w: World, t: Tables, todo: set<Name>, synth: Synthetics, p: Path, n: Name,
      r: Reconciliation, f: Faults, mode: SyncMode) returns (done: seq<Logged>)
    requires r.Use? ==> UsePermitted(Look(EndTable(t, Rev(r.src)), n), Look(EndTable(t, r.src), n), Rev(r.src), mode)
    requires r.Split? ==> Compute.RenamePermitted(r.renamed, mode)
    ensures Legit(w, Apply(w, t, todo, synth, p, n, r, f).w, done, mode)
  {
    done := [];
    if f.stop {
      LegitStays(w, w, mode);
    } else {
      match r
      case Use(src) => done := UseLegit(w, t, todo, synth, p, n, src, f, mode);
      case Split(side, fate) => done := SplitLegit(w, t, todo, p, n, side, fate, f, mode);
      case _ => LegitStays(w, Apply(w, t, todo, synth, p, n, r, f).w, mode);
    }
  }

  // ----- Runs -----

  /** A directory is doomed only where deleting is allowed. */
  ghost predicate DoomAllowed(s: State, mode: SyncMode) {
    forall p :: IsDoomed(s.ctxs, p) ==> Toward(mode, s.ctxs[p].kind.side).delete.IsOn()
  }

  lemma FileDoomAllowed(s: State, p: Path, n: Name, mode: SyncMode, f: Faults)
    requires DoomAllowed(s, mode) && p in s.ctxs && Sub(p, n) !in s.ctxs && Sub(p, n) != p
    ensures DoomAllowed(File(s, p, n, mode, f), mode)
  {
    var out, t, s' := ApplyStep(s, p, n, mode, f), s.ctxs[p].t, File(s, p, n, mode, f);
    EnteredTables(s, p, n, mode, f);
    Compute.DecisionPermitted(Look(t.cli, n), Look(t.anc, n), Look(t.srv, n), mode);
    SpawnKind(s, p, n, out, f);
    DoomAllowedFromParts(s, p, n, out, f, mode);
  }

  lemma DoomAllowedFromParts(s: State, p: Path, n: Name, out: Applied, f: Faults, mode: SyncMode)
    requires DoomAllowed(s, mode) && p in s.ctxs && Sub(p, n) !in s.ctxs && Sub(p, n) != p
    requires out.res.RecursiveDelete? ==> Toward(mode, out.res.side).delete.IsOn()
    ensures DoomAllowed(Conclude(s, p, n, out, f), mode)
  {
    ConcludeIs(s, p, n, out, f);
    hide Conclude;
  }

  lemma SameDoomed(s: State, s': State, mode: SyncMode)
    requires DoomAllowed(s, mode) && forall x :: x in s'.ctxs ==> x in s.ctxs && s'.ctxs[x].kind == s.ctxs[x].kind
    ensures DoomAllowed(s', mode)
  {
  }

  lemma StartDoomAllowed(s: State, p: Path, fault: ListFault, mode: SyncMode)
    requires DoomAllowed(s, mode) && p in s.ctxs
    ensures DoomAllowed(Start(s, p, fault), mode)
  {
    hide DoomAllowed;
    SameDoomed(s, Start(s, p, fault), mode);
    assert DoomAllowed(Start(s, p, fault), mode);
  }

  lemma CompleteDoomAllowed(s: State, p: Path, f: EndFaults, mode: SyncMode)
    requires DoomAllowed(s, mode) && p in s.ctxs
    ensures DoomAllowed(Complete(s, p, f), mode)
  {
    hide DoomAllowed;
    SameDoomed(s, Complete(s, p, f), mode);
    assert DoomAllowed(Complete(s, p, f), mode);
  }

  lemma NextDoomAllowed(s: State, a: Action, mode: SyncMode)
    requires TreeClosed(s.ctxs) && DoomAllowed(s, mode) && Enabled(s, a)
    ensures DoomAllowed(Next(s, a, mode), mode)
  {
    hide DoomAllowed, File, Start, Complete, MergedOk, MergedEmpty;
    match a
    case DoFile(p, n, f) =>
      assert Sub(p, n) !in s.ctxs && Sub(p, n) != p;
      FileDoomAllowed(s, p, n, mode, f);
    case DoStart(p, fault) => StartDoomAllowed(s, p, fault, mode);
    case DoComplete(p, ef) => CompleteDoomAllowed(s, p, ef, mode);
    assert DoomAllowed(Next(s, a, mode), mode);
  }

  lemma RmEndLegit(w: World, side: Side, p: Path, fault: bool, mode: SyncMode) returns (done: seq<Logged>)
    requires RmEnd(w, side, p, fault).Some? && (p in End(w, side) ==> Toward(mode, side).delete.IsOn())
    ensures Legit(w, RmEnd(w, side, p, fault).value, done, mode)
  {
    var fs := End(w, side);
    var w' := RmEnd(w, side, p, fault).value;
    if p in fs && p !in End(w', side) {
      LegitOne(w, side, fs - {p}, Erased(p, fs[p]), mode);
      done := [Logged(PlaceOf(side), Erased(p, fs[p]))];
    } else {
      assert w'.log == w.log && End(w', side) == fs;
      LegitStays(w, w', mode);
      done := [];
    }
  }

  lemma RmAllLegit(w: World, p: Path, f: EndFaults, mode: SyncMode) returns (done: seq<Logged>)
    requires p in w.cli ==> mode.inbound.delete.IsOn()
    requires p in w.srv ==> mode.outbound.delete.IsOn()
    ensures Legit(w, RmAll(w, p, f).1, done, mode)
  {
    var a, w' := RmDir(w.anc, p), RmAll(w, p, f).1;
    if f.anc || a.None? {
      LegitStays(w, w', mode);
      done := [];
    } else {
      var w1 := w.(anc := a.value, condemned := Surviving(w.condemned, p));
      LegitStays(w, w1, mode);
      var c := RmEnd(w1, Client, p, f.cli);
      if c.None? {
        done := [];
      } else {
        var d1 := RmEndLegit(w1, Client, p, f.cli, mode);
        assert Legit(w, c.value, d1, mode);
        var v := RmEnd(c.value, Server, p, f.srv);
        if v.None? {
          done := d1;
        } else {
          var d2 := RmEndLegit(c.value, Server, p, f.srv, mode);
          LegitThen(w, c.value, v.value, d1, d2, mode);
          done := d1 + d2;
        }
      }
    }
  }

  lemma CompleteLegit(s: State, p: Path, f: EndFaults, mode: SyncMode) returns (done: seq<Logged>)
    requires TreeClosed(s.ctxs) && Del(s) && DoomAllowed(s, mode) && Ready(s, p)
    ensures Legit(s.w, Complete(s, p, f).w, done, mode)
  {
    if MergedOk(s, p) && MergedEmpty(s, p) && s.ctxs[p].kind.Doomed? {
      NothingLeft(s, p);
      assert IsDoomed(s.ctxs, p);
      done := RmAllLegit(s.w, p, f, mode);
    } else {
      LegitStays(s.w, Complete(s, p, f).w, mode);
      done := [];
    }
  }

  lemma FileLegit(s: State, p: Path, n: Name, f: Faults, mode: SyncMode) returns (done: seq<Logged>)
    requires p in s.ctxs
    ensures Legit(s.w, File(s, p, n, mode, f).w, done, mode)
  {
    var t, r := s.ctxs[p].t, Decide(s.ctxs[p], n, mode);
    var synth := if r.Use? then Synth(s.ctxs, p, Rev(r.src)) else [];
    hide Apply, Compute.Choose, Legit, Conclude;
    done := ApplyLegit(s.w, t, s.ctxs[p].todo - {n}, synth, p, n, f, mode);
    assert Legit(s.w, File(s, p, n, mode, f).w, done, mode);
  }

  lemma StartLegit(s: State, p: Path, fault: ListFault, mode: SyncMode)
    requires p in s.ctxs
    ensures Legit(s.w, Start(s, p, fault).w, [], mode)
  {
    LegitStays(s.w, Start(s, p, fault).w, mode);
  }

  lemma NextLegit(s: State, a: Action, mode: SyncMode) returns (done: seq<Logged>)
    requires TreeClosed(s.ctxs) && Del(s) && DoomAllowed(s, mode) && Enabled(s, a)
    ensures Legit(s.w, Next(s, a, mode).w, done, mode)
  {
    hide Legit, Del, TreeClosed, DoomAllowed, Start, File, Complete, MergedOk, MergedEmpty;
    match a
    case DoStart(p, fault) =>
      StartLegit(s, p, fault, mode);
      done := [];
    case DoFile(p, n, f) => done := FileLegit(s, p, n, f, mode);
    case DoComplete(p, ef) => done := CompleteLegit(s, p, ef, mode);
    assert Legit(s.w, Next(s, a, mode).w, done, mode);
  }

  lemma {:induction false} RunLegit(s: State, run: seq<Action>, mode: SyncMode) returns (done: seq<Logged>)
    requires Str(s) && Del(s) && DoomAllowed(s, mode) && Legal(s, run, mode)
    ensures Legit(s.w, Final(s, run, mode).w, done, mode)
    decreases |run|
  {
    if run == [] {
      LegitStays(s.w, s.w, mode);
      done := [];
    } else {
      var s' := Next(s, run[0], mode);
      var d1 := NextLegit(s, run[0], mode);
      NextKeeps(s, run[0], mode);
      NextDel(s, run[0], mode);
      NextDoomAllowed(s, run[0], mode);
      var d2 := RunLegit(s', run[1..], mode);
      LegitThen(s.w, s'.w, Final(s', run[1..], mode).w, d1, d2, mode);
      done := d1 + d2;
    }
  }

  lemma InitLegit(w: World, run: seq<Action>, mode: SyncMode) returns (done: seq<Logged>)
    requires TreesWellFormed(w) && Legal(Init(w), run, mode)
    ensures Legit(w, Final(Init(w), run, mode).w, done, mode)
  {
    InitStr(w);
    InitDel(w);
    done := RunLegit(Init(w), run, mode);
  }

  /** The main theorem on permissions: over any trees, in any mode, whatever fails and
      however the steps interleave, the history of a run holds only operations that the
      flags allow, none that makes, replaces or removes a special file, and it accounts for
      every difference between the ends as they were and as they are. */
  lemma FlagsArePermissions(w: World, run: seq<Action>, mode: SyncMode)
    requires TreesWellFormed(w) && w.log == [] && Legal(Init(w), run, mode)
    ensures var w' := Final(Init(w), run, mode).w;
            && AllAllowed(w'.log, mode)
            && w'.cli == Replay(w.cli, w'.log, AtClient) && w'.srv == Replay(w.srv, w'.log, AtServer)
  {
    var done := InitLegit(w, run, mode);
    assert w.log + done == done;
  }

  /** With a direction switched off altogether, that end is never changed. */
  lemma OffMeansUntouched(w: World, run: seq<Action>, mode: SyncMode, side: Side)
    requires TreesWellFormed(w) && w.log == [] && Legal(Init(w), run, mode)
    requires Toward(mode, side) == HalfMode(Off, Off, Off)
    ensures End(Final(Init(w), run, mode).w, side) == End(w, side)
  {
    FlagsArePermissions(w, run, mode);
    var w' := Final(Init(w), run, mode).w;
    hide Legal, Final, WellFormed, Replay, AllAllowed;
    NoneAllowed(w'.log, mode, side);
    ReplayOthers(End(w, side), w'.log, PlaceOf(side));
  }

  lemma NoneAllowed(log: seq<Logged>, mode: SyncMode, side: Side)
    requires AllAllowed(log, mode) && Toward(mode, side) == HalfMode(Off, Off, Off)
    ensures forall i :: 0 <= i < |log| ==> log[i].at != PlaceOf(side)
  {
    assert forall i :: 0 <= i < |log| ==> Allowed(log[i], mode);
  }

  /** `---/CUD`, which the program calls "mirror". */
  const MIRROR := SyncMode(HalfMode(Off, Off, Off), HalfMode(Force, Force, Force))

  /** Mirroring never changes the client and makes the server like it. */
  lemma MirrorTheorem(w: World, run: seq<Action>)
    requires TreesWellFormed(w) && w.log == [] && PlainEnds(w) && Legal(Init(w), run, MIRROR) && FaultlessRun(run)
    requires Drained(Final(Init(w), run, MIRROR))
    ensures var w' := Final(Init(w), run, MIRROR).w;
            w'.cli == w.cli && forall q :: Agree(Get(w.cli, q), Get(w'.srv, q))
  {
    OffMeansUntouched(w, run, MIRROR, Client);
    FaultlessAgreement(w, run, MIRROR);
    var w' := Final(Init(w), run, MIRROR).w;
    forall q ensures Agree(Get(w.cli, q), Get(w'.srv, q)) { assert AgreeAt(w', q); }
  }
}
