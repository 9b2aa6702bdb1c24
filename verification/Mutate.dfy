/** Applying one decision (src/reconcile/mutate.rs): an ordered sequence of replica
    operations, end replica first and ancestor second, any of which may fail. */
module Mutate {
  import opened Defs
  import opened Replica
  import opened AltName

  datatype Place = AtClient | AtAncestor | AtServer

  function PlaceOf(side: Side): Place {
    if side.Client? then AtClient else AtServer
  }

  /** An operation that succeeded. */
  datatype Event =
    | Made(path: Path, data: FileData)
    | Replaced(path: Path, was: FileData, data: FileData)
    | Erased(path: Path, was: FileData)
    | Renamed(path: Path, to: Path)

  datatype Logged = Logged(at: Place, event: Event)

  /** The three trees, the condemned names of the ancestor, and the history of what was
      done to the ends (and of the ancestor's renames). */
  datatype World = World(cli: Fs, anc: Fs, srv: Fs, condemned: set<Path>, log: seq<Logged>)

  function End(w: World, side: Side): Fs {
    if side.Client? then w.cli else w.srv
  }

  function WithEnd(w: World, side: Side, fs: Fs, events: seq<Logged>): World {
    if side.Client? then w.(cli := fs, log := w.log + events) else w.(srv := fs, log := w.log + events)
  }

  /** The names read when the directory was listed, kept up to date by each operation. */
  datatype Tables = Tables(cli: map<Name, FileData>, anc: map<Name, FileData>, srv: map<Name, FileData>)

  function Look(m: map<Name, FileData>, n: Name): Option<FileData> {
    if n in m then Some(m[n]) else None
  }

  function Put(m: map<Name, FileData>, n: Name, data: Option<FileData>): map<Name, FileData> {
    if data.Some? then m[n := data.value] else m - {n}
  }

  function EndTable(t: Tables, side: Side): map<Name, FileData> {
    if side.Client? then t.cli else t.srv
  }

  function WithEndTable(t: Tables, side: Side, m: map<Name, FileData>): Tables {
    if side.Client? then t.(cli := m) else t.(srv := m)
  }

  function NamesInUse(t: Tables): set<Name> {
    t.cli.Keys + t.anc.Keys + t.srv.Keys
  }

  /** Directories a handle creates on demand, outermost first. */
  type Synthetics = seq<(Path, FileMode)>

  /** A failing write of the ancestor may have emptied part of a directory first. */
  datatype AncestorFault = Works | Breaks(lost: set<Path>)

  /** Which operations of one file's reconciliation fail. A create that fails may have made
      the first `made` of the directories that its handle creates on demand. */
  datatype Faults = Faults(stop: bool, end: bool, made: nat, anc: AncestorFault, condemn: bool, rename: bool,
                           ancRename: bool, uncondemn: bool, chdirCli: bool, chdirAnc: bool, chdirSrv: bool)

  const NO_FAULTS := Faults(false, false, 0, Works, false, false, false, false, false, false, false)

  datatype ApplyResult = Clean(recurse: bool) | Fail | RecursiveDelete(side: Side, mode: FileMode)

  datatype Applied = Applied(w: World, t: Tables, todo: set<Name>, res: ApplyResult)

  // ----- Writing the ancestor -----

  /** What is left of `top` when emptying it stops early: a directory goes only after
      everything below it. */
  function PartlyEmptied(fs: Fs, top: Path, lost: set<Path>): Fs {
    map q | q in fs && (q == top || !Under(top, q) || exists r :: r in fs && Under(q, r) && r !in lost) :: fs[q]
  }

  /** `replace_ancestor`. `None` when the directory could not be emptied or written. */
  function ReplaceAncestor(anc: Fs, p: Path, n: Name, was: Option<FileData>, data: Option<FileData>,
                           fault: AncestorFault): (r: (bool, Fs))
  {
    var q := Sub(p, n);
    var emptying := IsDirectory(was) && !IsDirectory(data);
    if was == data then (true, anc)
    else if fault.Breaks? then (false, if emptying then PartlyEmptied(anc, q, fault.lost) else anc)
    else
      var anc1 := if emptying then RemoveBelow(anc, q) else anc;
      var res :=
        if was.Some? && data.None? then Remove(anc1, p, n, was.value)
        else if was.None? then (if data.Some? then Create(anc1, p, n, data.value) else Some(anc1))
        else Update(anc1, p, n, was.value, data.value);
      if res.Some? then (true, res.value) else (false, anc1)
  }

  /** Condemned names are kept with the directory they are in, and go when it goes. */
  function Standing(condemned: set<Path>, anc: Fs): set<Path> {
    set q | q in condemned && q.Sub? && IsDir(anc, q.parent)
  }

  function Surviving(condemned: set<Path>, top: Path): set<Path> {
    set q | q in condemned && !(q.Sub? && Under(top, q.parent))
  }

  /** They move when their directory is renamed. */
  function Carried(condemned: set<Path>, top: Path, to: Path): set<Path> {
    set q | q in condemned :: if q.Sub? && Under(top, q.parent) then Graft(q, top, to) else q
  }

  /** Sets the ancestor's record of `n`, whatever it was. */
  function SetAncestor(w: World, t: Tables, p: Path, n: Name, data: Option<FileData>, fault: AncestorFault)
    : (bool, World, Tables)
  {
    var was := Look(t.anc, n);
    var (ok, anc) := ReplaceAncestor(w.anc, p, n, was, data, fault);
    (ok, w.(anc := anc, condemned := if IsDirectory(was) &&
        !IsDirectory(data) then Standing(w.condemned, anc) else w.condemned),
     if ok then t.(anc := Put(t.anc, n, data)) else t)
  }

  // ----- Writing an end -----

  function Materialise(fs: Fs, synth: Synthetics): Fs {
    if synth == [] then fs
    else
      var fs1 := Materialise(fs, synth[..|synth| - 1]);
      var (q, mode) := synth[|synth| - 1];
      if q in fs1 then fs1 else fs1[q := Directory(mode)]
  }

  function MaterialiseLog(fs: Fs, synth: Synthetics, at: Place): seq<Logged> {
    if synth == [] then []
    else
      var fs1 := Materialise(fs, synth[..|synth| - 1]);
      var (q, mode) := synth[|synth| - 1];
      MaterialiseLog(fs, synth[..|synth| - 1], at)
      + if q in fs1 then [] else [Logged(at, Made(q, Directory(mode)))]
  }

  /** `replace_replica`: the file `n` of `p` on `side` goes from `was` to `data`. */
  function ReplaceEnd(w: World, side: Side, synth: Synthetics, p: Path, n: Name,
                      was: Option<FileData>, data: Option<FileData>, fault: bool): Option<World>
  {
    var fs, q, at := End(w, side), Sub(p, n), PlaceOf(side);
    if was == data then Some(w)
    else if fault then None
    else if data.None? then
      var r := Remove(fs, p, n, was.value);
      if r.Some? then Some(WithEnd(w, side, r.value, [Logged(at, Erased(q, was.value))])) else None
    else if was.Some? then
      var r := Update(fs, p, n, was.value, data.value);
      if r.Some? then Some(WithEnd(w, side, r.value, [Logged(at, Replaced(q, was.value, data.value))])) else None
    else
      var r := Create(Materialise(fs, synth), p, n, data.value);
      if r.Some? then
        Some(WithEnd(w, side, r.value, MaterialiseLog(fs, synth, at) + [Logged(at, Made(q, data.value))]))
      else None
  }

  function FirstOf(synth: Synthetics, k: nat): Synthetics {
    if k < |synth| then synth[..k] else synth
  }

  /** What a failed `replace_replica` leaves. */
  function HalfMade(w: World, side: Side, synth: Synthetics, was: Option<FileData>, made: nat): World {
    var fs, some := End(w, side), FirstOf(synth, made);
    if was.None? then WithEnd(w, side, Materialise(fs, some), MaterialiseLog(fs, some, PlaceOf(side))) else w
  }

  function RenameEnd(w: World, side: Side, p: Path, n: Name, m: Name, fault: bool): Option<World> {
    var r := Rename(End(w, side), p, n, m);
    if fault || r.None? then None
    else Some(WithEnd(w, side, r.value, [Logged(PlaceOf(side), Renamed(Sub(p, n), Sub(p, m)))]))
  }

  function RenameTable(m: map<Name, FileData>, from: Name, to: Name): map<Name, FileData> {
    if from in m then (m - {from})[to := m[from]] else m
  }

  // ----- Applying a decision -----

  /** Ends a step that brought the ends together by recording `data` in the ancestor. */
  function Record(w: World, t: Tables, todo: set<Name>, p: Path, n: Name, data: Option<FileData>,
                  fault: AncestorFault): Applied
  {
    var (ok, w1, t1) := SetAncestor(w, t, p, n, data, fault);
    Applied(w1, t1, todo, if ok then Clean(IsDirectory(data)) else Fail)
  }

  function ApplyUse(w: World, t: Tables, todo: set<Name>, synth: Synthetics, p: Path, n: Name, src: Side,
                    f: Faults): Applied
  {
    var dst := Rev(src);
    var was, data := Look(EndTable(t, dst), n), Look(EndTable(t, src), n);
    if IsDirectory(was) && data.None? then
      var (ok, w1, t1) := SetAncestor(w, t, p, n, was, f.anc);
      Applied(w1, t1, todo, if ok then RecursiveDelete(dst, was.value.mode) else Fail)
    else
      var r := ReplaceEnd(w, dst, synth, p, n, was, data, f.end);
      if r.None? then Applied(HalfMade(w, dst, synth, was, f.made), t, todo, Fail)
      else Record(r.value, WithEndTable(t, dst, Put(EndTable(t, dst), n, data)), todo, p, n, data, f.anc)
  }

  /** Removes or condemns the ancestor's record before the end is renamed. */
  function SplitDetach(w: World, t: Tables, p: Path, n: Name, fate: AncestorFate, f: Faults): (bool, World, Tables) {
    if fate.Delete? then SetAncestor(w, t, p, n, None, f.anc)
    else if f.condemn then (false, w, t)
    else (true, w.(condemned := w.condemned + {Sub(p, n)}), t)
  }

  /** Brings the record back under the new name once the end has moved. */
  function SplitReattach(w: World, t: Tables, p: Path, n: Name, m: Name, f: Faults): (bool, World, Tables) {
    var r := Rename(w.anc, p, n, m);
    if n in t.anc && (f.ancRename || r.None?) then (false, w, t)
    else
      var w1 := if n in t.anc
                then w.(anc := r.value, condemned := Carried(w.condemned, Sub(p, n), Sub(p, m)),
                        log := w.log + [Logged(AtAncestor, Renamed(Sub(p, n), Sub(p, m)))])
                else w;
      var t1 := t.(anc := RenameTable(t.anc, n, m));
      if f.uncondemn then (false, w1, t1)
      else (true, w1.(condemned := w1.condemned - {Sub(p, n)}), t1)
  }

  function ApplySplit(w: World, t: Tables, todo: set<Name>, p: Path, n: Name, side: Side, fate: AncestorFate,
                      f: Faults): Applied
  {
    var m := Alternate(n, NamesInUse(t));
    var (ok1, w1, t1) := SplitDetach(w, t, p, n, fate, f);
    if !ok1 then Applied(w1, t1, todo, Fail)
    else
      var r := RenameEnd(w1, side, p, n, m, f.rename);
      if r.None? then Applied(w1, t1, todo, Fail)
      else
        var t2 := WithEndTable(t1, side, RenameTable(EndTable(t1, side), n, m));
        var (ok3, w3, t3) := if fate.Move? then SplitReattach(r.value, t2, p, n, m, f) else (true, r.value, t2);
        if ok3 then Applied(w3, t3, todo + {n, m}, Clean(false)) else Applied(w3, t3, todo, Fail)
  }

  /** `apply_reconciliation`. `synth` is what the handle of the written end must create first. */
  function Apply(w: World, t: Tables, todo: set<Name>, synth: Synthetics, p: Path, n: Name, r: Reconciliation,
                 f: Faults): Applied
  {
    if f.stop then Applied(w, t, todo, Fail)
    else match r
    case InSync => Record(w, t, todo, p, n, Look(t.cli, n), f.anc)
    case Unsync => Applied(w, t, todo, Clean(false))
    case Irreconcilable => Applied(w, t, todo, Clean(false))
    case Use(src) => ApplyUse(w, t, todo, synth, p, n, src, f)
    case Split(side, fate) => ApplySplit(w, t, todo, p, n, side, fate, f)
  }

  /** Listing a directory of the ancestor removes what is condemned in it. */
  function Purge(w: World, p: Path): World {
    var gone := set q | q in w.condemned && q.Sub? && q.parent == p;
    w.(anc := map q | q in w.anc && !(exists top :: top in gone && Under(top, q)) :: w.anc[q],
       condemned := set q | q in w.condemned && q !in gone &&
           !(q.Sub? && exists top :: top in gone && Under(top, q.parent)))
  }
}
