/** The loop over the names of one directory (src/reconcile/tree_walk.rs:309-311): it takes a
    name, processes it, and goes on with the names that splits put back. */
module NameLoop {
  import opened Defs
  import opened Replica
  import opened Mutate
  import opened Walk
  import opened Structure
  import opened StructureKept
  import opened Crash

  lemma {:induction false} LegalAppend(s: State, run: seq<Action>, a: Action, mode: SyncMode)
    requires Legal(s, run, mode) && Enabled(Final(s, run, mode), a)
    ensures Legal(s, run + [a], mode) && Final(s, run + [a], mode) == Next(Final(s, run, mode), a, mode)
    decreases |run|
  {
    hide Next;
    if run == [] {
      assert run + [a] == [a] && [a][1..] == [];
      assert Legal(Next(s, a, mode), [], mode);
    } else {
      assert (run + [a])[1..] == run[1..] + [a];
      LegalAppend(Next(s, run[0], mode), run[1..], a, mode);
    }
  }

  /** `run` has brought the walk from `s` to `s'` by processing names of `p`. */
  ghost predicate Came(s: State, run: seq<Action>, mode: SyncMode, s': State, p: Path) {
    && Legal(s, run, mode) && s' == Final(s, run, mode) && Str(s') && p in s'.ctxs && s'.ctxs[p].phase.Active?
    && forall i :: 0 <= i < |run| ==> run[i].DoFile? && run[i].p == p
  }

  lemma TurnOfLoop(s: State, run: seq<Action>, mode: SyncMode, s': State, p: Path, n: Name, f: Faults)
    requires Came(s, run, mode, s', p) && p in s'.ctxs && n in s'.ctxs[p].todo
    ensures var s'' := File(s', p, n, mode, f);
            Came(s, run + [DoFile(p, n, f)], mode, s'', p) && Work(s''.ctxs[p]) < Work(s'.ctxs[p])
  {
    hide Str, File, Work, Legal, Final, Enabled;
    FileTurn(s', p, n, mode, f);
    LegalAppend(s, run, DoFile(p, n, f), mode);
  }

  lemma FileTurn(s: State, p: Path, n: Name, mode: SyncMode, f: Faults)
    requires Str(s) && p in s.ctxs && s.ctxs[p].phase.Active? && n in s.ctxs[p].todo
    ensures var s' := File(s, p, n, mode, f);
            Str(s') && s'.ctxs[p].phase.Active? && Work(s'.ctxs[p]) < Work(s.ctxs[p]) && Enabled(s, DoFile(p, n, f))
  {
    hide Str, File, Work, NamesInUse;
    FileKeeps(s, p, n, mode, f);
    LoopProgress(s, p, n, mode, f);
  }

  /** The loop ends, whichever operations fail and whichever name comes next, after no more
      turns than there are names to do plus two for each name that both ends have; what it
      did is a run of the walk. */
  method ProcessNames(s: State, p: Path, mode: SyncMode, faults: nat -> Faults) returns (s': State, run: seq<Action>)
    requires Str(s) && p in s.ctxs && s.ctxs[p].phase.Active?
    ensures Came(s, run, mode, s', p) && p in s'.ctxs && s'.ctxs[p].todo == {}
    ensures |run| <= Work(s.ctxs[p])
  {
    s', run := s, [];
    hide Str, File, Work;
    while s'.ctxs[p].todo != {}
      invariant Came(s, run, mode, s', p) && p in s'.ctxs
      invariant |run| + Work(s'.ctxs[p]) <= Work(s.ctxs[p])
      decreases Work(s'.ctxs[p])
    {
      hide Came;
      var n :| n in s'.ctxs[p].todo;
      var f := faults(|run|);
      TurnOfLoop(s, run, mode, s', p, n, f);
      run := run + [DoFile(p, n, f)];
      s' := File(s', p, n, mode, f);
    }
  }
}
