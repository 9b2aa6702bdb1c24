/** Which paths a run has yet to deal with, and where the files there came from. */
module Regions {
  import opened Defs
  import opened Replica
  import opened Mutate
  import opened Effects
  import opened Walk
  import opened Structure
  import opened StructureKept
  import opened Deletion

  // ----- Pending paths -----

  ghost predicate PendingIn(s: State, p: Path, x: Path) {
    && p in s.ctxs && Under(p, x) && x != p
    && (s.ctxs[p].phase.Queued? || exists n :: n in s.ctxs[p].todo && Under(Sub(p, n), x))
  }

  /** The run has yet to deal with `x`: it lies in a queued directory, or below a name
      still to do. */
  ghost predicate Pending(s: State, x: Path) {
    exists p :: PendingIn(s, p, x)
  }

  lemma TodoPending(s: State, p: Path, n: Name, x: Path)
    requires p in s.ctxs && n in s.ctxs[p].todo && Under(Sub(p, n), x)
    ensures Pending(s, x)
  {
    UnderTransitive(p, Sub(p, n), x);
    if x == p { NotAboveItself(p, n); }
    assert PendingIn(s, p, x);
  }

  lemma QueuedPending(s: State, p: Path, x: Path)
    requires p in s.ctxs && s.ctxs[p].phase.Queued? && Under(p, x) && x != p
    ensures Pending(s, x)
  {
    assert PendingIn(s, p, x);
  }

  /** A directory with a context is itself dealt with. */
  lemma ContextNotPending(s: State, x: Path)
    requires TreeClosed(s.ctxs) && x in s.ctxs
    ensures !Pending(s, x)
  {
    if Pending(s, x) {
      var p :| PendingIn(s, p, x);
      if s.ctxs[p].phase.Queued? {
        NoContextBelowQueued(s.ctxs, p, x);
      } else {
        var n :| n in s.ctxs[p].todo && Under(Sub(p, n), x);
        Region(s.ctxs, p, n, x);
      }
    }
  }

  /** Below a name that is done and was not entered nothing is pending. */
  lemma ClosedNotPending(s: State, p: Path, n: Name, x: Path)
    requires TreeClosed(s.ctxs) && p in s.ctxs && !s.ctxs[p].phase.Queued? && n !in s.ctxs[p].todo
    requires Sub(p, n) !in s.ctxs && Under(Sub(p, n), x)
    ensures !Pending(s, x)
  {
    var q := Sub(p, n);
    if Pending(s, x) {
      var p' :| PendingIn(s, p', x);
      UnderComparable(p', q, x);
      if Under(q, p') {
        UpClosed(s.ctxs, q, p');
      } else {
        assert Under(p', p);
        if p' != p {
          if s.ctxs[p'].phase.Queued? {
            NoContextBelowQueued(s.ctxs, p', p);
          } else {
            var n' :| n' in s.ctxs[p'].todo && Under(Sub(p', n'), x);
            UnderComparable(Sub(p', n'), q, x);
            if Under(q, Sub(p', n')) {
              if q != Sub(p', n') { UnderTransitive(q, p', p); NotAboveItself(p, n); }
            } else {
              assert Under(Sub(p', n'), p);
              Region(s.ctxs, p', n', p);
            }
          }
        } else {
          var n' :| n' in s.ctxs[p].todo && Under(Sub(p, n'), x);
          SiblingsDisjoint(p, n, n', x);
        }
      }
    }
  }

  /** A step changes what is pending only below its own names. */
  lemma PendingElsewhere(s: State, p: Path, n: Name, m: Name, out: Applied, s': State, x: Path)
    requires Stepped(s, p, n, m, out, s') && Outside(p, n, m, x)
    ensures Pending(s', x) <==> Pending(s, x)
  {
    var q := Sub(p, n);
    if Pending(s', x) {
      var p' :| PendingIn(s', p', x);
      assert p' != q;
      assert p' in s'.ctxs.Keys - {q};
      if p' == p {
        var k :| k in s'.ctxs[p].todo && Under(Sub(p, k), x);
        TodoPending(s, p, k, x);
      } else {
        assert PendingIn(s, p', x);
      }
    }
    if Pending(s, x) {
      var p' :| PendingIn(s, p', x);
      if p' == p {
        var k :| k in s.ctxs[p].todo && Under(Sub(p, k), x);
        TodoPending(s', p, k, x);
      } else {
        assert PendingIn(s', p', x);
      }
    }
  }

  // ----- Origins -----

  /** Where the file now at `x` was before the renames in `log`. */
  function Trace(log: seq<Logged>, at: Place, x: Path): Path
    decreases |log|
  {
    if log == [] then x
    else
      var last, front := log[|log| - 1], log[..|log| - 1];
      if last.at == at && last.event.Renamed? && Under(last.event.to, x)
      then Trace(front, at, Graft(x, last.event.to, last.event.path))
      else Trace(front, at, x)
  }

  ghost predicate NoRenames(done: seq<Logged>) {
    forall i :: 0 <= i < |done| ==> !done[i].event.Renamed?
  }

  lemma {:induction false} TraceSkips(log: seq<Logged>, done: seq<Logged>, at: Place, x: Path)
    requires forall i :: 0 <= i < |done| ==>
               done[i].at != at || !done[i].event.Renamed? || !Under(done[i].event.to, x)
    ensures Trace(log + done, at, x) == Trace(log, at, x)
  {
    if done == [] {
      assert log + done == log;
    } else {
      TraceSkips(log, done[..|done| - 1], at, x);
      assert (log + done)[..|log + done| - 1] == log + done[..|done| - 1];
    }
  }

  lemma TraceRename(log: seq<Logged>, at: Place, top: Path, to: Path, x: Path)
    requires Under(to, x)
    ensures Trace(log + [Logged(at, Renamed(top, to))], at, x) == Trace(log, at, Graft(x, to, top))
  {
    var l := log + [Logged(at, Renamed(top, to))];
    assert l[..|l| - 1] == log;
  }
}
