/** The check that every rule state can be reached (src/rules/engine.rs:332-377). */
module Reachability {
  import opened Sets
  import opened Rules

  // ----- What a state leads to -----

  function ActionRefs(a: Action): set<nat> {
    match a
    case Include(subs) => set i | 0 <= i < |subs| :: subs[i]
    case Switch(to) => {to}
    case _ => {}
  }

  function ActionsRefs(actions: seq<Action>): set<nat> {
    set i, r | 0 <= i < |actions| && r in ActionRefs(actions[i]) :: r
  }

  function RulesRefs(rs: SyncRules, list: seq<nat>): set<nat>
    requires GoodRefs(list, |rs.rules|)
  {
    set i, r | 0 <= i < |list| && r in ActionsRefs(rs.rules[list[i]].actions) :: r
  }

  /** An include or a switch leads from `i` to `j`. */
  predicate Edge(rs: SyncRules, i: nat, j: nat)
    requires Resolved(rs)
  {
    i < |rs.states| && j in RulesRefs(rs, rs.states[i].files) + RulesRefs(rs, rs.states[i].siblings)
  }

  /** The action names the state `j`. */
  predicate Names(a: Action, j: nat) {
    a == Switch(j) || (a.Include? && j in a.subs)
  }

  /** An edge is an action of a rule of the state, of either group, that includes or switches
      to the other. */
  lemma EdgeIff(rs: SyncRules, i: nat, j: nat)
    requires Resolved(rs) && i < |rs.states|
    ensures Edge(rs, i, j) <==>
            exists g: Group, k: nat, l: nat ::
              && k < |GroupOf(rs.states[i], g)| && l < |rs.rules[GroupOf(rs.states[i], g)[k]].actions|
              && Names(rs.rules[GroupOf(rs.states[i], g)[k]].actions[l], j)
  {
    RulesRefsIff(rs, rs.states[i].files, j);
    RulesRefsIff(rs, rs.states[i].siblings, j);
    assert GroupOf(rs.states[i], Files) == rs.states[i].files;
    assert GroupOf(rs.states[i], Siblings) == rs.states[i].siblings;
  }

  lemma RulesRefsIff(rs: SyncRules, list: seq<nat>, j: nat)
    requires GoodRefs(list, |rs.rules|)
    ensures j in RulesRefs(rs, list) <==>
            exists k: nat, l: nat ::
              k < |list| && l < |rs.rules[list[k]].actions| && Names(rs.rules[list[k]].actions[l], j)
  {
    if j in RulesRefs(rs, list) {
      var k: nat :| k < |list| && j in ActionsRefs(rs.rules[list[k]].actions);
      var l: nat :| l < |rs.rules[list[k]].actions| && j in ActionRefs(rs.rules[list[k]].actions[l]);
      assert Names(rs.rules[list[k]].actions[l], j);
    }
    if k: nat, l: nat :| k < |list| && l < |rs.rules[list[k]].actions| && Names(rs.rules[list[k]].actions[l], j) {
      assert j in ActionRefs(rs.rules[list[k]].actions[l]);
      assert j in ActionsRefs(rs.rules[list[k]].actions);
    }
  }

  ghost predicate IsPath(rs: SyncRules, path: seq<nat>)
    requires Resolved(rs)
  {
    && path != [] && path[0] == rs.root
    && forall k :: 0 <= k < |path| - 1 ==> Edge(rs, path[k], path[k + 1])
  }

  ghost predicate Reachable(rs: SyncRules, i: nat)
    requires Resolved(rs)
  {
    exists path :: IsPath(rs, path) && path[|path| - 1] == i
  }

  ghost predicate Closed(rs: SyncRules, s: set<nat>)
    requires Resolved(rs)
  {
    forall i, j :: i in s && Edge(rs, i, j) ==> j in s
  }

  lemma {:induction false} ClosedHasAll(rs: SyncRules, s: set<nat>, path: seq<nat>)
    requires Resolved(rs) && Closed(rs, s) && rs.root in s && IsPath(rs, path)
    ensures path[|path| - 1] in s
    decreases |path|
  {
    if |path| > 1 {
      var front := path[..|path| - 1];
      assert forall k :: 0 <= k < |front| - 1 ==> Edge(rs, front[k], front[k + 1]) by {
        forall k | 0 <= k < |front| - 1 ensures Edge(rs, front[k], front[k + 1]) {
          assert Edge(rs, path[k], path[k + 1]);
        }
      }
      ClosedHasAll(rs, s, front);
      assert Edge(rs, path[|path| - 2], path[|path| - 2 + 1]);
    }
  }

  lemma OneFurther(rs: SyncRules, i: nat, j: nat)
    requires Resolved(rs) && Reachable(rs, i) && Edge(rs, i, j)
    ensures Reachable(rs, j)
  {
    var path :| IsPath(rs, path) && path[|path| - 1] == i;
    var longer := path + [j];
    forall k | 0 <= k < |longer| - 1 ensures Edge(rs, longer[k], longer[k + 1]) {
      if k < |path| - 1 { assert Edge(rs, path[k], path[k + 1]); }
    }
    assert IsPath(rs, longer) && longer[|longer| - 1] == j;
  }

  // ----- Marking -----

  /** `changed` tells whether anything new was marked. */
  ghost predicate MarkedMore(before: seq<bool>, after: seq<bool>, refs: set<nat>, changed: bool) {
    && |after| == |before|
    && Marked(after) == Marked(before) + refs
    && (changed <==> !(refs <= Marked(before)))
  }

  method MarkOne(reachable: array<bool>, r: nat) returns (changed: bool)
    requires r < reachable.Length
    modifies reachable
    ensures MarkedMore(old(reachable[..]), reachable[..], {r}, changed)
  {
    changed := !reachable[r];
    reachable[r] := true;
  }

  method MarkAction(reachable: array<bool>, a: Action) returns (changed: bool)
    requires GoodAction(a, reachable.Length)
    modifies reachable
    ensures MarkedMore(old(reachable[..]), reachable[..], ActionRefs(a), changed)
  {
    changed := false;
    match a {
      case Include(subs) =>
        var i := 0;
        ghost var done: set<nat> := {};
        while i < |subs|
          invariant 0 <= i <= |subs| && done == set j | 0 <= j < i :: subs[j]
          invariant MarkedMore(old(reachable[..]), reachable[..], done, changed)
        {
          ghost var before := reachable[..];
          var more := MarkOne(reachable, subs[i]);
          MarkTwice(old(reachable[..]), before, reachable[..], done, {subs[i]}, changed, more);
          changed := changed || more;
          done := done + {subs[i]};
          i := i + 1;
        }
      case Switch(to) => changed := MarkOne(reachable, to);
      case _ => assert ActionRefs(a) == {};
    }
  }

  lemma MarkTwice(a: seq<bool>, b: seq<bool>, c: seq<bool>, r1: set<nat>, r2: set<nat>, ch1: bool, ch2: bool)
    requires MarkedMore(a, b, r1, ch1) && MarkedMore(b, c, r2, ch2)
    ensures MarkedMore(a, c, r1 + r2, ch1 || ch2)
  {
  }

  method MarkActions(reachable: array<bool>, actions: seq<Action>) returns (changed: bool)
    requires GoodActions(actions, reachable.Length)
    modifies reachable
    ensures MarkedMore(old(reachable[..]), reachable[..], ActionsRefs(actions), changed)
  {
    changed := false;
    var i := 0;
    while i < |actions|
      invariant 0 <= i <= |actions|
      invariant MarkedMore(old(reachable[..]), reachable[..], ActionsRefs(actions[..i]), changed)
    {
      ghost var before := reachable[..];
      var more := MarkAction(reachable, actions[i]);
      MarkTwice(old(reachable[..]), before, reachable[..], ActionsRefs(actions[..i]), ActionRefs(actions[i]),
          changed, more);
      assert ActionsRefs(actions[..i + 1]) == ActionsRefs(actions[..i]) + ActionRefs(actions[i]) by {
        MoreActions(actions, i);
      }
      changed := changed || more;
      i := i + 1;
    }
    assert actions[..i] == actions;
  }

  lemma MoreActions(actions: seq<Action>, i: nat)
    requires i < |actions|
    ensures ActionsRefs(actions[..i + 1]) == ActionsRefs(actions[..i]) + ActionRefs(actions[i])
  {
    var a, b := actions[..i], actions[..i + 1];
    forall r | r in ActionsRefs(b) ensures r in ActionsRefs(a) + ActionRefs(actions[i]) {
      var k :| 0 <= k < |b| && r in ActionRefs(b[k]);
      if k < i { assert a[k] == b[k]; }
    }
    forall r | r in ActionsRefs(a) ensures r in ActionsRefs(b) {
      var k :| 0 <= k < |a| && r in ActionRefs(a[k]);
      assert b[k] == a[k];
    }
    assert b[i] == actions[i];
  }

  method MarkRules(rs: SyncRules, reachable: array<bool>, list: seq<nat>) returns (changed: bool)
    requires Resolved(rs) && GoodRefs(list, |rs.rules|) && reachable.Length == |rs.states|
    modifies reachable
    ensures MarkedMore(old(reachable[..]), reachable[..], RulesRefs(rs, list), changed)
  {
    changed := false;
    var i := 0;
    while i < |list|
      invariant 0 <= i <= |list|
      invariant MarkedMore(old(reachable[..]), reachable[..], RulesRefs(rs, list[..i]), changed)
    {
      ghost var before := reachable[..];
      var actions := rs.rules[list[i]].actions;
      var more := MarkActions(reachable, actions);
      MarkTwice(old(reachable[..]), before, reachable[..], RulesRefs(rs, list[..i]), ActionsRefs(actions), changed,
          more);
      assert RulesRefs(rs, list[..i + 1]) == RulesRefs(rs, list[..i]) + ActionsRefs(actions) by {
        MoreRules(rs, list, i);
      }
      changed := changed || more;
      i := i + 1;
    }
    assert list[..i] == list;
  }

  lemma MoreRules(rs: SyncRules, list: seq<nat>, i: nat)
    requires i < |list| && GoodRefs(list, |rs.rules|)
    ensures RulesRefs(rs, list[..i + 1]) == RulesRefs(rs, list[..i]) + ActionsRefs(rs.rules[list[i]].actions)
  {
    var a, b := list[..i], list[..i + 1];
    forall r | r in RulesRefs(rs, b) ensures r in RulesRefs(rs, a) + ActionsRefs(rs.rules[list[i]].actions) {
      var k :| 0 <= k < |b| && r in ActionsRefs(rs.rules[b[k]].actions);
      if k < i { assert a[k] == b[k]; }
    }
    forall r | r in RulesRefs(rs, a) ensures r in RulesRefs(rs, b) {
      var k :| 0 <= k < |a| && r in ActionsRefs(rs.rules[a[k]].actions);
      assert b[k] == a[k];
    }
    assert b[i] == list[i];
  }

  // ----- The fixpoint -----

  ghost predicate OnlyReachable(rs: SyncRules, s: set<nat>)
    requires Resolved(rs)
  {
    forall i :: i in s ==> Reachable(rs, i)
  }

  function EdgesFrom(rs: SyncRules, i: nat): set<nat>
    requires Resolved(rs) && i < |rs.states|
  {
    RulesRefs(rs, rs.states[i].files) + RulesRefs(rs, rs.states[i].siblings)
  }

  method MarkState(rs: SyncRules, reachable: array<bool>, i: nat) returns (changed: bool)
    requires Resolved(rs) && i < |rs.states| && reachable.Length == |rs.states|
    modifies reachable
    ensures MarkedMore(old(reachable[..]), reachable[..], EdgesFrom(rs, i), changed)
  {
    ghost var before := reachable[..];
    changed := MarkRules(rs, reachable, rs.states[i].files);
    ghost var middle := reachable[..];
    var more := MarkRules(rs, reachable, rs.states[i].siblings);
    MarkTwice(before, middle, reachable[..], RulesRefs(rs, rs.states[i].files), RulesRefs(rs, rs.states[i].siblings),
        changed, more);
    changed := changed || more;
  }

  /** Every marked state below `n` has all it leads to marked. */
  ghost predicate ClosedBelow(rs: SyncRules, s: set<nat>, n: nat)
    requires Resolved(rs)
  {
    forall i :: i in s && i < n && i < |rs.states| ==> EdgesFrom(rs, i) <= s
  }

  /** One pass over all states, in place. */
  method Pass(rs: SyncRules, reachable: array<bool>) returns (changed: bool)
    requires Resolved(rs) && reachable.Length == |rs.states| && OnlyReachable(rs, Marked(reachable[..]))
    modifies reachable
    ensures OnlyReachable(rs, Marked(reachable[..])) && Marked(old(reachable[..])) <= Marked(reachable[..])
    ensures changed ==> Marked(reachable[..]) != Marked(old(reachable[..]))
    ensures !changed ==> Closed(rs, Marked(reachable[..]))
  {
    changed := false;
    var i := 0;
    ghost var start := Marked(reachable[..]);
    while i < |rs.states|
      invariant 0 <= i <= |rs.states| && start <= Marked(reachable[..]) && OnlyReachable(rs, Marked(reachable[..]))
      invariant changed ==> Marked(reachable[..]) != start
      invariant !changed ==> Marked(reachable[..]) == start && ClosedBelow(rs, start, i)
    {
      if reachable[i] {
        ghost var before := Marked(reachable[..]);
        assert i in before;
        var more := MarkState(rs, reachable, i);
        StillReachable(rs, before, i, Marked(reachable[..]));
        changed := changed || more;
      }
      i := i + 1;
    }
    if !changed { BelowAll(rs, Marked(reachable[..])); }
  }

  lemma StillReachable(rs: SyncRules, before: set<nat>, i: nat, after: set<nat>)
    requires Resolved(rs) && OnlyReachable(rs, before) && i in before && i < |rs.states| &&
        after == before + EdgesFrom(rs, i)
    ensures OnlyReachable(rs, after)
  {
    forall j | j in after ensures Reachable(rs, j) {
      if j !in before { OneFurther(rs, i, j); }
    }
  }

  lemma BelowAll(rs: SyncRules, s: set<nat>)
    requires Resolved(rs) && ClosedBelow(rs, s, |rs.states|)
    ensures Closed(rs, s)
  {
    forall i, j | i in s && Edge(rs, i, j) ensures j in s { assert j in EdgesFrom(rs, i); }
  }

  /** The states left to mark. */
  function Unmarked(reachable: seq<bool>): set<nat> {
    set i: nat | i < |reachable| && !reachable[i]
  }

  lemma FewerUnmarked(before: seq<bool>, after: seq<bool>)
    requires |before| == |after| && Marked(before) <= Marked(after) && Marked(before) != Marked(after)
    ensures |Unmarked(after)| < |Unmarked(before)|
  {
    var x :| x in Marked(after) && x !in Marked(before);
    assert Unmarked(after) <= Unmarked(before) - {x} by {
      forall i | i in Unmarked(after) ensures i in Unmarked(before) - {x} {
        if before[i] { assert i in Marked(before); }
      }
    }
    SubsetSize(Unmarked(after), Unmarked(before) - {x});
    assert x in Unmarked(before);
  }

  /** The check of `SyncRules::parse`: it ends, marks exactly the states that includes and
      switches lead to from `root`, and accepts a rule set if and only if that is all. */
  method CheckReachable(rs: SyncRules) returns (ok: bool, marks: seq<bool>)
    requires Resolved(rs)
    ensures |marks| == |rs.states| && forall i: nat :: i < |marks| ==> (marks[i] <==> Reachable(rs, i))
    ensures ok <==> forall i: nat :: i < |rs.states| ==> Reachable(rs, i)
  {
    var reachable := new bool[|rs.states|](_ => false);
    reachable[rs.root] := true;
    var keepGoing := true;
    assert IsPath(rs, [rs.root]) && [rs.root][0] == rs.root;
    assert Marked(reachable[..]) == {rs.root};
    while keepGoing
      invariant reachable.Length == |rs.states| && rs.root in Marked(reachable[..]) &&
          OnlyReachable(rs, Marked(reachable[..]))
      invariant !keepGoing ==> Closed(rs, Marked(reachable[..]))
      decreases |Unmarked(reachable[..])|, keepGoing
    {
      ghost var before := reachable[..];
      keepGoing := Pass(rs, reachable);
      if keepGoing { FewerUnmarked(before, reachable[..]); }
          else if Marked(before) != Marked(reachable[..]) { FewerUnmarked(before, reachable[..]); }
      assert Marked(before) == Marked(reachable[..]) ==> Unmarked(before) == Unmarked(reachable[..]) by {
        if Marked(before) == Marked(reachable[..]) { SameUnmarked(before, reachable[..]); }
      }
    }
    marks := reachable[..];
    Exact(rs, marks);
    ok := forall i | 0 <= i < |marks| :: marks[i];
  }

  lemma SameUnmarked(a: seq<bool>, b: seq<bool>)
    requires |a| == |b| && Marked(a) == Marked(b)
    ensures Unmarked(a) == Unmarked(b)
  {
    forall i: nat | i < |a| ensures a[i] == b[i] {
      if a[i] { assert i in Marked(a); }
      if b[i] { assert i in Marked(b); }
    }
  }

  lemma Exact(rs: SyncRules, marks: seq<bool>)
    requires Resolved(rs) && |marks| == |rs.states| && rs.root in Marked(marks)
    requires OnlyReachable(rs, Marked(marks)) && Closed(rs, Marked(marks))
    ensures forall i: nat :: i < |marks| ==> (marks[i] <==> Reachable(rs, i))
  {
    forall i: nat | i < |marks| ensures marks[i] <==> Reachable(rs, i) {
      if marks[i] { assert i in Marked(marks); }
      if Reachable(rs, i) {
        var path :| IsPath(rs, path) && path[|path| - 1] == i;
        ClosedHasAll(rs, Marked(marks), path);
      }
    }
  }
}
