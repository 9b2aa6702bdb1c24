/** What applying the rules comes to, told without the interpreter: the rules and the states
    that they include are laid out as one line of actions, some of the actions on it are
    reached, and the settings are those of the last ones reached. */
module RuleTrace {
  import opened Defs
  import opened Rules
  import opened Reachability

  /** A state begins, a state ends, or an action that is not an include. */
  datatype Token = Open(ix: nat) | Close | Do(a: Action)

  // ----- The line -----

  /** A state, unless it is being laid out already. */
  function StateLine(rs: SyncRules, g: Group, matches: nat -> bool, visiting: set<nat>, ix: nat): seq<Token>
    requires Resolved(rs) && ix < |rs.states|
    decreases |Unvisited(rs, visiting)|, 3, 0
  {
    if ix in visiting then []
    else
      VisitShrinks(rs, visiting, ix);
      [Open(ix)] + RulesLine(rs, g, matches, visiting + {ix}, GroupOf(rs.states[ix], g)) + [Close]
  }

  function RulesLine(rs: SyncRules, g: Group, matches: nat -> bool, visiting: set<nat>, list: seq<nat>): seq<Token>
    requires Resolved(rs) && GoodRefs(list, |rs.rules|)
    decreases |Unvisited(rs, visiting)|, 6, |list|
  {
    if list == [] then []
    else
      (if matches(list[0]) then ActionsLine(rs, g, matches, visiting, rs.rules[list[0]].actions) else [])
      + RulesLine(rs, g, matches, visiting, list[1..])
  }

  function ActionsLine(rs: SyncRules, g: Group, matches: nat -> bool, visiting: set<nat>, actions: seq<Action>)
    : seq<Token>
    requires Resolved(rs) && GoodActions(actions, |rs.states|)
    decreases |Unvisited(rs, visiting)|, 5, |actions|
  {
    if actions == [] then []
    else
      assert GoodAction(actions[0], |rs.states|);
      (if actions[0].Include? then SubsLine(rs, g, matches, visiting, actions[0].subs) else [Do(actions[0])])
      + ActionsLine(rs, g, matches, visiting, actions[1..])
  }

  function SubsLine(rs: SyncRules, g: Group, matches: nat -> bool, visiting: set<nat>, subs: seq<nat>): seq<Token>
    requires Resolved(rs) && GoodRefs(subs, |rs.states|)
    decreases |Unvisited(rs, visiting)|, 4, |subs|
  {
    if subs == [] then []
    else StateLine(rs, g, matches, visiting, subs[0]) + SubsLine(rs, g, matches, visiting, subs[1..])
  }

  /** A state that is not being laid out stands between its begin and its end. */
  lemma StateLineIs(rs: SyncRules, g: Group, matches: nat -> bool, visiting: set<nat>, ix: nat)
    requires Resolved(rs) && ix < |rs.states| && ix !in visiting
    ensures StateLine(rs, g, matches, visiting, ix)
            == [Open(ix)] + RulesLine(rs, g, matches, visiting + {ix}, GroupOf(rs.states[ix], g)) + [Close]
  {
  }

  // ----- What is reached -----

  function Change(t: Token): int {
    match t case Open(_) => 1 case Close => -1 case Do(_) => 0
  }

  /** States begun less states ended after `j` and before `to`. */
  function Nest(ts: seq<Token>, j: nat, to: nat): int
    requires to <= |ts|
  {
    if to <= j + 1 then 0 else Nest(ts, j, to - 1) + Change(ts[to - 1])
  }

  /** The state that `j` is in has ended before `i`. */
  ghost predicate EndedBefore(ts: seq<Token>, j: nat, i: nat)
    requires i <= |ts|
  {
    exists k: nat :: j < k <= i && Nest(ts, j, k) < 0
  }

  predicate IsStop(t: Token) {
    t.Do? && t.a.Stop?
  }

  /** A place is reached if nothing stops short of it: every stop reached before is one that
      only returns, from a state that has ended since. */
  ghost predicate Reached(ts: seq<Token>, i: nat)
    requires i <= |ts|
    decreases i
  {
    forall j: nat :: j < i && Reached(ts, j) && IsStop(ts[j]) ==> ts[j].a.kind.ReturnOnly? && EndedBefore(ts, j, i)
  }

  /** An action of kind `p` stands at `i` and is reached. */
  ghost predicate Takes(ts: seq<Token>, p: Action -> bool, i: nat) {
    i < |ts| && ts[i].Do? && p(ts[i].a) && Reached(ts, i)
  }

  /** `i` is the last such place before `n`. */
  ghost predicate LastOf(ts: seq<Token>, p: Action -> bool, i: nat, n: nat) {
    i < n && Takes(ts, p, i) && forall j: nat :: i < j < n ==> !Takes(ts, p, j)
  }

  ghost predicate NoneOf(ts: seq<Token>, p: Action -> bool, n: nat) {
    forall j: nat :: j < n ==> !Takes(ts, p, j)
  }

  // ----- A machine that follows the line -----

  /** Going, skipping to the end of the state `depth` levels out, or halted. */
  datatype Status = Going | Skipping(depth: nat) | Halted

  datatype Machine = Machine(e: Settings, status: Status)

  function Effect(a: Action, e: Settings): Settings {
    match a
    case SetMode(mode) => e.(mode := mode)
    case SetTrust(trust) => e.(trust := trust)
    case Switch(to) => e.(switch := Some(to))
    case _ => e
  }

  function Next(m: Machine, t: Token): Machine {
    match (m.status, t)
    case (Going, Do(a)) =>
      Machine(Effect(a, m.e), if !a.Stop? then Going else if a.kind.ReturnOnly? then Skipping(0) else Halted)
    case (Skipping(d), Open(_)) => m.(status := Skipping(d + 1))
    case (Skipping(d), Close) => m.(status := if d == 0 then Going else Skipping(d - 1))
    case _ => m
  }

  function Follow(m: Machine, ts: seq<Token>): Machine {
    if ts == [] then m else Next(Follow(m, ts[..|ts| - 1]), ts[|ts| - 1])
  }

  lemma {:induction false} FollowBoth(m: Machine, a: seq<Token>, b: seq<Token>)
    ensures Follow(m, a + b) == Follow(Follow(m, a), b)
    decreases |b|
  {
    if b == [] {
      assert a + b == a;
    } else {
      var front := b[..|b| - 1];
      assert (a + b)[..|a + b| - 1] == a + front && (a + b)[|a + b| - 1] == b[|b| - 1];
      FollowBoth(m, a, front);
    }
  }

  lemma FollowOne(m: Machine, t: Token)
    ensures Follow(m, [t]) == Next(m, t)
  {
    assert [t][..0] == [];
  }

  lemma FollowBlock(m: Machine, ix: nat, inner: seq<Token>)
    ensures Follow(m, [Open(ix)] + inner + [Close]) == Next(Follow(Next(m, Open(ix)), inner), Close)
  {
    FollowBoth(m, [Open(ix)] + inner, [Close]);
    FollowBoth(m, [Open(ix)], inner);
    FollowOne(m, Open(ix));
    FollowOne(Follow(Next(m, Open(ix)), inner), Close);
  }

  // ----- The machine does what the interpreter does -----

  predicate Idle(m: Machine) { !m.status.Going? }

  function AsStatus(flow: Flow): Status {
    match flow case Go => Going case Leave => Skipping(0) case LeaveAll => Halted
  }

  /** A machine that is not going passes over a whole line. */
  lemma {:induction false} StatePassed(rs: SyncRules, g: Group, matches: nat -> bool, visiting: set<nat>, ix: nat,
                                       m: Machine)
    requires Resolved(rs) && ix < |rs.states| && Idle(m)
    ensures Follow(m, StateLine(rs, g, matches, visiting, ix)) == m
    decreases |Unvisited(rs, visiting)|, 3, 0
  {
    if ix !in visiting {
      VisitShrinks(rs, visiting, ix);
      var list := GroupOf(rs.states[ix], g);
      StateLineIs(rs, g, matches, visiting, ix);
      hide StateLine, RulesLine, Follow;
      var line, inner := StateLine(rs, g, matches, visiting, ix), RulesLine(rs, g, matches, visiting + {ix}, list);
      RulesPassed(rs, g, matches, visiting + {ix}, list, Next(m, Open(ix)));
      FollowBlock(m, ix, inner);
      assert Follow(m, line) == m;
    }
  }

  lemma {:induction false} RulesPassed(rs: SyncRules, g: Group, matches: nat -> bool, visiting: set<nat>,
                                       list: seq<nat>, m: Machine)
    requires Resolved(rs) && GoodRefs(list, |rs.rules|) && Idle(m)
    ensures Follow(m, RulesLine(rs, g, matches, visiting, list)) == m
    decreases |Unvisited(rs, visiting)|, 6, |list|
  {
    if list != [] {
      var here := if matches(list[0]) then ActionsLine(rs, g, matches, visiting, rs.rules[list[0]].actions) else [];
      if matches(list[0]) { ActionsPassed(rs, g, matches, visiting, rs.rules[list[0]].actions, m); }
      FollowBoth(m, here, RulesLine(rs, g, matches, visiting, list[1..]));
      RulesPassed(rs, g, matches, visiting, list[1..], m);
    }
  }

  lemma {:induction false} ActionsPassed(rs: SyncRules, g: Group, matches: nat -> bool, visiting: set<nat>,
                                         actions: seq<Action>, m: Machine)
    requires Resolved(rs) && GoodActions(actions, |rs.states|) && Idle(m)
    ensures Follow(m, ActionsLine(rs, g, matches, visiting, actions)) == m
    decreases |Unvisited(rs, visiting)|, 5, |actions|
  {
    if actions != [] {
      assert GoodAction(actions[0], |rs.states|);
      var here :=
        if actions[0].Include? then SubsLine(rs, g, matches, visiting, actions[0].subs) else [Do(actions[0])];
      if actions[0].Include? {
        SubsPassed(rs, g, matches, visiting, actions[0].subs, m);
      } else {
        FollowOne(m, Do(actions[0]));
      }
      FollowBoth(m, here, ActionsLine(rs, g, matches, visiting, actions[1..]));
      ActionsPassed(rs, g, matches, visiting, actions[1..], m);
    }
  }

  lemma {:induction false} SubsPassed(rs: SyncRules, g: Group, matches: nat -> bool, visiting: set<nat>,
                                      subs: seq<nat>, m: Machine)
    requires Resolved(rs) && GoodRefs(subs, |rs.states|) && Idle(m)
    ensures Follow(m, SubsLine(rs, g, matches, visiting, subs)) == m
    decreases |Unvisited(rs, visiting)|, 4, |subs|
  {
    if subs != [] {
      StatePassed(rs, g, matches, visiting, subs[0], m);
      FollowBoth(m, StateLine(rs, g, matches, visiting, subs[0]), SubsLine(rs, g, matches, visiting, subs[1..]));
      SubsPassed(rs, g, matches, visiting, subs[1..], m);
    }
  }

  lemma {:induction false} StateFollowed(rs: SyncRules, g: Group, matches: nat -> bool, visiting: set<nat>, ix: nat,
                                         e: Settings)
    requires Resolved(rs) && ix < |rs.states|
    ensures var r := EvalState(rs, g, matches, visiting, ix, e);
            Follow(Machine(e, Going), StateLine(rs, g, matches, visiting, ix)) == Machine(r.e, AsStatus(r.flow))
            && !r.flow.Leave?
    decreases |Unvisited(rs, visiting)|, 3, 0
  {
    if ix !in visiting {
      VisitShrinks(rs, visiting, ix);
      var m, list := Machine(e, Going), GroupOf(rs.states[ix], g);
      StateLineIs(rs, g, matches, visiting, ix);
      hide StateLine, RulesLine, Follow;
      RulesFollowed(rs, g, matches, visiting + {ix}, list, e);
      FollowBlock(m, ix, RulesLine(rs, g, matches, visiting + {ix}, list));
    }
  }

  lemma {:induction false} RulesFollowed(rs: SyncRules, g: Group, matches: nat -> bool, visiting: set<nat>,
                                         list: seq<nat>, e: Settings)
    requires Resolved(rs) && GoodRefs(list, |rs.rules|)
    ensures var r := EvalRules(rs, g, matches, visiting, list, e);
            Follow(Machine(e, Going), RulesLine(rs, g, matches, visiting, list)) == Machine(r.e, AsStatus(r.flow))
    decreases |Unvisited(rs, visiting)|, 6, |list|
  {
    if list != [] {
      var m, rest := Machine(e, Going), RulesLine(rs, g, matches, visiting, list[1..]);
      if matches(list[0]) {
        var actions := rs.rules[list[0]].actions;
        ActionsFollowed(rs, g, matches, visiting, actions, e);
        FollowBoth(m, ActionsLine(rs, g, matches, visiting, actions), rest);
        var r := EvalActions(rs, g, matches, visiting, actions, e);
        if r.flow.Go? {
          RulesFollowed(rs, g, matches, visiting, list[1..], r.e);
        } else {
          RulesPassed(rs, g, matches, visiting, list[1..], Machine(r.e, AsStatus(r.flow)));
        }
      } else {
        FollowBoth(m, [], rest);
        RulesFollowed(rs, g, matches, visiting, list[1..], e);
      }
    }
  }

  lemma {:induction false} ActionsFollowed(rs: SyncRules, g: Group, matches: nat -> bool, visiting: set<nat>,
                                           actions: seq<Action>, e: Settings)
    requires Resolved(rs) && GoodActions(actions, |rs.states|)
    ensures var r := EvalActions(rs, g, matches, visiting, actions, e);
            Follow(Machine(e, Going), ActionsLine(rs, g, matches, visiting, actions)) == Machine(r.e, AsStatus(r.flow))
    decreases |Unvisited(rs, visiting)|, 5, |actions|
  {
    if actions != [] {
      assert GoodAction(actions[0], |rs.states|);
      var m, rest := Machine(e, Going), ActionsLine(rs, g, matches, visiting, actions[1..]);
      if actions[0].Include? {
        SubsFollowed(rs, g, matches, visiting, actions[0].subs, e);
        FollowBoth(m, SubsLine(rs, g, matches, visiting, actions[0].subs), rest);
        var r := EvalSubs(rs, g, matches, visiting, actions[0].subs, e);
        if r.flow.Go? {
          ActionsFollowed(rs, g, matches, visiting, actions[1..], r.e);
        } else {
          ActionsPassed(rs, g, matches, visiting, actions[1..], Machine(r.e, AsStatus(r.flow)));
        }
      } else {
        FollowOne(m, Do(actions[0]));
        FollowBoth(m, [Do(actions[0])], rest);
        if actions[0].Stop? {
          ActionsPassed(rs, g, matches, visiting, actions[1..], Next(m, Do(actions[0])));
        } else {
          ActionsFollowed(rs, g, matches, visiting, actions[1..], Effect(actions[0], e));
        }
      }
    }
  }

  lemma {:induction false} SubsFollowed(rs: SyncRules, g: Group, matches: nat -> bool, visiting: set<nat>,
                                        subs: seq<nat>, e: Settings)
    requires Resolved(rs) && GoodRefs(subs, |rs.states|)
    ensures var r := EvalSubs(rs, g, matches, visiting, subs, e);
            Follow(Machine(e, Going), SubsLine(rs, g, matches, visiting, subs)) == Machine(r.e, AsStatus(r.flow))
            && !r.flow.Leave?
    decreases |Unvisited(rs, visiting)|, 4, |subs|
  {
    if subs != [] {
      var m := Machine(e, Going);
      StateFollowed(rs, g, matches, visiting, subs[0], e);
      FollowBoth(m, StateLine(rs, g, matches, visiting, subs[0]), SubsLine(rs, g, matches, visiting, subs[1..]));
      var r := EvalState(rs, g, matches, visiting, subs[0], e);
      if r.flow.Go? {
        SubsFollowed(rs, g, matches, visiting, subs[1..], r.e);
      } else {
        SubsPassed(rs, g, matches, visiting, subs[1..], Machine(r.e, AsStatus(r.flow)));
      }
    }
  }

  // ----- The machine tells what is reached -----

  /** The stop at `j` is why the machine is not going at `i`. */
  ghost predicate StoppedBy(ts: seq<Token>, j: nat, i: nat, status: Status)
    requires i <= |ts|
  {
    && j < i && Reached(ts, j) && IsStop(ts[j]) && (forall k: nat :: j < k <= i ==> !Reached(ts, k))
    && match status
       case Going => false
       case Halted => ts[j].a.kind.StopAll?
       case Skipping(d) =>
         ts[j].a.kind.ReturnOnly? && Nest(ts, j, i) == d && forall k: nat :: j < k <= i ==> Nest(ts, j, k) >= 0
  }

  ghost predicate Tells(ts: seq<Token>, i: nat, status: Status)
    requires i <= |ts|
  {
    if status.Going? then Reached(ts, i) else exists j :: StoppedBy(ts, j, i, status)
  }

  /** One token on, from a place that is reached. */
  lemma TellsOn(ts: seq<Token>, i: nat, e: Settings)
    requires i < |ts| && Reached(ts, i)
    ensures Tells(ts, i + 1, Next(Machine(e, Going), ts[i]).status)
  {
    var status := Next(Machine(e, Going), ts[i]).status;
    if IsStop(ts[i]) {
      assert !EndedBefore(ts, i, i + 1);
      assert !Reached(ts, i + 1);
      assert StoppedBy(ts, i, i + 1, status);
    } else {
      forall j: nat | j < i + 1 && Reached(ts, j) && IsStop(ts[j])
        ensures ts[j].a.kind.ReturnOnly? && EndedBefore(ts, j, i + 1)
      {
        assert EndedBefore(ts, j, i);
      }
    }
  }

  /** One token on, from a place that is not. */
  lemma TellsStill(ts: seq<Token>, j: nat, i: nat, m: Machine)
    requires i < |ts| && StoppedBy(ts, j, i, m.status)
    ensures Tells(ts, i + 1, Next(m, ts[i]).status)
  {
    var status := Next(m, ts[i]).status;
    assert Nest(ts, j, i + 1) == Nest(ts, j, i) + Change(ts[i]);
    if status.Going? {
      assert Nest(ts, j, i + 1) < 0;
      forall j': nat | j' < i + 1 && Reached(ts, j') && IsStop(ts[j'])
        ensures ts[j'].a.kind.ReturnOnly? && EndedBefore(ts, j', i + 1)
      {
        if j' < j {
          assert EndedBefore(ts, j', j);
        } else {
          assert j' == j;
        }
      }
    } else {
      assert !EndedBefore(ts, j, i + 1) || m.status.Halted?;
      assert !Reached(ts, i + 1);
      assert StoppedBy(ts, j, i + 1, status);
    }
  }

  lemma {:induction false} StatusTells(ts: seq<Token>, i: nat, e: Settings)
    requires i <= |ts|
    ensures Tells(ts, i, Follow(Machine(e, Going), ts[..i]).status)
  {
    if i > 0 {
      var m := Follow(Machine(e, Going), ts[..i - 1]);
      StatusTells(ts, i - 1, e);
      assert ts[..i][..i - 1] == ts[..i - 1] && ts[..i][i - 1] == ts[i - 1];
      if m.status.Going? {
        TellsOn(ts, i - 1, m.e);
        assert m == Machine(m.e, Going);
      } else {
        var j :| StoppedBy(ts, j, i - 1, m.status);
        TellsStill(ts, j, i - 1, m);
      }
    }
  }

  /** The machine is going just where the line is reached. */
  lemma GoingIff(ts: seq<Token>, i: nat, e: Settings)
    requires i <= |ts|
    ensures Follow(Machine(e, Going), ts[..i]).status.Going? <==> Reached(ts, i)
  {
    StatusTells(ts, i, e);
  }

  // ----- The last action reached -----

  /** A part of the settings that only the actions `p` change, each to a value of its own. */
  ghost predicate PartOf<X(!new)>(p: Action -> bool, u: Action -> X, v: Settings -> X) {
    forall a, e :: v(Effect(a, e)) == if p(a) then u(a) else v(e)
  }

  /** The value that the last such action reached before `n` has, or the old one. */
  ghost predicate AsReached<X(!new)>(ts: seq<Token>, n: nat, p: Action -> bool, u: Action -> X, was: X, now: X) {
    && (NoneOf(ts, p, n) ==> now == was)
    && (forall i: nat :: LastOf(ts, p, i, n) ==> now == u(ts[i].a))
  }

  lemma ReachedNext<X(!new)>(ts: seq<Token>, n: nat, p: Action -> bool, u: Action -> X, was: X, before: X, now: X)
    requires n < |ts| && AsReached(ts, n, p, u, was, before) && now == if Takes(ts, p, n) then u(ts[n].a) else before
    ensures AsReached(ts, n + 1, p, u, was, now)
  {
    if NoneOf(ts, p, n + 1) { assert NoneOf(ts, p, n); }
    forall i: nat | LastOf(ts, p, i, n + 1) ensures now == u(ts[i].a) {
      if i < n {
        assert !Takes(ts, p, n);
        assert LastOf(ts, p, i, n);
      }
    }
  }

  lemma {:induction false} LastReached<X(!new)>(ts: seq<Token>, n: nat, e: Settings, p: Action -> bool, u: Action -> X,
                                                v: Settings -> X)
    requires n <= |ts| && PartOf(p, u, v)
    ensures AsReached(ts, n, p, u, v(e), v(Follow(Machine(e, Going), ts[..n]).e))
  {
    if n > 0 {
      LastReached(ts, n - 1, e, p, u, v);
      assert ts[..n][..n - 1] == ts[..n - 1] && ts[..n][n - 1] == ts[n - 1];
      var m := Follow(Machine(e, Going), ts[..n - 1]);
      var m' := Next(m, ts[n - 1]);
      GoingIff(ts, n - 1, e);
      assert v(m'.e) == if Takes(ts, p, n - 1) then u(ts[n - 1].a) else v(m.e);
      hide AsReached, PartOf, Takes, Reached, Next;
      ReachedNext(ts, n - 1, p, u, v(e), v(m.e), v(m'.e));
    }
  }

  predicate SetsMode(a: Action) { a.SetMode? }

  predicate SetsTrust(a: Action) { a.SetTrust? }

  predicate Switches(a: Action) { a.Switch? }

  /** The main theorem on rules: the mode, the trust and the switch that applying the rules
      leaves are those of the last such actions reached on the line of the state, or what
      they were if none is reached. */
  lemma SettingsAreLastReached(rs: SyncRules, g: Group, matches: nat -> bool, ix: nat, e: Settings)
    requires Resolved(rs) && ix < |rs.states|
    ensures var ts, r := StateLine(rs, g, matches, {}, ix), EvalState(rs, g, matches, {}, ix, e).e;
            && (NoneOf(ts, SetsMode, |ts|) ==> r.mode == e.mode)
            && (forall i: nat :: LastOf(ts, SetsMode, i, |ts|) ==> r.mode == ts[i].a.mode)
            && (NoneOf(ts, SetsTrust, |ts|) ==> r.trust == e.trust)
            && (forall i: nat :: LastOf(ts, SetsTrust, i, |ts|) ==> r.trust == ts[i].a.trust)
            && (NoneOf(ts, Switches, |ts|) ==> r.switch == e.switch)
            && (forall i: nat :: LastOf(ts, Switches, i, |ts|) ==> r.switch == Some(ts[i].a.to))
  {
    var ts := StateLine(rs, g, matches, {}, ix);
    StateFollowed(rs, g, matches, {}, ix, e);
    assert ts[..|ts|] == ts;
    hide StateLine, EvalState, Follow, LastOf, NoneOf;
    var mode := (a: Action) => if a.SetMode? then a.mode else e.mode;
    var trust := (a: Action) => a.SetTrust? && a.trust;
    var to := (a: Action) => if a.Switch? then Some(a.to) else None;
    LastReached(ts, |ts|, e, SetsMode, mode, (s: Settings) => s.mode);
    LastReached(ts, |ts|, e, SetsTrust, trust, (s: Settings) => s.trust);
    LastReached(ts, |ts|, e, Switches, to, (s: Settings) => s.switch);
    forall i: nat | LastOf(ts, SetsMode, i, |ts|) ensures mode(ts[i].a) == ts[i].a.mode { LastTakes(ts, SetsMode, i); }
    forall i: nat | LastOf(ts, SetsTrust, i, |ts|) ensures trust(ts[i].a) == ts[i].a.trust {
      LastTakes(ts, SetsTrust, i);
    }
    forall i: nat | LastOf(ts, Switches, i, |ts|) ensures to(ts[i].a) == Some(ts[i].a.to) {
      LastTakes(ts, Switches, i);
    }
  }

  lemma LastTakes(ts: seq<Token>, p: Action -> bool, i: nat)
    requires LastOf(ts, p, i, |ts|)
    ensures Takes(ts, p, i)
  {
  }

  /** Once `stop = "all"` is reached, at whatever depth, nothing after it is. */
  lemma StopAllIsFinal(ts: seq<Token>, j: nat, i: nat)
    requires j < i <= |ts| && Reached(ts, j) && ts[j] == Do(Stop(StopAll))
    ensures !Reached(ts, i)
  {
  }

  /** `stop = "return"` at the end of a state changes nothing, for the state or for what
      includes it. */
  lemma TrailingReturn(m: Machine, a: seq<Token>, b: seq<Token>)
    ensures Follow(m, a + [Do(Stop(ReturnOnly)), Close] + b) == Follow(m, a + [Close] + b)
  {
    var stop := [Do(Stop(ReturnOnly)), Close];
    FollowBoth(m, a + stop, b);
    FollowBoth(m, a, stop);
    FollowBoth(m, a + [Close], b);
    FollowBoth(m, a, [Close]);
    var mid := Follow(m, a);
    assert stop == [Do(Stop(ReturnOnly))] + [Close];
    FollowBoth(mid, [Do(Stop(ReturnOnly))], [Close]);
    FollowOne(mid, Do(Stop(ReturnOnly)));
    FollowOne(Next(mid, Do(Stop(ReturnOnly))), Close);
    FollowOne(mid, Close);
  }

  // ----- What is on the line -----

  /** Rules are laid out in order, and so are actions and included states. */
  lemma {:induction false} RulesInOrder(rs: SyncRules, g: Group, matches: nat -> bool, visiting: set<nat>,
                                        a: seq<nat>, b: seq<nat>)
    requires Resolved(rs) && GoodRefs(a, |rs.rules|) && GoodRefs(b, |rs.rules|)
    ensures RulesLine(rs, g, matches, visiting, a + b)
            == RulesLine(rs, g, matches, visiting, a) + RulesLine(rs, g, matches, visiting, b)
    decreases |a|
  {
    if a == [] {
      assert a + b == b;
    } else {
      assert (a + b)[1..] == a[1..] + b;
      RulesInOrder(rs, g, matches, visiting, a[1..], b);
    }
  }

  lemma {:induction false} ActionsInOrder(rs: SyncRules, g: Group, matches: nat -> bool, visiting: set<nat>,
                                          a: seq<Action>, b: seq<Action>)
    requires Resolved(rs) && GoodActions(a, |rs.states|) && GoodActions(b, |rs.states|)
    ensures ActionsLine(rs, g, matches, visiting, a + b)
            == ActionsLine(rs, g, matches, visiting, a) + ActionsLine(rs, g, matches, visiting, b)
    decreases |a|
  {
    if a == [] {
      assert a + b == b;
    } else {
      assert (a + b)[1..] == a[1..] + b;
      ActionsInOrder(rs, g, matches, visiting, a[1..], b);
    }
  }

  lemma {:induction false} SubsInOrder(rs: SyncRules, g: Group, matches: nat -> bool, visiting: set<nat>,
                                       a: seq<nat>, b: seq<nat>)
    requires Resolved(rs) && GoodRefs(a, |rs.states|) && GoodRefs(b, |rs.states|)
    ensures SubsLine(rs, g, matches, visiting, a + b)
            == SubsLine(rs, g, matches, visiting, a) + SubsLine(rs, g, matches, visiting, b)
    decreases |a|
  {
    if a == [] {
      assert a + b == b;
    } else {
      assert (a + b)[1..] == a[1..] + b;
      SubsInOrder(rs, g, matches, visiting, a[1..], b);
    }
  }

  lemma Regroup(a: seq<Token>, b: seq<Token>, c: seq<Token>)
    ensures a + (b + c) == a + b + c
  {
  }

  /** Where a rule that matches, an action and an included state stand. */
  lemma RuleAt(rs: SyncRules, g: Group, matches: nat -> bool, visiting: set<nat>, list: seq<nat>, k: nat)
    requires Resolved(rs) && GoodRefs(list, |rs.rules|) && k < |list| && matches(list[k])
    ensures GoodRefs(list[..k], |rs.rules|) && GoodRefs(list[k + 1..], |rs.rules|)
    ensures RulesLine(rs, g, matches, visiting, list)
            == RulesLine(rs, g, matches, visiting, list[..k])
               + ActionsLine(rs, g, matches, visiting, rs.rules[list[k]].actions)
               + RulesLine(rs, g, matches, visiting, list[k + 1..])
  {
    var rest := list[k..];
    assert list == list[..k] + rest && rest[1..] == list[k + 1..];
    assert RulesLine(rs, g, matches, visiting, rest)
           == ActionsLine(rs, g, matches, visiting, rs.rules[list[k]].actions)
              + RulesLine(rs, g, matches, visiting, list[k + 1..]);
    hide RulesLine, ActionsLine;
    RulesInOrder(rs, g, matches, visiting, list[..k], rest);
  }

  lemma ActionAt(rs: SyncRules, g: Group, matches: nat -> bool, visiting: set<nat>, actions: seq<Action>, l: nat)
    requires Resolved(rs) && GoodActions(actions, |rs.states|) && l < |actions|
    ensures GoodActions(actions[..l], |rs.states|) && GoodActions(actions[l + 1..], |rs.states|)
    ensures GoodAction(actions[l], |rs.states|)
    ensures ActionsLine(rs, g, matches, visiting, actions)
            == ActionsLine(rs, g, matches, visiting, actions[..l])
               + (if actions[l].Include? then SubsLine(rs, g, matches, visiting, actions[l].subs)
                  else [Do(actions[l])])
               + ActionsLine(rs, g, matches, visiting, actions[l + 1..])
  {
    assert GoodAction(actions[l], |rs.states|);
    var rest := actions[l..];
    assert actions == actions[..l] + rest && rest[1..] == actions[l + 1..];
    var here := if actions[l].Include? then SubsLine(rs, g, matches, visiting, actions[l].subs) else [Do(actions[l])];
    var after := ActionsLine(rs, g, matches, visiting, actions[l + 1..]);
    assert ActionsLine(rs, g, matches, visiting, rest) == here + after;
    hide ActionsLine, SubsLine, GoodActions;
    ActionsInOrder(rs, g, matches, visiting, actions[..l], rest);
    Regroup(ActionsLine(rs, g, matches, visiting, actions[..l]), here, after);
  }

  lemma SubAt(rs: SyncRules, g: Group, matches: nat -> bool, visiting: set<nat>, subs: seq<nat>, i: nat)
    requires Resolved(rs) && GoodRefs(subs, |rs.states|) && i < |subs|
    ensures GoodRefs(subs[..i], |rs.states|) && GoodRefs(subs[i + 1..], |rs.states|)
    ensures SubsLine(rs, g, matches, visiting, subs)
            == SubsLine(rs, g, matches, visiting, subs[..i]) + StateLine(rs, g, matches, visiting, subs[i])
               + SubsLine(rs, g, matches, visiting, subs[i + 1..])
  {
    assert subs == subs[..i] + subs[i..] && subs[i..][1..] == subs[i + 1..];
    SubsInOrder(rs, g, matches, visiting, subs[..i], subs[i..]);
  }

  // ----- Only reachable states -----

  /** The token names no state that the check for reachability does not know. */
  ghost predicate Known(rs: SyncRules, t: Token)
    requires Resolved(rs)
  {
    (t.Open? ==> Reachable(rs, t.ix)) && (t.Do? && t.a.Switch? ==> Reachable(rs, t.a.to))
  }

  /** Every state that is entered or switched to from a reachable state is reachable. */
  lemma {:induction false} StateKnown(rs: SyncRules, g: Group, matches: nat -> bool, visiting: set<nat>, ix: nat)
    requires Resolved(rs) && ix < |rs.states| && Reachable(rs, ix)
    ensures forall t :: t in StateLine(rs, g, matches, visiting, ix) ==> Known(rs, t)
    decreases |Unvisited(rs, visiting)|, 3, 0
  {
    if ix !in visiting {
      VisitShrinks(rs, visiting, ix);
      var list := GroupOf(rs.states[ix], g);
      forall r | r in RulesRefs(rs, list) ensures Reachable(rs, r) {
        assert Edge(rs, ix, r);
        OneFurther(rs, ix, r);
      }
      RulesKnown(rs, g, matches, visiting + {ix}, list);
    }
  }

  lemma {:induction false} RulesKnown(rs: SyncRules, g: Group, matches: nat -> bool, visiting: set<nat>,
                                      list: seq<nat>)
    requires Resolved(rs) && GoodRefs(list, |rs.rules|) && forall r :: r in RulesRefs(rs, list) ==> Reachable(rs, r)
    ensures forall t :: t in RulesLine(rs, g, matches, visiting, list) ==> Known(rs, t)
    decreases |Unvisited(rs, visiting)|, 6, |list|
  {
    if list != [] {
      var actions := rs.rules[list[0]].actions;
      forall r | r in ActionsRefs(actions) ensures Reachable(rs, r) { assert r in RulesRefs(rs, list); }
      forall r | r in RulesRefs(rs, list[1..]) ensures Reachable(rs, r) {
        var i: nat :| i < |list[1..]| && r in ActionsRefs(rs.rules[list[1..][i]].actions);
        assert list[1..][i] == list[i + 1];
        assert r in RulesRefs(rs, list);
      }
      hide Known, Reachable;
      if matches(list[0]) { ActionsKnown(rs, g, matches, visiting, actions); }
      RulesKnown(rs, g, matches, visiting, list[1..]);
    }
  }

  lemma {:induction false} ActionsKnown(rs: SyncRules, g: Group, matches: nat -> bool, visiting: set<nat>,
                                        actions: seq<Action>)
    requires Resolved(rs) && GoodActions(actions, |rs.states|)
    requires forall r :: r in ActionsRefs(actions) ==> Reachable(rs, r)
    ensures forall t :: t in ActionsLine(rs, g, matches, visiting, actions) ==> Known(rs, t)
    decreases |Unvisited(rs, visiting)|, 5, |actions|
  {
    if actions != [] {
      assert GoodAction(actions[0], |rs.states|);
      forall r | r in ActionRefs(actions[0]) ensures Reachable(rs, r) { assert r in ActionsRefs(actions); }
      forall r | r in ActionsRefs(actions[1..]) ensures Reachable(rs, r) {
        var i: nat :| i < |actions[1..]| && r in ActionRefs(actions[1..][i]);
        assert actions[1..][i] == actions[i + 1];
        assert r in ActionsRefs(actions);
      }
      if actions[0].Include? {
        forall i | 0 <= i < |actions[0].subs| ensures Reachable(rs, actions[0].subs[i]) {
          assert actions[0].subs[i] in ActionRefs(actions[0]);
        }
        SubsKnown(rs, g, matches, visiting, actions[0].subs);
      } else if actions[0].Switch? {
        assert actions[0].to in ActionRefs(actions[0]);
      }
      hide Reachable;
      ActionsKnown(rs, g, matches, visiting, actions[1..]);
    }
  }

  lemma {:induction false} SubsKnown(rs: SyncRules, g: Group, matches: nat -> bool, visiting: set<nat>,
                                     subs: seq<nat>)
    requires Resolved(rs) && GoodRefs(subs, |rs.states|)
    requires forall i :: 0 <= i < |subs| ==> Reachable(rs, subs[i])
    ensures forall t :: t in SubsLine(rs, g, matches, visiting, subs) ==> Known(rs, t)
    decreases |Unvisited(rs, visiting)|, 4, |subs|
  {
    if subs != [] {
      hide Known, Reachable;
      StateKnown(rs, g, matches, visiting, subs[0]);
      SubsKnown(rs, g, matches, visiting, subs[1..]);
    }
  }

  /** A switch that applying the rules of a reachable state leaves is to a reachable state. */
  lemma SwitchKnown(rs: SyncRules, g: Group, matches: nat -> bool, ix: nat, e: Settings)
    requires Resolved(rs) && ix < |rs.states| && Reachable(rs, ix) && (e.switch.Some? ==> Reachable(rs, e.switch.value))
    ensures var r := EvalState(rs, g, matches, {}, ix, e).e; r.switch.Some? ==> Reachable(rs, r.switch.value)
  {
    var ts := StateLine(rs, g, matches, {}, ix);
    SettingsAreLastReached(rs, g, matches, ix, e);
    StateKnown(rs, g, matches, {}, ix);
    hide StateLine, EvalState, Reachable;
    if !NoneOf(ts, Switches, |ts|) {
      var i := FindLast(ts, Switches, |ts|);
      assert ts[i] in ts && Known(rs, ts[i]);
    }
  }

  lemma {:induction false} FindLast(ts: seq<Token>, p: Action -> bool, n: nat) returns (i: nat)
    requires n <= |ts| && !NoneOf(ts, p, n)
    ensures LastOf(ts, p, i, n)
  {
    if Takes(ts, p, n - 1) {
      i := n - 1;
    } else {
      assert !NoneOf(ts, p, n - 1);
      i := FindLast(ts, p, n - 1);
    }
  }
}
