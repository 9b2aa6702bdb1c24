/** The rules engine (src/rules/engine.rs): states that include one another, cycles
    allowed, and rules that match files or the siblings of a file. */
module Rules {
  import opened Defs

  datatype StopType = ReturnOnly | StopAll

  datatype Action =
    | SetMode(mode: SyncMode)
    | SetTrust(trust: bool)
    | Include(subs: seq<nat>)
    | Switch(to: nat)
    | Stop(kind: StopType)

  /** A condition looks at the path, the name and the data of a file. */
  type Condition = (string, string, FileData) -> bool

  datatype Rule = Rule(conditions: seq<Condition>, actions: seq<Action>)

  datatype RuleState = RuleState(files: seq<nat>, siblings: seq<nat>)

  datatype SyncRules = SyncRules(states: seq<RuleState>, rules: seq<Rule>, root: nat)

  predicate GoodAction(a: Action, states: nat) {
    match a
    case Include(subs) => forall i :: 0 <= i < |subs| ==> subs[i] < states
    case Switch(to) => to < states
    case _ => true
  }

  predicate GoodActions(actions: seq<Action>, states: nat) {
    forall i :: 0 <= i < |actions| ==> GoodAction(actions[i], states)
  }

  predicate GoodRefs(refs: seq<nat>, n: nat) {
    forall i :: 0 <= i < |refs| ==> refs[i] < n
  }

  /** References resolved by parsing are in range. */
  predicate Resolved(rs: SyncRules) {
    && rs.root < |rs.states|
    && (forall i :: 0 <= i < |rs.rules| ==> GoodActions(rs.rules[i].actions, |rs.states|))
    && (forall i :: 0 <= i < |rs.states| ==>
          GoodRefs(rs.states[i].files, |rs.rules|) && GoodRefs(rs.states[i].siblings, |rs.rules|))
  }

  datatype Group = Files | Siblings

  function GroupOf(st: RuleState, g: Group): seq<nat> {
    if g.Files? then st.files else st.siblings
  }

  // ----- A pure interpreter -----

  /** What rules set; `switch` takes effect on the next descent. */
  datatype Settings = Settings(mode: SyncMode, trust: bool, switch: Option<nat>)

  /** Carry on, leave the current state, or leave all of them. */
  datatype Flow = Go | Leave | LeaveAll

  datatype Outcome = Outcome(e: Settings, flow: Flow)

  /** States not yet being visited. */
  function Unvisited(rs: SyncRules, visiting: set<nat>): set<nat> {
    set i: nat | i < |rs.states| && i !in visiting
  }

  lemma VisitShrinks(rs: SyncRules, visiting: set<nat>, ix: nat)
    requires ix < |rs.states| && ix !in visiting
    ensures |Unvisited(rs, visiting + {ix})| < |Unvisited(rs, visiting)|
  {
    assert Unvisited(rs, visiting + {ix}) == Unvisited(rs, visiting) - {ix};
    assert ix in Unvisited(rs, visiting);
  }

  /** The rules of one state; nothing if the state is being visited already. A `Leave`
      inside it ends here, a `LeaveAll` does not. */
  function EvalState(rs: SyncRules, g: Group, matches: nat -> bool, visiting: set<nat>, ix: nat, e: Settings): Outcome
    requires Resolved(rs) && ix < |rs.states|
    decreases |Unvisited(rs, visiting)|, 3, 0
  {
    if ix in visiting then Outcome(e, Go)
    else
      VisitShrinks(rs, visiting, ix);
      var r := EvalRules(rs, g, matches, visiting + {ix}, GroupOf(rs.states[ix], g), e);
      Outcome(r.e, if r.flow.LeaveAll? then LeaveAll else Go)
  }

  function EvalRules(rs: SyncRules, g: Group, matches: nat -> bool, visiting: set<nat>, list: seq<nat>,
      e: Settings): Outcome
    requires Resolved(rs) && GoodRefs(list, |rs.rules|)
    decreases |Unvisited(rs, visiting)|, 6, |list|
  {
    if list == [] then Outcome(e, Go)
    else if !matches(list[0]) then EvalRules(rs, g, matches, visiting, list[1..], e)
    else
      var r := EvalActions(rs, g, matches, visiting, rs.rules[list[0]].actions, e);
      if r.flow.Go? then EvalRules(rs, g, matches, visiting, list[1..], r.e) else r
  }

  function EvalActions(rs: SyncRules, g: Group, matches: nat -> bool, visiting: set<nat>, actions: seq<Action>,
      e: Settings): Outcome
    requires Resolved(rs) && GoodActions(actions, |rs.states|)
    decreases |Unvisited(rs, visiting)|, 5, |actions|
  {
    if actions == [] then Outcome(e, Go)
    else
      assert GoodAction(actions[0], |rs.states|);
      var r := match actions[0]
               case SetMode(mode) => Outcome(e.(mode := mode), Go)
               case SetTrust(trust) => Outcome(e.(trust := trust), Go)
               case Switch(to) => Outcome(e.(switch := Some(to)), Go)
               case Stop(kind) => Outcome(e, if kind.ReturnOnly? then Leave else LeaveAll)
               case Include(subs) => EvalSubs(rs, g, matches, visiting, subs, e);
      if r.flow.Go? then EvalActions(rs, g, matches, visiting, actions[1..], r.e) else r
  }

  function EvalSubs(rs: SyncRules, g: Group, matches: nat -> bool, visiting: set<nat>, subs: seq<nat>,
      e: Settings): Outcome
    requires Resolved(rs) && GoodRefs(subs, |rs.states|)
    decreases |Unvisited(rs, visiting)|, 4, |subs|
  {
    if subs == [] then Outcome(e, Go)
    else
      var r := EvalState(rs, g, matches, visiting, subs[0], e);
      if r.flow.Go? then EvalSubs(rs, g, matches, visiting, subs[1..], r.e) else r
  }

  // ----- The engine -----

  class Engine {
    var mode: SyncMode
    var trust: bool
    var state: nat
    var switch: Option<nat>

    constructor (mode: SyncMode, trust: bool, state: nat, switch: Option<nat>)
      ensures this.mode == mode && this.trust == trust && this.state == state && this.switch == switch
    {
      this.mode, this.trust, this.state, this.switch := mode, trust, state, switch;
    }

    function Now(): Settings
      reads this
    {
      Settings(mode, trust, switch)
    }

    method ApplySwitch()
      modifies this
      ensures switch == None && mode == old(mode) && trust == old(trust)
      ensures state == if old(switch).Some? then old(switch).value else old(state)
    {
      if switch.Some? {
        state := switch.value;
        switch := None;
      }
    }
  }

  function Marked(occurs: seq<bool>): set<nat> {
    set i: nat | i < |occurs| && occurs[i]
  }

  /** `apply_rules_impl`: does what the pure interpreter does with the set of marked states,
      ends for every include graph, and leaves the marks as it found them. */
  method ApplyRulesImpl(rs: SyncRules, g: Group, matches: nat -> bool, occurs: array<bool>, ix: nat, eng: Engine)
    returns (keepGoing: bool)
    requires Resolved(rs) && ix < |rs.states| && occurs.Length == |rs.states|
    modifies occurs, eng
    ensures occurs[..] == old(occurs[..]) && eng.state == old(eng.state)
    ensures var r := EvalState(rs, g, matches, Marked(old(occurs[..])), ix, old(eng.Now()));
            eng.Now() == r.e && keepGoing == !r.flow.LeaveAll?
    decreases |Unvisited(rs, Marked(occurs[..]))|, 3, 0
  {
    keepGoing := true;
    ghost var before := occurs[..];
    if occurs[ix] {
      return true;
    }
    occurs[ix] := true;
    ghost var visiting := Marked(before) + {ix};
    assert Marked(occurs[..]) == visiting;
    VisitShrinks(rs, Marked(before), ix);
    keepGoing := ApplyList(rs, g, matches, occurs, GroupOf(rs.states[ix], g), eng);
    occurs[ix] := false;
    assert occurs[..] == before;
  }

  /** The loop over the rules of a state. */
  method ApplyList(rs: SyncRules, g: Group, matches: nat -> bool, occurs: array<bool>, list: seq<nat>, eng: Engine)
    returns (keepGoing: bool)
    requires Resolved(rs) && GoodRefs(list, |rs.rules|) && occurs.Length == |rs.states|
    modifies occurs, eng
    ensures occurs[..] == old(occurs[..]) && eng.state == old(eng.state)
    ensures var r := EvalRules(rs, g, matches, Marked(old(occurs[..])), list, old(eng.Now()));
            eng.Now() == r.e && keepGoing == !r.flow.LeaveAll?
    decreases |Unvisited(rs, Marked(occurs[..]))|, 6, 0
  {
    ghost var before := occurs[..];
    ghost var visiting := Marked(before);
    ghost var whole := EvalRules(rs, g, matches, visiting, list, eng.Now());
    var i := 0;
    while i < |list|
      invariant 0 <= i <= |list| && occurs[..] == before && eng.state == old(eng.state)
      invariant EvalRules(rs, g, matches, visiting, list[i..], eng.Now()) == whole
    {
      assert list[i..][1..] == list[i + 1..];
      if matches(list[i]) {
        var flow := ApplyActions(rs, g, matches, occurs, rs.rules[list[i]].actions, eng);
        match flow
        case Go =>
        case Leave => return true;
        case LeaveAll => return false;
      }
      i := i + 1;
    }
    keepGoing := true;
  }

  /** The loop over the actions of a rule. */
  method ApplyActions(rs: SyncRules, g: Group, matches: nat -> bool, occurs: array<bool>, actions: seq<Action>,
      eng: Engine)
    returns (flow: Flow)
    requires Resolved(rs) && GoodActions(actions, |rs.states|) && occurs.Length == |rs.states|
    modifies occurs, eng
    ensures occurs[..] == old(occurs[..]) && eng.state == old(eng.state)
    ensures Outcome(eng.Now(), flow) == EvalActions(rs, g, matches, Marked(old(occurs[..])), actions, old(eng.Now()))
    decreases |Unvisited(rs, Marked(occurs[..]))|, 5, 0
  {
    ghost var before := occurs[..];
    ghost var visiting := Marked(before);
    ghost var whole := EvalActions(rs, g, matches, visiting, actions, eng.Now());
    var i := 0;
    while i < |actions|
      invariant 0 <= i <= |actions| && occurs[..] == before && eng.state == old(eng.state)
      invariant EvalActions(rs, g, matches, visiting, actions[i..], eng.Now()) == whole
    {
      assert actions[i..][1..] == actions[i + 1..];
      assert GoodAction(actions[i], |rs.states|);
      match actions[i] {
        case SetMode(mode) => eng.mode := mode;
        case SetTrust(trust) => eng.trust := trust;
        case Switch(to) => eng.switch := Some(to);
        case Stop(kind) => return if kind.ReturnOnly? then Leave else LeaveAll;
        case Include(subs) =>
          var going := ApplySubs(rs, g, matches, occurs, subs, eng);
          if !going { return LeaveAll; }
      }
      i := i + 1;
    }
    flow := Go;
  }

  /** The loop over the states that an action includes. */
  method ApplySubs(rs: SyncRules, g: Group, matches: nat -> bool, occurs: array<bool>, subs: seq<nat>, eng: Engine)
    returns (keepGoing: bool)
    requires Resolved(rs) && GoodRefs(subs, |rs.states|) && occurs.Length == |rs.states|
    modifies occurs, eng
    ensures occurs[..] == old(occurs[..]) && eng.state == old(eng.state)
    ensures Outcome(eng.Now(), if keepGoing then Go else LeaveAll) ==
            EvalSubs(rs, g, matches, Marked(old(occurs[..])), subs, old(eng.Now()))
    decreases |Unvisited(rs, Marked(occurs[..]))|, 4, 0
  {
    ghost var before := occurs[..];
    ghost var visiting := Marked(before);
    ghost var whole := EvalSubs(rs, g, matches, visiting, subs, eng.Now());
    var i := 0;
    while i < |subs|
      invariant 0 <= i <= |subs| && occurs[..] == before && eng.state == old(eng.state)
      invariant EvalSubs(rs, g, matches, visiting, subs[i..], eng.Now()) == whole
    {
      assert subs[i..][1..] == subs[i + 1..];
      keepGoing := ApplyRulesImpl(rs, g, matches, occurs, subs[i], eng);
      if !keepGoing { return; }
      i := i + 1;
    }
    keepGoing := true;
  }

  /** `apply_rules`. */
  method ApplyRules(rs: SyncRules, g: Group, matches: nat -> bool, eng: Engine)
    requires Resolved(rs) && eng.state < |rs.states|
    modifies eng
    ensures eng.Now() == EvalState(rs, g, matches, {}, old(eng.state), old(eng.Now())).e && eng.state == old(eng.state)
  {
    var occurs := new bool[|rs.states|](_ => false);
    assert Marked(occurs[..]) == {};
    var _ := ApplyRulesImpl(rs, g, matches, occurs, eng.state, eng);
  }

  // ----- Sibling rules -----

  datatype SeenFile = SeenFile(name: string, data: FileData)

  predicate RuleMatches(rule: Rule, path: string, f: SeenFile) {
    forall i :: 0 <= i < |rule.conditions| ==> rule.conditions[i](path + "/" + f.name, f.name, f.data)
  }

  predicate MatchedBy(rs: SyncRules, path: string, seen: seq<SeenFile>, ix: nat)
    requires ix < |rs.rules|
  {
    exists k :: 0 <= k < |seen| && RuleMatches(rs.rules[ix], path, seen[k])
  }

  /** `DirEngineBuilder`: notes which rules have matched some file of the directory. */
  class Builder {
    const rs: SyncRules
    const path: string
    var matched: seq<bool>
    ghost var seen: seq<SeenFile>

    ghost predicate Valid()
      reads this
    {
      |matched| == |rs.rules| && forall ix :: 0 <= ix < |matched| ==> matched[ix] == MatchedBy(rs, path, seen, ix)
    }

    constructor (rs: SyncRules, path: string)
      ensures Valid() && this.rs == rs && this.path == path && seen == []
    {
      this.rs, this.path, this.seen := rs, path, [];
      this.matched := seq(|rs.rules|, _ => false);
    }

    method Contains(f: SeenFile)
      requires Valid()
      modifies this
      ensures Valid() && seen == old(seen) + [f]
    {
      var ix := 0;
      while ix < |rs.rules|
        invariant 0 <= ix <= |rs.rules| == |matched| && seen == old(seen)
        invariant forall j :: 0 <= j < ix ==>
            matched[j] == (MatchedBy(rs, path, seen, j) || RuleMatches(rs.rules[j], path, f))
        invariant forall j :: ix <= j < |matched| ==> matched[j] == MatchedBy(rs, path, seen, j)
      {
        matched := matched[ix := matched[ix] || RuleMatches(rs.rules[ix], path, f)];
        ix := ix + 1;
      }
      forall j | 0 <= j < |matched|
        ensures matched[j] == MatchedBy(rs, path, seen + [f], j)
      {
        MatchedByOneMore(rs, path, seen, f, j);
      }
      seen := seen + [f];
    }

    /** `build`: the settings that the sibling rules leave for the files of the directory. */
    method Build(eng: Engine)
      requires Valid() && Resolved(rs) && eng.state < |rs.states|
      modifies eng
      ensures BuildOf(rs, path, seen, old(eng.state), old(eng.Now()))
              == (eng.state, Settings(eng.mode, eng.trust, eng.switch))
    {
      var m := matched;
      var matches := r => 0 <= r < |m| && m[r];
      ghost var spec := SiblingMatch(rs, path, seen);
      assert forall r: nat :: matches(r) == spec(r);
      SameMatches(rs, Siblings, matches, spec, {}, eng.state, eng.Now());
      ApplyRules(rs, Siblings, matches, eng);
      eng.ApplySwitch();
    }
  }

  lemma MatchedByOneMore(rs: SyncRules, path: string, seen: seq<SeenFile>, f: SeenFile, ix: nat)
    requires ix < |rs.rules|
    ensures MatchedBy(rs, path, seen + [f], ix) <==> MatchedBy(rs, path, seen, ix) || RuleMatches(rs.rules[ix], path, f)
  {
    var all := seen + [f];
    if MatchedBy(rs, path, seen, ix) {
      var k :| 0 <= k < |seen| && RuleMatches(rs.rules[ix], path, seen[k]);
      assert all[k] == seen[k];
    }
    if RuleMatches(rs.rules[ix], path, f) { assert all[|seen|] == f; }
  }

  ghost function SiblingMatch(rs: SyncRules, path: string, seen: seq<SeenFile>): nat -> bool {
    (r: nat) => r < |rs.rules| && MatchedBy(rs, path, seen, r)
  }

  /** The state and settings for the files of a directory in which `seen` were found. */
  ghost function BuildOf(rs: SyncRules, path: string, seen: seq<SeenFile>, state: nat, e: Settings): (nat, Settings)
    requires Resolved(rs) && state < |rs.states|
  {
    var r := EvalState(rs, Siblings, SiblingMatch(rs, path, seen), {}, state, e).e;
    (if r.switch.Some? then r.switch.value else state, r.(switch := None))
  }

  lemma {:induction false} SameMatches(rs: SyncRules, g: Group, m1: nat -> bool, m2: nat -> bool, visiting: set<nat>,
      ix: nat, e: Settings)
    requires Resolved(rs) && ix < |rs.states| && forall r: nat :: m1(r) == m2(r)
    ensures EvalState(rs, g, m1, visiting, ix, e) == EvalState(rs, g, m2, visiting, ix, e)
    decreases |Unvisited(rs, visiting)|, 3, 0
  {
    if ix !in visiting {
      VisitShrinks(rs, visiting, ix);
      SameRules(rs, g, m1, m2, visiting + {ix}, GroupOf(rs.states[ix], g), e);
    }
  }

  lemma {:induction false} SameRules(rs: SyncRules, g: Group, m1: nat -> bool, m2: nat -> bool, visiting: set<nat>,
      list: seq<nat>, e: Settings)
    requires Resolved(rs) && GoodRefs(list, |rs.rules|) && forall r: nat :: m1(r) == m2(r)
    ensures EvalRules(rs, g, m1, visiting, list, e) == EvalRules(rs, g, m2, visiting, list, e)
    decreases |Unvisited(rs, visiting)|, 6, |list|
  {
    if list != [] {
      if m1(list[0]) {
        SameActions(rs, g, m1, m2, visiting, rs.rules[list[0]].actions, e);
        SameRules(rs, g, m1, m2, visiting, list[1..], EvalActions(rs, g, m1, visiting, rs.rules[list[0]].actions, e).e);
      } else {
        SameRules(rs, g, m1, m2, visiting, list[1..], e);
      }
    }
  }

  function Simple(a: Action, e: Settings): Outcome
    requires !a.Include?
  {
    match a
    case SetMode(mode) => Outcome(e.(mode := mode), Go)
    case SetTrust(trust) => Outcome(e.(trust := trust), Go)
    case Switch(to) => Outcome(e.(switch := Some(to)), Go)
    case Stop(kind) => Outcome(e, if kind.ReturnOnly? then Leave else LeaveAll)
  }

  lemma {:induction false} SameActions(rs: SyncRules, g: Group, m1: nat -> bool, m2: nat -> bool, visiting: set<nat>,
      actions: seq<Action>, e: Settings)
    requires Resolved(rs) && GoodActions(actions, |rs.states|) && forall r: nat :: m1(r) == m2(r)
    ensures EvalActions(rs, g, m1, visiting, actions, e) == EvalActions(rs, g, m2, visiting, actions, e)
    decreases |Unvisited(rs, visiting)|, 5, |actions|
  {
    if actions != [] {
      assert GoodAction(actions[0], |rs.states|);
      if actions[0].Include? {
        SameSubs(rs, g, m1, m2, visiting, actions[0].subs, e);
        SameActions(rs, g, m1, m2, visiting, actions[1..], EvalSubs(rs, g, m1, visiting, actions[0].subs, e).e);
      } else {
        SameActions(rs, g, m1, m2, visiting, actions[1..], Simple(actions[0], e).e);
      }
    }
  }

  lemma {:induction false} SameSubs(rs: SyncRules, g: Group, m1: nat -> bool, m2: nat -> bool, visiting: set<nat>,
      subs: seq<nat>, e: Settings)
    requires Resolved(rs) && GoodRefs(subs, |rs.states|) && forall r: nat :: m1(r) == m2(r)
    ensures EvalSubs(rs, g, m1, visiting, subs, e) == EvalSubs(rs, g, m2, visiting, subs, e)
    decreases |Unvisited(rs, visiting)|, 4, |subs|
  {
    if subs != [] {
      SameMatches(rs, g, m1, m2, visiting, subs[0], e);
      SameSubs(rs, g, m1, m2, visiting, subs[1..], EvalState(rs, g, m1, visiting, subs[0], e).e);
    }
  }

  /** The order in which the files of a directory are reported, and repetitions (a name is
      reported by both ends), do not matter: only which files there are. */
  lemma OrderDoesNotMatter(rs: SyncRules, path: string, a: seq<SeenFile>, b: seq<SeenFile>, state: nat, e: Settings)
    requires Resolved(rs) && state < |rs.states| && (forall f :: f in a <==> f in b)
    ensures BuildOf(rs, path, a, state, e) == BuildOf(rs, path, b, state, e)
  {
    forall r: nat ensures SiblingMatch(rs, path, a)(r) == SiblingMatch(rs, path, b)(r) {
      if r < |rs.rules| {
        SeenEither(rs, path, a, b, r);
        SeenEither(rs, path, b, a, r);
      }
    }
    SameMatches(rs, Siblings, SiblingMatch(rs, path, a), SiblingMatch(rs, path, b), {}, state, e);
  }

  lemma SeenEither(rs: SyncRules, path: string, a: seq<SeenFile>, b: seq<SeenFile>, ix: nat)
    requires ix < |rs.rules| && forall f :: f in a ==> f in b
    ensures MatchedBy(rs, path, a, ix) ==> MatchedBy(rs, path, b, ix)
  {
    if MatchedBy(rs, path, a, ix) {
      var k :| 0 <= k < |a| && RuleMatches(rs.rules[ix], path, a[k]);
      assert a[k] in b;
    }
  }
}
