/** The accesses that hand a completion task on: it is put into the map, the counter is
    brought down, the task is fetched by whoever brought it to zero, and pushed. */
module ProtocolTasks {
  import opened Replica
  import opened Protocol
  import opened ProtocolInv
  import opened ProtocolKept

  // ----- Putting the task and storing its id -----

  lemma PutTasks(s: FState, p: Path, id: nat, s': FState)
    requires Tasks(s) && p in s.locs && s.locs[p].Busy? && id !in s.tasks && SameOwed(s.locs, s'.locs)
    requires s' == s.(tasks := s.tasks[id := p], locs := s.locs[p := Storing(id)])
    ensures Tasks(s')
  {
    forall x | x in s'.locs && s'.locs[x].Parked? && Owed(s'.locs, Dir(x)) != {} ensures TaskStored(s', x) {
      assert Owed(s.locs, Dir(x)) == Owed(s'.locs, Dir(x));
    }
    forall i | i in s'.tasks ensures Holds(s', s'.tasks[i], i) {
      if i != id { assert Holds(s, s.tasks[i], i); }
    }
  }

  lemma PutPushers(s: FState, p: Path, id: nat, s': FState)
    requires Pushers(s) && p in s.locs && s.locs[p].Busy? && id !in s.tasks && SameOwed(s.locs, s'.locs)
    requires s' == s.(tasks := s.tasks[id := p], locs := s.locs[p := Storing(id)])
    ensures Pushers(s')
  {
    forall a, k ensures Pusher(s'.locs, a, k) <==> Pusher(s.locs, a, k) { }
    forall a, k | Pusher(s'.locs, a, k) ensures PusherAt(s', a, k) {
      assert PusherAt(s, a, k);
      assert Owed(s.locs, k) == Owed(s'.locs, k);
    }
    forall x | x in s'.locs && s'.locs[x].Parked? && Owed(s'.locs, Dir(x)) == {}
        ensures exists a :: Pusher(s'.locs, a, Dir(x)) {
      assert Owed(s.locs, Dir(x)) == Owed(s'.locs, Dir(x));
      var a :| Pusher(s.locs, a, Dir(x));
      assert Pusher(s'.locs, a, Dir(x));
    }
  }

  lemma PutKeeps(s: FState, p: Path, id: nat, s': FState)
    requires PInv(s) && p in s.locs && p in s.walk.ctxs && s.locs[p].Busy? && s.walk.ctxs[p].todo == {} &&
        !Spawning(s.locs, p)
    requires id !in s.tasks && s' == s.(tasks := s.tasks[id := p], locs := s.locs[p := Storing(id)])
    ensures PInv(s')
  {
    hide Shape, Counts, Tasks, Pushers, Flags;
    OwedSame(s.locs, p, Storing(id));
    CountsSame(s, s');
    ShapeSame(s, s', p, Storing(id));
    PutTasks(s, p, id, s');
    PutPushers(s, p, id, s');
    FlagsSame(s, s', p, Storing(id));
  }

  lemma StoreTasks(s: FState, p: Path, s': FState)
    requires Tasks(s) && p in s.locs && s.locs[p].Storing? && Dir(p) in s.cells && SameOwed(s.locs, s'.locs)
    requires s' == SetCell(s, Dir(p), s.cells[Dir(p)].(onComplete := s.locs[p].id), p, Finish(Own, LoadSuccess))
    ensures Tasks(s')
  {
    forall x | x in s'.locs && s'.locs[x].Parked? && Owed(s'.locs, Dir(x)) != {} ensures TaskStored(s', x) {
      assert Owed(s.locs, Dir(x)) == Owed(s'.locs, Dir(x));
    }
    forall i | i in s'.tasks ensures Holds(s', s'.tasks[i], i) { assert Holds(s, s.tasks[i], i); }
  }

  lemma StorePushers(s: FState, p: Path, s': FState)
    requires Pushers(s) && p in s.locs && s.locs[p].Storing? && Dir(p) in s.cells && SameOwed(s.locs, s'.locs)
    requires s' == SetCell(s, Dir(p), s.cells[Dir(p)].(onComplete := s.locs[p].id), p, Finish(Own, LoadSuccess))
    ensures Pushers(s')
  {
    forall a, k ensures Pusher(s'.locs, a, k) <==> Pusher(s.locs, a, k) { }
    forall a, k | Pusher(s'.locs, a, k) ensures PusherAt(s', a, k) {
      assert PusherAt(s, a, k);
      assert Owed(s.locs, k) == Owed(s'.locs, k);
    }
    forall x | x in s'.locs && s'.locs[x].Parked? && Owed(s'.locs, Dir(x)) == {}
        ensures exists a :: Pusher(s'.locs, a, Dir(x)) {
      assert Owed(s.locs, Dir(x)) == Owed(s'.locs, Dir(x));
      var a :| Pusher(s.locs, a, Dir(x));
      assert Pusher(s'.locs, a, Dir(x));
    }
  }

  lemma StoreKeeps(s: FState, p: Path, s': FState)
    requires PInv(s) && p in s.locs && p in s.walk.ctxs && s.locs[p].Storing? && Dir(p) in s.cells
    requires s' == SetCell(s, Dir(p), s.cells[Dir(p)].(onComplete := s.locs[p].id), p, Finish(Own, LoadSuccess))
    ensures PInv(s')
  {
    hide Shape, Counts, Tasks, Pushers, Flags;
    OwedSame(s.locs, p, Finish(Own, LoadSuccess));
    CountsSame(s, s');
    ShapeSame(s, s', p, Finish(Own, LoadSuccess));
    StoreTasks(s, p, s');
    StorePushers(s, p, s');
    FlagsSame(s, s', p, Finish(Own, LoadSuccess));
  }

  // ----- Counting out -----

  /** `p` gives up its share in `k` and goes on to `loc`. */
  ghost predicate Released(s: FState, p: Path, k: Key, s': FState, loc: Loc) {
    && p in s.locs && s.locs[p].Finish? && s.locs[p].stage.Sub1? && k == Target(p, s.locs[p].who) && k in s.cells
    && loc == (if s.cells[k].pending == 1 then Finish(s.locs[p].who, Get) else Rest(s.locs[p].who))
    && s' == SetCell(s, k, s.cells[k].(pending := s.cells[k].pending - 1), p, loc)
  }

  lemma ReleaseOwed(s: FState, p: Path, k: Key, s': FState, loc: Loc)
    requires Released(s, p, k, s', loc)
    ensures p in Owed(s.locs, k) && Owed(s'.locs, k) == Owed(s.locs, k) - {p} && SameOwedBut(s.locs, s'.locs, k)
  {
    forall k' ensures k' != k ==> Owed(s.locs, k') == Owed(s'.locs, k') { OwedUpdate(s.locs, p, loc, k'); }
    OwedUpdate(s.locs, p, loc, k);
  }

  lemma ReleaseCounts(s: FState, p: Path, k: Key, s': FState, loc: Loc)
    requires Counts(s) && Released(s, p, k, s', loc)
    ensures Counts(s')
    ensures s.cells[k].pending == 1 <==> k.Dir? && Owed(s'.locs, k) == {}
  {
    ReleaseOwed(s, p, k, s', loc);
    forall k' | k' in s'.cells ensures s'.cells[k'].pending == |Owed(s'.locs, k')| + if k'.Top? then 1 else 0 {
      if k' != k { assert Owed(s.locs, k') == Owed(s'.locs, k'); }
    }
  }

  lemma ReleaseShapeAt(s: FState, p: Path, k: Key, s': FState, loc: Loc, x: Path)
    requires Released(s, p, k, s', loc) && x in s.locs && x in s.walk.ctxs && p in s.walk.ctxs && ShapeAt(s, x) &&
        ShapeAt(s, p)
    requires Owed(s'.locs, Dir(x)) <= Owed(s.locs, Dir(x))
    ensures ShapeAt(s', x)
  {
    hide Owed;
  }

  lemma ReleaseShape(s: FState, p: Path, k: Key, s': FState, loc: Loc)
    requires Shape(s) && Released(s, p, k, s', loc) && Owed(s'.locs, k) <= Owed(s.locs, k) &&
        SameOwedBut(s.locs, s'.locs, k)
    ensures Shape(s')
  {
    hide ShapeAt, Owed;
    forall x | x in s'.locs ensures ShapeAt(s', x) {
      if Dir(x) != k { assert Owed(s.locs, Dir(x)) == Owed(s'.locs, Dir(x)); }
      ReleaseShapeAt(s, p, k, s', loc, x);
    }
  }

  /** The directory whose counter is brought to zero has parked, unless it did so itself. */
  lemma ZeroMeansParked(s: FState, p: Path, k: Key, s': FState, loc: Loc)
    requires Shape(s) && Tasks(s) && Pushers(s) && Released(s, p, k, s', loc) && Owed(s'.locs, k) == {} && k.Dir?
    requires p in Owed(s.locs, k) && Owed(s'.locs, k) == Owed(s.locs, k) - {p}
    ensures k.path in s.locs && TaskStored(s, k.path) && (s.locs[p].who.Own? || (k.path != p && s.locs[k.path].Parked?))
  {
    if !s.locs[p].who.Own? {
      var q := k.path;
      TargetOpen(s, p);
      assert ShapeAt(s, q);
      OwesItself(s.locs, q);
      NoPusherYet(s, k, p, q);
      assert k == Dir(q) && q != p;
      assert q !in Owed(s.locs, k) - {p};
      assert s.locs[q].Parked?;
    }
  }

  lemma OwesItself(locs: map<Path, Loc>, q: Path)
    requires q in locs
    ensures OwnHeld(locs[q]) <==> q in Owed(locs, Dir(q))
  {
  }

  lemma ReleaseTasks(s: FState, p: Path, k: Key, s': FState, loc: Loc)
    requires Tasks(s) && Released(s, p, k, s', loc) && Owed(s'.locs, k) <= Owed(s.locs, k) &&
        SameOwedBut(s.locs, s'.locs, k)
    ensures Tasks(s')
  {
    forall x | x in s'.locs && s'.locs[x].Parked? && Owed(s'.locs, Dir(x)) != {} ensures TaskStored(s', x) {
      if Dir(x) != k { assert Owed(s.locs, Dir(x)) == Owed(s'.locs, Dir(x)); }
      assert TaskStored(s, x);
    }
    forall i | i in s'.tasks ensures Holds(s', s'.tasks[i], i) { assert Holds(s, s.tasks[i], i); }
  }

  /** Nobody pushes for `k` while something is owed to it. */
  lemma NoPusherYet(s: FState, k: Key, p: Path, a: Path)
    requires Pushers(s) && p in Owed(s.locs, k)
    ensures !Pusher(s.locs, a, k)
  {
  }

  lemma ReleaseZero(s: FState, p: Path, k: Key, s': FState, loc: Loc)
    requires Pushers(s) && Released(s, p, k, s', loc) && s.cells[k].pending == 1 && k.Dir? && k.path in s.locs
    requires p in Owed(s.locs, k) && Owed(s'.locs, k) == {} && SameOwedBut(s.locs, s'.locs, k)
    requires TaskStored(s, k.path) && (s.locs[p].who.Own? || (k.path != p && s.locs[k.path].Parked?))
    ensures Pushers(s')
  {
    forall a, k' ensures Pusher(s'.locs, a, k') <==> Pusher(s.locs, a, k') || (a == p && k' == k) { }
    forall a ensures !Pusher(s.locs, a, k) { NoPusherYet(s, k, p, a); }
    forall a, k' | Pusher(s'.locs, a, k') ensures PusherAt(s', a, k') {
      if a != p {
        assert PusherAt(s, a, k');
        assert Owed(s.locs, k') == Owed(s'.locs, k');
      }
    }
    forall x | x in s'.locs && s'.locs[x].Parked? && Owed(s'.locs, Dir(x)) == {}
        ensures exists a :: Pusher(s'.locs, a, Dir(x)) {
      if Dir(x) == k { assert Pusher(s'.locs, p, k); } else {
        assert Owed(s.locs, Dir(x)) == Owed(s'.locs, Dir(x));
        var a :| Pusher(s.locs, a, Dir(x));
        assert Pusher(s'.locs, a, Dir(x));
      }
    }
  }

  lemma ReleaseMore(s: FState, p: Path, k: Key, s': FState, loc: Loc)
    requires Pushers(s) && Released(s, p, k, s', loc) && s.cells[k].pending != 1
    requires p in Owed(s.locs, k) && (k.Dir? ==> Owed(s'.locs, k) != {}) && SameOwedBut(s.locs, s'.locs, k)
    ensures Pushers(s')
  {
    forall a, k' ensures Pusher(s'.locs, a, k') <==> Pusher(s.locs, a, k') { }
    forall a ensures !Pusher(s.locs, a, k) { NoPusherYet(s, k, p, a); }
    forall a, k' | Pusher(s'.locs, a, k') ensures PusherAt(s', a, k') {
      assert PusherAt(s, a, k');
      assert Owed(s.locs, k') == Owed(s'.locs, k');
    }
    forall x | x in s'.locs && s'.locs[x].Parked? && Owed(s'.locs, Dir(x)) == {}
        ensures exists a :: Pusher(s'.locs, a, Dir(x)) {
      assert Dir(x) != k;
      assert Owed(s.locs, Dir(x)) == Owed(s'.locs, Dir(x));
      var a :| Pusher(s.locs, a, Dir(x));
      assert Pusher(s'.locs, a, Dir(x));
    }
  }

  lemma ReleaseKeeps(s: FState, p: Path, k: Key, s': FState, loc: Loc)
    requires PInv(s) && Released(s, p, k, s', loc)
    ensures PInv(s')
  {
    hide Shape, Counts, Tasks, Pushers, Flags;
    ReleaseOwed(s, p, k, s', loc);
    ReleaseCounts(s, p, k, s', loc);
    ReleaseShape(s, p, k, s', loc);
    ReleaseTasks(s, p, k, s', loc);
    FlagsSame(s, s', p, loc);
    if s.cells[k].pending == 1 {
      ZeroMeansParked(s, p, k, s', loc);
      ReleaseZero(s, p, k, s', loc);
    } else {
      ReleaseMore(s, p, k, s', loc);
    }
  }

  // ----- Fetching the task -----

  /** The agent finds the completion task of its target. */
  lemma FoundTask(s: FState, p: Path)
    requires Pushers(s) && p in s.locs && s.locs[p].Finish? && s.locs[p].stage.Get?
    ensures var k := Target(p, s.locs[p].who);
            k.Dir? && k in s.cells && TaskStored(s, k.path) && PusherAt(s, p, k) && !Panics(s, p)
  {
    assert Pusher(s.locs, p, Target(p, s.locs[p].who));
  }

  ghost predicate Fetched(s: FState, p: Path, q: Path, s': FState) {
    && p in s.locs && s.locs[p].Finish? && s.locs[p].stage.Get? && Target(p, s.locs[p].who) == Dir(q)
    && PusherAt(s, p, Dir(q)) && TaskStored(s, q)
    && s' == s.(tasks := s.tasks - {s.cells[Dir(q)].onComplete}, locs := s.locs[p := Finish(s.locs[p].who, Give(q))])
  }

  lemma FetchTasks(s: FState, p: Path, q: Path, s': FState)
    requires Tasks(s) && Fetched(s, p, q, s') && SameOwed(s.locs, s'.locs)
    ensures Tasks(s') && q !in s'.tasks.Values
  {
    var id := s.cells[Dir(q)].onComplete;
    forall x | x in s'.locs && s'.locs[x].Parked? && Owed(s'.locs, Dir(x)) != {} ensures TaskStored(s', x) {
      assert Owed(s.locs, Dir(x)) == Owed(s'.locs, Dir(x));
      assert TaskStored(s, x) && x != q;
    }
    forall i | i in s'.tasks ensures Holds(s', s'.tasks[i], i) && s'.tasks[i] != q { assert Holds(s, s.tasks[i], i); }
  }

  lemma FetchPushers(s: FState, p: Path, q: Path, s': FState)
    requires Pushers(s) && Fetched(s, p, q, s') && SameOwed(s.locs, s'.locs) && q !in s'.tasks.Values
    ensures Pushers(s')
  {
    forall a, k ensures Pusher(s'.locs, a, k) <==> Pusher(s.locs, a, k) { }
    forall a, k | Pusher(s'.locs, a, k) ensures PusherAt(s', a, k) {
      assert Pusher(s.locs, p, Dir(q));
      assert PusherAt(s, a, k);
      assert Owed(s.locs, k) == Owed(s'.locs, k);
    }
    forall x | x in s'.locs && s'.locs[x].Parked? && Owed(s'.locs, Dir(x)) == {}
        ensures exists a :: Pusher(s'.locs, a, Dir(x)) {
      assert Owed(s.locs, Dir(x)) == Owed(s'.locs, Dir(x));
      var a :| Pusher(s.locs, a, Dir(x));
      assert Pusher(s'.locs, a, Dir(x));
    }
  }

  lemma FetchKeeps(s: FState, p: Path, q: Path, s': FState)
    requires PInv(s) && Fetched(s, p, q, s')
    ensures PInv(s')
  {
    hide Shape, Counts, Tasks, Pushers, Flags, PusherAt;
    var loc := Finish(s.locs[p].who, Give(q));
    OwedSame(s.locs, p, loc);
    CountsSame(s, s');
    KnownDir(s, p);
    ShapeSame(s, s', p, loc);
    FetchTasks(s, p, q, s');
    FetchPushers(s, p, q, s');
    FlagsSame(s, s', p, loc);
  }

  lemma KnownDir(s: FState, p: Path)
    requires Shape(s) && p in s.locs
    ensures p in s.walk.ctxs
  {
  }

  // ----- Pushing it -----

  ghost predicate Given(s: FState, p: Path, q: Path, s': FState) {
    && p in s.locs && q in s.locs && s.locs[p].Finish? && s.locs[p].stage == Give(q) &&
        Target(p, s.locs[p].who) == Dir(q)
    && PusherAt(s, p, Dir(q)) && (if s.locs[p].who.Own? then p == q else p != q && s.locs[q].Parked?)
    && s' == s.(locs := s.locs[p := Rest(s.locs[p].who)][q := Completing])
  }

  lemma GivenOwed(s: FState, p: Path, q: Path, s': FState)
    requires Given(s, p, q, s')
    ensures SameOwed(s.locs, s'.locs)
  {
    var mid := s.locs[p := Rest(s.locs[p].who)];
    OwedSame(s.locs, p, Rest(s.locs[p].who));
    OwedSame(mid, q, Completing);
    forall k ensures Owed(s.locs, k) == Owed(s'.locs, k) {
      assert Owed(s.locs, k) == Owed(mid, k) == Owed(mid[q := Completing], k);
    }
  }

  lemma GivenShape(s: FState, p: Path, q: Path, s': FState)
    requires Shape(s) && Given(s, p, q, s') && SameOwed(s.locs, s'.locs)
    ensures Shape(s')
  {
    forall x | x in s'.locs ensures ShapeAt(s', x) {
      assert ShapeAt(s, x) && ShapeAt(s, p) && ShapeAt(s, q);
      assert Owed(s.locs, Dir(x)) == Owed(s'.locs, Dir(x));
    }
  }

  lemma GivenTasks(s: FState, p: Path, q: Path, s': FState)
    requires Tasks(s) && Given(s, p, q, s') && SameOwed(s.locs, s'.locs)
    ensures Tasks(s')
  {
    forall x | x in s'.locs && s'.locs[x].Parked? && Owed(s'.locs, Dir(x)) != {} ensures TaskStored(s', x) {
      assert Owed(s.locs, Dir(x)) == Owed(s'.locs, Dir(x));
      assert TaskStored(s, x);
    }
    forall i | i in s'.tasks ensures Holds(s', s'.tasks[i], i) { assert Holds(s, s.tasks[i], i); }
  }

  lemma GivenPushers(s: FState, p: Path, q: Path, s': FState)
    requires Pushers(s) && Given(s, p, q, s') && SameOwed(s.locs, s'.locs)
    ensures Pushers(s')
  {
    assert Pusher(s.locs, p, Dir(q));
    forall a, k ensures Pusher(s'.locs, a, k) <==> Pusher(s.locs, a, k) && a != p { }
    forall a, k | Pusher(s'.locs, a, k) ensures PusherAt(s', a, k) {
      assert PusherAt(s, a, k);
      assert Owed(s.locs, k) == Owed(s'.locs, k);
    }
    forall x | x in s'.locs && s'.locs[x].Parked? && Owed(s'.locs, Dir(x)) == {}
        ensures exists a :: Pusher(s'.locs, a, Dir(x)) {
      assert Owed(s.locs, Dir(x)) == Owed(s'.locs, Dir(x));
      var a :| Pusher(s.locs, a, Dir(x));
      assert Pusher(s'.locs, a, Dir(x));
    }
  }

  lemma GivenFlags(s: FState, p: Path, q: Path, s': FState)
    requires Flags(s) && Given(s, p, q, s')
    ensures Flags(s')
  {
    var loc := Rest(s.locs[p].who);
    var mid := s.(locs := s.locs[p := loc]);
    FlagsSame(s, mid, p, loc);
    FlagsSame(mid, s', q, Completing);
  }

  lemma GivenKeeps(s: FState, p: Path, q: Path, s': FState)
    requires PInv(s) && Given(s, p, q, s')
    ensures PInv(s')
  {
    hide Shape, Counts, Tasks, Pushers, Flags, Given;
    GivenOwed(s, p, q, s');
    GivenShape(s, p, q, s');
    assert s'.cells == s.cells by { CellsKept(s, p, q, s'); }
    CountsSame(s, s');
    GivenTasks(s, p, q, s');
    GivenPushers(s, p, q, s');
    GivenFlags(s, p, q, s');
  }

  lemma CellsKept(s: FState, p: Path, q: Path, s': FState)
    requires Given(s, p, q, s')
    ensures s'.cells == s.cells
  {
  }
}
