/** The map of completion tasks that are not queued yet (src/reconcile/context.rs:49-78). */
module TaskMap {
  import opened Sets

  /** The range of the id counter, which wraps around. */
  const WORD: nat := 0x1_0000_0000_0000_0000

  /** The `k` ids from `start` on. */
  function Run(start: nat, k: nat): set<nat>
    requires start < WORD
  {
    if k == 0 then {} else Run(start, k - 1) + {(start + k - 1) % WORD}
  }

  lemma {:induction false} RunMember(start: nat, k: nat, id: nat)
    requires start < WORD
    ensures id in Run(start, k) <==> exists j: nat :: j < k && id == Nth(start, j)
  {
    if k > 0 {
      RunMember(start, k - 1, id);
      if id == Nth(start, k - 1) { assert k - 1 < k; }
    }
  }

  function Nth(start: nat, j: nat): nat
    requires start < WORD
  {
    (start + j) % WORD
  }

  lemma Wraps(a: nat)
    requires a < 2 * WORD
    ensures a % WORD == if a < WORD then a else a - WORD
  {
  }

  lemma Apart(start: nat, i: nat, j: nat)
    requires start < WORD && i < j < WORD
    ensures Nth(start, i) != Nth(start, j)
  {
    var a, b := start + i, start + j;
    Wraps(a);
    Wraps(b);
  }

  lemma {:induction false} RunSize(start: nat, k: nat)
    requires start < WORD && k <= WORD
    ensures |Run(start, k)| == k
  {
    if k > 0 {
      RunSize(start, k - 1);
      var id := Nth(start, k - 1);
      RunMember(start, k - 1, id);
      if id in Run(start, k - 1) {
        var j: nat :| j < k - 1 && id == Nth(start, j);
        Apart(start, j, k - 1);
      }
    }
  }

  class UnqueuedTasks<T> {
    var tasks: map<nat, T>
    var nextId: nat

    ghost predicate Valid()
      reads this
    {
      nextId < WORD && forall id :: id in tasks ==> id < WORD
    }

    constructor ()
      ensures Valid() && tasks == map[]
    {
      tasks, nextId := map[], 0;
    }

    /** The search stops at an id that is free: after as many steps as there are tasks it
        must have met one. Every other task keeps its id. */
    method Put(task: T) returns (id: nat)
      requires Valid() && |tasks| < WORD
      modifies this
      ensures Valid() && id !in old(tasks) && tasks == old(tasks)[id := task]
    {
      ghost var start, k := nextId, 0;
      while nextId in tasks
        invariant nextId < WORD && 0 <= k <= |tasks| && nextId == Nth(start, k) && Run(start, k) <= tasks.Keys
        invariant tasks == old(tasks)
        decreases |tasks| - k
      {
        hide Nth, Run;
        NextNth(start, k);
        RunGrows(start, k);
        nextId := (nextId + 1) % WORD;
        k := k + 1;
        SubsetSize(Run(start, k), tasks.Keys);
        RunSize(start, k);
      }
      id := nextId;
      nextId := (nextId + 1) % WORD;
      tasks := tasks[id := task];
    }

    /** The program unwraps the result, so the id must be there. */
    method Get(id: nat) returns (task: T)
      requires Valid() && id in tasks
      modifies this
      ensures Valid() && task == old(tasks)[id] && tasks == old(tasks) - {id}
    {
      task := tasks[id];
      tasks := tasks - {id};
    }
  }

  lemma RunGrows(start: nat, k: nat)
    requires start < WORD
    ensures Run(start, k + 1) == Run(start, k) + {Nth(start, k)}
  {
  }

  lemma NextNth(start: nat, j: nat)
    requires start < WORD
    ensures (Nth(start, j) + 1) % WORD == Nth(start, j + 1)
  {
    Wrap(start + j);
  }

  lemma Wrap(a: nat)
    ensures (a % WORD + 1) % WORD == (a + 1) % WORD
  {
    var q, r := a / WORD, a % WORD;
    assert a == q * WORD + r;
    if r + 1 == WORD {
      assert a + 1 == (q + 1) * WORD;
      Multiple(q + 1, 0);
    } else {
      assert a + 1 == q * WORD + (r + 1);
      Multiple(q, r + 1);
    }
  }

  lemma Multiple(q: nat, r: nat)
    requires r < WORD
    ensures (q * WORD + r) % WORD == r
  {
  }
}
