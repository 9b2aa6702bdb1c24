/** The work stack (src/work_stack.rs): a vector of tasks and a count of tasks being run,
    behind one mutex, with a condition variable on which idle threads wait. */
module WorkStack {

  /** What the mutex protects. */
  datatype Shared<T> = Shared(tasks: seq<T>, inFlight: nat)

  /** What a thread that holds the lock does next. */
  datatype Verdict<T> = Take(task: T) | Wait | Quit

  function Decide<T>(d: Shared<T>): Verdict<T> {
    if d.tasks != [] then Take(d.tasks[|d.tasks| - 1])
    else if d.inFlight > 0 then Wait
    else Quit
  }

  function After<T>(d: Shared<T>): Shared<T> {
    if d.tasks != [] then Shared(d.tasks[..|d.tasks| - 1], d.inFlight + 1) else d
  }

  function Pushed<T>(d: Shared<T>, task: T): Shared<T> {
    d.(tasks := d.tasks + [task])
  }

  function Returned<T>(d: Shared<T>): Shared<T> {
    d.(inFlight := if d.inFlight == 0 then 0 else d.inFlight - 1)
  }

  /** The task pushed last is the one taken next, and taking it leaves what was there before. */
  lemma LastInFirstOut<T>(d: Shared<T>, task: T)
    ensures Decide(Pushed(d, task)) == Take(task)
    ensures After(Pushed(d, task)) == Shared(d.tasks, d.inFlight + 1)
  {
    assert (d.tasks + [task])[..|d.tasks|] == d.tasks;
  }

  /** The stack itself; each method is one critical section. */
  class Stack<T> {
    var tasks: seq<T>
    var inFlight: nat

    function Contents(): Shared<T>
      reads this
    {
      Shared(tasks, inFlight)
    }

    constructor ()
      ensures Contents() == Shared([], 0)
    {
      tasks, inFlight := [], 0;
    }

    method Push(task: T)
      modifies this
      ensures Contents() == Pushed(old(Contents()), task)
    {
      tasks := tasks + [task];
    }

    /** From taking the lock at the top of the loop until giving it up. */
    method Turn() returns (v: Verdict<T>)
      modifies this
      ensures v == Decide(old(Contents())) && Contents() == After(old(Contents()))
    {
      if |tasks| > 0 {
        v := Take(tasks[|tasks| - 1]);
        tasks := tasks[..|tasks| - 1];
        inFlight := inFlight + 1;
      } else if inFlight > 0 {
        v := Wait;
      } else {
        v := Quit;
      }
    }

    /** After a task has been run: the count is lowered under the lock that the next turn
        of the loop goes on to use. */
    method FinishAndTurn() returns (v: Verdict<T>)
      requires inFlight > 0
      modifies this
      ensures v == Decide(Returned(old(Contents()))) && Contents() == After(Returned(old(Contents())))
    {
      inFlight := inFlight - 1;
      v := Turn();
    }
  }

  // ----- Threads -----

  /** A thread in `run`: about to take the lock, waiting on the condition variable,
      running a task without the lock, or returned. */
  datatype Thread<T> = AtLock | Waiting | Executing(task: T) | Exited

  datatype State<T> = State(d: Shared<T>, threads: seq<Thread<T>>, pushed: multiset<T>, finished: multiset<T>)

  /** `woken` is the thread that `notify_one` picks, if any is waiting. */
  datatype Action<T> = DoTurn(i: nat) | DoPush(i: nat, task: T, woken: nat) | DoFinish(i: nat) | Spurious(i: nat)

  function WakeAll<T>(threads: seq<Thread<T>>): (r: seq<Thread<T>>)
    ensures |r| == |threads|
    ensures forall i :: 0 <= i < |threads| ==> r[i] == if threads[i].Waiting? then AtLock else threads[i]
  {
    seq(|threads|, i requires 0 <= i < |threads| => if threads[i].Waiting? then AtLock else threads[i])
  }

  function Turned<T>(s: State<T>, i: nat, d: Shared<T>): State<T>
    requires i < |s.threads|
  {
    match Decide(d)
    case Take(task) => s.(d := After(d), threads := s.threads[i := Executing(task)])
    case Wait => s.(d := d, threads := s.threads[i := Waiting])
    case Quit => s.(d := d, threads := WakeAll(s.threads[i := Exited]))
  }

  predicate SomeWaiting<T>(threads: seq<Thread<T>>) {
    exists i :: 0 <= i < |threads| && threads[i].Waiting?
  }

  predicate Enabled<T>(s: State<T>, a: Action<T>) {
    && a.i < |s.threads|
    && match a
       case DoTurn(i) => s.threads[i].AtLock?
       case DoPush(i, _, woken) =>
         s.threads[i].Executing? && (SomeWaiting(s.threads) ==> woken < |s.threads| && s.threads[woken].Waiting?)
       case DoFinish(i) => s.threads[i].Executing?
       case Spurious(i) => s.threads[i].Waiting?
  }

  function Next<T>(s: State<T>, a: Action<T>): State<T>
    requires Enabled(s, a)
  {
    match a
    case DoTurn(i) => Turned(s, i, s.d)
    case DoPush(_, task, woken) =>
      State(Pushed(s.d, task), if SomeWaiting(s.threads) then s.threads[woken := AtLock] else s.threads,
            s.pushed + multiset{task}, s.finished)
    case DoFinish(i) => Turned(s.(finished := s.finished + multiset{s.threads[i].task}), i, Returned(s.d))
    case Spurious(i) => s.(threads := s.threads[i := AtLock])
  }

  /** `n` threads are about to run what is on the stack. */
  function Init<T>(tasks: seq<T>, n: nat): State<T> {
    State(Shared(tasks, 0), seq(n, _ => AtLock), multiset(tasks), multiset{})
  }

  ghost predicate Legal<T>(s: State<T>, run: seq<Action<T>>)
    decreases |run|
  {
    run == [] || (Enabled(s, run[0]) && Legal(Next(s, run[0]), run[1..]))
  }

  ghost function Final<T>(s: State<T>, run: seq<Action<T>>): State<T>
    requires Legal(s, run)
    decreases |run|
  {
    if run == [] then s else Final(Next(s, run[0]), run[1..])
  }

  // ----- Counting threads -----

  datatype What = Busy | Live | Ready

  predicate Is<T>(t: Thread<T>, what: What) {
    match what
    case Busy => t.Executing?
    case Live => !t.Exited?
    case Ready => t.AtLock?
  }

  function Count<T>(threads: seq<Thread<T>>, what: What): nat {
    if threads == [] then 0
    else Count(threads[..|threads| - 1], what) + if Is(threads[|threads| - 1], what) then 1 else 0
  }

  ghost predicate Runs<T>(t: Thread<T>, x: T) {
    t.Executing? && t.task == x
  }

  /** How many threads are running `x`. */
  ghost function Running<T>(threads: seq<Thread<T>>, x: T): nat {
    if threads == [] then 0
    else Running(threads[..|threads| - 1], x) + if Runs(threads[|threads| - 1], x) then 1 else 0
  }

  lemma {:induction false} CountSet<T>(threads: seq<Thread<T>>, what: What, i: nat, t: Thread<T>)
    requires i < |threads|
    ensures Count(threads[i := t], what) == Count(threads, what) - (if Is(threads[i], what) then 1 else 0) +
        if Is(t, what) then 1 else 0
  {
    var front := threads[..|threads| - 1];
    if i == |threads| - 1 {
      assert threads[i := t][..|threads| - 1] == front;
    } else {
      assert threads[i := t][..|threads| - 1] == front[i := t];
      CountSet(front, what, i, t);
    }
  }

  lemma {:induction false} RunningSet<T>(threads: seq<Thread<T>>, x: T, i: nat, t: Thread<T>)
    requires i < |threads|
    ensures Running(threads[i := t], x) == Running(threads, x) - (if Runs(threads[i], x) then 1 else 0) +
        if Runs(t, x) then 1 else 0
  {
    var front := threads[..|threads| - 1];
    if i == |threads| - 1 {
      assert threads[i := t][..|threads| - 1] == front;
    } else {
      assert threads[i := t][..|threads| - 1] == front[i := t];
      RunningSet(front, x, i, t);
    }
  }

  lemma {:induction false} CountBound<T>(threads: seq<Thread<T>>, what: What)
    ensures Count(threads, what) <= |threads|
    ensures Count(threads, what) == 0 <==> forall i :: 0 <= i < |threads| ==> !Is(threads[i], what)
  {
    if threads != [] {
      var front := threads[..|threads| - 1];
      CountBound(front, what);
      assert threads == front + [threads[|threads| - 1]];
    }
  }

  /** Waking everybody changes only who waits. */
  lemma {:induction false} WakeAllCounts<T>(threads: seq<Thread<T>>, what: What)
    requires !what.Ready?
    ensures Count(WakeAll(threads), what) == Count(threads, what)
  {
    if threads != [] {
      assert WakeAll(threads)[..|threads| - 1] == WakeAll(threads[..|threads| - 1]);
      WakeAllCounts(threads[..|threads| - 1], what);
    }
  }

  lemma {:induction false} WakeAllRunning<T>(threads: seq<Thread<T>>, x: T)
    ensures Running(WakeAll(threads), x) == Running(threads, x)
  {
    if threads != [] {
      assert WakeAll(threads)[..|threads| - 1] == WakeAll(threads[..|threads| - 1]);
      WakeAllRunning(threads[..|threads| - 1], x);
    }
  }

  lemma {:induction false} NoneRunning<T>(threads: seq<Thread<T>>, x: T)
    requires forall i :: 0 <= i < |threads| ==> !threads[i].Executing?
    ensures Running(threads, x) == 0 && Count(threads, Busy) == 0
  {
    if threads != [] { NoneRunning(threads[..|threads| - 1], x); }
  }

  lemma {:induction false} RunningHas<T>(threads: seq<Thread<T>>, x: T, i: nat)
    requires i < |threads|
    ensures Runs(threads[i], x) ==> Running(threads, x) >= 1
  {
    if i < |threads| - 1 { RunningHas(threads[..|threads| - 1], x, i); }
  }

  // ----- The invariant -----

  /** Every copy of `x` that was pushed is on the stack, being run, or has been run. */
  ghost predicate Conserved<T>(s: State<T>, x: T) {
    s.pushed[x] == multiset(s.d.tasks)[x] + Running(s.threads, x) + s.finished[x]
  }

  ghost predicate SomeExited<T>(threads: seq<Thread<T>>) {
    exists i :: 0 <= i < |threads| && threads[i].Exited?
  }

  /** The count is exact, a waiting thread waits for one that runs something, and a thread
      has returned only if there is nothing left. */
  ghost predicate Control<T>(s: State<T>) {
    && s.d.inFlight == Count(s.threads, Busy)
    && (SomeWaiting(s.threads) ==> s.d.inFlight > 0)
    && (SomeExited(s.threads) ==> s.d == Shared([], 0))
  }

  lemma InitInv<T>(tasks: seq<T>, n: nat, x: T)
    ensures Control(Init(tasks, n)) && Conserved(Init(tasks, n), x)
  {
    NoneRunning(Init(tasks, n).threads, x);
  }

  lemma PopTasks<T>(tasks: seq<T>, x: T)
    requires tasks != []
    ensures multiset(tasks)[x] == multiset(tasks[..|tasks| - 1])[x] + if tasks[|tasks| - 1] == x then 1 else 0
  {
    assert tasks == tasks[..|tasks| - 1] + [tasks[|tasks| - 1]];
  }

  /** A turn by a thread that runs nothing. */
  lemma TurnControl<T>(s: State<T>, i: nat)
    requires i < |s.threads| && s.threads[i].AtLock? && s.d.inFlight == Count(s.threads, Busy)
    requires SomeExited(s.threads) ==> s.d == Shared([], 0)
    ensures Control(Turned(s, i, s.d))
  {
    match Decide(s.d)
    case Take(task) => CountSet(s.threads, Busy, i, Executing(task));
    case Wait => CountSet(s.threads, Busy, i, Waiting);
    case Quit =>
      CountSet(s.threads, Busy, i, Exited);
      WakeAllCounts(s.threads[i := Exited], Busy);
  }

  lemma TurnConserves<T>(s: State<T>, i: nat, x: T)
    requires i < |s.threads| && s.threads[i].AtLock? && Conserved(s, x)
    ensures Conserved(Turned(s, i, s.d), x)
  {
    match Decide(s.d)
    case Take(task) =>
      PopTasks(s.d.tasks, x);
      RunningSet(s.threads, x, i, Executing(task));
    case Wait => RunningSet(s.threads, x, i, Waiting);
    case Quit =>
      RunningSet(s.threads, x, i, Exited);
      WakeAllRunning(s.threads[i := Exited], x);
  }

  lemma PushControl<T>(s: State<T>, i: nat, task: T, woken: nat)
    requires Control(s) && Enabled(s, DoPush(i, task, woken))
    ensures Control(Next(s, DoPush(i, task, woken)))
  {
    CountBound(s.threads, Busy);
    assert Is(s.threads[i], Busy);
    if SomeWaiting(s.threads) { CountSet(s.threads, Busy, woken, AtLock); }
  }

  lemma PushConserves<T>(s: State<T>, i: nat, task: T, woken: nat, x: T)
    requires Conserved(s, x) && Enabled(s, DoPush(i, task, woken))
    ensures Conserved(Next(s, DoPush(i, task, woken)), x)
  {
    if SomeWaiting(s.threads) { RunningSet(s.threads, x, woken, AtLock); }
  }

  /** The state in which a thread that has run its task holds the lock again. */
  function Back<T>(s: State<T>, i: nat): State<T>
    requires i < |s.threads| && s.threads[i].Executing?
  {
    State(Returned(s.d), s.threads[i := AtLock], s.pushed, s.finished + multiset{s.threads[i].task})
  }

  lemma BackIs<T>(s: State<T>, i: nat)
    requires Control(s) && i < |s.threads| && s.threads[i].Executing?
    ensures var b := Back(s, i); b.d.inFlight == Count(b.threads, Busy) && !SomeExited(b.threads)
    ensures Next(s, DoFinish(i)) == Turned(Back(s, i), i, Back(s, i).d)
  {
    CountBound(s.threads, Busy);
    assert Is(s.threads[i], Busy);
    CountSet(s.threads, Busy, i, AtLock);
    match Decide(Returned(s.d))
    case Take(task) => assert s.threads[i := AtLock][i := Executing(task)] == s.threads[i := Executing(task)];
    case Wait => assert s.threads[i := AtLock][i := Waiting] == s.threads[i := Waiting];
    case Quit => assert s.threads[i := AtLock][i := Exited] == s.threads[i := Exited];
  }

  lemma FinishConserves<T>(s: State<T>, i: nat, x: T)
    requires Control(s) && Conserved(s, x) && Enabled(s, DoFinish(i))
    ensures Conserved(Next(s, DoFinish(i)), x)
  {
    BackIs(s, i);
    RunningSet(s.threads, x, i, AtLock);
    assert Conserved(Back(s, i), x);
    hide Control, Conserved, Count, Turned;
    TurnConserves(Back(s, i), i, x);
  }

  lemma NextControl<T>(s: State<T>, a: Action<T>)
    requires Control(s) && Enabled(s, a)
    ensures Control(Next(s, a))
  {
    match a
    case DoTurn(i) => TurnControl(s, i);
    case DoPush(i, task, woken) => PushControl(s, i, task, woken);
    case DoFinish(i) =>
      BackIs(s, i);
      hide Control, Count, Turned;
      TurnControl(Back(s, i), i);
    case Spurious(i) => CountSet(s.threads, Busy, i, AtLock);
  }

  lemma NextInvFor<T>(s: State<T>, a: Action<T>, x: T)
    requires Control(s) && Conserved(s, x) && Enabled(s, a)
    ensures Control(Next(s, a)) && Conserved(Next(s, a), x)
  {
    NextControl(s, a);
    hide Control;
    match a
    case DoTurn(i) => TurnConserves(s, i, x);
    case DoPush(i, task, woken) => PushConserves(s, i, task, woken, x);
    case DoFinish(i) => FinishConserves(s, i, x);
    case Spurious(i) => RunningSet(s.threads, x, i, AtLock);
  }

  lemma {:induction false} RunInvFor<T>(s: State<T>, run: seq<Action<T>>, x: T)
    requires Control(s) && Conserved(s, x) && Legal(s, run)
    ensures Control(Final(s, run)) && Conserved(Final(s, run), x)
    decreases |run|
  {
    if run != [] {
      NextInvFor(s, run[0], x);
      RunInvFor(Next(s, run[0]), run[1..], x);
    }
  }

  // ----- Whole runs -----

  ghost predicate Reachable<T>(tasks: seq<T>, n: nat, run: seq<Action<T>>, s: State<T>) {
    Legal(Init(tasks, n), run) && s == Final(Init(tasks, n), run)
  }

  lemma {:induction false} SameThreads<T>(s: State<T>, run: seq<Action<T>>)
    requires Legal(s, run)
    ensures |Final(s, run).threads| == |s.threads|
    decreases |run|
  {
    if run != [] { SameThreads(Next(s, run[0]), run[1..]); }
  }

  /** However `n` threads interleave: `in_flight` is the number of threads running a task;
      each task pushed is on the stack, being run or has been run, as often as it was
      pushed; and once a thread has returned, everything pushed has been run exactly once
      and nobody is left waiting. */
  lemma EveryTaskOnce<T>(tasks: seq<T>, n: nat, run: seq<Action<T>>, s: State<T>, x: T)
    requires Reachable(tasks, n, run, s)
    ensures s.d.inFlight == Count(s.threads, Busy)
    ensures Conserved(s, x)
    ensures SomeExited(s.threads) ==> s.d == Shared([], 0) && s.finished[x] == s.pushed[x] && !SomeWaiting(s.threads)
  {
    InitInv(tasks, n, x);
    RunInvFor(Init(tasks, n), run, x);
    if SomeExited(s.threads) {
      CountBound(s.threads, Busy);
      assert forall i :: 0 <= i < |s.threads| ==> !Is(s.threads[i], Busy);
      NoneRunning(s.threads, x);
    }
  }

  /** No wakeup is lost: as long as a thread has not returned, some thread that is not
      waiting can take its next step. */
  lemma SomeoneCanAct<T>(tasks: seq<T>, n: nat, run: seq<Action<T>>, s: State<T>, x: T)
    requires Reachable(tasks, n, run, s)
    ensures || (forall i :: 0 <= i < |s.threads| ==> s.threads[i].Exited?)
            || (exists i: nat :: i < |s.threads| && (Enabled(s, DoTurn(i)) || Enabled(s, DoFinish(i))))
  {
    InitInv(tasks, n, x);
    RunInvFor(Init(tasks, n), run, x);
    if i :| 0 <= i < |s.threads| && !s.threads[i].Exited? {
      if s.threads[i].AtLock? {
        assert Enabled(s, DoTurn(i));
      } else if s.threads[i].Executing? {
        assert Enabled(s, DoFinish(i));
      } else {
        CountBound(s.threads, Busy);
        var j :| 0 <= j < |s.threads| && Is(s.threads[j], Busy);
        assert Enabled(s, DoFinish(j));
      }
    }
  }

  /** Once a thread has returned nothing is ever pushed or run again. */
  lemma {:induction false} ReturnedIsForGood<T>(s: State<T>, run: seq<Action<T>>, x: T)
    requires Control(s) && Conserved(s, x) && SomeExited(s.threads) && Legal(s, run)
    ensures Final(s, run).d == Shared([], 0) && Final(s, run).pushed == s.pushed && Final(s, run).finished == s.finished
    ensures SomeExited(Final(s, run).threads)
    decreases |run|
  {
    if run != [] {
      NextInvFor(s, run[0], x);
      StaysExited(s, run[0]);
      ReturnedIsForGood(Next(s, run[0]), run[1..], x);
    }
  }

  lemma StaysExited<T>(s: State<T>, a: Action<T>)
    requires Control(s) && SomeExited(s.threads) && Enabled(s, a)
    ensures SomeExited(Next(s, a).threads) && Next(s, a).pushed == s.pushed && Next(s, a).finished == s.finished
  {
    CountBound(s.threads, Busy);
    assert !Is(s.threads[a.i], Busy);
    var j :| 0 <= j < |s.threads| && s.threads[j].Exited?;
    assert Next(s, a).threads[j].Exited?;
  }

  // ----- Termination -----

  /** Work left, threads left, threads at the lock: in this order each turn makes progress. */
  function Rank<T>(s: State<T>): nat {
    var m := |s.threads| + 1;
    ((2 * |s.d.tasks| + Count(s.threads, Busy)) * m + Count(s.threads, Live)) * m + Count(s.threads, Ready)
  }

  function Cost<T>(a: Action<T>, threads: nat): nat {
    match a
    case DoPush(_, _, _) => 2 * (threads + 1) * (threads + 1) + 2
    case Spurious(_) => 2
    case _ => 0
  }

  lemma Ranked(a: nat, b: nat, c: nat, a': nat, b': nat, c': nat, m: nat)
    requires b' < m && c' < m
    requires a' < a || (a' == a && b' < b) || (a' == a && b' == b && c' < c)
    ensures (a' * m + b') * m + c' < (a * m + b) * m + c
  {
    if a' < a { Carry(a', a, b', b, m); Carry(a' * m + b', a * m + b, c', c, m); }
    else if b' < b { Carry(a' * m + b', a * m + b, c', c, m); }
  }

  lemma Carry(a': nat, a: nat, b': nat, b: nat, m: nat)
    requires a' < a && b' < m
    ensures a' * m + b' < a * m + b
  {
    assert (a' + 1) * m <= a * m;
    assert (a' + 1) * m == a' * m + m;
  }

  lemma TurnRank<T>(s: State<T>, i: nat)
    requires i < |s.threads| && s.threads[i].AtLock?
    ensures Rank(Turned(s, i, s.d)) < Rank(s)
    ensures var s' := Turned(s, i, s.d);
        2 * |s'.d.tasks| + Count(s'.threads, Busy) <= 2 * |s.d.tasks| + Count(s.threads, Busy)
  {
    var s', m := Turned(s, i, s.d), |s.threads| + 1;
    CountBound(s'.threads, Live);
    CountBound(s'.threads, Ready);
    TurnCounts(s, i);
    hide Turned, Count, Decide;
    Ranked(2 * |s.d.tasks| + Count(s.threads, Busy), Count(s.threads, Live), Count(s.threads, Ready),
           2 * |s'.d.tasks| + Count(s'.threads, Busy), Count(s'.threads, Live), Count(s'.threads, Ready), m);
  }

  lemma TurnCounts<T>(s: State<T>, i: nat)
    requires i < |s.threads| && s.threads[i].AtLock?
    ensures var s' := Turned(s, i, s.d);
            var a, a' := 2 * |s.d.tasks| + Count(s.threads, Busy), 2 * |s'.d.tasks| + Count(s'.threads, Busy);
            && |s'.threads| == |s.threads|
            && (|| a' < a
                || (a' == a && Count(s'.threads, Live) < Count(s.threads, Live))
                || (a' == a && Count(s'.threads, Live) == Count(s.threads, Live) &&
                    Count(s'.threads, Ready) < Count(s.threads, Ready)))
  {
    var t := match Decide(s.d) case Take(task) => Executing(task) case Wait => Waiting case Quit => Exited;
    CountSet(s.threads, Busy, i, t);
    CountSet(s.threads, Live, i, t);
    CountSet(s.threads, Ready, i, t);
    if t.Exited? {
      WakeAllCounts(s.threads[i := t], Busy);
      WakeAllCounts(s.threads[i := t], Live);
    }
  }

  lemma FinishRank<T>(s: State<T>, i: nat)
    requires Control(s) && Enabled(s, DoFinish(i))
    ensures Rank(Next(s, DoFinish(i))) < Rank(s)
  {
    var b, s', m := Back(s, i), Next(s, DoFinish(i)), |s.threads| + 1;
    BackIs(s, i);
    CountSet(s.threads, Busy, i, AtLock);
    TurnRank(b, i);
    CountBound(s'.threads, Live);
    CountBound(s'.threads, Ready);
    SameCount(b, i);
    hide Turned, Count, Decide;
    Ranked(2 * |s.d.tasks| + Count(s.threads, Busy), Count(s.threads, Live), Count(s.threads, Ready),
           2 * |s'.d.tasks| + Count(s'.threads, Busy), Count(s'.threads, Live), Count(s'.threads, Ready), m);
  }

  lemma SameCount<T>(s: State<T>, i: nat)
    requires i < |s.threads|
    ensures |Turned(s, i, s.d).threads| == |s.threads|
  {
  }

  /** Every step makes progress that only pushes and spurious wakeups pay back. */
  lemma StepRank<T>(s: State<T>, a: Action<T>)
    requires Control(s) && Enabled(s, a)
    ensures Rank(Next(s, a)) + 1 <= Rank(s) + Cost(a, |s.threads|)
  {
    match a
    case DoTurn(i) => TurnRank(s, i);
    case DoFinish(i) => FinishRank(s, i);
    case Spurious(i) =>
      CountSet(s.threads, Busy, i, AtLock);
      CountSet(s.threads, Live, i, AtLock);
      CountSet(s.threads, Ready, i, AtLock);
    case DoPush(i, task, woken) =>
      var t' := Next(s, a).threads;
      if SomeWaiting(s.threads) {
        CountSet(s.threads, Busy, woken, AtLock);
        CountSet(s.threads, Live, woken, AtLock);
        CountSet(s.threads, Ready, woken, AtLock);
      }
      PushArithmetic(2 * |s.d.tasks| + Count(s.threads, Busy), Count(s.threads, Live), |s.threads| + 1);
  }

  lemma PushArithmetic(a: nat, b: nat, m: nat)
    ensures ((a + 2) * m + b) * m == (a * m + b) * m + 2 * m * m
  {
  }

  function TotalCost<T>(run: seq<Action<T>>, threads: nat): nat {
    if run == [] then 0 else Cost(run[0], threads) + TotalCost(run[1..], threads)
  }

  /** A run is no longer than what was on the stack and what was pushed allow: with finitely
      many pushes and spurious wakeups, all threads return. */
  lemma {:induction false} RunsEnd<T>(s: State<T>, run: seq<Action<T>>, x: T)
    requires Control(s) && Conserved(s, x) && Legal(s, run)
    ensures |run| <= Rank(s) + TotalCost(run, |s.threads|)
    decreases |run|
  {
    if run != [] {
      NextInvFor(s, run[0], x);
      StepRank(s, run[0]);
      RunsEnd(Next(s, run[0]), run[1..], x);
      assert |Next(s, run[0]).threads| == |s.threads|;
    }
  }
}
