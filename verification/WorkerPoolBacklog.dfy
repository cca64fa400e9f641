/**
 The pool promises no backlog: a submitted task finds an idle worker or gets a new one.  The idle
 count includes workers already notified for an earlier task, so the promise holds exactly for
 callers that never have two tasks outstanding.
 */
module WorkerPoolBacklog {
  import opened WorkerPool
  import opened WorkerPoolProofs

  /** Workers that can take a task without finishing another one first. */
  ghost function Available(workers: Workers): set<WorkerId> {
    set w | w in workers && (workers[w] == Starting || workers[w] == Waiting)
  }

  ghost predicate NoBacklog(s: State) {
    |s.queue| <= |Available(s.workers)|
  }

  /** Tasks accepted and not yet run to their end. */
  function Outstanding(s: State): int {
    |s.accepted| - |s.finished|
  }

  ghost predicate AtMost(s: State, run: seq<Action>, k: int)
    requires Possible(s, run)
    decreases |run|
  {
    Outstanding(s) <= k && (run != [] ==> AtMost(Apply(s, run[0]), run[1..], k))
  }

  ghost predicate SafeFor(k: int) {
    forall run | Possible(Init(), run) && AtMost(Init(), run, k) :: NoBacklog(After(Init(), run))
  }

  // ------------------------------------------------------------------
  // One task at a time
  // ------------------------------------------------------------------

  /** Only dequeued tasks run or have finished, and a running task has not finished. */
  ghost predicate Progress(s: State) {
    && (forall task <- s.finished :: task in s.dequeued)
    && (forall w <- s.workers | s.workers[w].Running? ::
          s.workers[w].task in s.dequeued && s.workers[w].task !in s.finished)
    && (forall w <- s.workers, u <- s.workers | w != u && s.workers[w].Running? :: s.workers[u] != s.workers[w])
  }

  lemma PopProgress(s: State, w: WorkerId, idle: int)
    requires Inv(s) && Progress(s) && w in s.workers && !s.workers[w].Running?
    ensures Progress(Proceed(s.(idle := idle), w))
  {
    if s.queue != [] {
      var task := s.queue[0];
      assert s.accepted[|s.dequeued|] == task;
      forall other <- s.dequeued ensures other != task {
        var i :| 0 <= i < |s.dequeued| && s.dequeued[i] == other;
        assert s.accepted[i] == other;
      }
    }
  }

  lemma ProgressKept(s: State, a: Action)
    requires Inv(s) && Progress(s) && Enabled(s, a)
    ensures Progress(Apply(s, a))
  {
    match a
    case Arrive(w) =>
      assert s.(idle := s.idle) == s;
      PopProgress(s, w, s.idle);
    case Wake(w) => PopProgress(s, w, s.idle - 1);
    case _ =>
  }

  lemma {:induction false} RunProgress(s: State, run: seq<Action>)
    requires Inv(s) && Progress(s) && Possible(s, run)
    ensures Progress(After(s, run))
    decreases |run|
  {
    if run != [] {
      ProgressKept(s, run[0]);
      ActionKeeps(s, run[0]);
      RunProgress(Apply(s, run[0]), run[1..]);
    }
  }

  lemma {:induction false} LastAtMost(s: State, run: seq<Action>, k: int)
    requires Possible(s, run) && AtMost(s, run, k)
    ensures Outstanding(After(s, run)) <= k
    decreases |run|
  {
    if run != [] {
      LastAtMost(Apply(s, run[0]), run[1..], k);
    }
  }

  lemma {:induction false} AtMostAsLong(a: set<Task>, s: seq<Task>)
    requires forall x <- a :: x in s
    ensures |a| <= |s|
  {
    if s != [] {
      AtMostAsLong(a - {s[0]}, s[1..]);
    }
  }

  lemma OneAtATime(s: State)
    requires Inv(s) && Progress(s) && Outstanding(s) <= 1
    ensures NoBacklog(s)
  {
    AtMostAsLong(s.finished, s.dequeued);
    if s.queue != [] {
      var w :| w in s.workers.Keys;
      if s.workers[w].Running? {
        AtMostAsLong(s.finished + {s.workers[w].task}, s.dequeued);
      }
      assert w in Available(s.workers);
    }
  }

  // ------------------------------------------------------------------
  // Two tasks
  // ------------------------------------------------------------------

  function Stage(worker: Worker, queue: seq<Task>, idle: int, waiters: set<WorkerId>, dequeued: seq<Task>,
                 finished: set<Task>): State {
    State(true, false, queue, idle, 1, waiters, map[0 := worker], Inside, dequeued + queue, dequeued, finished)
  }

  /** One worker rests; two tasks arrive before it wakes; it takes the first, and the second is alone. */
  function Behind(i: nat): State {
    if i == 0 then Init()
    else if i == 1 then Init().(isOpen := true)
    else if i == 2 then Stage(Starting, [0], 0, {}, [], {})
    else if i == 3 then Stage(Running(0), [], 0, {}, [0], {})
    else if i == 4 then Stage(Starting, [], 0, {}, [0], {0})
    else if i == 5 then Stage(Waiting, [], 1, {0}, [0], {0})
    else if i == 6 then Stage(Waiting, [1], 1, {}, [0], {0})
    else if i == 7 then Stage(Waiting, [1, 2], 1, {}, [0], {0})
    else Stage(Running(1), [2], 0, {}, [0, 1], {0})
  }

  const BLOCKING: seq<Action> := [Enter, Submit(0), Arrive(0), Finish(0), Arrive(0), Submit(0), Submit(0), Wake(0)]

  lemma BehindStep(i: nat)
    requires i < 8
    ensures Enabled(Behind(i), BLOCKING[i]) && Apply(Behind(i), BLOCKING[i]) == Behind(i + 1)
  {
  }

  lemma {:induction false} Snoc(s: State, run: seq<Action>, a: Action, k: int)
    requires Possible(s, run) && AtMost(s, run, k) && Enabled(After(s, run), a)
    requires Outstanding(Apply(After(s, run), a)) <= k
    ensures Possible(s, run + [a]) && AtMost(s, run + [a], k)
    ensures After(s, run + [a]) == Apply(After(s, run), a)
    decreases |run|
  {
    if run == [] {
      assert run + [a] == [a];
    } else {
      assert (run + [a])[1..] == run[1..] + [a];
      Snoc(Apply(s, run[0]), run[1..], a, k);
    }
  }

  lemma {:induction false} BehindRun(n: nat, k: int)
    requires n <= 8 && k >= 2
    ensures Possible(Init(), BLOCKING[..n]) && AtMost(Init(), BLOCKING[..n], k)
    ensures After(Init(), BLOCKING[..n]) == Behind(n)
  {
    assert Outstanding(Behind(n)) <= 2;
    if n > 0 {
      hide Behind, Apply, Enabled;
      BehindRun(n - 1, k);
      BehindStep(n - 1);
      assert BLOCKING[..n] == BLOCKING[..n - 1] + [BLOCKING[n - 1]];
      Snoc(Init(), BLOCKING[..n - 1], BLOCKING[n - 1], k);
    } else {
      assert BLOCKING[..n] == [];
    }
  }

  /** A task sits behind a busy worker: nobody idle, nobody starting, and no worker was spawned for it. */
  lemma TaskBehindBusyWorker() returns (s: State)
    ensures Reachable(s) && s.isOpen && !s.closed
    ensures s.queue == [2] && s.workers == map[0 := Running(1)]
  {
    BehindReachable(8);
    s := Behind(8);
  }

  lemma BehindReachable(n: nat)
    requires n <= 8
    ensures Reachable(Behind(n))
  {
    hide Behind, Possible, After;
    BehindRun(n, 2);
  }

  /** No backlog for exactly those callers that keep at most one task outstanding. */
  lemma BacklogFreeExactlyForOneTask(k: int)
    ensures SafeFor(k) <==> k <= 1
  {
    if k <= 1 {
      forall run | Possible(Init(), run) && AtMost(Init(), run, k) ensures NoBacklog(After(Init(), run)) {
        InitInv();
        RunKeeps(Init(), run);
        RunProgress(Init(), run);
        LastAtMost(Init(), run, k);
        OneAtATime(After(Init(), run));
      }
    } else {
      BehindRun(8, k);
      assert Available(Behind(8).workers) == {};
    }
  }
}
