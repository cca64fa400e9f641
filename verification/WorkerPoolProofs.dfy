/** What every interleaving of submitters, workers and the closing thread keeps. */
module WorkerPoolProofs {
  import opened WorkerPool

  type Workers = map<WorkerId, Worker>

  ghost function Idle(workers: Workers): set<WorkerId> {
    set w | w in workers && workers[w] == Waiting
  }

  ghost function Notified(workers: Workers, waiters: set<WorkerId>): set<WorkerId> {
    set w | w in workers && workers[w] == Waiting && w !in waiters
  }

  ghost predicate Runs(workers: Workers, task: Task) {
    exists w :: w in workers && workers[w] == Running(task)
  }

  ghost predicate Roster(workers: Workers, workerCount: nat, waiters: set<WorkerId>, idle: int) {
    && (forall w <- workers :: w < workerCount)
    && (forall w <- waiters :: w in workers && workers[w] == Waiting)
    && idle == |Idle(workers)|
  }

  /** No lost wakeup: while a worker is blocked, notified workers are on the way to every task. */
  ghost predicate NoLostWakeup(queue: seq<Task>, workers: Workers, waiters: set<WorkerId>) {
    waiters != {} ==> |queue| <= |Notified(workers, waiters)|
  }

  predicate InOrder(accepted: seq<Task>, dequeued: seq<Task>, queue: seq<Task>) {
    && accepted == dequeued + queue
    && forall i | 0 <= i < |accepted| :: accepted[i] == i
  }

  ghost predicate NoneDropped(dequeued: seq<Task>, finished: set<Task>, workers: Workers) {
    forall task <- dequeued :: task in finished || Runs(workers, task)
  }

  /** Workers leave only a closed and drained pool, and a task in the queue has someone to come for it. */
  ghost predicate Staffed(closed: bool, queue: seq<Task>, workers: Workers) {
    && (forall w <- workers | workers[w] == Exited :: closed && queue == [])
    && (queue != [] ==> workers.Keys != {})
  }

  predicate Closing(s: State) {
    && (s.closed ==> s.waiters == {})
    && (s.exit != Inside ==> s.closed)
    && (s.exit.Joining? ==> s.exit.workers == s.workers.Keys)
    && (s.exit == Returned ==> forall w <- s.workers :: s.workers[w] == Exited)
  }

  ghost predicate Inv(s: State) {
    && Roster(s.workers, s.workerCount, s.waiters, s.idle)
    && NoLostWakeup(s.queue, s.workers, s.waiters)
    && InOrder(s.accepted, s.dequeued, s.queue)
    && NoneDropped(s.dequeued, s.finished, s.workers)
    && Staffed(s.closed, s.queue, s.workers)
    && Closing(s)
  }

  lemma InitInv()
    ensures Inv(Init())
  {
  }

  lemma RunsStays(workers: Workers, w: WorkerId, worker: Worker)
    ensures forall task :: Runs(workers, task) && !(w in workers && workers[w] == Running(task)) ==>
                             Runs(workers[w := worker], task)
    ensures worker.Running? ==> Runs(workers[w := worker], worker.task)
  {
    var workers' := workers[w := worker];
    forall task | Runs(workers, task) && !(w in workers && workers[w] == Running(task))
      ensures Runs(workers', task)
    {
      var u :| u in workers && workers[u] == Running(task);
      assert u in workers' && workers'[u] == Running(task);
    }
    assert w in workers' && workers'[w] == worker;
  }

  lemma SubmitWakes(s: State, pick: WorkerId)
    requires Inv(s) && Enabled(s, Submit(pick)) && s.isOpen && !s.closed
    ensures var s' := SubmitStep(s, pick).0;
      Roster(s'.workers, s'.workerCount, s'.waiters, s'.idle) && NoLostWakeup(s'.queue, s'.workers, s'.waiters)
  {
    var s' := SubmitStep(s, pick).0;
    hide InOrder, NoneDropped, Staffed, Closing, Runs;
    assert Idle(s'.workers) == Idle(s.workers);
    if s.waiters != {} {
      assert Notified(s'.workers, s'.waiters) == Notified(s.workers, s.waiters) + {pick};
    }
  }

  lemma SubmitRuns(s: State, pick: WorkerId)
    requires Inv(s) && s.isOpen && !s.closed
    ensures var s' := SubmitStep(s, pick).0; NoneDropped(s'.dequeued, s'.finished, s'.workers)
  {
    hide Roster, NoLostWakeup, InOrder, Staffed, Closing;
    RunsStays(s.workers, s.workerCount, Starting);
    NextIsFresh(s);
    hide Runs;
  }

  lemma NextIsFresh(s: State)
    requires Roster(s.workers, s.workerCount, s.waiters, s.idle)
    ensures s.workerCount !in s.workers
  {
  }

  lemma SubmitStaffs(s: State, pick: WorkerId)
    requires Inv(s) && s.isOpen && !s.closed
    ensures var s' := SubmitStep(s, pick).0;
      InOrder(s'.accepted, s'.dequeued, s'.queue) && Staffed(s'.closed, s'.queue, s'.workers) && Closing(s')
  {
    var s' := SubmitStep(s, pick).0;
    hide NoLostWakeup, NoneDropped, Notified;
    if s.idle != 0 {
      var w :| w in Idle(s.workers);
      assert w in s'.workers;
    } else {
      assert s.workerCount in s'.workers;
    }
  }

  lemma SubmitKeeps(s: State, pick: WorkerId)
    requires Inv(s) && Enabled(s, Submit(pick))
    ensures Inv(SubmitStep(s, pick).0)
  {
    if s.isOpen && !s.closed {
      SubmitWakes(s, pick);
      SubmitRuns(s, pick);
      SubmitStaffs(s, pick);
      hide Roster, NoLostWakeup, InOrder, NoneDropped, Staffed, Closing;
    }
  }

  /** Leaving the wait loop, `w` is no longer idle, notified or about to take the lock. */
  lemma LeavesLoop(workers: Workers, waiters: set<WorkerId>, w: WorkerId, worker: Worker)
    requires w in workers && w !in waiters && !workers[w].Running? && worker != Waiting
    ensures Idle(workers[w := worker]) == Idle(workers) - {w}
    ensures Notified(workers[w := worker], waiters) == Notified(workers, waiters) - {w}
    ensures forall task :: Runs(workers, task) ==> Runs(workers[w := worker], task)
    ensures worker.Running? ==> Runs(workers[w := worker], worker.task)
  {
    RunsStays(workers, w, worker);
  }

  lemma LeaveKeeps(s: State, w: WorkerId, idle: int)
    requires Inv(s) && w in s.workers && s.queue == [] && s.closed
    requires s.workers[w] == Starting || s.workers[w] == Waiting
    requires idle == if s.workers[w] == Waiting then s.idle - 1 else s.idle
    ensures Inv(Become(s.(idle := idle), w, Exited))
  {
    LeavesLoop(s.workers, s.waiters, w, Exited);
    hide Runs;
  }

  lemma PopKeeps(s: State, w: WorkerId, idle: int)
    requires Inv(s) && w in s.workers && s.queue != []
    requires s.workers[w] == Starting || (s.workers[w] == Waiting && w !in s.waiters)
    requires idle == if s.workers[w] == Waiting then s.idle - 1 else s.idle
    ensures Inv(Proceed(s.(idle := idle), w))
  {
    hide Runs, InOrder, NoneDropped, NoLostWakeup, Notified;
    LeavesLoop(s.workers, s.waiters, w, Running(s.queue[0]));
    PopInOrder(s.accepted, s.dequeued, s.queue);
    PopNotDropped(s, w);
    PopNoLost(s, w);
    PopRoster(s, w, idle);
    PopCloses(s, w, idle);
    hide Roster, Staffed, Closing;
  }

  lemma PopRoster(s: State, w: WorkerId, idle: int)
    requires Roster(s.workers, s.workerCount, s.waiters, s.idle) && Staffed(s.closed, s.queue, s.workers)
    requires w in s.workers && s.queue != []
    requires s.workers[w] == Starting || (s.workers[w] == Waiting && w !in s.waiters)
    requires idle == if s.workers[w] == Waiting then s.idle - 1 else s.idle
    ensures Roster(s.workers[w := Running(s.queue[0])], s.workerCount, s.waiters, idle)
    ensures Staffed(s.closed, s.queue[1..], s.workers[w := Running(s.queue[0])])
  {
    hide Runs, Notified;
    LeavesLoop(s.workers, s.waiters, w, Running(s.queue[0]));
  }

  lemma PopCloses(s: State, w: WorkerId, idle: int)
    requires Closing(s) && w in s.workers && s.queue != [] && !s.workers[w].Running? && s.workers[w] != Exited
    ensures Closing(Proceed(s.(idle := idle), w))
  {
    assert s.workers[w := Running(s.queue[0])].Keys == s.workers.Keys;
  }

  lemma PopNoLost(s: State, w: WorkerId)
    requires NoLostWakeup(s.queue, s.workers, s.waiters) && s.queue != []
    requires w in s.workers && w !in s.waiters && !s.workers[w].Running?
    ensures NoLostWakeup(s.queue[1..], s.workers[w := Running(s.queue[0])], s.waiters)
  {
    LeavesLoop(s.workers, s.waiters, w, Running(s.queue[0]));
  }

  lemma PopInOrder(accepted: seq<Task>, dequeued: seq<Task>, queue: seq<Task>)
    requires InOrder(accepted, dequeued, queue) && queue != []
    ensures InOrder(accepted, dequeued + [queue[0]], queue[1..])
  {
    assert dequeued + [queue[0]] + queue[1..] == dequeued + queue;
  }

  lemma PopNotDropped(s: State, w: WorkerId)
    requires NoneDropped(s.dequeued, s.finished, s.workers) && s.queue != []
    requires w in s.workers ==> !s.workers[w].Running?
    ensures NoneDropped(s.dequeued + [s.queue[0]], s.finished, s.workers[w := Running(s.queue[0])])
  {
    RunsStays(s.workers, w, Running(s.queue[0]));
  }

  lemma ProceedKeeps(s: State, w: WorkerId, idle: int)
    requires Inv(s) && w in s.workers && (s.queue != [] || s.closed)
    requires s.workers[w] == Starting || (s.workers[w] == Waiting && w !in s.waiters)
    requires idle == if s.workers[w] == Waiting then s.idle - 1 else s.idle
    ensures Inv(Proceed(s.(idle := idle), w))
  {
    hide Inv;
    if s.queue == [] {
      LeaveKeeps(s, w, idle);
    } else {
      PopKeeps(s, w, idle);
    }
  }

  lemma ArriveKeeps(s: State, w: WorkerId)
    requires Inv(s) && Is(s, w, Starting)
    ensures Inv(ArriveStep(s, w))
  {
    if s.queue == [] && !s.closed {
      var s' := ArriveStep(s, w);
      RunsStays(s.workers, w, Waiting);
      assert Idle(s'.workers) == Idle(s.workers) + {w};
    } else {
      assert s.(idle := s.idle) == s;
      ProceedKeeps(s, w, s.idle);
    }
  }

  lemma WakeKeeps(s: State, w: WorkerId)
    requires Inv(s) && Is(s, w, Waiting) && w !in s.waiters
    ensures Inv(WakeStep(s, w))
  {
    if s.queue != [] || s.closed {
      ProceedKeeps(s, w, s.idle - 1);
    }
  }

  lemma FinishKeeps(s: State, w: WorkerId)
    requires Inv(s) && Enabled(s, Finish(w))
    ensures Inv(FinishStep(s, w))
  {
    var s' := FinishStep(s, w);
    RunsStays(s.workers, w, Starting);
    assert Idle(s'.workers) == Idle(s.workers);
    assert Notified(s'.workers, s'.waiters) == Notified(s.workers, s.waiters);
  }

  lemma ActionKeeps(s: State, a: Action)
    requires Inv(s) && Enabled(s, a)
    ensures Inv(Apply(s, a))
  {
    match a
    case Submit(pick) => SubmitKeeps(s, pick);
    case Arrive(w) => ArriveKeeps(s, w);
    case Wake(w) => WakeKeeps(s, w);
    case Finish(w) => FinishKeeps(s, w);
    case _ =>
  }

  lemma {:induction false} RunKeeps(s: State, run: seq<Action>)
    requires Inv(s) && Possible(s, run)
    ensures Inv(After(s, run))
    decreases |run|
  {
    if run != [] {
      ActionKeeps(s, run[0]);
      RunKeeps(Apply(s, run[0]), run[1..]);
    }
  }

  lemma ReachableInv(s: State)
    requires Reachable(s)
    ensures Inv(s)
  {
    var run :| Possible(Init(), run) && s == After(Init(), run);
    InitInv();
    RunKeeps(Init(), run);
  }

  // ------------------------------------------------------------------
  // Guarantees
  // ------------------------------------------------------------------

  /** Tasks start in the order submitted, each exactly once. */
  lemma FifoExactlyOnce(s: State)
    requires Reachable(s)
    ensures s.accepted == s.dequeued + s.queue
    ensures forall i, j | 0 <= i < j < |s.dequeued| :: s.dequeued[i] != s.dequeued[j]
  {
    ReachableInv(s);
    forall i, j | 0 <= i < j < |s.dequeued| ensures s.dequeued[i] != s.dequeued[j] {
      assert s.accepted[i] == i && s.accepted[j] == j;
    }
  }

  lemma NoLostWakeups(s: State)
    requires Reachable(s) && s.waiters != {}
    ensures |s.queue| <= |Notified(s.workers, s.waiters)|
  {
    ReachableInv(s);
  }

  /** A queued task always has a worker that is not blocked on the condition. */
  lemma QueueIsServed(s: State) returns (w: WorkerId)
    requires Reachable(s) && s.queue != []
    ensures w in s.workers && w !in s.waiters && s.workers[w] != Exited
  {
    ReachableInv(s);
    if s.waiters == {} {
      w :| w in s.workers;
    } else {
      w :| w in Notified(s.workers, s.waiters);
    }
  }

  /** `__exit__` returns only when everything ever accepted has been run to its end. */
  lemma ExitDrains(s: State)
    requires Reachable(s) && s.exit == Returned
    ensures s.queue == [] && forall task <- s.accepted :: task in s.finished
  {
    ReachableInv(s);
    assert s.accepted == s.dequeued;
  }

  /** ... and nothing is accepted afterwards. */
  lemma ClosedForGood(s: State, pick: WorkerId)
    requires Reachable(s) && s.exit == Returned
    ensures SubmitStep(s, pick) == (s, NotOpen)
  {
    ReachableInv(s);
  }
}
