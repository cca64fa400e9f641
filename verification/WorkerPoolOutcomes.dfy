/** What each call on the pool and each section of a worker comes to, told by tasks and workers alone. */
module WorkerPoolOutcomes {
  import opened WorkerPool
  import opened WorkerPoolProofs

  /** Nobody but `w` has moved. */
  ghost predicate OnlyWorker(s: State, s': State, w: WorkerId) {
    forall u | u != w :: (u in s'.workers <==> u in s.workers) && (u in s.workers ==> s'.workers[u] == s.workers[u])
  }

  ghost predicate SomeIdle(s: State) {
    exists w :: w in s.workers && s.workers[w] == Waiting
  }

  lemma IdleIs(s: State)
    requires Reachable(s)
    ensures s.idle == 0 <==> !SomeIdle(s)
    ensures s.workerCount !in s.workers
  {
    ReachableInv(s);
    assert Roster(s.workers, s.workerCount, s.waiters, s.idle);
    if s.idle == 0 {
      assert Idle(s.workers) == {};
      assert forall w :: w in s.workers && s.workers[w] == Waiting ==> w in Idle(s.workers);
    } else {
      var w :| w in Idle(s.workers);
    }
  }

  /**
   `submit` takes a task exactly when the pool is open; the task is new and comes last.  Exactly when
   no worker waits for tasks a new one is started; and one blocked worker, if any, is notified.
   */
  lemma SubmitOutcome(s: State, pick: WorkerId)
    requires Reachable(s) && Enabled(s, Submit(pick))
    ensures var (s', r) := SubmitStep(s, pick);
      && (r.Accepted? <==> s.isOpen && !s.closed)
      && (r == NotOpen ==> s' == s)
      && (r.Accepted? ==>
            && r.task !in s.accepted && s'.accepted == s.accepted + [r.task] && s'.queue == s.queue + [r.task]
            && s'.dequeued == s.dequeued && s'.finished == s.finished
            && (SomeIdle(s) ==> s'.workers == s.workers)
            && (!SomeIdle(s) ==> s.workerCount !in s.workers && s'.workers == s.workers[s.workerCount := Starting])
            && (s.waiters != {} ==> pick in s.waiters && s'.waiters == s.waiters - {pick}))
  {
    ReachableInv(s);
    IdleIs(s);
    assert InOrder(s.accepted, s.dequeued, s.queue);
    hide Inv, Reachable, SomeIdle;
  }

  /** The section of a worker: it waits exactly on an empty queue, leaves exactly when the pool is closed as well. */
  ghost predicate Served(s: State, s': State, w: WorkerId) {
    && OnlyWorker(s, s', w) && w in s'.workers && s'.accepted == s.accepted && s'.finished == s.finished
    && (s'.workers[w] == Waiting && w in s'.waiters <==> s.queue == [] && !s.closed)
    && (s'.workers[w] == Exited <==> s.queue == [] && s.closed)
    && (s.queue == [] ==> s'.queue == [] && s'.dequeued == s.dequeued)
    && (s.queue != [] ==>
          && s'.workers[w] == Running(s.queue[0])
          && s'.dequeued == s.dequeued + [s.queue[0]] && [s.queue[0]] + s'.queue == s.queue)
  }

  lemma WorkerOutcome(s: State, w: WorkerId)
    ensures Enabled(s, Arrive(w)) ==> Served(s, Apply(s, Arrive(w)), w)
    ensures Enabled(s, Wake(w)) ==> Served(s, Apply(s, Wake(w)), w)
  {
    if s.queue != [] {
      assert [s.queue[0]] + s.queue[1..] == s.queue;
    }
  }

  /** A task is finished exactly when the worker that runs it is done with it. */
  lemma FinishedExactlyWhen(s: State, a: Action, task: Task)
    requires Reachable(s) && Enabled(s, a)
    ensures task !in s.finished && task in Apply(s, a).finished <==>
              task !in s.finished && a.Finish? && s.workers[a.w] == Running(task)
    ensures task in s.finished ==> task in Apply(s, a).finished
  {
    hide Reachable;
  }

  /** The pool is closed by the first call that asks for it, and wakes everyone; it opens unless it is closed. */
  lemma CloseOutcome(s: State)
    ensures var (s', first) := MarkClosedStep(s);
      && s'.closed && (first <==> !s.closed) && (first ==> s'.waiters == {})
      && s'.workers == s.workers && s'.queue == s.queue && s'.accepted == s.accepted && s'.isOpen == s.isOpen
    ensures Enabled(s, Enter) && (Apply(s, Enter).isOpen <==> s.isOpen || !s.closed)
  {
  }
}
