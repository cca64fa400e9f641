/**
 The pool as the object the source updates under its condition.  Each method is one lock-held
 section, proved against the step function it names; `pick` is the worker `notify` wakes.
 */
module WorkerPoolObject {
  import opened WorkerPool
  import opened WorkerPoolProofs

  class WorkerExecutor {
    var isOpen: bool
    var closed: bool
    var queue: seq<Task>
    var idle: int
    var workerCount: nat
    var waiters: set<WorkerId>
    ghost var workers: map<WorkerId, Worker>
    ghost var exit: Exit
    ghost var accepted: seq<Task>
    ghost var dequeued: seq<Task>
    ghost var finished: set<Task>
    var submitted: nat      // names the next task

    ghost function View(): State
      reads this
    {
      State(isOpen, closed, queue, idle, workerCount, waiters, workers, exit, accepted, dequeued, finished)
    }

    ghost predicate Valid()
      reads this
    {
      Inv(View()) && submitted == |accepted|
    }

    constructor ()
      ensures Valid() && View() == Init()
    {
      isOpen, closed, queue, idle, workerCount, waiters := false, false, [], 0, 0, {};
      workers, exit, accepted, dequeued, finished, submitted := map[], Inside, [], [], {}, 0;
      new;
      InitInv();
    }

    /** `submit`; `pick` is the waiter that `notify` chooses. */
    method Submit(pick: WorkerId) returns (r: Outcome)
      requires Valid() && Enabled(View(), Action.Submit(pick))
      modifies this
      ensures Valid() && (View(), r) == SubmitStep(old(View()), pick)
    {
      SubmitKeeps(View(), pick);
      hide Inv, Enabled;
      if !isOpen || closed {
        return NotOpen;
      }
      var task := Dispatch(pick);
      r := Accepted(task);
    }

    /** What `submit` does when the pool takes tasks. */
    method Dispatch(pick: WorkerId) returns (task: Task)
      requires isOpen && !closed && submitted == |accepted|
      modifies this
      ensures task == old(submitted) && submitted == |accepted|
      ensures (View(), Accepted(task)) == SubmitStep(old(View()), pick)
    {
      task := Enqueue();
      if idle == 0 {
        SpawnWorker();
      }
      waiters := waiters - {pick};
    }

    method Enqueue() returns (task: Task)
      requires submitted == |accepted|
      modifies this
      ensures task == old(submitted) && submitted == |accepted|
      ensures View() == old(View()).(queue := old(queue) + [task], accepted := old(accepted) + [task])
    {
      task := submitted;
      queue, accepted, submitted := queue + [task], accepted + [task], submitted + 1;
    }

    method SpawnWorker()
      modifies this
      ensures View() == old(View()).(workers := old(workers)[old(workerCount) := Starting],
                                     workerCount := old(workerCount) + 1)
      ensures submitted == old(submitted)
    {
      workers, workerCount := workers[workerCount := Starting], workerCount + 1;
    }

    /** `_mark_closed` */
    method MarkClosed() returns (first: bool)
      requires Valid()
      modifies this
      ensures Valid() && (View(), first) == MarkClosedStep(old(View()))
    {
      if closed {
        return false;
      }
      closed, waiters := true, {};
      first := true;
    }

    /** The end of the section of `_run_worker`: `None` when the worker leaves. */
    method TakeOrLeave(w: WorkerId) returns (task: Task, more: bool)
      modifies this
      ensures View() == Proceed(old(View()), w) && submitted == old(submitted)
      ensures more <==> old(queue) != []
      ensures more ==> task == old(queue)[0]
    {
      more, task := queue != [], 0;
      workers := workers[w := if more then Running(queue[0]) else Exited];
      if more {
        task := queue[0];
        queue, dequeued := queue[1..], dequeued + [queue[0]];
      }
    }

    /** `wait`: the worker blocks. */
    method Park(w: WorkerId)
      modifies this`workers, this`waiters
      ensures View() == old(View()).(workers := old(workers)[w := Waiting], waiters := old(waiters) + {w})
    {
      workers, waiters := workers[w := Waiting], waiters + {w};
    }

    /** A worker enters the section, and waits or goes on. */
    method Arrive(w: WorkerId) returns (waits: bool, task: Task, more: bool)
      requires Valid() && Enabled(View(), Action.Arrive(w))
      modifies this
      ensures Valid() && View() == ArriveStep(old(View()), w)
      ensures waits <==> old(queue) == [] && !closed
      ensures !waits && more ==> workers[w] == Running(task)
    {
      ArriveKeeps(View(), w);
      hide Inv, Proceed;
      waits, task, more := queue == [] && !closed, 0, false;
      idle := idle + 1;
      if waits {
        Park(w);
      } else {
        idle := idle - 1;
        task, more := TakeOrLeave(w);
      }
    }

    /** A worker comes back from `wait`. */
    method Wake(w: WorkerId) returns (waits: bool, task: Task, more: bool)
      requires Valid() && Enabled(View(), Action.Wake(w))
      modifies this
      ensures Valid() && View() == WakeStep(old(View()), w)
      ensures waits <==> old(queue) == [] && !closed
      ensures !waits && more ==> workers[w] == Running(task)
    {
      WakeKeeps(View(), w);
      hide Inv;
      waits, task, more := queue == [] && !closed, 0, false;
      if waits {
        waiters := waiters + {w};
      } else {
        idle := idle - 1;
        task, more := TakeOrLeave(w);
      }
    }
  }
}
