/**
 The spawn-on-demand worker pool of `threadtools/_executor.py`: a queue and an idle count under
 one condition, workers that live until the pool is closed and drained.

 A step is one lock-held section, split at `wait`; a worker inside `wait` is blocked while it is
 in `waiters` and notified once it has left.  Starting a thread is taken to succeed.
 */
module WorkerPool {
  type Task = nat
  type WorkerId = nat

  datatype Worker =
    | Starting          // about to take the lock: just spawned, or done with a task
    | Waiting           // inside `wait`
    | Running(task: Task)
    | Exited

  datatype Exit = Inside | Marked | Joining(workers: set<WorkerId>) | Returned

  datatype State = State(
    isOpen: bool,
    closed: bool,
    queue: seq<Task>,
    idle: int,
    workerCount: nat,
    waiters: set<WorkerId>,
    workers: map<WorkerId, Worker>,
    exit: Exit,
    accepted: seq<Task>,     // every task submitted, oldest first; a task is its position here
    dequeued: seq<Task>,     // every task popped, oldest first
    finished: set<Task>)

  function Init(): State {
    State(false, false, [], 0, 0, {}, map[], Inside, [], [], {})
  }

  datatype Outcome = Accepted(task: Task) | NotOpen

  function EnterStep(s: State): State {
    if s.closed then s else s.(isOpen := true)
  }

  /** Appends the task, spawns a worker when none is idle, notifies one waiter. */
  function SubmitStep(s: State, pick: WorkerId): (State, Outcome) {
    if !s.isOpen || s.closed then (s, NotOpen)
    else
      var task := |s.accepted|;
      var s1 := s.(queue := s.queue + [task], accepted := s.accepted + [task], waiters := s.waiters - {pick});
      var s2 := if s.idle == 0
                then s1.(workers := s.workers[s.workerCount := Starting], workerCount := s.workerCount + 1)
                else s1;
      (s2, Accepted(task))
  }

  function MarkClosedStep(s: State): (State, bool) {
    if s.closed then (s, false) else (s.(closed := true, waiters := {}), true)
  }

  function Become(s: State, w: WorkerId, worker: Worker): State {
    s.(workers := s.workers[w := worker])
  }

  /** Past the wait loop: leave, or pop a task. */
  function Proceed(s: State, w: WorkerId): State {
    if s.queue == [] then Become(s, w, Exited)
    else Become(s, w, Running(s.queue[0])).(queue := s.queue[1..], dequeued := s.dequeued + [s.queue[0]])
  }

  /** The worker takes the lock at the top of its loop. */
  function ArriveStep(s: State, w: WorkerId): State {
    if s.queue == [] && !s.closed
    then Become(s, w, Waiting).(idle := s.idle + 1, waiters := s.waiters + {w})
    else Proceed(s, w)
  }

  /** `wait` returns and the loop condition is checked again. */
  function WakeStep(s: State, w: WorkerId): State {
    if s.queue == [] && !s.closed then s.(waiters := s.waiters + {w})
    else Proceed(s.(idle := s.idle - 1), w)
  }

  function FinishStep(s: State, w: WorkerId): State
    requires w in s.workers && s.workers[w].Running?
  {
    Become(s, w, Starting).(finished := s.finished + {s.workers[w].task})
  }

  datatype Action =
    | Enter
    | Submit(pick: WorkerId)
    | Stop
    | Arrive(w: WorkerId)
    | Wake(w: WorkerId)
    | Finish(w: WorkerId)
    | ExitMark
    | ExitList
    | ExitJoined

  predicate Is(s: State, w: WorkerId, worker: Worker) {
    w in s.workers && s.workers[w] == worker
  }

  predicate Enabled(s: State, a: Action) {
    match a
    case Enter => true
    case Submit(pick) => s.waiters != {} ==> pick in s.waiters
    case Stop => s.isOpen
    case Arrive(w) => Is(s, w, Starting)
    case Wake(w) => Is(s, w, Waiting) && w !in s.waiters
    case Finish(w) => w in s.workers && s.workers[w].Running?
    case ExitMark => s.exit == Inside
    case ExitList => s.exit == Marked
    case ExitJoined => s.exit.Joining? && forall w <- s.exit.workers :: Is(s, w, Exited)
  }

  function Apply(s: State, a: Action): State
    requires Enabled(s, a)
  {
    match a
    case Enter => EnterStep(s)
    case Submit(pick) => SubmitStep(s, pick).0
    case Stop => MarkClosedStep(s).0
    case Arrive(w) => ArriveStep(s, w)
    case Wake(w) => WakeStep(s, w)
    case Finish(w) => FinishStep(s, w)
    case ExitMark => MarkClosedStep(s).0.(exit := Marked)
    case ExitList => s.(exit := Joining(s.workers.Keys))
    case ExitJoined => s.(exit := Returned)
  }

  predicate Possible(s: State, run: seq<Action>)
    decreases |run|
  {
    run == [] || (Enabled(s, run[0]) && Possible(Apply(s, run[0]), run[1..]))
  }

  function After(s: State, run: seq<Action>): State
    requires Possible(s, run)
    decreases |run|
  {
    if run == [] then s else After(Apply(s, run[0]), run[1..])
  }

  ghost predicate Reachable(s: State) {
    exists run :: Possible(Init(), run) && s == After(Init(), run)
  }
}
