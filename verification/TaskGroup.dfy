/**
 The task group of `threadtools/_task_group.py`, on top of any executor.  `create_task` is four
 separate steps (check, submit, list, add the callback), and the drain loop of `__exit__` sees
 only what is listed.  Futures are numbered in the order they are submitted; exceptions are
 identities.  Tasks are created by the body of the `with` block and by tasks of the group.
 */
module TaskGroup {
  import opened Wrappers

  type Future = nat
  type Exc = nat

  datatype Status = Queued | Running | Succeeded | Failed(exc: Exc) | Cancelled

  datatype Creator = Body | Task(future: Future)

  /** How far a call of `create_task` has got. */
  datatype Creating = Checked | Submitted(future: Future) | Listed(future: Future)

  datatype Exit = Inside | Draining | Waiting(pending: set<Future>) | Drained | Exited

  datatype State = State(
    isOpen: bool,
    closed: bool,
    tasks: seq<Future>,
    created: nat,                     // how many futures there are
    status: map<Future, Status>,
    creating: map<Creator, Creating>,
    callbacks: set<Future>,           // `_on_done` is registered
    due: set<Future>,                 // `_on_done` has still to run
    exit: Exit,                       // where the thread of the body is
    bodyExc: Option<Exc>,
    raised: seq<Exc>,                 // what `__exit__` raises; nothing when empty
    listed: seq<Future>,              // every future ever appended to `_tasks`
    removed: set<Future>,             // futures `_on_done` has taken out again
    completed: seq<Future>)           // every future that is done, in the order of completion

  predicate Done(st: Status) {
    st.Succeeded? || st.Failed? || st.Cancelled?
  }

  function Init(): State {
    State(false, false, [], 0, map[], map[], {}, {}, Inside, None, [], [], {}, [])
  }

  function EnterStep(s: State): State {
    if s.closed then s else s.(isOpen := true)
  }

  // --- create_task

  function CheckStep(s: State, c: Creator): State {
    if s.closed || !s.isOpen then s else s.(creating := s.creating[c := Checked])
  }

  function SubmitStep(s: State, c: Creator): State {
    var f := s.created;
    s.(created := f + 1, status := s.status[f := Queued], creating := s.creating[c := Submitted(f)])
  }

  function ListStep(s: State, c: Creator): State
    requires c in s.creating && s.creating[c].Submitted?
  {
    var f := s.creating[c].future;
    s.(tasks := s.tasks + [f], listed := s.listed + [f], creating := s.creating[c := Listed(f)])
  }

  /** `add_done_callback`: due at once when the future is done already. */
  function AddCallbackStep(s: State, c: Creator): State
    requires c in s.creating && s.creating[c].Listed? && s.creating[c].future in s.status
  {
    var f := s.creating[c].future;
    var s1 := s.(creating := s.creating - {c});
    if Done(s.status[f]) then s1.(due := s.due + {f}) else s1.(callbacks := s.callbacks + {f})
  }

  // --- the executor

  function SettleStep(s: State, f: Future, st: Status): State {
    var s1 := s.(status := s.status[f := st], completed := s.completed + [f]);
    if f in s.callbacks then s1.(due := s.due + {f}, callbacks := s.callbacks - {f}) else s1
  }

  /** `list.remove` of an element, or nothing when it is not there. */
  function RemoveFirst(fs: seq<Future>, f: Future): seq<Future> {
    if fs == [] then [] else if fs[0] == f then fs[1..] else [fs[0]] + RemoveFirst(fs[1..], f)
  }

  /** `_on_done`: successes are forgotten, failures and cancellations stay. */
  function OnDoneStep(s: State, f: Future): State
    requires f in s.status
  {
    var s1 := s.(due := s.due - {f});
    if s.status[f].Succeeded? then s1.(tasks := RemoveFirst(s.tasks, f), removed := s.removed + {f}) else s1
  }

  // --- __exit__

  function BodyEndsStep(s: State, exc: Option<Exc>): State {
    s.(exit := Draining, bodyExc := exc)
  }

  function Pending(s: State): set<Future> {
    set f | f in s.tasks && f in s.status && !Done(s.status[f])
  }

  function DrainStep(s: State): State {
    s.(exit := if Pending(s) == {} then Drained else Waiting(Pending(s)))
  }

  /** The exceptions of the futures, cancelled ones skipped. */
  function ErrorsOf(fs: seq<Future>, status: map<Future, Status>): seq<Exc> {
    if fs == [] then []
    else if fs[0] in status && status[fs[0]].Failed? then [status[fs[0]].exc] + ErrorsOf(fs[1..], status)
    else ErrorsOf(fs[1..], status)
  }

  /** The body exception goes first, unless a task has raised the very same one. */
  function Merge(body: Option<Exc>, errors: seq<Exc>): seq<Exc> {
    if body.Some? && body.value !in errors then [body.value] + errors else errors
  }

  function CloseStep(s: State): State {
    s.(closed := true, exit := Exited, raised := Merge(s.bodyExc, ErrorsOf(s.tasks, s.status)))
  }

  // ------------------------------------------------------------------
  // Runs
  // ------------------------------------------------------------------

  datatype Action =
    | Enter
    | Check(c: Creator)
    | Submit(c: Creator)
    | SubmitFails(c: Creator)
    | List(c: Creator)
    | AddCallback(c: Creator)
    | Start(f: Future)
    | Cancel(f: Future)
    | Succeed(f: Future)
    | Fail(f: Future, exc: Exc)
    | OnDone(f: Future)
    | BodyEnds(bodyExc: Option<Exc>)
    | Drain
    | WaitReturns
    | Close

  predicate Is(s: State, f: Future, st: Status) {
    f in s.status && s.status[f] == st
  }

  /** The creator is running its own code. */
  predicate Free(s: State, c: Creator) {
    c !in s.creating && if c.Body? then s.exit == Inside else Is(s, c.future, Running)
  }

  predicate Enabled(s: State, a: Action) {
    match a
    case Enter => s.exit == Inside
    case Check(c) => Free(s, c)
    case Submit(c) => c in s.creating && s.creating[c] == Checked
    case SubmitFails(c) => c in s.creating && s.creating[c] == Checked
    case List(c) => c in s.creating && s.creating[c].Submitted?
    case AddCallback(c) => c in s.creating && s.creating[c].Listed? && s.creating[c].future in s.status
    case Start(f) => Is(s, f, Queued)
    case Cancel(f) => Is(s, f, Queued)
    case Succeed(f) => Free(s, Task(f))
    case Fail(f, _) => Free(s, Task(f))
    case OnDone(f) => f in s.due && f in s.status
    case BodyEnds(_) => Free(s, Body)
    case Drain => s.exit == Draining
    case WaitReturns => s.exit.Waiting? && forall f <- s.exit.pending :: f in s.status && Done(s.status[f])
    case Close => s.exit == Drained
  }

  function Apply(s: State, a: Action): State
    requires Enabled(s, a)
  {
    match a
    case Enter => EnterStep(s)
    case Check(c) => CheckStep(s, c)
    case Submit(c) => SubmitStep(s, c)
    case SubmitFails(c) => s.(creating := s.creating - {c})
    case List(c) => ListStep(s, c)
    case AddCallback(c) => AddCallbackStep(s, c)
    case Start(f) => s.(status := s.status[f := Running])
    case Cancel(f) => SettleStep(s, f, Cancelled)
    case Succeed(f) => SettleStep(s, f, Succeeded)
    case Fail(f, exc) => SettleStep(s, f, Failed(exc))
    case OnDone(f) => OnDoneStep(s, f)
    case BodyEnds(exc) => BodyEndsStep(s, exc)
    case Drain => DrainStep(s)
    case WaitReturns => s.(exit := Draining)
    case Close => CloseStep(s)
  }

  predicate Possible(s: State, run: seq<Action>)
    decreases |run|
  {
    run == [] || (Enabled(s, run[0]) && Possible(Apply(s, run[0]), run[1..]))
  }

  function After(s: State, run: seq<Action>): State
    requires Possible(s, run)
    decreases |run|
  {
    if run == [] then s else After(Apply(s, run[0]), run[1..])
  }

  ghost predicate Reachable(s: State) {
    exists run :: Possible(Init(), run) && s == After(Init(), run)
  }
}
