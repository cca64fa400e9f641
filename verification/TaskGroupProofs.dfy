/** What every interleaving of the body, the tasks, the executor and the callbacks keeps. */
module TaskGroupProofs {
  import opened Wrappers
  import opened TaskGroup

  type Futures = map<Future, Status>
  type Calls = map<Creator, Creating>

  /** Futures are numbered without gaps. */
  ghost predicate Numbered(status: Futures, created: nat) {
    forall f: nat :: f in status <==> f < created
  }

  /** A call of `create_task` runs on behalf of someone who is running, and on a younger future. */
  ghost predicate Callers(status: Futures, creating: Calls, exit: Exit) {
    && (forall c <- creating :: if c.Body? then exit == Inside else c.future in status && status[c.future] == Running)
    && (forall c <- creating | !creating[c].Checked? :: creating[c].future in status)
    && (forall c <- creating | c.Task? && !creating[c].Checked? :: c.future < creating[c].future)
  }

  predicate NoDuplicates(fs: seq<Future>) {
    forall i, j | 0 <= i < j < |fs| :: fs[i] != fs[j]
  }

  function Minus(fs: seq<Future>, gone: set<Future>): seq<Future> {
    if fs == [] then []
    else if fs[0] in gone then Minus(fs[1..], gone)
    else [fs[0]] + Minus(fs[1..], gone)
  }

  ghost predicate BeingSubmitted(creating: Calls, f: Future) {
    exists c :: c in creating && creating[c] == Submitted(f)
  }

  /** Every future is listed once, or is about to be; the list forgets nothing but successes. */
  ghost predicate Lists(s: State) {
    && NoDuplicates(s.listed)
    && (forall f <- s.listed :: f in s.status)
    && (forall f <- s.status :: f in s.listed || BeingSubmitted(s.creating, f))
    && (forall f <- s.listed :: !BeingSubmitted(s.creating, f))
    && s.tasks == Minus(s.listed, s.removed)
    && (forall f <- s.removed :: f in s.status && s.status[f].Succeeded?)
  }

  /** `_on_done` is only ever attached to, due for, or done with listed futures. */
  ghost predicate Hooks(s: State) {
    && (forall f <- s.callbacks :: f in s.listed)
    && (forall f <- s.due :: f in s.listed)
    && (forall f <- s.removed :: f in s.listed)
    && (forall c <- s.creating | s.creating[c].Listed? :: s.creating[c].future in s.listed)
  }

  ghost predicate OneSubmitter(creating: Calls) {
    forall c <- creating, d <- creating | c != d && creating[c].Submitted? :: creating[c] != creating[d]
  }

  predicate AllDone(status: Futures) {
    forall f <- status :: Done(status[f])
  }

  predicate Exits(s: State) {
    && (s.exit == Drained || s.exit == Exited ==> AllDone(s.status) && s.creating == map[])
    && (s.closed <==> s.exit == Exited)
    && (s.exit == Exited ==> s.raised == Merge(s.bodyExc, ErrorsOf(s.listed, s.status)))
  }

  ghost predicate Inv(s: State) {
    && Numbered(s.status, s.created)
    && Callers(s.status, s.creating, s.exit)
    && Lists(s)
    && Hooks(s)
    && OneSubmitter(s.creating)
    && Exits(s)
  }

  lemma InitInv()
    ensures Inv(Init())
  {
  }

  // --- create_task

  lemma CallMoves(creating: Calls, c: Creator, call: Creating)
    ensures forall f :: BeingSubmitted(creating, f) && !(c in creating && creating[c] == Submitted(f)) ==>
                          BeingSubmitted(creating[c := call], f) && BeingSubmitted(creating - {c}, f)
    ensures call.Submitted? ==> BeingSubmitted(creating[c := call], call.future)
  {
    forall f | BeingSubmitted(creating, f) && !(c in creating && creating[c] == Submitted(f))
      ensures BeingSubmitted(creating[c := call], f) && BeingSubmitted(creating - {c}, f)
    {
      var d :| d in creating && creating[d] == Submitted(f);
      assert d in creating[c := call] && creating[c := call][d] == Submitted(f);
      assert d in creating - {c} && (creating - {c})[d] == Submitted(f);
    }
    assert c in creating[c := call] && creating[c := call][c] == call;
  }

  lemma CheckKeeps(s: State, c: Creator)
    requires Inv(s) && Free(s, c)
    ensures Inv(CheckStep(s, c))
  {
    CallMoves(s.creating, c, Checked);
  }

  lemma SubmitKeeps(s: State, c: Creator)
    requires Inv(s) && c in s.creating && s.creating[c] == Checked
    ensures Inv(SubmitStep(s, c))
  {
    hide OneSubmitter, Lists, Hooks;
    assert !(s.exit == Drained || s.exit == Exited);
    hide Callers;
    SubmitKeepsCalls(s, c);
    SubmitKeepsLists(s, c);
  }

  lemma SubmitKeepsLists(s: State, c: Creator)
    requires Numbered(s.status, s.created) && Lists(s) && Hooks(s) && c in s.creating && s.creating[c] == Checked
    requires Callers(s.status, s.creating, s.exit)
    ensures Lists(SubmitStep(s, c)) && Hooks(SubmitStep(s, c))
  {
    CallMoves(s.creating, c, Submitted(s.created));
  }

  lemma SubmitKeepsCalls(s: State, c: Creator)
    requires Numbered(s.status, s.created) && Callers(s.status, s.creating, s.exit) && OneSubmitter(s.creating)
    requires c in s.creating
    ensures Callers(SubmitStep(s, c).status, SubmitStep(s, c).creating, s.exit)
    ensures OneSubmitter(SubmitStep(s, c).creating)
  {
  }

  lemma ListKeeps(s: State, c: Creator)
    requires Inv(s) && c in s.creating && s.creating[c].Submitted?
    ensures Inv(ListStep(s, c))
  {
    ListKeepsLists(s, c);
    ListKeepsCalls(s, c);
    hide Lists, Callers, OneSubmitter, Hooks;
    var s' := ListStep(s, c);
    assert s'.creating.Keys == s.creating.Keys;
  }

  lemma ListKeepsCalls(s: State, c: Creator)
    requires Callers(s.status, s.creating, s.exit) && OneSubmitter(s.creating) && Hooks(s)
    requires c in s.creating && s.creating[c].Submitted?
    ensures Callers(s.status, ListStep(s, c).creating, s.exit) && OneSubmitter(ListStep(s, c).creating)
    ensures Hooks(ListStep(s, c))
  {
  }

  lemma ListKeepsLists(s: State, c: Creator)
    requires Lists(s) && OneSubmitter(s.creating) && c in s.creating && s.creating[c].Submitted?
    requires s.creating[c].future in s.status && Hooks(s)
    ensures Lists(ListStep(s, c))
  {
    var f := s.creating[c].future;
    CallMoves(s.creating, c, Listed(f));
    MinusSnoc(s.listed, f, s.removed);
    assert BeingSubmitted(s.creating, f);
  }

  lemma {:induction false} MinusSnoc(fs: seq<Future>, f: Future, gone: set<Future>)
    ensures Minus(fs + [f], gone) == Minus(fs, gone) + if f in gone then [] else [f]
  {
    if fs == [] {
      assert fs + [f] == [f];
    } else {
      assert (fs + [f])[1..] == fs[1..] + [f];
      MinusSnoc(fs[1..], f, gone);
    }
  }

  lemma AddCallbackKeeps(s: State, c: Creator)
    requires Inv(s) && Enabled(s, AddCallback(c))
    ensures Inv(AddCallbackStep(s, c))
  {
    CallMoves(s.creating, c, Checked);
  }

  lemma SubmitFailsKeeps(s: State, c: Creator)
    requires Inv(s) && c in s.creating && s.creating[c] == Checked
    ensures Inv(s.(creating := s.creating - {c}))
  {
    CallMoves(s.creating, c, Checked);
  }

  // --- the executor and the callbacks

  lemma StatusKeeps(s: State, f: Future, st: Status)
    requires Inv(s) && f in s.status && !Done(s.status[f]) && st != Queued
    requires s.status[f] == Running ==> Task(f) !in s.creating && Done(st)
    ensures Inv(s.(status := s.status[f := st]))
  {
    var s' := s.(status := s.status[f := st]);
    assert s'.status.Keys == s.status.Keys;
    assert !AllDone(s.status);
  }

  lemma SettleKeeps(s: State, f: Future, st: Status)
    requires Inv(s) && f in s.status && !Done(s.status[f]) && Done(st)
    requires s.status[f] == Running ==> Task(f) !in s.creating
    ensures Inv(SettleStep(s, f, st))
  {
    StatusKeeps(s, f, st);
  }

  lemma {:induction false} RemoveFromMinus(fs: seq<Future>, gone: set<Future>, f: Future)
    requires NoDuplicates(fs)
    ensures RemoveFirst(Minus(fs, gone), f) == Minus(fs, gone + {f})
  {
    if fs != [] {
      assert NoDuplicates(fs[1..]) by {
        forall i, j | 0 <= i < j < |fs[1..]| ensures fs[1..][i] != fs[1..][j] {
          assert fs[i + 1] != fs[j + 1];
        }
      }
      RemoveFromMinus(fs[1..], gone, f);
      if fs[0] == f {
        MinusAbsent(fs[1..], gone, f);
      }
    }
  }

  lemma {:induction false} MinusAbsent(fs: seq<Future>, gone: set<Future>, f: Future)
    requires f !in fs
    ensures Minus(fs, gone + {f}) == Minus(fs, gone)
    ensures RemoveFirst(Minus(fs, gone), f) == Minus(fs, gone)
  {
    if fs != [] {
      MinusAbsent(fs[1..], gone, f);
      assert fs[0] !in gone ==> Minus(fs, gone)[0] == fs[0] && Minus(fs, gone)[1..] == Minus(fs[1..], gone);
    }
  }

  lemma OnDoneKeeps(s: State, f: Future)
    requires Inv(s) && f in s.status && f in s.due
    ensures Inv(OnDoneStep(s, f))
  {
    if s.status[f].Succeeded? {
      RemoveFromMinus(s.listed, s.removed, f);
    }
  }

  // --- __exit__

  lemma {:induction false} InMinus(fs: seq<Future>, gone: set<Future>, f: Future)
    ensures f in Minus(fs, gone) <==> f in fs && f !in gone
  {
    if fs != [] {
      InMinus(fs[1..], gone, f);
    }
  }

  /**
   A task that is not done leads to one that is listed and not done: whoever is still inside
   `create_task` for it is itself a task that is not done, and older.
   */
  lemma {:induction false} UnfinishedAncestor(s: State, f: Future)
    requires Inv(s) && s.exit != Inside && f in s.status && !Done(s.status[f])
    ensures Pending(s) != {}
    decreases f
  {
    if f in s.listed {
      InMinus(s.listed, s.removed, f);
      assert f in Pending(s);
    } else {
      var c :| c in s.creating && s.creating[c] == Submitted(f);
      UnfinishedAncestor(s, c.future);
    }
  }

  lemma DrainKeeps(s: State)
    requires Inv(s) && s.exit == Draining
    ensures Inv(DrainStep(s))
  {
    if Pending(s) == {} {
      forall f <- s.status ensures Done(s.status[f]) {
        if !Done(s.status[f]) {
          UnfinishedAncestor(s, f);
        }
      }
      forall c ensures c !in s.creating {
      }
      assert s.creating == map[];
    }
  }

  lemma {:induction false} ErrorsOfMinus(fs: seq<Future>, gone: set<Future>, status: Futures)
    requires forall f <- gone :: f in status && status[f].Succeeded?
    ensures ErrorsOf(Minus(fs, gone), status) == ErrorsOf(fs, status)
  {
    if fs != [] {
      ErrorsOfMinus(fs[1..], gone, status);
      if fs[0] !in gone {
        assert Minus(fs, gone)[1..] == Minus(fs[1..], gone);
      }
    }
  }

  lemma CloseKeeps(s: State)
    requires Inv(s) && s.exit == Drained
    ensures Inv(CloseStep(s))
  {
    ErrorsOfMinus(s.listed, s.removed, s.status);
  }

  lemma BodyEndsKeeps(s: State, exc: Option<Exc>)
    requires Inv(s) && Free(s, Body)
    ensures Inv(BodyEndsStep(s, exc))
  {
  }

  lemma ActionKeeps(s: State, a: Action)
    requires Inv(s) && Enabled(s, a)
    ensures Inv(Apply(s, a))
  {
    match a
    case Enter =>
    case Check(c) => CheckKeeps(s, c);
    case Submit(c) => SubmitKeeps(s, c);
    case SubmitFails(c) => SubmitFailsKeeps(s, c);
    case List(c) => ListKeeps(s, c);
    case AddCallback(c) => AddCallbackKeeps(s, c);
    case Start(f) => StatusKeeps(s, f, Running);
    case Cancel(f) => SettleKeeps(s, f, Cancelled);
    case Succeed(f) => SettleKeeps(s, f, Succeeded);
    case Fail(f, exc) => SettleKeeps(s, f, Failed(exc));
    case OnDone(f) => OnDoneKeeps(s, f);
    case BodyEnds(exc) => BodyEndsKeeps(s, exc);
    case Drain => DrainKeeps(s);
    case WaitReturns =>
    case Close => CloseKeeps(s);
  }

  lemma {:induction false} RunKeeps(s: State, run: seq<Action>)
    requires Inv(s) && Possible(s, run)
    ensures Inv(After(s, run))
    decreases |run|
  {
    if run != [] {
      ActionKeeps(s, run[0]);
      RunKeeps(Apply(s, run[0]), run[1..]);
    }
  }

  lemma ReachableInv(s: State)
    requires Reachable(s)
    ensures Inv(s)
  {
    var run :| Possible(Init(), run) && s == After(Init(), run);
    InitInv();
    RunKeeps(Init(), run);
  }

  // ------------------------------------------------------------------
  // Guarantees
  // ------------------------------------------------------------------

  /**
   Once the drain loop is left, every task ever created is done, those spawned by other tasks and
   not listed in time included, and every one of them is listed, once.
   */
  lemma ExitWaitsForEveryTask(s: State)
    requires Reachable(s) && (s.exit == Drained || s.exit == Exited)
    ensures forall f <- s.status :: Done(s.status[f]) && f in s.listed
    ensures NoDuplicates(s.listed)
  {
    ReachableInv(s);
    forall f <- s.status ensures f in s.listed {
      assert !BeingSubmitted(s.creating, f);
    }
  }

  /** No task can be created any more: the state of every task is final. */
  lemma NothingStartsAfterExit(s: State, a: Action)
    requires Reachable(s) && (s.exit == Drained || s.exit == Exited) && Enabled(s, a)
    ensures Apply(s, a).status == s.status && Apply(s, a).creating == map[]
  {
    ReachableInv(s);
  }

  /**
   What `__exit__` raises: the exceptions of all failed tasks, one for each, in the order in which
   the tasks were listed, after the exception of the body unless a task raised that very one.
   */
  lemma RaisesExactlyTheFailures(s: State)
    requires Reachable(s) && s.exit == Exited
    ensures s.raised == Merge(s.bodyExc, ErrorsOf(s.listed, s.status))
    ensures forall e :: e in s.raised <==>
              s.bodyExc == Some(e) || exists f :: f in s.status && s.status[f] == Failed(e)
    ensures s.raised == [] <==> s.bodyExc == None && forall f <- s.status :: !s.status[f].Failed?
  {
    ReachableInv(s);
    ExitWaitsForEveryTask(s);
    forall e ensures e in ErrorsOf(s.listed, s.status) <==> exists f :: f in s.status && s.status[f] == Failed(e) {
      InErrors(s.listed, s.status, e);
    }
    if f :| f in s.status && s.status[f].Failed? {
      assert s.status[f].exc in ErrorsOf(s.listed, s.status);
    }
    if s.raised != [] {
      assert s.raised[0] in s.raised;
    }
  }

  lemma {:induction false} InErrors(fs: seq<Future>, status: Futures, e: Exc)
    ensures e in ErrorsOf(fs, status) <==> exists f :: f in fs && f in status && status[f] == Failed(e)
  {
    if fs != [] {
      InErrors(fs[1..], status, e);
      assert forall f :: f in fs <==> f == fs[0] || f in fs[1..];
    }
  }
}
