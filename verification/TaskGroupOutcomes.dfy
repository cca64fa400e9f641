/**
 What `__exit__` raises, place by place, and what each step does to a future; told by the statuses
 and the order of listing alone.
 */
module TaskGroupOutcomes {
  import opened Wrappers
  import opened TaskGroup
  import opened TaskGroupProofs

  // ------------------------------------------------------------------
  // What is raised
  // ------------------------------------------------------------------

  predicate HasFailed(status: Futures, f: Future) {
    f in status && status[f].Failed?
  }

  /** The failed ones among some futures. */
  function Failures(fs: seq<Future>, status: Futures): set<Future> {
    set f | f in fs && HasFailed(status, f)
  }

  /** An exception of the body that no task has raised. */
  predicate BodyAlone(s: State) {
    s.bodyExc.Some? && forall f <- s.status :: s.status[f] != Failed(s.bodyExc.value)
  }

  /** How many exceptions stand before those of the tasks. */
  function Offset(s: State): nat {
    if BodyAlone(s) then 1 else 0
  }

  lemma {:induction false} FailuresFromLeft(fs: seq<Future>, status: Futures, i: nat)
    requires 0 < i <= |fs| && NoDuplicates(fs)
    ensures |Failures(fs[..i], status)|
         == |Failures(fs[1..][..i - 1], status)| + if HasFailed(status, fs[0]) then 1 else 0
  {
    var rest := fs[1..][..i - 1];
    assert fs[..i] == [fs[0]] + rest;
    assert fs[0] !in rest;
    if HasFailed(status, fs[0]) {
      assert Failures(fs[..i], status) == Failures(rest, status) + {fs[0]};
    } else {
      assert Failures(fs[..i], status) == Failures(rest, status);
    }
  }

  lemma {:induction false} ErrorCount(fs: seq<Future>, status: Futures)
    requires NoDuplicates(fs)
    ensures |ErrorsOf(fs, status)| == |Failures(fs, status)|
  {
    if fs != [] {
      ErrorCount(fs[1..], status);
      FailuresFromLeft(fs, status, |fs|);
      assert fs[..|fs|] == fs && fs[1..][..|fs| - 1] == fs[1..];
    }
  }

  lemma {:induction false} ErrorAt(fs: seq<Future>, status: Futures, i: nat)
    requires NoDuplicates(fs) && i < |fs| && HasFailed(status, fs[i])
    ensures var k := |Failures(fs[..i], status)|;
      k < |ErrorsOf(fs, status)| && ErrorsOf(fs, status)[k] == status[fs[i]].exc
  {
    hide Failures;
    if i == 0 {
      assert Failures(fs[..0], status) == {} by { NoFailures(fs[..0], status); }
    } else {
      FailuresFromLeft(fs, status, i);
      ErrorAt(fs[1..], status, i - 1);
    }
  }

  lemma NoFailures(fs: seq<Future>, status: Futures)
    requires fs == []
    ensures Failures(fs, status) == {}
  {
  }

  /**
   One exception for each failed task, and one more exactly when the body has raised one that no task
   has; that one stands first, and behind it the exception of each failed task stands where as many
   failed tasks were listed before it.
   */
  lemma RaisedPlaceByPlace(s: State)
    requires Reachable(s) && s.exit == Exited
    ensures |s.raised| == |set f | f in s.status && s.status[f].Failed?| + Offset(s)
    ensures BodyAlone(s) ==> s.raised[0] == s.bodyExc.value
    ensures forall i | 0 <= i < |s.listed| && HasFailed(s.status, s.listed[i]) ::
              var k := Offset(s) + |Failures(s.listed[..i], s.status)|;
              k < |s.raised| && s.raised[k] == s.status[s.listed[i]].exc
    ensures forall f <- s.status :: f in s.listed
    ensures NoDuplicates(s.listed)
  {
    RaisesExactlyTheFailures(s);
    ExitWaitsForEveryTask(s);
    var errors := ErrorsOf(s.listed, s.status);
    ErrorCount(s.listed, s.status);
    assert Failures(s.listed, s.status) == set f | f in s.status && s.status[f].Failed?;
    BodyIsAlone(s);
    assert s.raised == if BodyAlone(s) then [s.bodyExc.value] + errors else errors;
    hide Failures, Reachable, BodyAlone;
    forall i | 0 <= i < |s.listed| && HasFailed(s.status, s.listed[i])
      ensures var k := Offset(s) + |Failures(s.listed[..i], s.status)|;
        k < |s.raised| && s.raised[k] == s.status[s.listed[i]].exc
    {
      ErrorAt(s.listed, s.status, i);
    }
  }

  /** The exception of the body is the one it ended with, from then on. */
  lemma {:induction false} BodyExcStays(s: State, exc: Option<Exc>, run: seq<Action>)
    requires Enabled(s, BodyEnds(exc)) && Possible(Apply(s, BodyEnds(exc)), run)
    ensures After(Apply(s, BodyEnds(exc)), run).bodyExc == exc
  {
    hide Possible;
    KeepsBodyExc(Apply(s, BodyEnds(exc)), run);
  }

  lemma {:induction false} KeepsBodyExc(s: State, run: seq<Action>)
    requires Possible(s, run) && s.exit != Inside
    ensures After(s, run).bodyExc == s.bodyExc && After(s, run).exit != Inside
    decreases |run|
  {
    if run != [] {
      StepKeepsBodyExc(s, run[0]);
      hide Apply, Enabled;
      KeepsBodyExc(Apply(s, run[0]), run[1..]);
    }
  }

  lemma StepKeepsBodyExc(s: State, a: Action)
    requires Enabled(s, a) && s.exit != Inside
    ensures Apply(s, a).bodyExc == s.bodyExc && Apply(s, a).exit != Inside
  {
    hide Pending, ErrorsOf, RemoveFirst, Merge, Done;
  }

  lemma BodyIsAlone(s: State)
    requires forall f <- s.status :: f in s.listed
    ensures BodyAlone(s) <==> s.bodyExc.Some? && s.bodyExc.value !in ErrorsOf(s.listed, s.status)
  {
    if s.bodyExc.Some? {
      InErrors(s.listed, s.status, s.bodyExc.value);
    }
  }

  // ------------------------------------------------------------------
  // What happens to a future
  // ------------------------------------------------------------------

  predicate Steps(s: State, s': State, f: Future, was: Status, now: Status) {
    Is(s, f, was) && Is(s', f, now)
  }

  /** The future whose status a step moves, and where to. */
  function Moved(s: State, a: Action): Option<(Future, Status)> {
    match a
    case Submit(_) => Some((s.created, Queued))
    case Start(f) => Some((f, Running))
    case Cancel(f) => Some((f, Cancelled))
    case Succeed(f) => Some((f, Succeeded))
    case Fail(f, exc) => Some((f, Failed(exc)))
    case _ => None
  }

  lemma StatusesMove(s: State, a: Action)
    requires Enabled(s, a)
    ensures Apply(s, a).status ==
              var m := Moved(s, a);
              if m.None? then s.status else s.status[m.value.0 := m.value.1]
  {
    hide Pending, ErrorsOf, RemoveFirst, Merge, Done;
  }

  /** A future comes into being when its task is submitted, queued, and never ceases to be. */
  lemma ComesToBeExactlyWhen(s: State, a: Action, f: Future)
    requires Reachable(s) && Enabled(s, a)
    ensures var s' := Apply(s, a);
      && (f !in s.status && f in s'.status <==> a.Submit? && f == s.created)
      && (f !in s.status && f in s'.status ==> Is(s', f, Queued))
      && (f in s.status ==> f in s'.status)
  {
    ReachableInv(s);
    assert Numbered(s.status, s.created);
    StatusesMove(s, a);
    hide Inv, Reachable, Apply, Done;
  }

  /** It starts once, and ends in the way its task ended, or cancelled before it has started. */
  lemma StatusExactlyWhen(s: State, a: Action, f: Future)
    requires Reachable(s) && Enabled(s, a) && f in s.status
    ensures f in Apply(s, a).status
    ensures var s' := Apply(s, a);
      && (s'.status[f] != s.status[f] <==> a in {Start(f), Cancel(f), Succeed(f)} || (a.Fail? && a.f == f))
      && (a == Start(f) ==> Steps(s, s', f, Queued, Running))
      && (a == Cancel(f) ==> Steps(s, s', f, Queued, Cancelled))
      && (a == Succeed(f) ==> Steps(s, s', f, Running, Succeeded))
      && (a.Fail? && a.f == f ==> Steps(s, s', f, Running, Failed(a.exc)))
  {
    ReachableInv(s);
    assert Numbered(s.status, s.created);
    assert f != s.created;
    StatusesMove(s, a);
    hide Inv, Reachable, Apply, Done;
  }

  /** `create_task` goes ahead exactly when the group has been entered and is not closed. */
  lemma CreatesExactlyWhen(s: State, c: Creator)
    requires Reachable(s) && Enabled(s, Check(c))
    ensures var s' := Apply(s, Check(c));
      && (c in s'.creating <==> s.isOpen && s.exit != Exited)
      && (c in s'.creating ==> s'.creating == s.creating[c := Checked]) && (c !in s'.creating ==> s' == s)
      && s'.status == s.status && s'.tasks == s.tasks
  {
    ReachableInv(s);
    assert Exits(s);
    hide Inv, Reachable, Pending, ErrorsOf, RemoveFirst, Merge, Done;
  }

  /** The group is open from its first entry on; a closed one cannot be entered again. */
  lemma EntersExactlyWhen(s: State)
    requires Reachable(s) && Enabled(s, Enter)
    ensures Apply(s, Enter).isOpen && Apply(s, Enter).tasks == s.tasks && Apply(s, Enter).status == s.status
  {
    ReachableInv(s);
    assert Exits(s);
    hide Inv, Reachable;
  }

  lemma TasksMove(s: State, a: Action)
    requires Enabled(s, a) && !a.List? && !a.OnDone?
    ensures Apply(s, a).tasks == s.tasks
  {
    hide Pending, ErrorsOf, RemoveFirst, Merge, Done;
  }

  lemma TasksMoveWith(s: State, a: Action, f: Future)
    requires Enabled(s, a) && NoDuplicates(s.tasks)
    ensures a.List? ==> (f in Apply(s, a).tasks <==> f in s.tasks || s.creating[a.c] == Submitted(f))
    ensures a.OnDone? ==> (f in Apply(s, a).tasks <==> f in s.tasks && !(f == a.f && Is(s, f, Succeeded)))
  {
    if a.OnDone? {
      RemovedExactly(s.tasks, a.f, f);
    }
    hide RemoveFirst, Pending, ErrorsOf, Merge, Done;
  }

  /** A future leaves the list exactly when its callback runs after a success. */
  lemma ForgottenExactlyWhen(s: State, a: Action, f: Future)
    requires Reachable(s) && Enabled(s, a) && f in s.tasks
    ensures f !in Apply(s, a).tasks <==> a == OnDone(f) && Is(s, f, Succeeded)
  {
    ReachableInv(s);
    MinusKeeps(s.listed, s.removed);
    hide Inv, Reachable, Apply, Enabled;
    if a.List? || a.OnDone? {
      TasksMoveWith(s, a, f);
    } else {
      TasksMove(s, a);
    }
  }

  /** It enters the list exactly when the `create_task` that has submitted it lists it. */
  lemma ListedExactlyWhen(s: State, a: Action, f: Future)
    requires Reachable(s) && Enabled(s, a) && f !in s.tasks
    ensures f in Apply(s, a).tasks <==> a.List? && a.c in s.creating && s.creating[a.c] == Submitted(f)
  {
    ReachableInv(s);
    MinusKeeps(s.listed, s.removed);
    hide Inv, Reachable, Apply;
    if a.List? || a.OnDone? {
      TasksMoveWith(s, a, f);
    } else {
      TasksMove(s, a);
    }
  }

  lemma {:induction false} RemovedExactly(fs: seq<Future>, g: Future, f: Future)
    requires NoDuplicates(fs)
    ensures f in RemoveFirst(fs, g) <==> f in fs && f != g
  {
    if fs != [] {
      RemovedExactly(fs[1..], g, f);
      assert fs == [fs[0]] + fs[1..];
    }
  }

  lemma {:induction false} MinusKeeps(fs: seq<Future>, gone: set<Future>)
    requires NoDuplicates(fs)
    ensures NoDuplicates(Minus(fs, gone)) && forall f <- Minus(fs, gone) :: f in fs
  {
    if fs != [] {
      MinusKeeps(fs[1..], gone);
      assert fs[0] !in fs[1..];
      assert fs[0] !in Minus(fs[1..], gone);
    }
  }

  predicate Unfinished(s: State, f: Future) {
    f in s.tasks && f in s.status && !Done(s.status[f])
  }

  /** The drain loop is left exactly when every listed future is done; else it waits for exactly the others. */
  lemma DrainOutcome(s: State)
    requires Reachable(s) && s.exit == Draining
    ensures var s' := Apply(s, Drain);
      && (s'.exit == Drained <==> forall f :: !Unfinished(s, f))
      && (s'.exit == Drained || (s'.exit.Waiting? && forall f :: f in s'.exit.pending <==> Unfinished(s, f)))
      && s'.tasks == s.tasks && s'.status == s.status
    ensures forall f <- s.tasks :: f in s.status
  {
    ReachableInv(s);
    TasksAreKnown(s);
    assert forall f :: f in Pending(s) <==> Unfinished(s, f);
    hide Inv, Reachable, Unfinished, Pending;
  }

  lemma TasksAreKnown(s: State)
    requires Inv(s)
    ensures forall f <- s.tasks :: f in s.status
  {
    MinusKeeps(s.listed, s.removed);
  }

  // ------------------------------------------------------------------
  // Successes are forgotten
  // ------------------------------------------------------------------

  ghost predicate JustListed(creating: Calls, f: Future) {
    exists c :: c in creating && creating[c] == Listed(f)
  }

  /** Where a listed future stands: its callback is to be added, is attached, is due, or has found no success. */
  ghost predicate Followed(s: State, f: Future) {
    f in s.status &&
    (|| JustListed(s.creating, f)
     || (f in s.callbacks && !Done(s.status[f]))
     || (f in s.due && Done(s.status[f]))
     || (Done(s.status[f]) && !s.status[f].Succeeded?))
  }

  ghost predicate AllFollowed(s: State) {
    forall f <- s.tasks :: Followed(s, f)
  }

  lemma StillListed(creating: Calls, c: Creator, call: Creating)
    ensures forall f | JustListed(creating, f) && !(c in creating && creating[c] == Listed(f)) ::
              JustListed(creating[c := call], f) && JustListed(creating - {c}, f)
    ensures call.Listed? ==> JustListed(creating[c := call], call.future)
  {
    forall f | JustListed(creating, f) && !(c in creating && creating[c] == Listed(f))
      ensures JustListed(creating[c := call], f) && JustListed(creating - {c}, f)
    {
      var d :| d in creating && creating[d] == Listed(f);
      assert d in creating[c := call] && creating[c := call][d] == Listed(f);
      assert d in creating - {c} && (creating - {c})[d] == Listed(f);
    }
    assert c in creating[c := call] && creating[c := call][c] == call;
  }

  /** A step of `create_task`. */
  lemma CreatingFollows(s: State, a: Action)
    requires Enabled(s, a) && AllFollowed(s) && s.created !in s.tasks
    requires a.Check? || a.Submit? || a.SubmitFails? || a.List? || a.AddCallback?
    requires a.List? ==> s.creating[a.c].future in s.status
    ensures AllFollowed(Apply(s, a))
  {
    match a
    case Check(c) => StillListed(s.creating, c, Checked);
    case Submit(c) => StillListed(s.creating, c, Submitted(s.created));
    case SubmitFails(c) => StillListed(s.creating, c, Checked);
    case List(c) => StillListed(s.creating, c, Listed(s.creating[c].future));
    case AddCallback(c) => StillListed(s.creating, c, Checked);
    hide JustListed;
  }

  lemma CallbackFollows(s: State, f: Future)
    requires f in s.due && f in s.status && Done(s.status[f]) && AllFollowed(s) && NoDuplicates(s.tasks)
    ensures AllFollowed(OnDoneStep(s, f))
  {
    hide JustListed;
    forall g: Future
      ensures g in RemoveFirst(s.tasks, f) <==> g in s.tasks && g != f
    {
      RemovedExactly(s.tasks, f, g);
    }
    hide RemoveFirst;
  }

  lemma SettledFollows(s: State, f: Future, st: Status)
    requires f in s.status && !Done(s.status[f]) && Done(st) && AllFollowed(s)
    ensures AllFollowed(SettleStep(s, f, st))
  {
    hide JustListed;
  }

  lemma StartedFollows(s: State, f: Future)
    requires Is(s, f, Queued) && AllFollowed(s)
    ensures AllFollowed(s.(status := s.status[f := Running]))
  {
    hide JustListed;
  }

  /** A future starts, is settled, or its callback runs. */
  lemma SettlingFollows(s: State, a: Action)
    requires Enabled(s, a) && AllFollowed(s) && NoDuplicates(s.tasks)
    requires a.Start? || a.Cancel? || a.Succeed? || a.Fail? || a.OnDone?
    requires a.OnDone? ==> Done(s.status[a.f])
    ensures AllFollowed(Apply(s, a))
  {
    hide AllFollowed, NoDuplicates;
    match a
    case Start(f) => StartedFollows(s, f);
    case Cancel(f) => SettledFollows(s, f, Cancelled);
    case Succeed(f) => SettledFollows(s, f, Succeeded);
    case Fail(f, exc) => SettledFollows(s, f, Failed(exc));
    case OnDone(f) => CallbackFollows(s, f);
  }

  predicate DueAreDone(s: State) {
    forall f <- s.due :: f in s.status && Done(s.status[f])
  }

  lemma StaysDone(s: State, a: Action)
    requires Enabled(s, a) && DueAreDone(s) && s.created !in s.status
    ensures DueAreDone(Apply(s, a))
  {
    hide Pending, ErrorsOf, RemoveFirst, Merge;
  }

  lemma ActionFollows(s: State, a: Action)
    requires Inv(s) && Enabled(s, a) && AllFollowed(s) && DueAreDone(s)
    ensures AllFollowed(Apply(s, a)) && DueAreDone(Apply(s, a))
  {
    MinusKeeps(s.listed, s.removed);
    TasksAreKnown(s);
    assert s.created !in s.status && s.created !in s.tasks;
    assert a.List? ==> s.creating[a.c].future in s.status;
    StaysDone(s, a);
    hide Inv;
    if a.Check? || a.Submit? || a.SubmitFails? || a.List? || a.AddCallback? {
      CreatingFollows(s, a);
    } else if a.Start? || a.Cancel? || a.Succeed? || a.Fail? || a.OnDone? {
      SettlingFollows(s, a);
    } else {
      OthersFollow(s, a);
    }
  }

  lemma OthersFollow(s: State, a: Action)
    requires Enabled(s, a) && AllFollowed(s)
    requires a.Enter? || a.BodyEnds? || a.Drain? || a.WaitReturns? || a.Close?
    ensures AllFollowed(Apply(s, a))
  {
    hide JustListed, Done, Pending, Merge, ErrorsOf;
  }

  lemma {:induction false} RunFollows(s: State, run: seq<Action>)
    requires Inv(s) && AllFollowed(s) && DueAreDone(s) && Possible(s, run)
    ensures AllFollowed(After(s, run))
    decreases |run|
  {
    hide Inv, AllFollowed, DueAreDone, Apply, Enabled;
    if run != [] {
      ActionKeeps(s, run[0]);
      ActionFollows(s, run[0]);
      RunFollows(Apply(s, run[0]), run[1..]);
    }
  }

  /** When no call of `create_task` and no callback is under way, no success is on the list. */
  lemma SuccessesAreForgotten(s: State)
    requires Reachable(s) && s.creating == map[] && s.due == {}
    ensures forall f <- s.tasks :: f in s.status && !s.status[f].Succeeded?
  {
    var run :| Possible(Init(), run) && s == After(Init(), run);
    InitInv();
    RunFollows(Init(), run);
  }
}
