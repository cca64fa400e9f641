/**
 The order in which exceptions are raised.  It is meant to be the order of completion; it is the
 order of listing, and this is exactly when the two agree.
 */
module TaskGroupOrder {
  import opened Wrappers
  import opened TaskGroup
  import opened TaskGroupProofs

  // ------------------------------------------------------------------
  // The log of completions
  // ------------------------------------------------------------------

  /** The log holds every future that is done, once. */
  ghost predicate Logged(status: Futures, completed: seq<Future>) {
    && NoDuplicates(completed)
    && forall f :: f in completed <==> f in status && Done(status[f])
  }

  lemma ActionLogs(s: State, a: Action)
    requires Inv(s) && Logged(s.status, s.completed) && Enabled(s, a)
    ensures Logged(Apply(s, a).status, Apply(s, a).completed)
  {
    hide Lists, Hooks, Exits, OneSubmitter, Callers;
    match a
    case Cancel(f) => SettleLogs(s, f, Cancelled);
    case Succeed(f) => SettleLogs(s, f, Succeeded);
    case Fail(f, exc) => SettleLogs(s, f, Failed(exc));
    case _ =>
  }

  lemma SettleLogs(s: State, f: Future, st: Status)
    requires Logged(s.status, s.completed) && f in s.status && !Done(s.status[f]) && Done(st)
    ensures Logged(SettleStep(s, f, st).status, SettleStep(s, f, st).completed)
  {
    assert forall g :: g in s.completed + [f] <==> g in s.completed || g == f;
  }

  lemma {:induction false} RunLogs(s: State, run: seq<Action>)
    requires Inv(s) && Logged(s.status, s.completed) && Possible(s, run)
    ensures Logged(After(s, run).status, After(s, run).completed)
    decreases |run|
  {
    hide Inv, Logged, Apply, Enabled;
    if run != [] {
      ActionLogs(s, run[0]);
      ActionKeeps(s, run[0]);
      RunLogs(Apply(s, run[0]), run[1..]);
    }
  }

  lemma ReachableLogs(s: State)
    requires Reachable(s)
    ensures Logged(s.status, s.completed)
  {
    var run :| Possible(Init(), run) && s == After(Init(), run);
    InitInv();
    RunLogs(Init(), run);
  }

  // ------------------------------------------------------------------
  // Two orders of the same things
  // ------------------------------------------------------------------

  predicate At(fs: seq<Future>, f: Future, g: Future, i: nat, j: nat) {
    i < j < |fs| && fs[i] == f && fs[j] == g
  }

  /** `f` comes before `g`. */
  ghost predicate Before(fs: seq<Future>, f: Future, g: Future) {
    exists i: nat, j: nat :: At(fs, f, g, i, j)
  }

  ghost predicate SameOrder(a: seq<Future>, b: seq<Future>) {
    forall f, g | Before(a, f, g) :: Before(b, f, g)
  }

  lemma TailBefore(fs: seq<Future>, f: Future, g: Future)
    requires NoDuplicates(fs) && fs != [] && f != fs[0]
    ensures Before(fs, f, g) <==> Before(fs[1..], f, g)
  {
    if i: nat, j: nat :| At(fs, f, g, i, j) {
      assert At(fs[1..], f, g, i - 1, j - 1);
    }
    if i: nat, j: nat :| At(fs[1..], f, g, i, j) {
      assert At(fs, f, g, i + 1, j + 1);
    }
  }

  lemma NothingBeforeFirst(fs: seq<Future>, f: Future)
    requires NoDuplicates(fs) && fs != []
    ensures !Before(fs, f, fs[0])
  {
  }

  lemma {:induction false} OrderDecides(a: seq<Future>, b: seq<Future>)
    requires NoDuplicates(a) && NoDuplicates(b) && (forall f :: f in a <==> f in b) && SameOrder(a, b)
    ensures a == b
    decreases |a|
  {
    if a == [] {
      assert forall f :: f in multiset(b) <==> f in b;
      assert multiset(b) == multiset{};
    } else {
      assert a[0] in b;
      var k :| 0 <= k < |b| && b[k] == a[0];
      if k > 0 {
        assert b[0] in a;
        var i :| 0 <= i < |a| && a[i] == b[0];
        assert At(a, a[0], b[0], 0, i);
        NothingBeforeFirst(b, a[0]);
      }
      forall f
        ensures f in a[1..] <==> f in b[1..]
      {
        assert f in a <==> f == a[0] || f in a[1..];
        assert f in b <==> f == b[0] || f in b[1..];
      }
      forall f, g | Before(a[1..], f, g)
        ensures Before(b[1..], f, g)
      {
        var i: nat, j: nat :| At(a[1..], f, g, i, j);
        assert f == a[i + 1] && g == a[j + 1];
        TailBefore(a, f, g);
        TailBefore(b, f, g);
      }
      OrderDecides(a[1..], b[1..]);
    }
  }

  // ------------------------------------------------------------------
  // The failed tasks
  // ------------------------------------------------------------------

  predicate HasFailed(status: Futures, f: Future) {
    f in status && status[f].Failed?
  }

  function FailedOf(fs: seq<Future>, status: Futures): seq<Future> {
    if fs == [] then []
    else if HasFailed(status, fs[0]) then [fs[0]] + FailedOf(fs[1..], status)
    else FailedOf(fs[1..], status)
  }

  function Excs(fs: seq<Future>, status: Futures): seq<Exc>
    requires forall f <- fs :: HasFailed(status, f)
  {
    if fs == [] then []
    else
      assert fs[0] in fs && HasFailed(status, fs[0]);
      [status[fs[0]].exc] + Excs(fs[1..], status)
  }

  lemma {:induction false} FailedOfIs(fs: seq<Future>, status: Futures)
    requires NoDuplicates(fs)
    ensures forall f :: f in FailedOf(fs, status) <==> f in fs && HasFailed(status, f)
    ensures NoDuplicates(FailedOf(fs, status)) && Excs(FailedOf(fs, status), status) == ErrorsOf(fs, status)
    decreases |fs|
  {
    if fs != [] {
      FailedOfIs(fs[1..], status);
      assert forall f :: f in fs <==> f == fs[0] || f in fs[1..];
      assert fs[0] !in fs[1..];
      if HasFailed(status, fs[0]) {
        assert FailedOf(fs, status)[1..] == FailedOf(fs[1..], status);
      }
    }
  }

  lemma {:induction false} FailedBefore(fs: seq<Future>, status: Futures, f: Future, g: Future)
    requires NoDuplicates(fs)
    ensures Before(FailedOf(fs, status), f, g) <==> Before(fs, f, g) && HasFailed(status, f) && HasFailed(status, g)
    decreases |fs|
  {
    if fs != [] {
      var rest, failed := FailedOf(fs[1..], status), FailedOf(fs, status);
      FailedOfIs(fs, status);
      FailedOfIs(fs[1..], status);
      FailedBefore(fs[1..], status, f, g);
      if f != fs[0] {
        TailBefore(fs, f, g);
        if failed != rest {
          assert failed[1..] == rest;
          TailBefore(failed, f, g);
        }
      } else {
        HeadBefore(fs, g);
        if HasFailed(status, f) {
          assert failed[1..] == rest;
          HeadBefore(failed, g);
        } else {
          NotBefore(failed, f, g);
        }
      }
    } else {
      NotBefore([], f, g);
    }
  }

  lemma HeadBefore(fs: seq<Future>, g: Future)
    requires fs != [] && NoDuplicates(fs)
    ensures Before(fs, fs[0], g) <==> g in fs[1..]
  {
    if g in fs[1..] {
      var j :| 0 <= j < |fs[1..]| && fs[1..][j] == g;
      assert At(fs, fs[0], g, 0, j + 1);
    }
    if i: nat, j: nat :| At(fs, fs[0], g, i, j) {
      assert fs[1..][j - 1] == g;
    }
  }

  lemma NotBefore(fs: seq<Future>, f: Future, g: Future)
    requires f !in fs
    ensures !Before(fs, f, g)
  {
  }

  // ------------------------------------------------------------------
  // What is raised, in which order
  // ------------------------------------------------------------------

  /** No failed task completed before a failed one that was listed ahead of it. */
  ghost predicate NoOvertaking(s: State) {
    forall f, g | HasFailed(s.status, f) && HasFailed(s.status, g) && Before(s.listed, f, g) ::
      Before(s.completed, f, g)
  }

  /** Different tasks raised different exceptions. */
  predicate DistinctErrors(status: Futures) {
    forall f <- status, g <- status | f != g && status[f].Failed? && status[g].Failed? :: status[f].exc != status[g].exc
  }

  lemma {:induction false} ExcsDecide(a: seq<Future>, b: seq<Future>, status: Futures)
    requires (forall f <- a :: HasFailed(status, f)) && (forall f <- b :: HasFailed(status, f))
    requires DistinctErrors(status)
    ensures Excs(a, status) == Excs(b, status) ==> a == b
    decreases |a|
  {
    if a != [] && b != [] && Excs(a, status) == Excs(b, status) {
      assert a[0] in a && b[0] in b;
      assert Excs(a, status)[0] == status[a[0]].exc && Excs(b, status)[0] == status[b[0]].exc;
      assert Excs(a, status)[1..] == Excs(a[1..], status) && Excs(b, status)[1..] == Excs(b[1..], status);
      ExcsDecide(a[1..], b[1..], status);
    }
  }

  lemma FailuresAgree(s: State)
    requires Reachable(s) && s.exit == Exited
    ensures NoDuplicates(s.listed) && NoDuplicates(s.completed)
    ensures forall f :: f in FailedOf(s.listed, s.status) <==> f in FailedOf(s.completed, s.status)
  {
    ExitWaitsForEveryTask(s);
    ReachableLogs(s);
    FailedOfIs(s.listed, s.status);
    FailedOfIs(s.completed, s.status);
    forall f
      ensures f in FailedOf(s.listed, s.status) <==> f in FailedOf(s.completed, s.status)
    {
    }
  }

  lemma NoOvertakingIs(s: State)
    requires Reachable(s) && s.exit == Exited
    ensures NoOvertaking(s) <==> FailedOf(s.listed, s.status) == FailedOf(s.completed, s.status)
  {
    FailuresAgree(s);
    var a, b := FailedOf(s.listed, s.status), FailedOf(s.completed, s.status);
    FailedOfIs(s.listed, s.status);
    FailedOfIs(s.completed, s.status);
    hide FailedOf, HasFailed, Excs;
    forall f, g
      ensures Before(a, f, g) <==> Before(s.listed, f, g) && HasFailed(s.status, f) && HasFailed(s.status, g)
      ensures Before(b, f, g) <==> Before(s.completed, f, g) && HasFailed(s.status, f) && HasFailed(s.status, g)
    {
      FailedBefore(s.listed, s.status, f, g);
      FailedBefore(s.completed, s.status, f, g);
    }
    if NoOvertaking(s) {
      OrderDecides(a, b);
    }
  }

  lemma MergeDecides(body: Option<Exc>, a: seq<Exc>, b: seq<Exc>)
    requires body.Some? ==> (body.value in a <==> body.value in b)
    ensures Merge(body, a) == Merge(body, b) <==> a == b
  {
    if body.Some? {
      assert ([body.value] + a)[1..] == a && ([body.value] + b)[1..] == b;
    }
  }

  /**
   The exceptions are raised in the order of completion if no failed task completed before a failed
   one that was listed ahead of it; and only if, when the tasks raised different exceptions.
   */
  lemma RaisedInCompletionOrderExactlyWhen(s: State)
    requires Reachable(s) && s.exit == Exited
    ensures NoOvertaking(s) ==> s.raised == Merge(s.bodyExc, ErrorsOf(s.completed, s.status))
    ensures DistinctErrors(s.status) && s.raised == Merge(s.bodyExc, ErrorsOf(s.completed, s.status)) ==>
              NoOvertaking(s)
  {
    RaisesExactlyTheFailures(s);
    FailuresAgree(s);
    NoOvertakingIs(s);
    hide Reachable, NoOvertaking, Merge, ErrorsOf, DistinctErrors, Excs, FailedOf, NoDuplicates;
    FailedOfIs(s.listed, s.status);
    FailedOfIs(s.completed, s.status);
    var a, b := FailedOf(s.listed, s.status), FailedOf(s.completed, s.status);
    if s.bodyExc.Some? {
      SameErrors(s, s.bodyExc.value);
    }
    MergeDecides(s.bodyExc, ErrorsOf(s.listed, s.status), ErrorsOf(s.completed, s.status));
    if DistinctErrors(s.status) {
      ExcsDecide(a, b, s.status);
    }
  }

  lemma SameErrors(s: State, e: Exc)
    requires forall f :: f in FailedOf(s.listed, s.status) <==> f in FailedOf(s.completed, s.status)
    requires NoDuplicates(s.listed) && NoDuplicates(s.completed)
    ensures e in ErrorsOf(s.listed, s.status) <==> e in ErrorsOf(s.completed, s.status)
  {
    FailedOfIs(s.listed, s.status);
    FailedOfIs(s.completed, s.status);
    InErrors(s.listed, s.status, e);
    InErrors(s.completed, s.status, e);
    hide ErrorsOf, NoDuplicates, FailedOf;
    if f :| f in s.listed && f in s.status && s.status[f] == Failed(e) {
      assert HasFailed(s.status, f);
    }
    if f :| f in s.completed && f in s.status && s.status[f] == Failed(e) {
      assert HasFailed(s.status, f);
    }
  }

  // ------------------------------------------------------------------
  // The two orders do differ
  // ------------------------------------------------------------------

  /** Two tasks, and the second fails first. */
  const OVERTAKING: seq<Action> := [
    Enter, Check(Body), Submit(Body), List(Body), AddCallback(Body), Check(Body), Submit(Body), List(Body),
    AddCallback(Body), Start(0), Start(1), Fail(1, 8), Fail(0, 7), OnDone(1), OnDone(0), BodyEnds(None), Drain, Close]

  function Stage(tasks: nat, created: nat, status: Futures, creating: Calls, callbacks: set<Future>, due: set<Future>,
                 exit: Exit, completed: seq<Future>): State {
    State(true, exit == Exited, Firsts(tasks), created, status, creating, callbacks, due, exit, None,
          if exit == Exited then [7, 8] else [], Firsts(tasks), {}, completed)
  }

  function Firsts(n: nat): seq<Future> {
    if n == 0 then [] else if n == 1 then [0] else [0, 1]
  }

  function Overtaking(i: nat): State {
    var q0, q1 := map[0 := Queued], map[0 := Queued, 1 := Queued];
    if i == 0 then Init()
    else if i == 1 then Stage(0, 0, map[], map[], {}, {}, Inside, [])
    else if i == 2 then Stage(0, 0, map[], map[Body := Checked], {}, {}, Inside, [])
    else if i == 3 then Stage(0, 1, q0, map[Body := Submitted(0)], {}, {}, Inside, [])
    else if i == 4 then Stage(1, 1, q0, map[Body := Listed(0)], {}, {}, Inside, [])
    else if i == 5 then Stage(1, 1, q0, map[], {0}, {}, Inside, [])
    else if i == 6 then Stage(1, 1, q0, map[Body := Checked], {0}, {}, Inside, [])
    else if i == 7 then Stage(1, 2, q1, map[Body := Submitted(1)], {0}, {}, Inside, [])
    else if i == 8 then Stage(2, 2, q1, map[Body := Listed(1)], {0}, {}, Inside, [])
    else if i == 9 then Stage(2, 2, q1, map[], {0, 1}, {}, Inside, [])
    else if i == 10 then Stage(2, 2, map[0 := Running, 1 := Queued], map[], {0, 1}, {}, Inside, [])
    else if i == 11 then Stage(2, 2, map[0 := Running, 1 := Running], map[], {0, 1}, {}, Inside, [])
    else if i == 12 then Stage(2, 2, map[0 := Running, 1 := Failed(8)], map[], {0}, {1}, Inside, [1])
    else if i == 13 then Stage(2, 2, map[0 := Failed(7), 1 := Failed(8)], map[], {}, {0, 1}, Inside, [1, 0])
    else if i == 14 then Stage(2, 2, map[0 := Failed(7), 1 := Failed(8)], map[], {}, {0}, Inside, [1, 0])
    else if i == 15 then Stage(2, 2, map[0 := Failed(7), 1 := Failed(8)], map[], {}, {}, Inside, [1, 0])
    else if i == 16 then Stage(2, 2, map[0 := Failed(7), 1 := Failed(8)], map[], {}, {}, Draining, [1, 0])
    else if i == 17 then Stage(2, 2, map[0 := Failed(7), 1 := Failed(8)], map[], {}, {}, Drained, [1, 0])
    else Stage(2, 2, map[0 := Failed(7), 1 := Failed(8)], map[], {}, {}, Exited, [1, 0])
  }

  lemma StepsToListed(i: nat)
    requires i < 5
    ensures Enabled(Overtaking(i), OVERTAKING[i]) && Apply(Overtaking(i), OVERTAKING[i]) == Overtaking(i + 1)
  {
  }

  lemma StepsToBothListed(i: nat)
    requires 5 <= i < 9
    ensures Enabled(Overtaking(i), OVERTAKING[i]) && Apply(Overtaking(i), OVERTAKING[i]) == Overtaking(i + 1)
  {
  }

  lemma StepsToFailed(i: nat)
    requires 9 <= i < 13
    ensures Enabled(Overtaking(i), OVERTAKING[i]) && Apply(Overtaking(i), OVERTAKING[i]) == Overtaking(i + 1)
  {
  }

  lemma StepsToExit(i: nat)
    requires 13 <= i < 17
    ensures Enabled(Overtaking(i), OVERTAKING[i]) && Apply(Overtaking(i), OVERTAKING[i]) == Overtaking(i + 1)
  {
    assert Pending(Overtaking(16)) == {};
  }

  lemma StepToRaise()
    ensures Enabled(Overtaking(17), OVERTAKING[17]) && Apply(Overtaking(17), OVERTAKING[17]) == Overtaking(18)
  {
    var status := map[0 := Failed(7), 1 := Failed(8)];
    assert [0, 1][1..] == [1] && [1][1..] == [];
    assert ErrorsOf([1], status) == [8];
    assert ErrorsOf([0, 1], status) == [7, 8];
  }

  lemma OvertakingStep(i: nat)
    requires i < 18
    ensures Enabled(Overtaking(i), OVERTAKING[i]) && Apply(Overtaking(i), OVERTAKING[i]) == Overtaking(i + 1)
  {
    hide *;
    if i < 5 {
      StepsToListed(i);
    } else if i < 9 {
      StepsToBothListed(i);
    } else if i < 13 {
      StepsToFailed(i);
    } else if i < 17 {
      StepsToExit(i);
    } else {
      StepToRaise();
    }
  }

  lemma {:induction false} Snoc(s: State, run: seq<Action>, a: Action)
    requires Possible(s, run) && Enabled(After(s, run), a)
    ensures Possible(s, run + [a]) && After(s, run + [a]) == Apply(After(s, run), a)
    decreases |run|
  {
    hide Apply, Enabled;
    if run == [] {
      assert [a][1..] == [] && run + [a] == [a];
    } else {
      assert (run + [a])[1..] == run[1..] + [a];
      Snoc(Apply(s, run[0]), run[1..], a);
    }
  }

  lemma OvertakingStart()
    ensures Overtaking(0) == Init()
  {
  }

  lemma {:induction false} OvertakingRun(n: nat)
    requires n <= 18
    ensures Possible(Init(), OVERTAKING[..n]) && After(Init(), OVERTAKING[..n]) == Overtaking(n)
  {
    OvertakingStart();
    hide Overtaking, Apply, Enabled, Init;
    if n > 0 {
      OvertakingRun(n - 1);
      OvertakingStep(n - 1);
      assert OVERTAKING[..n] == OVERTAKING[..n - 1] + [OVERTAKING[n - 1]];
      Snoc(Init(), OVERTAKING[..n - 1], OVERTAKING[n - 1]);
    } else {
      assert OVERTAKING[..n] == [];
    }
  }

  lemma OvertakingReachable()
    ensures Reachable(Overtaking(18))
  {
    hide Overtaking, Possible, After, Init;
    OvertakingRun(18);
  }

  /** Raised in the order of listing, against the order of completion. */
  lemma RaisedAgainstCompletion() returns (s: State)
    ensures Reachable(s) && s.exit == Exited && s.listed == [0, 1] && s.completed == [1, 0]
    ensures s.raised == [7, 8] && s.status == map[0 := Failed(7), 1 := Failed(8)]
  {
    OvertakingReachable();
    s := Overtaking(18);
  }
}
