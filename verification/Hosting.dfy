/**
 Service lifetimes of `hosting/_host.py`: a tree of services on one event loop.  One step is the
 code between two awaits.  A task group is left only when all of its tasks are done.
 */
module Hosting {
  import opened Wrappers

  type Reason = nat
  type Exc = nat

  /** Where `_run` is: not begun, in the service, leaving the task group, closing what was deferred, over. */
  datatype Phase = Scheduled | InService | Leaving | Closing | Over

  datatype Lifetime = Lifetime(
    parent: Option<nat>,
    phase: Phase,
    started: bool,
    shuttingDown: bool,
    stopped: bool,
    reason: Option<Reason>,
    exception: Option<Exc>,
    writes: nat)                    // how often `shutdown_reason` was assigned

  datatype ServiceState =
    | Starting
    | Running
    | ShuttingDown(reason: Option<Reason>)
    | Stopped(reason: Option<Reason>, exception: Option<Exc>)

  /** The `state` property. */
  function Observed(lt: Lifetime): ServiceState {
    if lt.stopped then Stopped(lt.reason, lt.exception)
    else if lt.shuttingDown then ShuttingDown(lt.reason)
    else if lt.started then Running
    else Starting
  }

  function Rank(st: ServiceState): nat {
    match st
    case Starting => 0
    case Running => 1
    case ShuttingDown(_) => 2
    case Stopped(_, _) => 3
  }

  function Fresh(parent: Option<nat>): Lifetime {
    Lifetime(parent, Scheduled, false, false, false, None, None, 0)
  }

  /** `set_started`: refused once the service has stopped. */
  function SetStartedStep(lt: Lifetime): Lifetime {
    if lt.stopped then lt else lt.(started := true)
  }

  /** `set_shutting_down` and `shutdown`: the first one gives the reason; once stopped, nothing happens. */
  function ShutdownStep(lt: Lifetime, reason: Option<Reason>): Lifetime {
    if lt.stopped || lt.shuttingDown then lt
    else lt.(reason := reason, shuttingDown := true, writes := lt.writes + 1)
  }

  function StopStep(lt: Lifetime, exception: Option<Exc>): Lifetime {
    lt.(phase := Over, exception := exception, stopped := true)
  }

  // ------------------------------------------------------------------
  // Runs
  // ------------------------------------------------------------------

  type Tree = seq<Lifetime>

  datatype Action =
    | Enter(i: nat)                                 // `_run` enters the task group and calls the service
    | Start(i: nat)                                 // `start`: a child, in the task group of `i`
    | SetStarted(i: nat)
    | Shutdown(i: nat, reason: Option<Reason>)
    | ServiceEnds(i: nat)                           // it returned, raised or was cancelled
    | TasksEnd(i: nat)                              // the task group is left
    | Stop(i: nat, exception: Option<Exc>)          // what was deferred is closed

  predicate Enabled(s: Tree, a: Action) {
    && a.i < |s|
    && match a
       case Enter(i) => s[i].phase == Scheduled
       case Start(i) => s[i].phase in {InService, Leaving}
       case SetStarted(_) => true
       case Shutdown(_, _) => true
       case ServiceEnds(i) => s[i].phase == InService
       case TasksEnd(i) => s[i].phase == Leaving && forall c | 0 <= c < |s| && s[c].parent == Some(i) :: s[c].stopped
       case Stop(i, _) => s[i].phase == Closing
  }

  function Apply(s: Tree, a: Action): Tree
    requires Enabled(s, a)
  {
    match a
    case Enter(i) => s[i := s[i].(phase := InService)]
    case Start(i) => s + [Fresh(Some(i))]
    case SetStarted(i) => s[i := SetStartedStep(s[i])]
    case Shutdown(i, reason) => s[i := ShutdownStep(s[i], reason)]
    case ServiceEnds(i) => s[i := s[i].(phase := Leaving)]
    case TasksEnd(i) => s[i := s[i].(phase := Closing)]
    case Stop(i, exception) => s[i := StopStep(s[i], exception)]
  }

  predicate Possible(s: Tree, run: seq<Action>)
    decreases |run|
  {
    run == [] || (Enabled(s, run[0]) && Possible(Apply(s, run[0]), run[1..]))
  }

  function After(s: Tree, run: seq<Action>): Tree
    requires Possible(s, run)
    decreases |run|
  {
    if run == [] then s else After(Apply(s, run[0]), run[1..])
  }

  /** The root service of an application. */
  function Init(): Tree {
    [Fresh(None)]
  }

  // ------------------------------------------------------------------
  // One lifetime
  // ------------------------------------------------------------------

  predicate Consistent(lt: Lifetime) {
    && (lt.stopped <==> lt.phase == Over)
    && lt.writes == (if lt.shuttingDown then 1 else 0)
    && (lt.reason.Some? ==> lt.shuttingDown)
    && (lt.exception.Some? ==> lt.stopped)
  }

  /** What may happen to one lifetime: events are one-way, and a reason once given stays. */
  predicate Later(a: Lifetime, b: Lifetime) {
    && a.parent == b.parent
    && Rank(Observed(a)) <= Rank(Observed(b))
    && (a.started ==> b.started) && (a.shuttingDown ==> b.shuttingDown) && (a.stopped ==> b.stopped)
    && (a.shuttingDown || a.stopped ==> b.reason == a.reason && b.writes == a.writes)
    && (a.stopped ==> b.exception == a.exception && b.shuttingDown == a.shuttingDown && b.started == a.started)
    && a.writes <= b.writes
  }

  /** Whoever has left the task group has no child that still runs. */
  predicate Waited(s: Tree) {
    forall c | 0 <= c < |s| && s[c].parent.Some? ::
      s[c].parent.value < c && (s[s[c].parent.value].phase in {Closing, Over} ==> s[c].stopped)
  }

  predicate Inv(s: Tree) {
    (forall i | 0 <= i < |s| :: Consistent(s[i])) && Waited(s)
  }

  predicate AllLater(s: Tree, t: Tree) {
    |s| <= |t| && forall i | 0 <= i < |s| :: Later(s[i], t[i])
  }

  lemma ActionKeeps(s: Tree, a: Action)
    requires Inv(s) && Enabled(s, a)
    ensures Inv(Apply(s, a)) && AllLater(s, Apply(s, a))
  {
    var t := Apply(s, a);
    forall c | 0 <= c < |t| && t[c].parent.Some?
      ensures t[c].parent.value < c && (t[t[c].parent.value].phase in {Closing, Over} ==> t[c].stopped)
    {
      if c < |s| {
        assert s[c].parent == t[c].parent;
      }
    }
  }

  lemma {:induction false} RunKeeps(s: Tree, run: seq<Action>)
    requires Inv(s) && Possible(s, run)
    ensures Inv(After(s, run)) && AllLater(s, After(s, run))
    decreases |run|
  {
    hide Inv, Apply, Enabled;
    if run == [] {
      assert AllLater(s, s);
    } else {
      ActionKeeps(s, run[0]);
      RunKeeps(Apply(s, run[0]), run[1..]);
    }
  }

  predicate Reachable(s: Tree, run: seq<Action>) {
    Possible(Init(), run) && After(Init(), run) == s
  }

  lemma ReachableInv(s: Tree, run: seq<Action>)
    requires Reachable(s, run)
    ensures Inv(s)
  {
    RunKeeps(Init(), run);
  }

  // ------------------------------------------------------------------
  // Whole runs
  // ------------------------------------------------------------------

  /** What is observed of a service once it has been told something. */
  function Told(st: ServiceState, a: Action): ServiceState {
    match a
    case SetStarted(_) => if st == Starting then Running else st
    case Shutdown(_, reason) => if st == Starting || st == Running then ShuttingDown(reason) else st
    case Stop(_, exception) => Stopped(if st.ShuttingDown? then st.reason else None, exception)
    case _ => st
  }

  /**
   Observed from outside: a live service that is told it has started is running at least, one that is
   told to shut down gives the reason of the first call, and a stop shows that reason and the exception
   given to it.  Nothing else is observed of any service, and nothing of the others.
   */
  lemma ObservedExactly(s: Tree, before: seq<Action>, a: Action, i: nat)
    requires Reachable(s, before) && Enabled(s, a) && i < |s|
    ensures i < |Apply(s, a)|
    ensures Observed(Apply(s, a)[i]) == if a.i == i then Told(Observed(s[i]), a) else Observed(s[i])
  {
    ReachableInv(s, before);
    assert Consistent(s[i]);
    hide Inv, Reachable;
  }

  /** What was started is observed as starting, below the service that has started it. */
  lemma StartedIsObserved(s: Tree, i: nat)
    requires Enabled(s, Start(i))
    ensures var t := Apply(s, Start(i));
      |t| == |s| + 1 && t[..|s|] == s && Observed(t[|s|]) == Starting && t[|s|].parent == Some(i)
  {
  }

  /** From a stop on, whatever happens, the exception given to it is the one observed. */
  lemma ExceptionIsFinal(s: Tree, before: seq<Action>, exception: Option<Exc>, i: nat, run: seq<Action>)
    requires Reachable(s, before) && Enabled(s, Stop(i, exception)) && Possible(Apply(s, Stop(i, exception)), run)
    ensures var t := After(Apply(s, Stop(i, exception)), run);
      i < |t| && Observed(t[i]).Stopped? && Observed(t[i]).exception == exception
  {
    ReachableInv(s, before);
    ActionKeeps(s, Stop(i, exception));
    RunKeeps(Apply(s, Stop(i, exception)), run);
  }

  /** The state a client observes never goes back. */
  lemma RankNeverDecreases(s: Tree, before: seq<Action>, run: seq<Action>, i: nat)
    requires Reachable(s, before) && Possible(s, run) && i < |s|
    ensures i < |After(s, run)| && Rank(Observed(s[i])) <= Rank(Observed(After(s, run)[i]))
  {
    ReachableInv(s, before);
    RunKeeps(s, run);
  }

  /** `shutdown_reason` is assigned at most once, together with the event, and never after the stop. */
  lemma ReasonIsFinal(s: Tree, before: seq<Action>, run: seq<Action>, i: nat)
    requires Reachable(s, before) && Possible(s, run) && i < |s|
    ensures i < |After(s, run)|
    ensures var lt := After(s, run)[i];
      && lt.writes <= 1 && (lt.writes == 1 <==> lt.shuttingDown)
      && (s[i].shuttingDown || s[i].stopped ==> lt.reason == s[i].reason && lt.writes == s[i].writes)
  {
    ReachableInv(s, before);
    RunKeeps(s, run);
  }

  /** A stopped service stays exactly as it was observed. */
  lemma StoppedIsFinal(s: Tree, before: seq<Action>, run: seq<Action>, i: nat)
    requires Reachable(s, before) && Possible(s, run) && i < |s| && s[i].stopped
    ensures i < |After(s, run)| && Observed(After(s, run)[i]) == Observed(s[i])
  {
    ReachableInv(s, before);
    RunKeeps(s, run);
  }

  /** `c` was started by `i`, or by something `i` started. */
  predicate Below(s: Tree, c: nat, i: nat)
    requires Waited(s) && c < |s|
    decreases c
  {
    s[c].parent.Some? && (s[c].parent.value == i || Below(s, s[c].parent.value, i))
  }

  /**
   Before a service closes what it deferred, and before it reports that it has stopped, everything
   it started has stopped, at any depth.
   */
  lemma {:induction false} StopsLast(s: Tree, before: seq<Action>, c: nat, i: nat)
    requires Reachable(s, before) && c < |s| && i < |s|
    ensures Waited(s)
    ensures Below(s, c, i) && s[i].phase in {Closing, Over} ==> s[c].stopped
    ensures Below(s, c, i) && s[i].stopped ==> s[c].stopped
    decreases c
  {
    ReachableInv(s, before);
    if s[c].parent.Some? && s[c].parent.value != i {
      StopsLast(s, before, s[c].parent.value, i);
    }
  }

  lemma {:induction false} SameBelow(s: Tree, t: Tree, c: nat, i: nat)
    requires Waited(s) && Waited(t) && AllLater(s, t) && c < |s|
    ensures Below(t, c, i) <==> Below(s, c, i)
    decreases c
  {
    assert Later(s[c], t[c]);
    if s[c].parent.Some? && s[c].parent.value != i {
      SameBelow(s, t, s[c].parent.value, i);
    }
  }

  /** Nothing is started below a service that has stopped, at any depth. */
  lemma {:induction false} NothingStartsBelow(s: Tree, before: seq<Action>, run: seq<Action>, c: nat, i: nat)
    requires Reachable(s, before) && Possible(s, run) && i < |s| && s[i].stopped
    requires |s| <= c < |After(s, run)|
    ensures Waited(After(s, run)) && !Below(After(s, run), c, i)
    decreases c
  {
    ReachableInv(s, before);
    RunKeeps(s, run);
    NoNewChild(s, run, c, i);
    var t := After(s, run);
    if t[c].parent.Some? {
      var p := t[c].parent.value;
      if p >= |s| {
        NothingStartsBelow(s, before, run, p, i);
      } else if Below(t, p, i) {
        SameBelow(s, t, p, i);
        StopsLast(s, before, p, i);
        NoNewChild(s, run, c, p);
      }
    }
  }

  lemma {:induction false} NoNewChild(s: Tree, run: seq<Action>, c: nat, i: nat)
    requires Inv(s) && Possible(s, run) && i < |s| && s[i].stopped && |s| <= c < |After(s, run)|
    ensures After(s, run)[c].parent != Some(i)
    decreases |run|
  {
    if run != [] {
      var t := Apply(s, run[0]);
      ActionKeeps(s, run[0]);
      RunKeeps(t, run[1..]);
      if c < |t| {
        assert t[c].parent != Some(i);
      } else {
        NoNewChild(t, run[1..], c, i);
      }
    }
  }
}
