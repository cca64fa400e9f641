/**
 What each step does to a connection, told by who has it and where it is: every way in which a
 connection comes to be open, tracked, registered or borrowed, and every way in which it ceases to be.
 */
module SelectorOutcomes {
  import opened Selector
  import opened SelectorProofs

  predicate OthersStand(s: State, s': State, c: Conn) {
    && s'.live - {c} == s.live - {c} && s'.tracked - {c} == s.tracked - {c}
    && s'.registered - {c} == s.registered - {c}
  }

  predicate AllStand(s: State, s': State) {
    s'.live == s.live && s'.tracked == s.tracked && s'.registered == s.registered
  }

  /**
   One turn of the read loop.  While the flag is down it ends.  When `recv` would block, the selector
   turns to the other events and the connection waits for more bytes; when the peer has gone, or a
   message is complete and its answer said so, the connection is closed; else it is read on.
   */
  lemma TurnOutcome(s: State, got: Received)
    requires Reachable(s) && s.sel.Looping?
    ensures var s', c := Apply(s, LoopPass(got)), s.sel.conn;
      && OthersStand(s, s', c) && s'.agents == s.agents && s'.ops == s.ops
      && (c !in s.tracked || got == NothingYet ==> AllStand(s, s') && s'.sel == Serve(s.sel.wake, s.sel.conns))
      && (c in s.tracked && got == Complete(false) ==> AllStand(s, s') && s'.sel == s.sel)
      && (c in s.tracked && got == Bytes ==>
            AllStand(s, s') && s'.sel == Feeding(c, false, s.sel.wake, s.sel.conns))
      && (c in s.tracked && got in {PeerGone, Complete(true)} ==>
            && c !in s'.live && c !in s'.tracked && c !in s'.registered
            && s'.sel == Serve(s.sel.wake, s.sel.conns))
  {
    ReachableInv(s);
  }

  /** The parser returns: malformed input closes; a deferred dispatch unregisters; else the loop goes on. */
  lemma FeedOutcome(s: State, malformed: bool)
    requires Reachable(s) && s.sel.Feeding?
    ensures var s', c := Apply(s, Fed(malformed)), s.sel.conn;
      && OthersStand(s, s', c) && s'.agents == s.agents && s'.ops == s.ops
      && (malformed ==>
            c !in s'.live && c !in s'.tracked && c !in s'.registered && s'.sel == Serve(s.sel.wake, s.sel.conns))
      && (!malformed && s.sel.deferred ==>
            && c in s'.live && c in s'.tracked && c !in s'.registered
            && s'.sel == Stopping(c, s.sel.wake, s.sel.conns))
      && (!malformed && !s.sel.deferred ==> AllStand(s, s') && s'.sel == Looping(c, s.sel.wake, s.sel.conns))
  {
    ReachableInv(s);
  }

  // ------------------------------------------------------------------
  // Every way in and out
  // ------------------------------------------------------------------

  /** The selector thread closes `c`: the peer is gone, the last answer said so, or the input is malformed. */
  predicate SelectorCloses(s: State, a: Action, c: Conn) {
    || (a in {LoopPass(PeerGone), LoopPass(Complete(true))} && s.sel.Looping? && s.sel.conn == c && c in s.tracked)
    || (a == Fed(true) && s.sel.Feeding? && s.sel.conn == c)
  }

  /** The thread that has borrowed `c` closes it. */
  predicate DriverEnds(s: State, a: Action, c: Conn) {
    a.DriverCloses? && a.t in s.agents && s.agents[a.t] == Driving(c)
  }

  /** Flags and borrowers belong to open connections, and the parser to a tracked one. */
  lemma Standing(s: State)
    requires Reachable(s)
    ensures s.tracked <= s.live && forall c <- s.live :: c < s.nextConn
    ensures s.sel.Feeding? || s.sel.Stopping? ==> s.sel.conn in s.tracked
    ensures forall t <- s.agents | s.agents[t].Driving? :: s.agents[t].conn in s.live - s.tracked
  {
    ReachableInv(s);
    hide Reachable;
  }

  /** A connection ceases to be open exactly when the selector thread closes it, or its driver does. */
  lemma ClosedExactlyWhen(s: State, a: Action, c: Conn)
    requires Reachable(s) && Enabled(s, a)
    ensures c in s.live && c !in Apply(s, a).live <==> SelectorCloses(s, a, c) || DriverEnds(s, a, c)
  {
    Standing(s);
    hide Reachable, Outstanding, Due;
  }

  /** Connections are built by accepting, one at a time. */
  lemma OpenedExactlyWhen(s: State, a: Action, c: Conn)
    requires Reachable(s) && Enabled(s, a)
    ensures c !in s.live && c in Apply(s, a).live <==> (a.Accept? || a == AcceptHere) && c == s.nextConn
  {
    Standing(s);
    hide Reachable, Outstanding, Due;
  }

  /** Its flag goes up exactly when it is accepted here or given back by its driver. */
  lemma FlagRisesExactlyWhen(s: State, a: Action, c: Conn)
    requires Reachable(s) && Enabled(s, a)
    ensures c !in s.tracked && c in Apply(s, a).tracked <==>
              || (a == AcceptHere && c == s.nextConn)
              || ((a.GiveBack? || a.PostTrack?) && s.agents[a.t] == Driving(c))
  {
    Standing(s);
    hide Reachable, Outstanding, Due;
  }

  /** It goes down exactly when the selector thread closes the connection or stops to track it. */
  lemma FlagFallsExactlyWhen(s: State, a: Action, c: Conn)
    requires Reachable(s) && Enabled(s, a)
    ensures c in s.tracked && c !in Apply(s, a).tracked <==>
              SelectorCloses(s, a, c) || (a == LowerFlag && s.sel.conn == c)
  {
    Standing(s);
    hide Reachable, Outstanding, Due;
  }

  /** It enters the selector map exactly when it is accepted here or an op for it is applied while it is open. */
  lemma EntersMapExactlyWhen(s: State, a: Action, c: Conn)
    requires Reachable(s) && Enabled(s, a)
    ensures c !in s.registered && c in Apply(s, a).registered <==>
              c !in s.registered &&
                ((a == AcceptHere && c == s.nextConn) || (a == Pop && s.ops[0] == OpTrack(c) && c in s.live))
  {
    Standing(s);
    hide Reachable, Outstanding, Due;
  }

  /** It leaves the map exactly when the selector thread closes it or dispatches from it. */
  lemma LeavesMapExactlyWhen(s: State, a: Action, c: Conn)
    requires Reachable(s) && Enabled(s, a)
    ensures c in s.registered && c !in Apply(s, a).registered <==>
              c in s.registered && (SelectorCloses(s, a, c) || (a == Fed(false) && s.sel.deferred && s.sel.conn == c))
  {
    Standing(s);
    hide Reachable, Outstanding, Due;
  }

  /** A thread comes to hold a connection exactly when it has accepted it or is given it in a dispatch. */
  lemma BorrowedExactlyWhen(s: State, a: Action, t: Thread, c: Conn)
    requires Reachable(s) && Enabled(s, a)
    ensures !HoldsAt(s.agents, t, c) && HoldsAt(Apply(s, a).agents, t, c) <==>
              || (a == Accept(t) && c == s.nextConn)
              || (a == Submit(t) && s.sel.conn == c)
  {
    Standing(s);
    hide Reachable, Outstanding, Due;
  }

  /** It ceases to exactly when it closes it or gives it back. */
  lemma ReturnedExactlyWhen(s: State, a: Action, t: Thread, c: Conn)
    requires Reachable(s) && Enabled(s, a)
    ensures HoldsAt(s.agents, t, c) && !HoldsAt(Apply(s, a).agents, t, c) <==>
              a in {DriverCloses(t), GiveBack(t), PostTrack(t)} && s.agents[t] == Driving(c)
  {
    Standing(s);
    hide Reachable, Outstanding, Due;
  }

  // ------------------------------------------------------------------
  // Ops and events
  // ------------------------------------------------------------------

  predicate Announces(a: Agent, op: Op) {
    a == Posting(op) || (a.Flagged? && op == OpTrack(a.conn))
  }

  /** The queue grows exactly by the op its producer announced, and shrinks by its oldest op. */
  lemma QueueOutcome(s: State, a: Action)
    requires Reachable(s) && Enabled(s, a)
    ensures var s' := Apply(s, a);
      || (s'.ops == s.ops && !a.Append? && a != Pop)
      || (a.Append? && exists op :: Announces(s.agents[a.t], op) && s'.ops == s.ops + [op])
      || (a == Pop && s.ops == [s.ops[0]] + s'.ops)
  {
    hide Reachable, Outstanding;
    if a == Pop {
      assert s.ops == [s.ops[0]] + s.ops[1..];
    } else if a.Append? {
      var op := if s.agents[a.t].Flagged? then OpTrack(s.agents[a.t].conn) else s.agents[a.t].op;
      assert Announces(s.agents[a.t], op);
    }
  }

  /** The op of an open connection puts it into the map; the op of a closed one leaves it out, and untracked. */
  lemma OpOutcome(s: State, c: Conn)
    requires Reachable(s) && Enabled(s, Pop) && s.ops[0] == OpTrack(c)
    ensures var s' := Apply(s, Pop);
      && s'.live == s.live && s'.tracked == s.tracked && s'.agents == s.agents
      && s'.registered == (if c in s.live then s.registered + {c} else s.registered)
      && (c !in s.live ==> c !in s'.tracked)
  {
    ReachableInv(s);
    hide Reachable, Outstanding, PipeTells, Listening, NoOrphan;
  }

  /** The pipe gains one byte when a producer wakes the selector, unless it is full, and is emptied at once. */
  lemma PipeOutcome(s: State, a: Action)
    requires Reachable(s) && Enabled(s, a)
    ensures Apply(s, a).pipe ==
              if a == ReadPipe then 0 else if a.Wake? && s.pipe < s.pipeSize then s.pipe + 1 else s.pipe
  {
    hide Reachable, Outstanding, Due;
  }

  /** A callback is called once for an event: with its connection, and the other events still to serve. */
  lemma CallOutcome(s: State, c: Conn)
    requires Enabled(s, Call(c))
    ensures var s' := Apply(s, Call(c));
      && AllStand(s, s') && s'.sel.Looping? && s'.sel.conn == c && c !in s'.sel.conns
      && s.sel.conns == s'.sel.conns + {c} && s'.sel.wake == s.sel.wake
  {
  }

  predicate Wakes(sel: SelPC) {
    !sel.TopDrain? && !sel.Select? && !sel.WakeDrain? && sel.wake
  }

  /** A byte that is in the pipe when `select` returns is read before the selector can sleep again. */
  lemma {:induction false} ByteIsRead(s: State, run: seq<Action>)
    requires Possible(s, run) && Wakes(s.sel) && ReadPipe !in run
    ensures Wakes(After(s, run).sel)
    decreases |run|
  {
    hide Outstanding;
    if run != [] {
      assert run[0] != ReadPipe && ReadPipe !in run[1..];
      WakeStays(s, run[0]);
      hide Apply, Enabled, Wakes;
      ByteIsRead(Apply(s, run[0]), run[1..]);
    }
  }

  lemma WakeStays(s: State, a: Action)
    requires Enabled(s, a) && Wakes(s.sel) && a != ReadPipe
    ensures Wakes(Apply(s, a).sel)
  {
    hide Outstanding;
  }

  /** `select` reports the pipe exactly when it holds a byte, and only sockets that are in the map. */
  lemma SelectOutcome(s: State, conns: set<Conn>)
    requires Enabled(s, Ready(conns))
    ensures var s' := Apply(s, Ready(conns));
      (Wakes(s'.sel) <==> s.pipe > 0) && s'.sel.Serve? && s'.sel.conns == conns <= s.registered && AllStand(s, s')
  {
  }

  predicate StillToServe(sel: SelPC, c: Conn) {
    !sel.TopDrain? && !sel.Select? && c in sel.conns
  }

  /** A socket that `select` reports has its callback called before the selector can sleep again. */
  lemma {:induction false} EventIsServed(s: State, run: seq<Action>, c: Conn)
    requires Possible(s, run) && StillToServe(s.sel, c) && Call(c) !in run
    ensures StillToServe(After(s, run).sel, c)
    decreases |run|
  {
    hide Outstanding;
    if run != [] {
      assert run[0] != Call(c) && Call(c) !in run[1..];
      EventStays(s, run[0], c);
      hide Apply, Enabled, StillToServe;
      EventIsServed(Apply(s, run[0]), run[1..], c);
    }
  }

  lemma EventStays(s: State, a: Action, c: Conn)
    requires Enabled(s, a) && StillToServe(s.sel, c) && a != Call(c)
    ensures StillToServe(Apply(s, a).sel, c)
  {
    hide Outstanding;
  }
}
