/**
 When a connection is in the selector map.  Its flag is documented to say so; it does not, in
 either direction, and this is exactly when it does.
 */
module SelectorRegistration {
  import opened Wrappers
  import opened Selector
  import opened SelectorProofs

  // ------------------------------------------------------------------
  // The books
  // ------------------------------------------------------------------

  /** A live connection is registered exactly when `TrackHere` did it or an `OpTrack` it was due has been applied. */
  ghost predicate Owed(live: set<Conn>, registered: set<Conn>, ops: seq<Op>, agents: Agents, inline: set<Conn>,
                       due: map<Conn, nat>) {
    forall c <- live ::
      && Outstanding(ops, agents, c) <= Due(due, c)
      && (c in registered <==> c in inline || Outstanding(ops, agents, c) < Due(due, c))
  }

  ghost predicate InlineTracked(live: set<Conn>, tracked: set<Conn>, inline: set<Conn>, sel: SelPC) {
    forall c <- inline | c in live :: c in tracked && !BeingStopped(sel, c)
  }

  /** Ops and flags speak of connections that have been built. */
  ghost predicate Named(ops: seq<Op>, agents: Agents, registered: set<Conn>, inline: set<Conn>, next: Conn) {
    && (forall i | 0 <= i < |ops| :: ops[i].OpTrack? ==> ops[i].conn < next)
    && (forall t <- agents :: !agents[t].Appended? && !agents[t].Posting? ==> agents[t].conn < next)
    && (forall t <- agents :: agents[t].Posting? ==> agents[t].op.OpOther?)
    && (forall c <- registered :: c < next)
    && (forall c <- inline :: c < next)
  }

  ghost predicate Stopped(ops: seq<Op>, agents: Agents, due: map<Conn, nat>, sel: SelPC) {
    sel.Stopping? ==> Due(due, sel.conn) == Outstanding(ops, agents, sel.conn)
  }

  ghost predicate Books(s: State) {
    && Owed(s.live, s.registered, s.ops, s.agents, s.inline, s.due)
    && InlineTracked(s.live, s.tracked, s.inline, s.sel)
    && Named(s.ops, s.agents, s.registered, s.inline, s.nextConn)
    && Stopped(s.ops, s.agents, s.due, s.sel)
  }

  lemma InitBooks(pipeSize: nat)
    ensures Books(Init(pipeSize))
  {
  }

  // ------------------------------------------------------------------
  // Counting
  // ------------------------------------------------------------------

  lemma {:induction false} CountAppended(ops: seq<Op>, op: Op, c: Conn)
    ensures CountTracks(ops + [op], c) == CountTracks(ops, c) + if op == OpTrack(c) then 1 else 0
  {
    if ops == [] {
      assert ops + [op] == [op] && [op][1..] == [];
    } else {
      assert (ops + [op])[1..] == ops[1..] + [op];
      CountAppended(ops[1..], op, c);
    }
  }

  lemma {:induction false} CountsNothing(ops: seq<Op>, c: Conn)
    requires forall i | 0 <= i < |ops| :: ops[i] != OpTrack(c)
    ensures CountTracks(ops, c) == 0
  {
    if ops != [] {
      CountsNothing(ops[1..], c);
    }
  }

  lemma OtherFlaggers(agents: Agents, agents': Agents, t: Thread, c: Conn)
    requires agents - {t} == agents' - {t}
    ensures Flaggers(agents, c) - {t} == Flaggers(agents', c) - {t}
  {
    forall u | u != t
      ensures u in agents <==> u in agents'
      ensures u in agents ==> agents[u] == agents'[u]
    {
      assert u in agents <==> u in agents - {t};
      assert u in agents' <==> u in agents' - {t};
      assert u in agents - {t} ==> (agents - {t})[u] == (agents' - {t})[u];
    }
  }

  lemma Without<T>(a: set<T>, x: T)
    ensures |a| == |a - {x}| + if x in a then 1 else 0
  {
    if x in a {
      assert a == (a - {x}) + {x};
    } else {
      assert a == a - {x};
    }
  }

  /** One thread moves: the flaggers of a connection change by that thread at most. */
  lemma FlaggersMove(agents: Agents, agents': Agents, t: Thread, c: Conn)
    requires agents - {t} == agents' - {t}
    ensures |Flaggers(agents', c)| + (if FlaggedAt(agents, t, c) then 1 else 0)
         == |Flaggers(agents, c)| + (if FlaggedAt(agents', t, c) then 1 else 0)
  {
    OtherFlaggers(agents, agents', t, c);
    assert t in Flaggers(agents, c) <==> FlaggedAt(agents, t, c);
    assert t in Flaggers(agents', c) <==> FlaggedAt(agents', t, c);
    hide Flaggers, FlaggedAt;
    Without(Flaggers(agents, c), t);
    Without(Flaggers(agents', c), t);
  }

  lemma NoFlaggers(agents: Agents, c: Conn)
    requires forall t <- agents :: agents[t] != Flagged(c)
    ensures |Flaggers(agents, c)| == 0
  {
    assert Flaggers(agents, c) == {};
  }

  lemma NewIsClear(s: State)
    requires Named(s.ops, s.agents, s.registered, s.inline, s.nextConn)
    ensures Outstanding(s.ops, s.agents, s.nextConn) == 0
  {
    CountsNothing(s.ops, s.nextConn);
    NoFlaggers(s.agents, s.nextConn);
  }

  // ------------------------------------------------------------------
  // Every step keeps the books
  // ------------------------------------------------------------------

  /** A thread moves and no flag moves with it. */
  lemma QuietMove(s: State, agents': Agents, t: Thread)
    requires s.agents - {t} == agents' - {t}
    requires !(t in s.agents && s.agents[t].Flagged?) && !(t in agents' && agents'[t].Flagged?)
    ensures forall c :: Outstanding(s.ops, agents', c) == Outstanding(s.ops, s.agents, c)
  {
    forall c
      ensures Outstanding(s.ops, agents', c) == Outstanding(s.ops, s.agents, c)
    {
      FlaggersMove(s.agents, agents', t, c);
    }
  }

  lemma AcceptBooks(s: State, t: Thread)
    requires Inv(s) && Books(s) && t !in s.agents
    ensures Books(AcceptStep(s, t))
  {
    NewIsClear(s);
    QuietMove(s, AcceptStep(s, t).agents, t);
    hide Outstanding, Holders, SelectorOwns, NoOrphan, Listening, PipeTells;
  }

  lemma QuietBooks(s: State, agents': Agents, t: Thread)
    requires Books(s) && s.agents - {t} == agents' - {t}
    requires !(t in s.agents && s.agents[t].Flagged?) && !(t in agents' && agents'[t].Flagged?)
    requires t in agents' && !agents'[t].Appended? && !agents'[t].Posting? ==> agents'[t].conn < s.nextConn
    requires t in agents' && agents'[t].Posting? ==> agents'[t].op.OpOther?
    ensures Books(s.(agents := agents'))
  {
    QuietMove(s, agents', t);
    hide Outstanding;
    forall u | u in agents' && u != t
      ensures u in s.agents && agents'[u] == s.agents[u]
    {
      assert u in agents' - {t};
      assert (s.agents - {t})[u] == (agents' - {t})[u];
    }
  }

  lemma RaiseBooks(s: State, t: Thread)
    requires Inv(s) && Books(s) && t in s.agents && s.agents[t].Driving?
    ensures Books(PostTrackStep(s, t))
  {
    var s', k := PostTrackStep(s, t), s.agents[t].conn;
    forall c
      ensures Outstanding(s.ops, s'.agents, c) == Outstanding(s.ops, s.agents, c) + if c == k then 1 else 0
    {
      FlaggersMove(s.agents, s'.agents, t, c);
    }
    assert k !in s.tracked;
    hide Outstanding, NoOrphan, Listening, PipeTells;
  }

  lemma CloseBooks(s: State, t: Thread)
    requires Inv(s) && Books(s) && t in s.agents && s.agents[t].Driving?
    ensures Books(DriverClosesStep(s, t))
  {
    QuietMove(s, s.agents - {t}, t);
    hide Outstanding, NoOrphan, Listening, PipeTells, SelectorOwns;
  }

  lemma AppendBooks(s: State, t: Thread)
    requires Inv(s) && Books(s) && t in s.agents && (s.agents[t].Flagged? || s.agents[t].Posting?)
    ensures Books(AppendStep(s, t))
  {
    var s', a := AppendStep(s, t), s.agents[t];
    var op := if a.Flagged? then OpTrack(a.conn) else a.op;
    forall c
      ensures Outstanding(s'.ops, s'.agents, c) == Outstanding(s.ops, s.agents, c)
    {
      FlaggersMove(s.agents, s'.agents, t, c);
      CountAppended(s.ops, op, c);
    }
    hide Outstanding, Holders, SelectorOwns, NoOrphan, Listening, PipeTells;
  }

  lemma PopBooks(s: State)
    requires Inv(s) && Books(s) && Draining(s.sel) && s.ops != []
    ensures Books(PopStep(s))
  {
    var s' := PopStep(s);
    forall c
      ensures Outstanding(s'.ops, s.agents, c)
           == Outstanding(s.ops, s.agents, c) - if s.ops[0] == OpTrack(c) then 1 else 0
    {
    }
    hide Outstanding, Holders, SelectorOwns, NoOrphan, Listening, PipeTells;
  }

  lemma AcceptHereBooks(s: State)
    requires Inv(s) && Books(s) && s.sel.Serve?
    ensures Books(AcceptHereStep(s))
  {
    NewIsClear(s);
    hide Outstanding, Holders, SelectorOwns, NoOrphan, Listening, PipeTells;
  }

  lemma FedBooks(s: State, malformed: bool)
    requires Inv(s) && Books(s) && s.sel.Feeding?
    ensures Books(FedStep(s, malformed))
  {
    hide Outstanding, Holders, SelectorOwns, NoOrphan, Listening, PipeTells;
  }

  lemma LoopBooks(s: State, got: Received)
    requires Inv(s) && Books(s) && s.sel.Looping?
    ensures Books(LoopStep(s, got))
  {
    hide Outstanding, Holders, SelectorOwns, NoOrphan, Listening, PipeTells;
  }

  lemma LowerBooks(s: State)
    requires Inv(s) && Books(s) && s.sel.Stopping?
    ensures Books(LowerFlagStep(s))
  {
    hide Outstanding, Holders, SelectorOwns, NoOrphan, Listening, PipeTells;
  }

  /** The selector thread moves on. */
  lemma MoveBooks(s: State, sel: SelPC, pipe: nat)
    requires Books(s) && (sel.Stopping? ==> sel == s.sel)
    ensures Books(s.(sel := sel, pipe := pipe))
  {
    hide Outstanding;
  }

  lemma ActionBooks(s: State, a: Action)
    requires Inv(s) && Books(s) && Enabled(s, a)
    ensures Books(Apply(s, a))
  {
    hide Books, Outstanding, Holders, SelectorOwns, NoOrphan, Listening, PipeTells;
    match a
    case Accept(t) => AcceptBooks(s, t);
    case Start(t) =>
      NamedAgent(s, t);
      QuietBooks(s, StartStep(s, t).agents, t);
    case GiveBack(t) =>
      if s.agents[t].conn in s.tracked {
        QuietBooks(s, s.agents - {t}, t);
      } else {
        RaiseBooks(s, t);
      }
    case PostTrack(t) => RaiseBooks(s, t);
    case DriverCloses(t) => CloseBooks(s, t);
    case Post(t, id) => QuietBooks(s, PostStep(s, t, id).agents, t);
    case Append(t) => AppendBooks(s, t);
    case Wake(t) =>
      MoveBooks(s, s.sel, WakeStep(s, t).pipe);
      QuietBooks(s.(pipe := WakeStep(s, t).pipe), s.agents - {t}, t);
    case Pop => PopBooks(s);
    case Drained => MoveBooks(s, DrainedStep(s).sel, s.pipe);
    case Ready(conns) => MoveBooks(s, ReadyStep(s, conns).sel, s.pipe);
    case ReadPipe => MoveBooks(s, ReadPipeStep(s).sel, 0);
    case Call(c) => MoveBooks(s, CallStep(s, c).sel, s.pipe);
    case AcceptHere => AcceptHereBooks(s);
    case EndOfEvents => MoveBooks(s, TopDrain, s.pipe);
    case LoopPass(got) => LoopBooks(s, got);
    case Defer => MoveBooks(s, DeferStep(s).sel, s.pipe);
    case Fed(malformed) => FedBooks(s, malformed);
    case LowerFlag => LowerBooks(s);
    case Submit(t) => SubmitBooks(s, t);
  }

  lemma NamedAgent(s: State, t: Thread)
    requires Books(s) && t in s.agents && (s.agents[t].Queued? || s.agents[t].Driving?)
    ensures s.agents[t].conn < s.nextConn
  {
  }

  lemma SubmitBooks(s: State, t: Thread)
    requires Inv(s) && Books(s) && s.sel.Submitting? && t !in s.agents
    ensures Books(SubmitStep(s, t))
  {
    var s' := SubmitStep(s, t);
    MoveBooks(s, s'.sel, s.pipe);
    assert s.sel.conn < s.nextConn;
    hide Books, Holders, SelectorOwns, NoOrphan, Listening, PipeTells, Outstanding;
    QuietBooks(s.(sel := s'.sel), s'.agents, t);
  }

  lemma {:induction false} RunBooks(s: State, run: seq<Action>)
    requires Inv(s) && Books(s) && Possible(s, run)
    ensures Books(After(s, run))
    decreases |run|
  {
    hide Inv, Books, Apply, Enabled;
    if run != [] {
      ActionKeeps(s, run[0]);
      ActionBooks(s, run[0]);
      RunBooks(Apply(s, run[0]), run[1..]);
    }
  }

  lemma ReachableBooks(s: State)
    requires Reachable(s)
    ensures Inv(s) && Books(s)
  {
    var pipeSize: nat, run :| pipeSize > 0 && Possible(Init(pipeSize), run) && s == After(Init(pipeSize), run);
    InitInv(pipeSize);
    InitBooks(pipeSize);
    RunKeeps(Init(pipeSize), run);
    RunBooks(Init(pipeSize), run);
  }

  // ------------------------------------------------------------------
  // Exactly when
  // ------------------------------------------------------------------

  predicate Unserved(s: State, c: Conn) {
    Outstanding(s.ops, s.agents, c) == Due(s.due, c)
  }

  /**
   A tracked connection is not in the selector map exactly when it was not registered inline and
   no `OpTrack` due to it has been applied: it is being stopped, or those that are queued or about
   to be are its only listener.
   */
  lemma TrackedUnregisteredExactlyWhen(s: State, c: Conn)
    requires Reachable(s) && c in s.tracked
    ensures c !in s.registered <==> c !in s.inline && Unserved(s, c)
    ensures c !in s.registered ==>
              OpTrack(c) in s.ops || BeingStopped(s.sel, c) || exists t :: FlaggedAt(s.agents, t, c)
    ensures BeingStopped(s.sel, c) ==> c !in s.registered
  {
    ReachableBooks(s);
    TrackedIsListenedTo(s, c);
  }

  /**
   A borrowed connection is in the selector map exactly when an `OpTrack` that was outstanding when
   its flag was lowered has been applied since.
   */
  lemma BorrowedRegisteredExactlyWhen(s: State, c: Conn)
    requires Reachable(s) && c in s.live && c !in s.tracked
    ensures c in s.registered <==> Outstanding(s.ops, s.agents, c) < Due(s.due, c)
  {
    ReachableBooks(s);
  }

  /** What is due to a connection when its flag is lowered is what is outstanding then ... */
  lemma DueWhenLowered(s: State)
    requires Reachable(s) && s.sel.Stopping?
    ensures var s', c := LowerFlagStep(s), s.sel.conn;
      Due(s'.due, c) == Outstanding(s'.ops, s'.agents, c) && c !in s'.tracked
  {
    ReachableBooks(s);
  }

  /** The connection whose books a step touches, if any. */
  function Touches(s: State, a: Action): Option<Conn>
    requires Enabled(s, a)
  {
    match a
    case Accept(_) => Some(s.nextConn)
    case AcceptHere => Some(s.nextConn)
    case GiveBack(t) => if s.agents[t].conn in s.tracked then None else Some(s.agents[t].conn)
    case PostTrack(t) => Some(s.agents[t].conn)
    case Fed(malformed) => if malformed || !s.sel.deferred then None else Some(s.sel.conn)
    case _ => None
  }

  lemma OthersUntouched(s: State, a: Action, c: Conn)
    requires Enabled(s, a) && Touches(s, a) != Some(c)
    ensures Due(Apply(s, a).due, c) == Due(s.due, c)
  {
    hide Outstanding, CountTracks, Flaggers;
  }

  /** ... and stays that as long as it is borrowed. */
  lemma DueWhileBorrowed(s: State, a: Action, c: Conn)
    requires Reachable(s) && Enabled(s, a) && c in s.live && c !in s.tracked && c !in Apply(s, a).tracked
    ensures Due(Apply(s, a).due, c) == Due(s.due, c)
  {
    ReachableInv(s);
    assert c < s.nextConn && (s.sel.Feeding? ==> s.sel.conn in s.tracked);
    hide Inv, Reachable, Outstanding;
    OthersUntouched(s, a, c);
  }

  // ------------------------------------------------------------------
  // Since the flag last moved
  // ------------------------------------------------------------------

  /** The connection is open, its flag is where it was, and it is not being stopped. */
  predicate Steady(s: State, c: Conn, up: bool) {
    c in s.live && (c in s.tracked <==> up) && !BeingStopped(s.sel, c)
  }

  predicate SteadyThroughout(s: State, run: seq<Action>, c: Conn, up: bool)
    requires Possible(s, run)
    decreases |run|
  {
    Steady(s, c, up) && (run == [] || SteadyThroughout(Apply(s, run[0]), run[1..], c, up))
  }

  lemma BooksStay(s: State, a: Action, c: Conn, up: bool)
    requires Inv(s) && Enabled(s, a) && Steady(s, c, up) && Steady(Apply(s, a), c, up)
    ensures Due(Apply(s, a).due, c) == Due(s.due, c)
    ensures c in Apply(s, a).inline ==> c in s.inline
  {
    assert c < s.nextConn && (s.sel.Feeding? ==> s.sel.conn in s.tracked);
    assert forall t <- s.agents | s.agents[t].Driving? :: s.agents[t].conn !in s.tracked;
    hide Inv, Outstanding;
    OthersUntouched(s, a, c);
  }

  lemma {:induction false} BooksStayThroughout(s: State, run: seq<Action>, c: Conn, up: bool)
    requires Inv(s) && Books(s) && Possible(s, run) && SteadyThroughout(s, run, c, up)
    ensures Inv(After(s, run)) && Books(After(s, run)) && Steady(After(s, run), c, up)
    ensures Due(After(s, run).due, c) == Due(s.due, c)
    ensures c in After(s, run).inline ==> c in s.inline
    decreases |run|
  {
    hide Inv, Books, Apply, Enabled, Steady;
    if run != [] {
      ActionKeeps(s, run[0]);
      ActionBooks(s, run[0]);
      BooksStayThroughout(Apply(s, run[0]), run[1..], c, up);
      BooksStay(s, run[0], c, up);
    }
  }

  /** Of the ops alone: an `OpTrack` outstanding when the flag moved has been applied since. */
  ghost predicate OneApplied(before: State, after: State, c: Conn) {
    Outstanding(after.ops, after.agents, c) < Outstanding(before.ops, before.agents, c)
  }

  lemma RegisteredSince(s: State, run: seq<Action>, c: Conn, up: bool)
    requires Inv(s) && Books(s) && Possible(s, run) && SteadyThroughout(s, run, c, up)
    requires c !in s.inline && Due(s.due, c) == Outstanding(s.ops, s.agents, c)
    ensures c in After(s, run).registered <==> OneApplied(s, After(s, run), c)
  {
    BooksStayThroughout(s, run, c, up);
    hide Inv, Outstanding, Possible, After, SteadyThroughout;
  }

  /**
   From the moment its flag is lowered, and as long as it stays down, a connection is in the selector
   map exactly when one of the `OpTrack`s queued or announced at that moment has been applied since.
   */
  lemma BorrowedRegisteredSince(s: State, run: seq<Action>)
    requires Reachable(s) && s.sel.Stopping?
    requires var s', c := LowerFlagStep(s), s.sel.conn; Possible(s', run) && SteadyThroughout(s', run, c, false)
    ensures var s', c := LowerFlagStep(s), s.sel.conn;
      c in After(s', run).registered <==> OneApplied(s', After(s', run), c)
  {
    var s', c := LowerFlagStep(s), s.sel.conn;
    ReachableBooks(s);
    DueWhenLowered(s);
    ActionKeeps(s, LowerFlag);
    ActionBooks(s, LowerFlag);
    assert Steady(s', c, false);
    assert c !in s'.inline;
    hide Inv, Books, Outstanding, Reachable, Possible, After, SteadyThroughout, Steady;
    RegisteredSince(s', run, c, false);
  }

  /** The same from the moment the flag is raised over a connection that is not in the map. */
  lemma TrackedRegisteredSince(s: State, t: Thread, run: seq<Action>)
    requires Reachable(s) && t in s.agents && s.agents[t].Driving? && s.agents[t].conn !in s.registered
    requires var s', c := PostTrackStep(s, t), s.agents[t].conn; Possible(s', run) && SteadyThroughout(s', run, c, true)
    ensures var s', c := PostTrackStep(s, t), s.agents[t].conn;
      c in After(s', run).registered <==> OneApplied(s', After(s', run), c)
  {
    var s', c := PostTrackStep(s, t), s.agents[t].conn;
    ReachableBooks(s);
    ActionKeeps(s, PostTrack(t));
    ActionBooks(s, PostTrack(t));
    DueWhenRaised(s, t);
    hide Inv, Books, Outstanding, Reachable, Possible, After, SteadyThroughout, Steady, FlaggedAt;
    RegisteredSince(s', run, c, true);
  }

  lemma DueWhenRaised(s: State, t: Thread)
    requires Inv(s) && Books(s) && t in s.agents && s.agents[t].Driving? && s.agents[t].conn !in s.registered
    ensures var s', c := PostTrackStep(s, t), s.agents[t].conn;
      Due(s'.due, c) == Outstanding(s'.ops, s'.agents, c) && c !in s'.inline
  {
    var s', c := PostTrackStep(s, t), s.agents[t].conn;
    FlaggersMove(s.agents, s'.agents, t, c);
    assert c in s.live && c !in s.tracked;
    hide Flaggers;
  }

  // ------------------------------------------------------------------
  // Both do happen
  // ------------------------------------------------------------------

  function Stage(tracked: set<Conn>, registered: set<Conn>, ops: seq<Op>, pipe: nat, agents: Agents, sel: SelPC,
                 posted: nat, applied: nat, due: nat): State {
    State({0}, tracked, registered, 1, ops, pipe, 1, agents, sel, Tracks(posted), Tracks(applied), {}, map[0 := due])
  }

  function Tracks(n: nat): seq<Op> {
    if n == 0 then [] else if n == 1 then [OpTrack(0)] else [OpTrack(0), OpTrack(0)]
  }

  /**
   A worker gives its connection back while the selector is still in the read loop; the selector
   reads on and dispatches once more; then the op of the first worker arrives.
   */
  const OVERTAKEN: seq<Action> := [
    Accept(1), GiveBack(1), Append(1), Wake(1), Pop, Drained, Ready({0}), Call(0), LoopPass(Bytes), Defer, Fed(false),
    LowerFlag, Submit(2), Start(2), GiveBack(2), LoopPass(Bytes), Defer, Fed(false), LowerFlag, Submit(3), Start(3),
    Append(2), LoopPass(NothingYet), ReadPipe, Pop]

  function Overtaken(i: nat): State {
    if i == 0 then Init(1)
    else if i == 1 then Stage({}, {}, [], 0, map[1 := Driving(0)], TopDrain, 0, 0, 0)
    else if i == 2 then Stage({0}, {}, [], 0, map[1 := Flagged(0)], TopDrain, 0, 0, 1)
    else if i == 3 then Stage({0}, {}, [OpTrack(0)], 0, map[1 := Appended], TopDrain, 1, 0, 1)
    else if i == 4 then Stage({0}, {}, [OpTrack(0)], 1, map[], TopDrain, 1, 0, 1)
    else if i == 5 then Stage({0}, {0}, [], 1, map[], TopDrain, 1, 1, 1)
    else if i == 6 then Stage({0}, {0}, [], 1, map[], Select, 1, 1, 1)
    else if i == 7 then Stage({0}, {0}, [], 1, map[], Serve(true, {0}), 1, 1, 1)
    else if i == 8 then Stage({0}, {0}, [], 1, map[], Looping(0, true, {}), 1, 1, 1)
    else if i == 9 then Stage({0}, {0}, [], 1, map[], Feeding(0, false, true, {}), 1, 1, 1)
    else if i == 10 then Stage({0}, {0}, [], 1, map[], Feeding(0, true, true, {}), 1, 1, 1)
    else if i == 11 then Stage({0}, {}, [], 1, map[], Stopping(0, true, {}), 1, 1, 0)
    else if i == 12 then Stage({}, {}, [], 1, map[], Submitting(0, true, {}), 1, 1, 0)
    else if i == 13 then Stage({}, {}, [], 1, map[2 := Queued(0)], Looping(0, true, {}), 1, 1, 0)
    else if i == 14 then Stage({}, {}, [], 1, map[2 := Driving(0)], Looping(0, true, {}), 1, 1, 0)
    else if i == 15 then Stage({0}, {}, [], 1, map[2 := Flagged(0)], Looping(0, true, {}), 1, 1, 1)
    else if i == 16 then Stage({0}, {}, [], 1, map[2 := Flagged(0)], Feeding(0, false, true, {}), 1, 1, 1)
    else if i == 17 then Stage({0}, {}, [], 1, map[2 := Flagged(0)], Feeding(0, true, true, {}), 1, 1, 1)
    else if i == 18 then Stage({0}, {}, [], 1, map[2 := Flagged(0)], Stopping(0, true, {}), 1, 1, 1)
    else if i == 19 then Stage({}, {}, [], 1, map[2 := Flagged(0)], Submitting(0, true, {}), 1, 1, 1)
    else if i == 20 then Stage({}, {}, [], 1, map[2 := Flagged(0), 3 := Queued(0)], Looping(0, true, {}), 1, 1, 1)
    else if i == 21 then Stage({}, {}, [], 1, map[2 := Flagged(0), 3 := Driving(0)], Looping(0, true, {}), 1, 1, 1)
    else if i == 22 then
      Stage({}, {}, [OpTrack(0)], 1, map[2 := Appended, 3 := Driving(0)], Looping(0, true, {}), 2, 1, 1)
    else if i == 23 then Stage({}, {}, [OpTrack(0)], 1, map[2 := Appended, 3 := Driving(0)], Serve(true, {}), 2, 1, 1)
    else if i == 24 then Stage({}, {}, [OpTrack(0)], 0, map[2 := Appended, 3 := Driving(0)], WakeDrain({}), 2, 1, 1)
    else Stage({}, {0}, [], 0, map[2 := Appended, 3 := Driving(0)], WakeDrain({}), 2, 2, 1)
  }

  lemma FlaggersOf(agents: Agents, c: Conn, flaggers: set<Thread>)
    requires forall t :: t in flaggers <==> t in agents && agents[t] == Flagged(c)
    ensures Flaggers(agents, c) == flaggers
  {
  }

  lemma StepsToFlag(i: nat)
    requires 0 <= i < 4
    ensures Enabled(Overtaken(i), OVERTAKEN[i]) && Apply(Overtaken(i), OVERTAKEN[i]) == Overtaken(i + 1)
  {
    assert map[0 := 0][0 := 1] == map[0 := 1];
    assert map[1 := Flagged(0)][1 := Appended] == map[1 := Appended];
    assert map[1 := Appended] - {1} == map[];
  }

  lemma StepsToSelect(i: nat)
    requires 4 <= i < 8
    ensures Enabled(Overtaken(i), OVERTAKEN[i]) && Apply(Overtaken(i), OVERTAKEN[i]) == Overtaken(i + 1)
  {
    assert [OpTrack(0)][1..] == [];
    assert {} + {0} == {0} && {0} - {0} == {};
  }

  lemma StepsToRead(i: nat)
    requires 8 <= i < 11
    ensures Enabled(Overtaken(i), OVERTAKEN[i]) && Apply(Overtaken(i), OVERTAKEN[i]) == Overtaken(i + 1)
  {
    FlaggersOf(map[], 0, {});
    assert CountTracks([], 0) == 0;
    assert map[0 := 1][0 := 0] == map[0 := 0];
    assert {0} - {0} == {};
  }

  lemma StepsToGiveBack(i: nat)
    requires 11 <= i < 15
    ensures Enabled(Overtaken(i), OVERTAKEN[i]) && Apply(Overtaken(i), OVERTAKEN[i]) == Overtaken(i + 1)
  {
  }

  lemma StepsToFeedAgain(i: nat)
    requires 15 <= i < 18
    ensures Enabled(Overtaken(i), OVERTAKEN[i]) && Apply(Overtaken(i), OVERTAKEN[i]) == Overtaken(i + 1)
  {
    FlaggersOf(map[2 := Flagged(0)], 0, {2});
    assert CountTracks([], 0) == 0;
  }

  lemma StepsToSecondOwner(i: nat)
    requires 18 <= i < 21
    ensures Enabled(Overtaken(i), OVERTAKEN[i]) && Apply(Overtaken(i), OVERTAKEN[i]) == Overtaken(i + 1)
  {
    FlaggersOf(map[2 := Flagged(0)], 0, {2});
    assert CountTracks([], 0) == 0;
    assert map[2 := Flagged(0)][3 := Queued(0)] == map[2 := Flagged(0), 3 := Queued(0)];
    assert map[2 := Flagged(0), 3 := Queued(0)][3 := Driving(0)] == map[2 := Flagged(0), 3 := Driving(0)];
  }

  lemma StepsToStaleOp(i: nat)
    requires 21 <= i < 25
    ensures Enabled(Overtaken(i), OVERTAKEN[i]) && Apply(Overtaken(i), OVERTAKEN[i]) == Overtaken(i + 1)
  {
  }

  lemma OvertakenStep(i: nat)
    requires i < 25
    ensures Enabled(Overtaken(i), OVERTAKEN[i]) && Apply(Overtaken(i), OVERTAKEN[i]) == Overtaken(i + 1)
  {
    hide *;
    if i < 4 {
      StepsToFlag(i);
    } else if i < 8 {
      StepsToSelect(i);
    } else if i < 11 {
      StepsToRead(i);
    } else if i < 15 {
      StepsToGiveBack(i);
    } else if i < 18 {
      StepsToFeedAgain(i);
    } else if i < 21 {
      StepsToSecondOwner(i);
    } else {
      StepsToStaleOp(i);
    }
  }

  lemma {:induction false} Snoc(s: State, run: seq<Action>, a: Action)
    requires Possible(s, run) && Enabled(After(s, run), a)
    ensures Possible(s, run + [a]) && After(s, run + [a]) == Apply(After(s, run), a)
    decreases |run|
  {
    hide Apply, Enabled;
    if run == [] {
      assert [a][1..] == [] && run + [a] == [a];
    } else {
      assert (run + [a])[1..] == run[1..] + [a];
      Snoc(Apply(s, run[0]), run[1..], a);
    }
  }

  lemma OvertakenStart()
    ensures Overtaken(0) == Init(1)
  {
  }

  lemma {:induction false} OvertakenRun(n: nat)
    requires n <= 25
    ensures Possible(Init(1), OVERTAKEN[..n]) && After(Init(1), OVERTAKEN[..n]) == Overtaken(n)
  {
    OvertakenStart();
    hide Overtaken, Apply, Enabled, Init;
    if n > 0 {
      OvertakenRun(n - 1);
      OvertakenStep(n - 1);
      assert OVERTAKEN[..n] == OVERTAKEN[..n - 1] + [OVERTAKEN[n - 1]];
      Snoc(Init(1), OVERTAKEN[..n - 1], OVERTAKEN[n - 1]);
    } else {
      assert OVERTAKEN[..n] == [];
    }
  }

  lemma OvertakenReachable(n: nat)
    requires n <= 25
    ensures Reachable(Overtaken(n))
  {
    hide Overtaken, Possible, After;
    OvertakenRun(n);
  }

  /** Tracked, and not in the selector map. */
  lemma TrackedButUnregistered() returns (s: State)
    ensures Reachable(s) && 0 in s.tracked && 0 !in s.registered
  {
    OvertakenReachable(2);
    s := Overtaken(2);
  }

  /** Borrowed by a worker that drives it, and in the selector map. */
  lemma BorrowedButRegistered() returns (s: State)
    ensures Reachable(s) && 0 in s.registered && 0 !in s.tracked && 3 in s.agents && s.agents[3] == Driving(0)
  {
    OvertakenReachable(25);
    s := Overtaken(25);
  }
}
