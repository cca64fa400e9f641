/**
 What every interleaving of the selector thread with worker, acceptor and posting threads keeps.
 */
module SelectorProofs {
  import opened Selector

  type Agents = map<Thread, Agent>

  predicate Holds(a: Agent, c: Conn) {
    (a.Queued? || a.Driving?) && a.conn == c
  }

  ghost predicate Held(agents: Agents, c: Conn) {
    exists t :: t in agents && Holds(agents[t], c)
  }

  predicate HandsOver(sel: SelPC, c: Conn) {
    sel.Submitting? && sel.conn == c
  }

  predicate Feeds(sel: SelPC, c: Conn) {
    (sel.Feeding? || sel.Stopping?) && sel.conn == c
  }

  /** Holders hold distinct, live, untracked connections. */
  ghost predicate Holders(live: set<Conn>, tracked: set<Conn>, agents: Agents) {
    && (forall t <- agents | agents[t].Queued? || agents[t].Driving? ::
          agents[t].conn in live && agents[t].conn !in tracked)
    && (forall t <- agents, u <- agents | t != u && (agents[t].Queued? || agents[t].Driving?) ::
          !Holds(agents[u], agents[t].conn))
  }

  /** The selector thread feeds only tracked connections, and hands over one nobody holds. */
  ghost predicate SelectorOwns(live: set<Conn>, tracked: set<Conn>, agents: Agents, sel: SelPC) {
    && (sel.Feeding? || sel.Stopping? ==> sel.conn in tracked)
    && (sel.Submitting? ==> sel.conn in live && sel.conn !in tracked && !Held(agents, sel.conn))
  }

  /** Every live connection is tracked or has an owner. */
  ghost predicate NoOrphan(live: set<Conn>, tracked: set<Conn>, agents: Agents, sel: SelPC) {
    forall c <- live :: c in tracked || Held(agents, c) || HandsOver(sel, c)
  }

  ghost predicate Announced(agents: Agents, c: Conn) {
    exists t :: t in agents && agents[t] == Flagged(c)
  }

  predicate BeingStopped(sel: SelPC, c: Conn) {
    sel.Stopping? && sel.conn == c
  }

  /** Every tracked connection is listened to, or is about to be. */
  ghost predicate Listening(tracked: set<Conn>, registered: set<Conn>, ops: seq<Op>, agents: Agents, sel: SelPC) {
    forall c <- tracked ::
      c in registered || OpTrack(c) in ops || Announced(agents, c) || BeingStopped(sel, c)
  }

  predicate Known(live: set<Conn>, tracked: set<Conn>, next: Conn) {
    tracked <= live && forall c <- live :: c < next
  }

  ghost predicate Waking(agents: Agents) {
    exists t :: t in agents && agents[t].Appended?
  }

  predicate Draining(sel: SelPC) {
    sel.TopDrain? || sel.WakeDrain?
  }

  /** Outside `_drain_ops`, a queued op has a byte in the pipe or a thread about to write one. */
  ghost predicate PipeTells(ops: seq<Op>, pipe: nat, pipeSize: nat, agents: Agents, sel: SelPC) {
    && 0 < pipeSize
    && pipe <= pipeSize
    && (!Draining(sel) && ops != [] ==> pipe > 0 || Waking(agents))
  }

  ghost predicate Inv(s: State) {
    && Known(s.live, s.tracked, s.nextConn)
    && Holders(s.live, s.tracked, s.agents)
    && SelectorOwns(s.live, s.tracked, s.agents, s.sel)
    && NoOrphan(s.live, s.tracked, s.agents, s.sel)
    && Listening(s.tracked, s.registered, s.ops, s.agents, s.sel)
    && PipeTells(s.ops, s.pipe, s.pipeSize, s.agents, s.sel)
    && s.posted == s.applied + s.ops
  }

  lemma InitInv(pipeSize: nat)
    requires pipeSize > 0
    ensures Inv(Init(pipeSize))
  {
  }

  // ------------------------------------------------------------------
  // Other threads
  // ------------------------------------------------------------------

  predicate HoldsAt(agents: Agents, t: Thread, c: Conn) {
    t in agents && Holds(agents[t], c)
  }

  predicate FlaggedAt(agents: Agents, t: Thread, c: Conn) {
    t in agents && agents[t] == Flagged(c)
  }

  predicate WakesAt(agents: Agents, t: Thread) {
    t in agents && agents[t].Appended?
  }

  /** One thread moves; for a connection it neither takes nor leaves, nothing changes. */
  lemma OthersUnmoved(agents: Agents, agents': Agents, t: Thread, c: Conn)
    requires agents - {t} == agents' - {t}
    ensures (HoldsAt(agents, t, c) <==> HoldsAt(agents', t, c)) ==> (Held(agents, c) <==> Held(agents', c))
    ensures (FlaggedAt(agents, t, c) <==> FlaggedAt(agents', t, c)) ==>
              (Announced(agents, c) <==> Announced(agents', c))
    ensures (WakesAt(agents, t) ==> WakesAt(agents', t)) ==> Waking(agents) ==> Waking(agents')
  {
    forall u | u != t ensures u in agents <==> u in agents' {
      assert u in agents <==> u in agents - {t};
      assert u in agents' <==> u in agents' - {t};
    }
    forall u | u != t && u in agents ensures agents[u] == agents'[u] {
      assert agents[u] == (agents - {t})[u];
      assert agents'[u] == (agents' - {t})[u];
    }
  }

  lemma AllUnmoved(agents: Agents, agents': Agents, t: Thread)
    requires agents - {t} == agents' - {t}
    ensures forall c :: (HoldsAt(agents, t, c) <==> HoldsAt(agents', t, c)) ==> (Held(agents, c) <==> Held(agents', c))
    ensures forall c :: (FlaggedAt(agents, t, c) <==> FlaggedAt(agents', t, c)) ==>
                          (Announced(agents, c) <==> Announced(agents', c))
    ensures (WakesAt(agents, t) ==> WakesAt(agents', t)) ==> Waking(agents) ==> Waking(agents')
  {
    forall c
      ensures (HoldsAt(agents, t, c) <==> HoldsAt(agents', t, c)) ==> (Held(agents, c) <==> Held(agents', c))
      ensures (FlaggedAt(agents, t, c) <==> FlaggedAt(agents', t, c)) ==>
                (Announced(agents, c) <==> Announced(agents', c))
    {
      OthersUnmoved(agents, agents', t, c);
    }
    OthersUnmoved(agents, agents', t, 0);
  }

  lemma AcceptKeeps(s: State, t: Thread)
    requires Inv(s) && t !in s.agents
    ensures Inv(AcceptStep(s, t))
  {
    AllUnmoved(s.agents, AcceptStep(s, t).agents, t);
    assert HoldsAt(AcceptStep(s, t).agents, t, s.nextConn);
  }

  lemma StartKeeps(s: State, t: Thread)
    requires Inv(s) && t in s.agents && s.agents[t].Queued?
    ensures Inv(StartStep(s, t))
  {
    AllUnmoved(s.agents, StartStep(s, t).agents, t);
  }

  lemma GiveBackKeeps(s: State, t: Thread)
    requires Inv(s) && t in s.agents && s.agents[t].Driving?
    ensures Inv(GiveBackStep(s, t))
  {
    AllUnmoved(s.agents, GiveBackStep(s, t).agents, t);
  }

  lemma PostTrackKeeps(s: State, t: Thread)
    requires Inv(s) && t in s.agents && s.agents[t].Driving?
    ensures Inv(PostTrackStep(s, t))
  {
    GiveBackKeeps(s, t);
  }

  lemma DriverClosesKeeps(s: State, t: Thread)
    requires Inv(s) && t in s.agents && s.agents[t].Driving?
    ensures Inv(DriverClosesStep(s, t))
  {
    AllUnmoved(s.agents, DriverClosesStep(s, t).agents, t);
  }

  lemma PostKeeps(s: State, t: Thread, id: nat)
    requires Inv(s) && t !in s.agents
    ensures Inv(PostStep(s, t, id))
  {
    AllUnmoved(s.agents, PostStep(s, t, id).agents, t);
  }

  lemma AppendKeeps(s: State, t: Thread)
    requires Inv(s) && t in s.agents && (s.agents[t].Flagged? || s.agents[t].Posting?)
    ensures Inv(AppendStep(s, t))
  {
    var s' := AppendStep(s, t);
    AllUnmoved(s.agents, s'.agents, t);
    assert WakesAt(s'.agents, t);
    assert forall op :: op in s.ops ==> op in s'.ops;
    assert s'.ops[|s.ops|] in s'.ops;
  }

  lemma WakeKeeps(s: State, t: Thread)
    requires Inv(s) && t in s.agents && s.agents[t].Appended?
    ensures Inv(WakeStep(s, t))
  {
    AllUnmoved(s.agents, WakeStep(s, t).agents, t);
  }

  // ------------------------------------------------------------------
  // The selector thread
  // ------------------------------------------------------------------

  lemma PopKeeps(s: State)
    requires Inv(s) && Draining(s.sel) && s.ops != []
    ensures Inv(PopStep(s))
  {
    hide Held, Waking, Announced, Holds;
    var s' := PopStep(s);
    assert forall op :: op in s.ops ==> op == s.ops[0] || op in s'.ops;
    assert s.ops == [s.ops[0]] + s'.ops;
    if s.ops[0].OpTrack? && s.ops[0].conn !in s.live {
      assert s'.tracked == s.tracked;
    }
  }

  /** The selector thread moves on, in a place where it owns nothing. */
  lemma SelMoves(s: State, sel: SelPC)
    requires Inv(s)
    requires sel.TopDrain? || sel.Select? || sel.Serve? || sel.WakeDrain? || sel.Looping?
    requires !s.sel.Submitting? && !s.sel.Stopping?
    requires Draining(s.sel) && !Draining(sel) ==> s.ops == []
    ensures Inv(s.(sel := sel))
  {
  }

  lemma ReadPipeKeeps(s: State)
    requires Inv(s) && s.sel.Serve?
    ensures Inv(ReadPipeStep(s))
  {
  }

  lemma AcceptHereKeeps(s: State)
    requires Inv(s) && s.sel.Serve?
    ensures Inv(AcceptHereStep(s))
  {
    assert !Held(s.agents, s.nextConn);
  }

  lemma CloseHereKeeps(s: State, c: Conn)
    requires Inv(s) && c in s.tracked && !s.sel.Submitting? && !Feeds(s.sel, c)
    ensures Inv(CloseHere(s, c))
  {
  }

  lemma LoopKeeps(s: State, got: Received)
    requires Inv(s) && s.sel.Looping?
    ensures Inv(LoopStep(s, got))
  {
    if s.sel.conn in s.tracked && (got == PeerGone || got == Complete(true)) {
      CloseHereKeeps(s, s.sel.conn);
      SelMoves(CloseHere(s, s.sel.conn), Serve(s.sel.wake, s.sel.conns));
    }
  }

  lemma FedKeeps(s: State, malformed: bool)
    requires Inv(s) && s.sel.Feeding?
    ensures Inv(FedStep(s, malformed))
  {
    if malformed {
      SelMoves(s, Serve(s.sel.wake, s.sel.conns));
      CloseHereKeeps(s.(sel := Serve(s.sel.wake, s.sel.conns)), s.sel.conn);
    }
  }

  lemma LowerFlagKeeps(s: State)
    requires Inv(s) && s.sel.Stopping?
    ensures Inv(LowerFlagStep(s))
  {
  }

  lemma SubmitKeeps(s: State, t: Thread)
    requires Inv(s) && s.sel.Submitting? && t !in s.agents
    ensures Inv(SubmitStep(s, t))
  {
    var s' := SubmitStep(s, t);
    AllUnmoved(s.agents, s'.agents, t);
    assert HoldsAt(s'.agents, t, s.sel.conn);
    forall u <- s.agents ensures !Holds(s.agents[u], s.sel.conn) {
      assert !HoldsAt(s.agents, u, s.sel.conn);
    }
  }

  /** One step of any thread keeps the invariant. */
  lemma ActionKeeps(s: State, a: Action)
    requires Inv(s) && Enabled(s, a)
    ensures Inv(Apply(s, a))
  {
    hide Inv;
    match a
    case Accept(t) => AcceptKeeps(s, t);
    case Start(t) => StartKeeps(s, t);
    case GiveBack(t) => GiveBackKeeps(s, t);
    case PostTrack(t) => PostTrackKeeps(s, t);
    case DriverCloses(t) => DriverClosesKeeps(s, t);
    case Post(t, id) => PostKeeps(s, t, id);
    case Append(t) => AppendKeeps(s, t);
    case Wake(t) => WakeKeeps(s, t);
    case Pop => PopKeeps(s);
    case Drained => SelMoves(s, DrainedStep(s).sel);
    case Ready(conns) => SelMoves(s, ReadyStep(s, conns).sel);
    case ReadPipe => ReadPipeKeeps(s);
    case Call(c) => SelMoves(s, CallStep(s, c).sel);
    case AcceptHere => AcceptHereKeeps(s);
    case EndOfEvents => SelMoves(s, TopDrain);
    case LoopPass(got) => LoopKeeps(s, got);
    case Defer => DeferKeeps(s);
    case Fed(malformed) => FedKeeps(s, malformed);
    case LowerFlag => LowerFlagKeeps(s);
    case Submit(t) => SubmitKeeps(s, t);
  }

  lemma DeferKeeps(s: State)
    requires Inv(s) && s.sel.Feeding?
    ensures Inv(DeferStep(s))
  {
  }

  lemma {:induction false} RunKeeps(s: State, run: seq<Action>)
    requires Inv(s) && Possible(s, run)
    ensures Inv(After(s, run))
    decreases |run|
  {
    if run != [] {
      ActionKeeps(s, run[0]);
      RunKeeps(Apply(s, run[0]), run[1..]);
    }
  }

  lemma ReachableInv(s: State)
    requires Reachable(s)
    ensures Inv(s)
  {
    var pipeSize: nat, run :|
      pipeSize > 0 && Possible(Init(pipeSize), run) && s == After(Init(pipeSize), run);
    InitInv(pipeSize);
    RunKeeps(Init(pipeSize), run);
  }

  // ------------------------------------------------------------------
  // Guarantees
  // ------------------------------------------------------------------

  datatype Driver = SelectorThread | Other(t: Thread)

  /** Who reads from, writes to or parses for a connection. */
  predicate Drives(s: State, d: Driver, c: Conn) {
    match d
    case SelectorThread => Feeds(s.sel, c) || (s.sel.Looping? && s.sel.conn == c && c in s.tracked)
    case Other(t) => t in s.agents && s.agents[t] == Driving(c)
  }

  /**
   A connection and its parser are in the hands of at most one thread; and while the selector
   thread is inside the parser, no worker is so much as submitted for it.
   */
  lemma OneDriver(s: State, c: Conn, d: Driver, e: Driver)
    requires Reachable(s) && Drives(s, d, c) && Drives(s, e, c)
    ensures d == e
    ensures s.sel.Feeding? && s.sel.conn == c ==> forall t :: !HoldsAt(s.agents, t, c)
  {
    ReachableInv(s);
  }

  /** Who owns a borrowed connection: a worker, started or not, or the selector between flag and submit. */
  predicate Owns(s: State, d: Driver, c: Conn) {
    match d
    case SelectorThread => HandsOver(s.sel, c)
    case Other(t) => HoldsAt(s.agents, t, c)
  }

  /** A live connection is untracked exactly when someone owns it, and then one thread alone does. */
  lemma UntrackedMeansOneOwner(s: State, c: Conn)
    requires Reachable(s) && c in s.live
    ensures c !in s.tracked <==> exists d :: Owns(s, d, c)
    ensures forall d, e :: Owns(s, d, c) && Owns(s, e, c) ==> d == e
  {
    ReachableInv(s);
    if c !in s.tracked {
      if Held(s.agents, c) {
        var t :| t in s.agents && Holds(s.agents[t], c);
        assert Owns(s, Other(t), c);
      } else {
        assert Owns(s, SelectorThread, c);
      }
    }
  }

  /** A tracked connection is registered, queued for it, or in the hands of a thread about to queue it. */
  lemma TrackedIsListenedTo(s: State, c: Conn)
    requires Reachable(s) && c in s.tracked
    ensures c in s.live
    ensures c in s.registered || OpTrack(c) in s.ops || BeingStopped(s.sel, c)
            || exists t :: FlaggedAt(s.agents, t, c)
  {
    ReachableInv(s);
    if Announced(s.agents, c) {
      var t :| t in s.agents && s.agents[t] == Flagged(c);
      assert FlaggedAt(s.agents, t, c);
    }
  }

  /** A selector asleep in `select` with work queued is about to be woken, or finds the pipe ready. */
  lemma NoLostOp(s: State, conns: set<Conn>)
    requires Reachable(s) && s.sel.Select? && s.ops != []
    ensures (exists t :: WakesAt(s.agents, t)) || ReadyStep(s, conns).sel.wake
  {
    ReachableInv(s);
    if s.pipe == 0 {
      var t :| t in s.agents && s.agents[t].Appended?;
      assert WakesAt(s.agents, t);
    }
  }

  lemma {:induction false} PostedGrows(s: State, run: seq<Action>)
    requires Inv(s) && Possible(s, run)
    ensures s.posted <= After(s, run).posted && Inv(After(s, run))
    decreases |run|
  {
    hide Inv, Enabled;
    if run != [] {
      ActionKeeps(s, run[0]);
      PostedGrows(Apply(s, run[0]), run[1..]);
    }
  }

  /**
   Ops are applied in the order posted, each exactly once: whatever happens, those queued now come
   behind those applied and before any op appended later; and when the selector leaves `_drain_ops`,
   all of them have been applied, those appended meanwhile included.
   */
  lemma OpsInOrder(s: State, run: seq<Action>)
    requires Reachable(s) && Possible(s, run)
    ensures var end := After(s, run);
      && s.applied + s.ops <= end.applied + end.ops && end.applied + end.ops == end.posted
      && (Enabled(end, Drained) ==> s.applied + s.ops <= end.applied == end.posted)
  {
    ReachableInv(s);
    PostedGrows(s, run);
  }

  /** Nothing leaks: when all is at rest, every live connection is tracked and registered. */
  lemma AtRestEveryoneListens(s: State, c: Conn)
    requires Reachable(s) && s.sel.Select? && s.ops == [] && s.agents == map[] && c in s.live
    ensures c in s.tracked && c in s.registered
  {
    ReachableInv(s);
  }
}
