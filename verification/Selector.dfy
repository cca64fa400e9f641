/**
 The selector of `http/_base.py` with the hand-off of connections between the selector thread and
 worker threads (`http/_pool.py`, `http/server_httptools.py`).

 Nothing here is under a lock, so a step is one access to shared state: a flag write, an append
 to the op queue, a byte written to or read from the self-pipe, one popped op.  Other threads are
 agents; an agent drives a connection, posts an op, or is on its way to wake the selector.

 Kept out, as POSIX and shutdown matters: the stale sweep, `_OpClose`, cancellation, shutdown and
 reuse of file descriptors.
 */
module Selector {
  type Thread = nat
  type Conn = nat

  datatype Op =
    | OpTrack(conn: Conn)
    | OpOther(id: nat)      // any op that changes no connection's registration

  datatype Agent =
    | Queued(conn: Conn)    // `_run_request` submitted to the pool, not started
    | Driving(conn: Conn)   // running the handler, or an acceptor that has just built the connection
    | Flagged(conn: Conn)   // in `track` or `post_track`: flag set, op not yet appended
    | Posting(op: Op)       // in another `post_…`: op not yet appended
    | Appended              // op appended, byte not yet written

  /** Where the selector thread is.  `wake` and `conns` are the ready events still to serve. */
  datatype SelPC =
    | TopDrain                                                // `_drain_ops` at the top of `run`
    | Select                                                  // inside `select`
    | Serve(wake: bool, conns: set<Conn>)                     // between two callbacks
    | WakeDrain(conns: set<Conn>)                             // `_DrainWakeup`: pipe read, in `_drain_ops`
    | Looping(conn: Conn, wake: bool, conns: set<Conn>)       // at the top of `while self.tracked`
    | Feeding(conn: Conn, deferred: bool, wake: bool, conns: set<Conn>)  // inside `parser.feed_data`
    | Stopping(conn: Conn, wake: bool, conns: set<Conn>)      // `stop_tracking`: unregistered, flag still up
    | Submitting(conn: Conn, wake: bool, conns: set<Conn>)    // flag down, `start_soon` not yet called

  datatype State = State(
    live: set<Conn>,          // built and not closed
    tracked: set<Conn>,       // connections whose `tracked` flag is up
    registered: set<Conn>,    // the selector's map
    nextConn: Conn,
    ops: seq<Op>,
    pipe: nat,                // unread bytes
    pipeSize: nat,
    agents: map<Thread, Agent>,
    sel: SelPC,
    posted: seq<Op>,          // every op appended, oldest first
    applied: seq<Op>,         // every op popped, oldest first
    inline: set<Conn>,        // registered by `TrackHere`, and not unregistered since
    due: map<Conn, nat>)      // `OpTrack`s outstanding when last unregistered, and one for a flag raised since

  function Init(pipeSize: nat): State {
    State({}, {}, {}, 0, [], 0, pipeSize, map[], TopDrain, [], [], {}, map[])
  }

  // ------------------------------------------------------------------
  // Outstanding registrations
  // ------------------------------------------------------------------

  function CountTracks(ops: seq<Op>, c: Conn): nat {
    if ops == [] then 0
    else if ops[0] == OpTrack(c) then CountTracks(ops[1..], c) + 1
    else CountTracks(ops[1..], c)
  }

  function Flaggers(agents: map<Thread, Agent>, c: Conn): set<Thread> {
    set t | t in agents && agents[t] == Flagged(c)
  }

  /** The `OpTrack`s for a connection that are queued or about to be. */
  function Outstanding(ops: seq<Op>, agents: map<Thread, Agent>, c: Conn): nat {
    CountTracks(ops, c) + |Flaggers(agents, c)|
  }

  function Due(due: map<Conn, nat>, c: Conn): nat {
    if c in due then due[c] else 0
  }

  // ------------------------------------------------------------------
  // Steps of other threads
  // ------------------------------------------------------------------

  /** An acceptor thread accepts and builds a connection for this selector. */
  function AcceptStep(s: State, t: Thread): State {
    s.(live := s.live + {s.nextConn}, nextConn := s.nextConn + 1, agents := s.agents[t := Driving(s.nextConn)],
       due := s.due[s.nextConn := 0])
  }

  function StartStep(s: State, t: Thread): State
    requires t in s.agents && s.agents[t].Queued?
  {
    s.(agents := s.agents[t := Driving(s.agents[t].conn)])
  }

  /** The response is finished: `track` raises the flag, unless it is up already. */
  function GiveBackStep(s: State, t: Thread): State
    requires t in s.agents && s.agents[t].Driving?
  {
    var c := s.agents[t].conn;
    if c in s.tracked then s.(agents := s.agents - {t}) else PostTrackStep(s, t)
  }

  /** `post_track` raises the flag without a look at it. */
  function PostTrackStep(s: State, t: Thread): State
    requires t in s.agents && s.agents[t].Driving?
  {
    var c := s.agents[t].conn;
    s.(tracked := s.tracked + {c}, agents := s.agents[t := Flagged(c)], due := s.due[c := Due(s.due, c) + 1])
  }

  /** The driver closes a connection it has borrowed. */
  function DriverClosesStep(s: State, t: Thread): State
    requires t in s.agents && s.agents[t].Driving?
  {
    var c := s.agents[t].conn;
    s.(live := s.live - {c}, tracked := s.tracked - {c}, agents := s.agents - {t})
  }

  function PostStep(s: State, t: Thread, id: nat): State {
    s.(agents := s.agents[t := Posting(OpOther(id))])
  }

  function AppendStep(s: State, t: Thread): State
    requires t in s.agents && (s.agents[t].Flagged? || s.agents[t].Posting?)
  {
    var op := if s.agents[t].Flagged? then OpTrack(s.agents[t].conn) else s.agents[t].op;
    s.(ops := s.ops + [op], posted := s.posted + [op], agents := s.agents[t := Appended])
  }

  /** `_wake`: a full pipe swallows the byte. */
  function WakeStep(s: State, t: Thread): State
    requires t in s.agents && s.agents[t].Appended?
  {
    s.(pipe := if s.pipe < s.pipeSize then s.pipe + 1 else s.pipe, agents := s.agents - {t})
  }

  // ------------------------------------------------------------------
  // Steps of the selector thread
  // ------------------------------------------------------------------

  /** `_apply_track`: registering a closed socket fails and lowers the flag. */
  function ApplyTrack(s: State, c: Conn): State {
    if c in s.live then s.(registered := s.registered + {c}) else s.(tracked := s.tracked - {c})
  }

  function PopStep(s: State): State
    requires s.ops != []
  {
    var s1 := s.(ops := s.ops[1..], applied := s.applied + [s.ops[0]]);
    if s.ops[0].OpTrack? then ApplyTrack(s1, s.ops[0].conn) else s1
  }

  /** `_drain_ops` finds the queue empty. */
  function DrainedStep(s: State): State
    requires s.sel.TopDrain? || s.sel.WakeDrain?
  {
    s.(sel := if s.sel.TopDrain? then Select else Serve(false, s.sel.conns))
  }

  /** `select` returns: the pipe is ready exactly when it holds a byte; any registered sockets may be. */
  function ReadyStep(s: State, conns: set<Conn>): State {
    s.(sel := Serve(s.pipe > 0, conns))
  }

  /** `_DrainWakeup` reads the pipe dry before it turns to the ops. */
  function ReadPipeStep(s: State): State
    requires s.sel.Serve?
  {
    s.(pipe := 0, sel := WakeDrain(s.sel.conns))
  }

  function CallStep(s: State, c: Conn): State
    requires s.sel.Serve?
  {
    s.(sel := Looping(c, s.sel.wake, s.sel.conns - {c}))
  }

  /** `TrackHere`: the selector thread accepts, flags and registers. */
  function AcceptHereStep(s: State): State {
    var c := s.nextConn;
    s.(live := s.live + {c}, tracked := s.tracked + {c}, registered := s.registered + {c}, nextConn := c + 1,
       inline := s.inline + {c}, due := s.due[c := 0])
  }

  function Return(s: State): State
    requires !(s.sel.TopDrain? || s.sel.Select? || s.sel.Serve? || s.sel.WakeDrain?)
  {
    s.(sel := Serve(s.sel.wake, s.sel.conns))
  }

  /** The selector thread closes a tracked connection. */
  function CloseHere(s: State, c: Conn): State {
    s.(live := s.live - {c}, tracked := s.tracked - {c}, registered := s.registered - {c})
  }

  /** What a pass finds: a message read to its end, after which the connection closes or not; or what `recv` gives. */
  datatype Received = NothingYet | PeerGone | Bytes | Complete(closes: bool)

  /** One pass of `while self.tracked`. */
  function LoopStep(s: State, got: Received): State
    requires s.sel.Looping?
  {
    var c := s.sel.conn;
    if c !in s.tracked || got == NothingYet then Return(s)
    else if got == PeerGone || got == Complete(true) then Return(CloseHere(s, c))
    else if got == Complete(false) then s
    else s.(sel := Feeding(c, false, s.sel.wake, s.sel.conns))
  }

  /** `pre_body` runs inside the parser and leaves the dispatch for later. */
  function DeferStep(s: State): State
    requires s.sel.Feeding?
  {
    s.(sel := s.sel.(deferred := true))
  }

  /** The parser returns; a deferred dispatch starts with `unregister`. */
  function FedStep(s: State, malformed: bool): State
    requires s.sel.Feeding?
  {
    var c := s.sel.conn;
    if malformed then Return(CloseHere(s, c))
    else if s.sel.deferred then
      s.(registered := s.registered - {c}, sel := Stopping(c, s.sel.wake, s.sel.conns),
         inline := s.inline - {c}, due := s.due[c := Outstanding(s.ops, s.agents, c)])
    else s.(sel := Looping(c, s.sel.wake, s.sel.conns))
  }

  function LowerFlagStep(s: State): State
    requires s.sel.Stopping?
  {
    s.(tracked := s.tracked - {s.sel.conn}, sel := Submitting(s.sel.conn, s.sel.wake, s.sel.conns))
  }

  /** `start_soon`; then back into `while self.tracked`. */
  function SubmitStep(s: State, t: Thread): State
    requires s.sel.Submitting?
  {
    s.(agents := s.agents[t := Queued(s.sel.conn)], sel := Looping(s.sel.conn, s.sel.wake, s.sel.conns))
  }

  // ------------------------------------------------------------------
  // Runs
  // ------------------------------------------------------------------

  datatype Action =
    | Accept(t: Thread)
    | Start(t: Thread)
    | GiveBack(t: Thread)
    | PostTrack(t: Thread)
    | DriverCloses(t: Thread)
    | Post(t: Thread, id: nat)
    | Append(t: Thread)
    | Wake(t: Thread)
    | Pop
    | Drained
    | Ready(conns: set<Conn>)
    | ReadPipe
    | Call(conn: Conn)
    | AcceptHere
    | EndOfEvents
    | LoopPass(got: Received)
    | Defer
    | Fed(malformed: bool)
    | LowerFlag
    | Submit(t: Thread)

  predicate Enabled(s: State, a: Action) {
    match a
    case Accept(t) => t !in s.agents
    case Start(t) => t in s.agents && s.agents[t].Queued?
    case GiveBack(t) => t in s.agents && s.agents[t].Driving?
    case PostTrack(t) => t in s.agents && s.agents[t].Driving?
    case DriverCloses(t) => t in s.agents && s.agents[t].Driving?
    case Post(t, _) => t !in s.agents
    case Append(t) => t in s.agents && (s.agents[t].Flagged? || s.agents[t].Posting?)
    case Wake(t) => t in s.agents && s.agents[t].Appended?
    case Pop => (s.sel.TopDrain? || s.sel.WakeDrain?) && s.ops != []
    case Drained => (s.sel.TopDrain? || s.sel.WakeDrain?) && s.ops == []
    case Ready(conns) => s.sel.Select? && conns <= s.registered
    case ReadPipe => s.sel.Serve? && s.sel.wake
    case Call(c) => s.sel.Serve? && c in s.sel.conns
    case AcceptHere => s.sel.Serve?
    case EndOfEvents => s.sel == Serve(false, {})
    case LoopPass(_) => s.sel.Looping?
    case Defer => s.sel.Feeding? && !s.sel.deferred
    case Fed(_) => s.sel.Feeding?
    case LowerFlag => s.sel.Stopping?
    case Submit(t) => s.sel.Submitting? && t !in s.agents
  }

  function Apply(s: State, a: Action): State
    requires Enabled(s, a)
  {
    match a
    case Accept(t) => AcceptStep(s, t)
    case Start(t) => StartStep(s, t)
    case GiveBack(t) => GiveBackStep(s, t)
    case PostTrack(t) => PostTrackStep(s, t)
    case DriverCloses(t) => DriverClosesStep(s, t)
    case Post(t, id) => PostStep(s, t, id)
    case Append(t) => AppendStep(s, t)
    case Wake(t) => WakeStep(s, t)
    case Pop => PopStep(s)
    case Drained => DrainedStep(s)
    case Ready(conns) => ReadyStep(s, conns)
    case ReadPipe => ReadPipeStep(s)
    case Call(c) => CallStep(s, c)
    case AcceptHere => AcceptHereStep(s)
    case EndOfEvents => s.(sel := TopDrain)
    case LoopPass(got) => LoopStep(s, got)
    case Defer => DeferStep(s)
    case Fed(malformed) => FedStep(s, malformed)
    case LowerFlag => LowerFlagStep(s)
    case Submit(t) => SubmitStep(s, t)
  }

  predicate Possible(s: State, run: seq<Action>)
    decreases |run|
  {
    run == [] || (Enabled(s, run[0]) && Possible(Apply(s, run[0]), run[1..]))
  }

  function After(s: State, run: seq<Action>): State
    requires Possible(s, run)
    decreases |run|
  {
    if run == [] then s else After(Apply(s, run[0]), run[1..])
  }

  /** The states some interleaving leads to; a pipe holds at least one byte. */
  ghost predicate Reachable(s: State) {
    exists pipeSize: nat, run: seq<Action> ::
      pipeSize > 0 && Possible(Init(pipeSize), run) && s == After(Init(pipeSize), run)
  }
}
