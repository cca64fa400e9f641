/**
 The selector as the object the source updates in place.  Each method is one step of the thread
 named by `t`, or of the selector thread, and is proved against the step function of that name.
 */
module SelectorObject {
  import S = Selector
  import opened SelectorProofs

  /** `_drain_ops` while no other thread runs. */
  function DrainAll(s: S.State): S.State
    requires Draining(s.sel)
    decreases |s.ops|
  {
    if s.ops == [] then S.DrainedStep(s) else DrainAll(S.PopStep(s))
  }

  lemma PopMoves(s: S.State)
    requires s.ops != []
    ensures var s' := S.PopStep(s);
      s'.sel == s.sel && |s'.ops| < |s.ops| && s'.applied + s'.ops == s.applied + s.ops
  {
    assert s.ops == [s.ops[0]] + s.ops[1..];
    assert S.PopStep(s).applied == s.applied + [s.ops[0]] && S.PopStep(s).ops == s.ops[1..];
  }

  lemma OnePop(s: S.State)
    requires Draining(s.sel) && s.ops != []
    ensures DrainAll(S.PopStep(s)) == DrainAll(s) && S.PopStep(s).sel == s.sel && |S.PopStep(s).ops| < |s.ops|
    ensures S.PopStep(s).applied + S.PopStep(s).ops == s.applied + s.ops
  {
    PopMoves(s);
    hide S.PopStep;
  }

  class Selector {
    var live: set<S.Conn>
    var tracked: set<S.Conn>
    var registered: set<S.Conn>
    var nextConn: S.Conn
    var ops: seq<S.Op>
    var pipe: nat
    const pipeSize: nat
    ghost var agents: map<S.Thread, S.Agent>
    ghost var sel: S.SelPC
    ghost var posted: seq<S.Op>
    ghost var applied: seq<S.Op>
    ghost var inline: set<S.Conn>
    ghost var due: map<S.Conn, nat>

    ghost function View(): S.State
      reads this
    {
      S.State(live, tracked, registered, nextConn, ops, pipe, pipeSize, agents, sel, posted, applied, inline, due)
    }

    ghost predicate Valid()
      reads this
    {
      Inv(View())
    }

    constructor (pipeSize: nat)
      requires pipeSize > 0
      ensures Valid() && View() == S.Init(pipeSize)
    {
      live, tracked, registered, nextConn := {}, {}, {}, 0;
      ops, pipe, this.pipeSize := [], 0, pipeSize;
      agents, sel, posted, applied, inline, due := map[], S.TopDrain, [], [], {}, map[];
      new;
      InitInv(pipeSize);
    }

    /** `RoundRobinAcceptor`: build the connection, on the acceptor's thread. */
    method Accept(ghost t: S.Thread) returns (conn: S.Conn)
      requires Valid() && S.Enabled(View(), S.Accept(t))
      modifies this
      ensures Valid() && View() == S.AcceptStep(old(View()), t) && conn == old(nextConn)
    {
      AcceptKeeps(View(), t);
      hide Inv;
      conn := nextConn;
      live, nextConn := live + {conn}, conn + 1;
      agents, due := agents[t := S.Driving(conn)], due[conn := 0];
    }

    /** The first half of `track`: raise the flag unless it is up. */
    method RaiseFlag(ghost t: S.Thread, conn: S.Conn) returns (enqueue: bool)
      requires Valid() && t in agents && agents[t] == S.Driving(conn)
      modifies this
      ensures Valid() && View() == S.GiveBackStep(old(View()), t)
      ensures enqueue <==> FlaggedAt(agents, t, conn)
    {
      GiveBackKeeps(View(), t);
      hide Inv;
      enqueue := conn !in tracked;
      agents := if enqueue then agents[t := S.Flagged(conn)] else agents - {t};
      if enqueue {
        tracked, due := tracked + {conn}, due[conn := S.Due(due, conn) + 1];
      }
    }

    /** The first half of `post_track`: raise the flag, whatever it is. */
    method RaiseFlagAlways(ghost t: S.Thread, conn: S.Conn)
      requires Valid() && t in agents && agents[t] == S.Driving(conn)
      modifies this
      ensures Valid() && View() == S.PostTrackStep(old(View()), t)
      ensures FlaggedAt(agents, t, conn)
    {
      PostTrackKeeps(View(), t);
      hide Inv;
      tracked, due := tracked + {conn}, due[conn := S.Due(due, conn) + 1];
      agents := agents[t := S.Flagged(conn)];
    }

    /** The second half: append the op. */
    method Enqueue(ghost t: S.Thread, op: S.Op)
      requires Valid() && t in agents
      requires (agents[t].Flagged? && op == S.OpTrack(agents[t].conn)) || agents[t] == S.Posting(op)
      modifies this
      ensures Valid() && View() == S.AppendStep(old(View()), t)
    {
      AppendKeeps(View(), t);
      hide Inv;
      ops, posted := ops + [op], posted + [op];
      agents := agents[t := S.Appended];
    }

    /** `_wake` */
    method Wake(ghost t: S.Thread)
      requires Valid() && S.Enabled(View(), S.Wake(t))
      modifies this
      ensures Valid() && View() == S.WakeStep(old(View()), t)
    {
      WakeKeeps(View(), t);
      hide Inv;
      if pipe < pipeSize {
        pipe := pipe + 1;
      }
      agents := agents - {t};
    }

    /** `close` by the thread that has borrowed the connection. */
    method CloseBorrowed(ghost t: S.Thread, conn: S.Conn)
      requires Valid() && t in agents && agents[t] == S.Driving(conn)
      modifies this
      ensures Valid() && View() == S.DriverClosesStep(old(View()), t)
    {
      DriverClosesKeeps(View(), t);
      hide Inv;
      live, tracked := live - {conn}, tracked - {conn};
      agents := agents - {t};
    }

    /** `_drain_wakeup` */
    method DrainWakeup()
      requires Valid() && S.Enabled(View(), S.ReadPipe)
      modifies this
      ensures Valid() && View() == S.ReadPipeStep(old(View()))
    {
      ReadPipeKeeps(View());
      hide Inv;
      pipe := 0;
      sel := S.WakeDrain(sel.conns);
    }

    /** `_apply_track` */
    method ApplyTrack(conn: S.Conn)
      modifies this
      ensures View() == S.ApplyTrack(old(View()), conn)
    {
      if conn in live {
        registered := registered + {conn};
      } else {
        tracked := tracked - {conn};
      }
    }

    /** `popleft` and the op it returns. */
    method ApplyNext()
      requires Valid() && S.Enabled(View(), S.Pop)
      modifies this
      ensures Valid() && View() == S.PopStep(old(View()))
    {
      PopKeeps(View());
      hide Inv;
      var op := ops[0];
      ops, applied := ops[1..], applied + [op];
      if op.OpTrack? {
        ApplyTrack(op.conn);
      }
    }

    /** `_drain_ops` */
    method DrainOps()
      requires Valid() && Draining(sel)
      modifies this
      ensures Valid() && View() == DrainAll(old(View()))
      ensures ops == [] && applied == old(applied) + old(ops)
    {
      hide Inv, S.PopStep;
      while ops != []
        invariant Valid() && Draining(sel) && sel == old(sel)
        invariant DrainAll(View()) == DrainAll(old(View()))
        invariant applied + ops == old(applied) + old(ops)
        decreases |ops|
      {
        OnePop(View());
        ApplyNext();
      }
      SelMoves(View(), S.DrainedStep(View()).sel);
      sel := if sel.TopDrain? then S.Select else S.Serve(false, sel.conns);
    }

    /** `stop_tracking`: unregister, on the way out of the parser with a dispatch deferred. */
    method Unregister(conn: S.Conn)
      requires Valid() && sel.Feeding? && sel.deferred && sel.conn == conn
      modifies this
      ensures Valid() && View() == S.FedStep(old(View()), false)
    {
      FedKeeps(View(), false);
      hide Inv;
      inline, due := inline - {conn}, due[conn := S.Outstanding(ops, agents, conn)];
      registered := registered - {conn};
      sel := S.Stopping(conn, sel.wake, sel.conns);
    }

    /** `stop_tracking`: lower the flag. */
    method LowerFlag(conn: S.Conn)
      requires Valid() && sel.Stopping? && sel.conn == conn
      modifies this
      ensures Valid() && View() == S.LowerFlagStep(old(View()))
    {
      LowerFlagKeeps(View());
      hide Inv;
      tracked := tracked - {conn};
      sel := S.Submitting(conn, sel.wake, sel.conns);
    }

    /** One pass of `while self.tracked`, given what it finds. */
    method LoopPass(conn: S.Conn, got: S.Received) returns (feed: bool)
      requires Valid() && sel.Looping? && sel.conn == conn
      modifies this
      ensures Valid() && View() == S.LoopStep(old(View()), got)
      ensures feed <==> sel.Feeding?
    {
      LoopKeeps(View(), got);
      hide Inv;
      feed := conn in tracked && got == S.Bytes;
      if conn in tracked && got == S.Complete(false) {
        return;
      }
      if feed {
        sel := S.Feeding(conn, false, sel.wake, sel.conns);
      } else {
        if conn in tracked && (got == S.PeerGone || got == S.Complete(true)) {
          live, tracked, registered := live - {conn}, tracked - {conn}, registered - {conn};
        }
        sel := S.Serve(sel.wake, sel.conns);
      }
    }

    /** `TrackHere`: accept and track on the selector's own thread. */
    method AcceptHere() returns (conn: S.Conn)
      requires Valid() && sel.Serve?
      modifies this
      ensures Valid() && View() == S.AcceptHereStep(old(View())) && conn == old(nextConn)
    {
      AcceptHereKeeps(View());
      hide Inv;
      conn := nextConn;
      live, nextConn, tracked := live + {conn}, conn + 1, tracked + {conn};
      inline, due := inline + {conn}, due[conn := 0];
      ApplyTrack(conn);
    }
  }
}
