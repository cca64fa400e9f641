/**
 What every interleaving of calls on a channel keeps, and what follows for the callers.
 */
module ChannelProofs {
  import opened Wrappers
  import opened Channel

  type Places = map<Thread, PC>

  // ------------------------------------------------------------------
  // The invariant
  // ------------------------------------------------------------------

  /** Threads counted by `waiting_receivers`. */
  ghost function Waiters(pcs: Places): set<Thread> {
    set t | t in pcs && pcs[t].GetWait?
  }

  /** Threads about to check the buffer in `get`. */
  ghost function Checkers(pcs: Places): set<Thread> {
    set t | t in pcs && pcs[t].GetCheck?
  }

  /** Receivers on open ends that are notified or about to check. */
  ghost function ActiveReceivers(pcs: Places, notEmpty: set<Thread>, recvs: set<End>): set<Thread> {
    set t | t in pcs && (pcs[t].GetCheck? || (pcs[t].GetWait? && t !in notEmpty)) && pcs[t].rx in recvs
  }

  /** Senders on open ends that are notified or about to check in phase 1. */
  ghost function ActiveSenders(pcs: Places, notFull: set<Thread>, sends: set<End>): set<Thread> {
    set t | t in pcs && (pcs[t].PutCheck? || (pcs[t].PutWait? && t !in notFull)) && pcs[t].tx in sends
  }

  predicate OpenEnds(count: int, ends: set<End>, next: End) {
    count == |ends| && forall e <- ends :: e < next
  }

  ghost predicate NoneClosed(recvs: set<End>, nextRecv: End, pcs: Places) {
    && (forall t <- pcs | pcs[t].GetCheck? || pcs[t].GetWait? :: pcs[t].rx in recvs)
    && (forall e: nat | e < nextRecv :: e in recvs)
  }

  /** The counters of ends count. */
  ghost predicate Ends(s: State) {
    && OpenEnds(s.openSend, s.sends, s.nextSend)
    && OpenEnds(s.openRecv, s.recvs, s.nextRecv)
    && (!s.recvClosed ==> NoneClosed(s.recvs, s.nextRecv, s.pcs))
  }

  ghost predicate Parked(pcs: Places, notEmpty: set<Thread>, notFull: set<Thread>, sends: set<End>, recvs: set<End>) {
    && (forall t <- notEmpty :: t in pcs && pcs[t].GetWait? && pcs[t].rx in recvs)
    && (forall t <- notFull :: t in pcs && (pcs[t].PutWait? || pcs[t].HandWait?) && pcs[t].tx in sends)
  }

  /** Wait sets hold only threads inside `wait`, on open ends, with someone open on the other side. */
  ghost predicate Waits(s: State) {
    && Parked(s.pcs, s.notEmpty, s.notFull, s.sends, s.recvs)
    && (s.notEmpty != {} ==> s.openSend != 0)
    && (s.notFull != {} ==> s.openRecv != 0)
  }

  /** Exactly once and in order: what was put in is what came out followed by the buffer. */
  predicate Conserved(s: State) {
    s.accepted == s.delivered + s.buffer
  }

  /** A bounded buffer stays in its bound; a rendezvous holds at most one item nobody has claimed. */
  predicate Budget(s: State) {
    && (s.capacity.Some? && s.capacity.value > 0 ==> |s.buffer| <= s.capacity.value)
    && (Rendezvous(s) ==> s.consumed == |s.delivered| && 0 <= s.pending <= |s.buffer| <= s.pending + 1)
    && (!Rendezvous(s) ==> s.pending == 0 && s.consumed == 0)
  }

  /** A sender in phase 2 holds the position of its own item in the log of accepted items. */
  predicate Ticket(pc: PC, accepted: seq<Item>) {
    pc.HandCheck? || pc.HandWait? ==> 0 < pc.target <= |accepted| && accepted[pc.target - 1] == pc.item
  }

  ghost predicate Tickets(s: State) {
    && (forall t <- s.pcs :: Ticket(s.pcs[t], s.accepted))
    && (forall t <- s.pcs | s.pcs[t].HandCheck? || s.pcs[t].HandWait? :: Rendezvous(s))
    && (forall t <- s.pcs | s.pcs[t].PutWait? :: s.capacity.Some?)
  }

  ghost predicate Counted(s: State) {
    s.waiting == |Waiters(s.pcs)|
  }

  /** No lost wakeup for receivers, at every capacity. */
  ghost predicate NoLostGet(s: State) {
    s.notEmpty != {} ==> |s.buffer| <= |ActiveReceivers(s.pcs, s.notEmpty, s.recvs)|
  }

  /** No lost wakeup for senders of a bounded channel. */
  ghost predicate NoLostPut(s: State) {
    s.capacity.Some? && s.capacity.value > 0 && s.notFull != {} ==>
      s.capacity.value - |s.buffer| <= |ActiveSenders(s.pcs, s.notFull, s.sends)|
  }

  /** Until a receive end is closed, claims do not outnumber the receivers that can honour them. */
  ghost predicate Backed(s: State) {
    !s.recvClosed ==> s.pending <= |Waiters(s.pcs)| + |Checkers(s.pcs)|
  }

  ghost predicate Inv(s: State) {
    && Ends(s)
    && Waits(s)
    && Conserved(s)
    && Budget(s)
    && Tickets(s)
    && Counted(s)
    && NoLostGet(s)
    && NoLostPut(s)
    && Backed(s)
  }

  // ------------------------------------------------------------------
  // Every action keeps it
  // ------------------------------------------------------------------

  lemma SubsetCard<T>(a: set<T>, b: set<T>)
    requires a <= b
    ensures |a| <= |b|
  {
    if a != {} {
      var x :| x in a;
      SubsetCard(a - {x}, b - {x});
    }
  }

  lemma LeaveKeeps(s: State)
    requires Inv(s)
    ensures Inv(Leave(s))
  {
  }

  // --- ends

  lemma MoreEnds(s: State, sends: set<End>, recvs: set<End>)
    requires s.sends <= sends && s.recvs <= recvs
    ensures |ActiveSenders(s.pcs, s.notFull, s.sends)| <= |ActiveSenders(s.pcs, s.notFull, sends)|
    ensures |ActiveReceivers(s.pcs, s.notEmpty, s.recvs)| <= |ActiveReceivers(s.pcs, s.notEmpty, recvs)|
  {
    SubsetCard(ActiveSenders(s.pcs, s.notFull, s.sends), ActiveSenders(s.pcs, s.notFull, sends));
    SubsetCard(ActiveReceivers(s.pcs, s.notEmpty, s.recvs), ActiveReceivers(s.pcs, s.notEmpty, recvs));
  }

  lemma CloneSendKeeps(s: State, tx: End)
    requires Inv(s)
    ensures Inv(CloneSendStep(s, tx).0)
  {
    hide Waiters, Checkers, ActiveReceivers, ActiveSenders, Ticket, Leave;
    if tx in s.sends {
      MoreEnds(s, s.sends + {s.nextSend}, s.recvs);
      LeaveKeeps(OpenedSend(s));
    } else {
      LeaveKeeps(s);
    }
  }

  lemma CloneRecvKeeps(s: State, rx: End)
    requires Inv(s)
    ensures Inv(CloneRecvStep(s, rx).0)
  {
    hide Waiters, Checkers, ActiveReceivers, ActiveSenders, Ticket, Leave;
    if rx in s.recvs {
      MoreEnds(s, s.sends, s.recvs + {s.nextRecv});
      LeaveKeeps(OpenedRecv(s));
    } else {
      LeaveKeeps(s);
    }
  }

  lemma CloseSendKeeps(s: State, tx: End)
    requires Inv(s)
    ensures Inv(CloseSendStep(s, tx))
  {
    LeaveKeeps(s);
  }

  lemma CloseRecvKeeps(s: State, rx: End)
    requires Inv(s)
    ensures Inv(CloseRecvStep(s, rx))
  {
    LeaveKeeps(s);
  }

  // --- items

  /** A place was free for one sender more than the free places left. */
  ghost predicate SlackPut(s: State) {
    s.capacity.Some? && s.capacity.value > 0 && s.notFull != {} ==>
      var free := s.capacity.value - |s.buffer|;
      free == 0 || free < |ActiveSenders(s.pcs, s.notFull, s.sends)|
  }

  /** There is one active receiver more than the items left. */
  ghost predicate SlackGet(s: State) {
    && (s.notEmpty != {} ==> s.buffer == [] || |s.buffer| < |ActiveReceivers(s.pcs, s.notEmpty, s.recvs)|)
    && (!s.recvClosed ==> s.pending == 0 || s.pending < |Waiters(s.pcs)| + |Checkers(s.pcs)|)
  }

  lemma DepositPlaces(s: State, item: Item, pick: Thread)
    requires Inv(s) && Picks(s.notEmpty, pick) && CanPut(s)
    ensures var s' := Deposit(s, item, pick);
      Ends(s') && Waits(s') && Conserved(s') && Budget(s') && Tickets(s') && Counted(s')
  {
    hide ActiveReceivers, ActiveSenders, Waiters, Checkers;
  }

  lemma DepositCounts(s: State, item: Item, pick: Thread)
    requires Inv(s) && Picks(s.notEmpty, pick) && CanPut(s)
    ensures var s' := Deposit(s, item, pick); NoLostGet(s') && NoLostPut(s') && Backed(s') && SlackPut(s')
  {
    var s' := Deposit(s, item, pick);
    hide Ends, Conserved, Tickets, ActiveSenders, Checkers;
    if s'.notEmpty != {} {
      assert ActiveReceivers(s'.pcs, s'.notEmpty, s'.recvs) == ActiveReceivers(s.pcs, s.notEmpty, s.recvs) + {pick};
    }
  }

  lemma DepositKeeps(s: State, item: Item, pick: Thread)
    requires Inv(s) && Picks(s.notEmpty, pick) && CanPut(s)
    ensures Inv(Deposit(s, item, pick)) && SlackPut(Deposit(s, item, pick))
  {
    DepositPlaces(s, item, pick);
    DepositCounts(s, item, pick);
    hide Ends, Waits, Conserved, Budget, Tickets, Counted, NoLostGet, NoLostPut, Backed, SlackPut, Deposit, CanPut;
  }

  lemma SenderPicked(pcs: Places, notFull: set<Thread>, sends: set<End>, pick: Thread)
    requires pick in notFull && pick in pcs && pcs[pick].PutWait? && pcs[pick].tx in sends
    ensures |ActiveSenders(pcs, notFull - {pick}, sends)| == |ActiveSenders(pcs, notFull, sends)| + 1
  {
    assert ActiveSenders(pcs, notFull - {pick}, sends) == ActiveSenders(pcs, notFull, sends) + {pick};
  }

  lemma TakePlaces(s: State, pick: Thread)
    requires Inv(s) && Picks(s.notFull, pick) && s.buffer != []
    ensures var s' := Take(s, pick); Ends(s') && Waits(s') && Tickets(s') && Conserved(s') && Budget(s')
  {
    hide Ticket, Waiters, Checkers, ActiveReceivers, ActiveSenders, NoneClosed;
    var s' := Take(s, pick);
    assert s'.delivered + s'.buffer == s.delivered + s.buffer;
  }

  lemma TakeCounts(s: State, pick: Thread)
    requires Inv(s) && Picks(s.notFull, pick) && s.buffer != []
    ensures var s' := Take(s, pick);
      Counted(s') && NoLostGet(s') && NoLostPut(s') && Backed(s') && SlackGet(s')
  {
    var s' := Take(s, pick);
    hide Waiters, Checkers, ActiveReceivers, ActiveSenders, Ends, Tickets, Conserved;
    if s'.notFull != {} && !Rendezvous(s) && s.capacity.Some? {
      assert s.pcs[pick].PutWait? by {
        assert Tickets(s);
      }
      SenderPicked(s.pcs, s.notFull, s.sends, pick);
    }
  }

  lemma TakeKeeps(s: State, pick: Thread)
    requires Inv(s) && Picks(s.notFull, pick) && s.buffer != []
    ensures Inv(Take(s, pick)) && SlackGet(Take(s, pick))
  {
    TakePlaces(s, pick);
    TakeCounts(s, pick);
    hide Ends, Waits, Conserved, Budget, Tickets, Counted, NoLostGet, NoLostPut, Backed, SlackGet, Take;
  }

  // --- threads that leave

  lemma ReceiverLeaves(s: State, t: Thread)
    requires Inv(s) && t in s.pcs && s.pcs[t].GetCheck?
    requires s.pcs[t].rx in s.recvs ==> SlackGet(s)
    ensures Inv(Done(s, t))
  {
    var s' := Done(s, t);
    assert Waiters(s'.pcs) == Waiters(s.pcs) && Checkers(s'.pcs) == Checkers(s.pcs) - {t};
    assert ActiveSenders(s'.pcs, s'.notFull, s'.sends) == ActiveSenders(s.pcs, s.notFull, s.sends);
    assert ActiveReceivers(s'.pcs, s'.notEmpty, s'.recvs) == ActiveReceivers(s.pcs, s.notEmpty, s.recvs) - {t};
  }

  lemma SenderLeaves(s: State, t: Thread)
    requires Inv(s) && t in s.pcs && (s.pcs[t].PutCheck? || s.pcs[t].HandCheck?)
    requires s.pcs[t].PutCheck? && s.pcs[t].tx in s.sends ==> SlackPut(s)
    ensures Inv(Done(s, t))
  {
    var s' := Done(s, t);
    assert Waiters(s'.pcs) == Waiters(s.pcs) && Checkers(s'.pcs) == Checkers(s.pcs);
    assert ActiveSenders(s'.pcs, s'.notFull, s'.sends) == ActiveSenders(s.pcs, s.notFull, s.sends) - {t};
    assert ActiveReceivers(s'.pcs, s'.notEmpty, s'.recvs) == ActiveReceivers(s.pcs, s.notEmpty, s.recvs);
  }

  // --- threads that move on

  predicate InPut(pc: PC) {
    pc.PutCheck? || pc.PutWait? || pc.HandCheck? || pc.HandWait?
  }

  /** Where a sender may go: into `wait`, out of it, or from phase 1 to phase 2. */
  ghost predicate MayMove(s: State, t: Thread, pc: PC, notFull: set<Thread>) {
    && t in s.pcs && InPut(s.pcs[t]) && InPut(pc) && pc.tx == s.pcs[t].tx
    && (notFull == s.notFull - {t} || (notFull == s.notFull + {t} && (pc.PutWait? || pc.HandWait?)))
    && (notFull == s.notFull + {t} ==> s.openRecv != 0 && pc.tx in s.sends)
    && Ticket(pc, s.accepted)
    && (pc.HandCheck? || pc.HandWait? ==> Rendezvous(s))
    && (pc.PutWait? ==> s.capacity.Some? && |s.buffer| >= s.capacity.value)
  }

  lemma ParkedMoves(pcs: Places, t: Thread, pc: PC, notEmpty: set<Thread>, notFull: set<Thread>, after: set<Thread>,
                    sends: set<End>, recvs: set<End>)
    requires t in pcs && InPut(pcs[t]) && InPut(pc) && Parked(pcs, notEmpty, notFull, sends, recvs)
    requires after == notFull - {t} || (after == notFull + {t} && (pc.PutWait? || pc.HandWait?) && pc.tx in sends)
    ensures Parked(pcs[t := pc], notEmpty, after, sends, recvs)
  {
    forall u | u in after
      ensures u in pcs[t := pc] && pcs[t := pc][u].tx in sends
      ensures pcs[t := pc][u].PutWait? || pcs[t := pc][u].HandWait?
    {
      assert u != t ==> u in notFull;
    }
  }

  lemma ReceiversStay(pcs: Places, t: Thread, pc: PC, recvs: set<End>, nextRecv: End)
    requires t in pcs && InPut(pcs[t]) && InPut(pc) && NoneClosed(recvs, nextRecv, pcs)
    ensures NoneClosed(recvs, nextRecv, pcs[t := pc])
  {
  }

  lemma SenderMovesPlaces(s: State, t: Thread, pc: PC, notFull: set<Thread>)
    requires Inv(s) && MayMove(s, t, pc, notFull)
    ensures var s' := Goto(s, t, pc).(notFull := notFull); Ends(s') && Waits(s') && Conserved(s') && Budget(s')
  {
    hide Counted, NoLostGet, NoLostPut, Backed, Tickets, Ticket, Parked, NoneClosed, InPut;
    if notFull != s.notFull - {t} {
      assert pc.tx in s.sends;
    }
    ParkedMoves(s.pcs, t, pc, s.notEmpty, s.notFull, notFull, s.sends, s.recvs);
    if !s.recvClosed {
      ReceiversStay(s.pcs, t, pc, s.recvs, s.nextRecv);
    }
  }

  lemma SenderMovesTickets(s: State, t: Thread, pc: PC, notFull: set<Thread>)
    requires Inv(s) && MayMove(s, t, pc, notFull)
    ensures Tickets(Goto(s, t, pc).(notFull := notFull))
  {
    hide Counted, NoLostGet, NoLostPut, Backed, Ticket, Ends, Waits, Conserved, Budget;
  }

  lemma SenderIsNoReceiver(pcs: Places, t: Thread, pc: PC, notEmpty: set<Thread>, recvs: set<End>)
    requires t in pcs && InPut(pcs[t]) && InPut(pc)
    ensures Waiters(pcs[t := pc]) == Waiters(pcs) && Checkers(pcs[t := pc]) == Checkers(pcs)
    ensures ActiveReceivers(pcs[t := pc], notEmpty, recvs) == ActiveReceivers(pcs, notEmpty, recvs)
  {
  }

  lemma SendersGrow(pcs: Places, t: Thread, pc: PC, notFull: set<Thread>, sends: set<End>)
    requires t in pcs && InPut(pcs[t]) && pc.PutCheck? && pc.tx == pcs[t].tx
    ensures |ActiveSenders(pcs, notFull, sends)| <= |ActiveSenders(pcs[t := pc], notFull - {t}, sends)|
  {
    SubsetCard(ActiveSenders(pcs, notFull, sends), ActiveSenders(pcs[t := pc], notFull - {t}, sends));
  }

  lemma SenderMovesCounts(s: State, t: Thread, pc: PC, notFull: set<Thread>)
    requires Inv(s) && MayMove(s, t, pc, notFull)
    ensures var s' := Goto(s, t, pc).(notFull := notFull);
      Counted(s') && NoLostGet(s') && NoLostPut(s') && Backed(s')
  {
    hide Ends, Waits, Conserved, Tickets, Ticket, Waiters, Checkers, ActiveSenders, ActiveReceivers;
    SenderIsNoReceiver(s.pcs, t, pc, s.notEmpty, s.recvs);
    if pc.PutCheck? {
      SendersGrow(s.pcs, t, pc, s.notFull, s.sends);
    }
  }

  lemma SenderMoves(s: State, t: Thread, pc: PC, notFull: set<Thread>)
    requires Inv(s) && MayMove(s, t, pc, notFull)
    ensures Inv(Goto(s, t, pc).(notFull := notFull))
  {
    SenderMovesPlaces(s, t, pc, notFull);
    SenderMovesTickets(s, t, pc, notFull);
    SenderMovesCounts(s, t, pc, notFull);
    hide Ends, Waits, Conserved, Budget, Tickets, Counted, NoLostGet, NoLostPut, Backed, MayMove;
  }

  lemma CountsMove(pcs: Places, t: Thread, rx: End)
    requires t in pcs && (pcs[t].GetCheck? || pcs[t].GetWait?)
    ensures pcs[t].GetCheck? ==>
      Waiters(pcs[t := GetWait(rx)]) == Waiters(pcs) + {t} && Checkers(pcs[t := GetWait(rx)]) == Checkers(pcs) - {t}
    ensures pcs[t].GetWait? ==>
      Waiters(pcs[t := GetCheck(rx)]) == Waiters(pcs) - {t} && Checkers(pcs[t := GetCheck(rx)]) == Checkers(pcs) + {t}
  {
  }

  lemma ReceiverIsNoSender(pcs: Places, t: Thread, pc: PC, notFull: set<Thread>, sends: set<End>)
    requires t in pcs && (pcs[t].GetCheck? || pcs[t].GetWait?) && (pc.GetCheck? || pc.GetWait?)
    ensures ActiveSenders(pcs[t := pc], notFull, sends) == ActiveSenders(pcs, notFull, sends)
  {
  }

  lemma ReceiverParks(s: State, t: Thread)
    requires Inv(s) && t in s.pcs && s.pcs[t].GetCheck? && s.pcs[t].rx in s.recvs
    requires s.buffer == [] && s.openSend != 0
    ensures Inv(Goto(s, t, GetWait(s.pcs[t].rx)).(waiting := s.waiting + 1, notEmpty := s.notEmpty + {t}))
  {
    var s' := Goto(s, t, GetWait(s.pcs[t].rx)).(waiting := s.waiting + 1, notEmpty := s.notEmpty + {t});
    CountsMove(s.pcs, t, s.pcs[t].rx);
    ReceiverIsNoSender(s.pcs, t, GetWait(s.pcs[t].rx), s.notFull, s.sends);
    hide ActiveSenders;
  }

  lemma ActiveGrows(pcs: Places, t: Thread, notEmpty: set<Thread>, recvs: set<End>)
    requires t in pcs && pcs[t].GetWait?
    ensures |ActiveReceivers(pcs, notEmpty, recvs)|
         <= |ActiveReceivers(pcs[t := GetCheck(pcs[t].rx)], notEmpty - {t}, recvs)|
  {
    SubsetCard(ActiveReceivers(pcs, notEmpty, recvs),
               ActiveReceivers(pcs[t := GetCheck(pcs[t].rx)], notEmpty - {t}, recvs));
  }

  lemma ReceiverWakes(s: State, t: Thread)
    requires Inv(s) && t in s.pcs && s.pcs[t].GetWait?
    ensures Inv(GetWakeStep(s, t))
  {
    hide Leave;
    var s' := Goto(s, t, GetCheck(s.pcs[t].rx)).(waiting := s.waiting - 1, notEmpty := s.notEmpty - {t});
    CountsMove(s.pcs, t, s.pcs[t].rx);
    ReceiverIsNoSender(s.pcs, t, GetCheck(s.pcs[t].rx), s.notFull, s.sends);
    ActiveGrows(s.pcs, t, s.notEmpty, s.recvs);
    hide ActiveSenders, ActiveReceivers;
    LeaveKeeps(s');
  }

  lemma ReceiverIsNew(pcs: Places, t: Thread, rx: End, notFull: set<Thread>, sends: set<End>)
    requires t !in pcs
    ensures Waiters(pcs[t := GetCheck(rx)]) == Waiters(pcs)
    ensures ActiveSenders(pcs[t := GetCheck(rx)], notFull, sends) == ActiveSenders(pcs, notFull, sends)
  {
  }

  lemma ReceiverChecks(pcs: Places, t: Thread, rx: End)
    requires t !in pcs
    ensures |Checkers(pcs[t := GetCheck(rx)])| == |Checkers(pcs)| + 1
  {
    assert Checkers(pcs[t := GetCheck(rx)]) == Checkers(pcs) + {t};
  }

  lemma ReceiverIsActive(pcs: Places, t: Thread, rx: End, notEmpty: set<Thread>, recvs: set<End>)
    requires t !in pcs
    ensures |ActiveReceivers(pcs, notEmpty, recvs)| <= |ActiveReceivers(pcs[t := GetCheck(rx)], notEmpty, recvs)|
  {
    SubsetCard(ActiveReceivers(pcs, notEmpty, recvs), ActiveReceivers(pcs[t := GetCheck(rx)], notEmpty, recvs));
  }

  lemma ReceiverStarts(s: State, t: Thread, rx: End)
    requires Inv(s) && t !in s.pcs && rx < s.nextRecv
    ensures Inv(GetStartStep(s, t, rx))
  {
    hide Waiters, Checkers, ActiveReceivers, ActiveSenders;
    ReceiverIsNew(s.pcs, t, rx, s.notFull, s.sends);
    ReceiverChecks(s.pcs, t, rx);
    ReceiverIsActive(s.pcs, t, rx, s.notEmpty, s.recvs);
  }

  lemma SenderStarts(s: State, t: Thread, tx: End, item: Item)
    requires Inv(s) && t !in s.pcs && tx < s.nextSend
    ensures Inv(PutStartStep(s, t, tx, item))
  {
    var s' := PutStartStep(s, t, tx, item);
    assert Waiters(s'.pcs) == Waiters(s.pcs) && Checkers(s'.pcs) == Checkers(s.pcs);
    assert ActiveReceivers(s'.pcs, s'.notEmpty, s'.recvs) == ActiveReceivers(s.pcs, s.notEmpty, s.recvs);
    SubsetCard(ActiveSenders(s.pcs, s.notFull, s.sends), ActiveSenders(s'.pcs, s'.notFull, s'.sends));
  }

  // --- whole sections

  lemma PutNowaitKeeps(s: State, tx: End, item: Item, pick: Thread)
    requires Inv(s) && Picks(s.notEmpty, pick)
    ensures Inv(PutNowaitStep(s, tx, item, pick).0)
  {
    hide Inv, Leave;
    if tx in s.sends && s.openRecv != 0 && CanPutNowait(s) {
      DepositKeeps(s, item, pick);
      LeaveKeeps(Deposit(s, item, pick));
    } else {
      LeaveKeeps(s);
    }
  }

  lemma PutCheckKeeps(s: State, t: Thread, expired: bool, pick: Thread)
    requires Inv(s) && t in s.pcs && s.pcs[t].PutCheck? && Picks(s.notEmpty, pick)
    ensures Inv(PutCheckStep(s, t, expired, pick).0)
  {
    var tx, item := s.pcs[t].tx, s.pcs[t].item;
    if tx in s.sends && s.openRecv != 0 && CanPut(s) {
      PutCheckDeposits(s, t, expired, pick);
    } else if tx in s.sends && s.openRecv != 0 && !expired {
      hide Leave;
      SenderMoves(s, t, PutWait(tx, item), s.notFull + {t});
    } else {
      hide Leave;
      SenderLeaves(s, t);
      LeaveKeeps(Done(s, t));
    }
  }

  lemma PutCheckDeposits(s: State, t: Thread, expired: bool, pick: Thread)
    requires Inv(s) && t in s.pcs && s.pcs[t].PutCheck? && Picks(s.notEmpty, pick)
    requires s.pcs[t].tx in s.sends && s.openRecv != 0 && CanPut(s)
    ensures Inv(PutCheckStep(s, t, expired, pick).0)
  {
    hide Leave, Inv, SlackPut;
    var tx, item := s.pcs[t].tx, s.pcs[t].item;
    var s1 := Deposit(s, item, pick);
    DepositKeeps(s, item, pick);
    if Rendezvous(s) {
      EntersPhase2(s1, t, item);
      LeaveKeeps(Goto(s1, t, HandCheck(tx, item, s1.consumed + |s1.buffer|)));
    } else {
      SenderLeaves(s1, t);
      LeaveKeeps(Done(s1, t));
    }
  }

  lemma EntersPhase2(s: State, t: Thread, item: Item)
    requires Inv(s) && t in s.pcs && s.pcs[t].PutCheck? && Rendezvous(s)
    requires s.buffer != [] && s.buffer[|s.buffer| - 1] == item
    ensures Inv(Goto(s, t, HandCheck(s.pcs[t].tx, item, s.consumed + |s.buffer|)))
  {
    var pc := HandCheck(s.pcs[t].tx, item, s.consumed + |s.buffer|);
    assert t !in s.notFull;
    assert s.notFull == s.notFull - {t};
    SenderMoves(s, t, pc, s.notFull);
  }

  lemma HandCheckKeeps(s: State, t: Thread, expired: bool)
    requires Inv(s) && t in s.pcs && s.pcs[t].HandCheck?
    ensures Inv(HandCheckStep(s, t, expired).0)
  {
    var tx, item, target := s.pcs[t].tx, s.pcs[t].item, s.pcs[t].target;
    if tx in s.sends && s.consumed < target && s.openRecv != 0 && !expired {
      SenderMoves(s, t, HandWait(tx, item, target), s.notFull + {t});
    } else {
      SenderLeaves(s, t);
      LeaveKeeps(Done(s, t));
    }
  }

  lemma SenderWakes(s: State, t: Thread)
    requires Inv(s) && t in s.pcs && (s.pcs[t].PutWait? || s.pcs[t].HandWait?)
    ensures s.pcs[t].PutWait? ==> Inv(PutWakeStep(s, t))
    ensures s.pcs[t].HandWait? ==> Inv(HandWakeStep(s, t))
  {
    var tx, item := s.pcs[t].tx, s.pcs[t].item;
    var pc := if s.pcs[t].PutWait? then PutCheck(tx, item) else HandCheck(tx, item, s.pcs[t].target);
    SenderMoves(s, t, pc, s.notFull - {t});
    LeaveKeeps(Goto(s, t, pc).(notFull := s.notFull - {t}));
  }

  lemma GetNowaitKeeps(s: State, rx: End, pick: Thread)
    requires Inv(s) && Picks(s.notFull, pick)
    ensures Inv(GetNowaitStep(s, rx, pick).0)
  {
    hide Inv, Leave;
    LeaveKeeps(s);
    if s.buffer != [] {
      TakeKeeps(s, pick);
      LeaveKeeps(Take(s, pick));
    }
  }

  lemma GetCheckKeeps(s: State, t: Thread, expired: bool, pick: Thread)
    requires Inv(s) && t in s.pcs && s.pcs[t].GetCheck? && Picks(s.notFull, pick)
    ensures Inv(GetCheckStep(s, t, expired, pick).0)
  {
    hide Leave;
    var rx := s.pcs[t].rx;
    if rx in s.recvs && s.buffer != [] {
      TakeKeeps(s, pick);
      ReceiverLeaves(Take(s, pick), t);
      LeaveKeeps(Done(Take(s, pick), t));
    } else if rx in s.recvs && s.openSend != 0 && !expired {
      ReceiverParks(s, t);
    } else {
      ReceiverLeaves(s, t);
      LeaveKeeps(Done(s, t));
    }
  }

  /** One section of any call, by any thread, keeps the invariant. */
  lemma ActionKeeps(s: State, a: Action)
    requires Inv(s) && Enabled(s, a)
    ensures Inv(Apply(s, a))
  {
    hide Inv;
    match a
    case CloneSend(tx) => CloneSendKeeps(s, tx);
    case CloneRecv(rx) => CloneRecvKeeps(s, rx);
    case CloseSend(tx) => CloseSendKeeps(s, tx);
    case CloseRecv(rx) => CloseRecvKeeps(s, rx);
    case PutNowait(tx, item, pick) => PutNowaitKeeps(s, tx, item, pick);
    case PutStart(t, tx, item) => SenderStarts(s, t, tx, item);
    case PutPass(t, expired, pick) => PutCheckKeeps(s, t, expired, pick);
    case PutWake(t) => SenderWakes(s, t);
    case HandPass(t, expired) => HandCheckKeeps(s, t, expired);
    case HandWake(t) => SenderWakes(s, t);
    case GetNowait(rx, pick) => GetNowaitKeeps(s, rx, pick);
    case GetStart(t, rx) => ReceiverStarts(s, t, rx);
    case GetPass(t, expired, pick) => GetCheckKeeps(s, t, expired, pick);
    case GetWake(t) => ReceiverWakes(s, t);
  }
}
