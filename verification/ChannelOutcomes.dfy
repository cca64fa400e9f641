/**
 What each call on the channel reports, told by the logs, the ends and the threads of the channel
 alone.  An item is in the log of accepted items exactly when its `put` says so.
 */
module ChannelOutcomes {
  import opened Wrappers
  import opened Channel
  import opened ChannelProofs
  import opened ChannelTheorems

  /** Nothing went in or out. */
  predicate Untouched(s: State, s': State) {
    s'.accepted == s.accepted && s'.delivered == s.delivered && s'.buffer == s.buffer
  }

  /** Exactly this item went in, at the end, and nothing came out. */
  predicate WentIn(s: State, s': State, item: Item) {
    s'.accepted == s.accepted + [item] && s'.delivered == s.delivered && s'.buffer == s.buffer + [item]
  }

  /** Exactly this item came out, the oldest, and nothing went in. */
  predicate CameOut(s: State, s': State, item: Item) {
    s'.accepted == s.accepted && s'.delivered == s.delivered + [item] && [item] + s'.buffer == s.buffer
  }

  /** The ends are as they were, and so is every other thread. */
  ghost predicate OnlyMoves(s: State, s': State, t: Thread) {
    && s'.sends == s.sends && s'.recvs == s.recvs
    && forall u | u != t :: (u in s'.pcs <==> u in s.pcs) && (u in s.pcs ==> s'.pcs[u] == s.pcs[u])
  }

  predicate Gone(s: State, t: Thread) {
    t !in s.pcs
  }

  predicate At(s: State, t: Thread, pc: PC) {
    t in s.pcs && s.pcs[t] == pc
  }

  /** There is no place: the bound is reached, or the rendezvous has an item that no receiver waits for. */
  ghost predicate NoPlace(s: State) {
    s.capacity.Some? && if s.capacity.value == 0 then s.buffer != [] && |Waiters(s.pcs)| <= s.pending
                        else |s.buffer| == s.capacity.value
  }

  /** The same for `put_nowait`, which takes no place that only a rendezvous sender may wait in. */
  ghost predicate NoPlaceNow(s: State) {
    s.capacity.Some? && if s.capacity.value == 0 then |Waiters(s.pcs)| <= s.pending
                        else |s.buffer| == s.capacity.value
  }

  lemma EndsAre(s: State)
    requires Reachable(s)
    ensures s.openSend == 0 <==> s.sends == {}
    ensures s.openRecv == 0 <==> s.recvs == {}
    ensures CanPut(s) <==> !NoPlace(s)
    ensures CanPutNowait(s) <==> !NoPlaceNow(s)
  {
    ReachableInv(s);
    assert Ends(s) && Budget(s) && Counted(s);
    hide Inv, Waiters;
  }

  // ------------------------------------------------------------------
  // Senders
  // ------------------------------------------------------------------

  /**
   A pass of phase 1: the caller is told of success, or goes on to phase 2, exactly when its own item
   went in; each refusal has exactly one reason, and leaves the items alone.
   */
  lemma PutOutcome(s: State, t: Thread, expired: bool, pick: Thread)
    requires Reachable(s) && Enabled(s, PutPass(t, expired, pick))
    ensures var (s', r) := PutCheckStep(s, t, expired, pick);
      var tx, item := s.pcs[t].tx, s.pcs[t].item;
      var refused := tx !in s.sends || s.recvs == {};
      && OnlyMoves(s, s', t)
      && (WentIn(s, s', item) <==> !refused && !NoPlace(s))
      && (!WentIn(s, s', item) ==> Untouched(s, s'))
      && (WentIn(s, s', item) <==> r == Ok || (t in s'.pcs && s'.pcs[t].HandCheck?))
      && (r == Ok <==> WentIn(s, s', item) && s.capacity != Some(0))
      && (r == ClosedResource <==> refused)
      && (r == TimedOut <==> !refused && NoPlace(s) && expired)
      && (At(s', t, PutWait(tx, item)) && t in s'.notFull <==> !refused && NoPlace(s) && !expired)
      && (Gone(s', t) <==> r in {Ok, ClosedResource, TimedOut})
      && (!Gone(s', t) <==> r == Blocks)
  {
    EndsAre(s);
    hide NoPlace, Reachable, CanPut;
    var s', item := PutCheckStep(s, t, expired, pick).0, s.pcs[t].item;
    assert s.accepted + [item] != s.accepted && s.buffer + [item] != s.buffer;
  }

  /** A pass of phase 2 moves no item, and ends for exactly one reason. */
  lemma HandOutcome(s: State, t: Thread, expired: bool)
    requires Reachable(s) && Enabled(s, HandPass(t, expired))
    ensures var (s', r) := HandCheckStep(s, t, expired);
      var tx, item, target := s.pcs[t].tx, s.pcs[t].item, s.pcs[t].target;
      var taken := OwnItemTaken(s, target, item);
      && Untouched(s, s') && OnlyMoves(s, s', t)
      && (r == ClosedResource <==> tx !in s.sends)
      && (r == Ok <==> tx in s.sends && (taken || s.recvs == {}))
      && (r == TimedOut <==> tx in s.sends && !taken && s.recvs != {} && expired)
      && (At(s', t, HandWait(tx, item, target)) && t in s'.notFull <==>
            tx in s.sends && !taken && s.recvs != {} && !expired)
      && (Gone(s', t) <==> r in {Ok, ClosedResource, TimedOut}) && (!Gone(s', t) <==> r == Blocks)
  {
    EndsAre(s);
    RendezvousPut(s, t, expired);
    TakenIs(s, t);
    hide NoPlace, NoPlaceNow, Reachable, CanPut, CanPutNowait, OwnItemTaken, OwnItemBuffered;
  }

  lemma TakenIs(s: State, t: Thread)
    requires Reachable(s) && t in s.pcs && s.pcs[t].HandCheck?
    ensures OwnItemTaken(s, s.pcs[t].target, s.pcs[t].item) <==> s.pcs[t].target <= s.consumed
  {
    ReachableInv(s);
    assert Ticket(s.pcs[t], s.accepted) && Conserved(s) && Budget(s);
  }

  /** `put_nowait` says yes exactly when its item went in; otherwise it says why, and nothing has moved. */
  lemma PutNowaitOutcome(s: State, tx: End, item: Item, pick: Thread)
    requires Reachable(s) && Enabled(s, Action.PutNowait(tx, item, pick))
    ensures var (s', r) := PutNowaitStep(s, tx, item, pick);
      var refused := tx !in s.sends || s.recvs == {};
      && s'.sends == s.sends && s'.recvs == s.recvs && s'.pcs == s.pcs
      && (r == Ok <==> WentIn(s, s', item)) && (r == Ok <==> !refused && !NoPlaceNow(s))
      && (r == ClosedResource <==> refused)
      && (r == WouldBlock <==> !refused && NoPlaceNow(s))
      && (r != Ok ==> Untouched(s, s'))
  {
    EndsAre(s);
    hide NoPlaceNow, Reachable, CanPutNowait;
    assert s.accepted + [item] != s.accepted;
  }

  // ------------------------------------------------------------------
  // Receivers
  // ------------------------------------------------------------------

  /** A pass of `get`: an item is handed to the caller exactly when it came out of the channel. */
  lemma GetOutcome(s: State, t: Thread, expired: bool, pick: Thread)
    requires Reachable(s) && Enabled(s, GetPass(t, expired, pick))
    ensures var (s', r) := GetCheckStep(s, t, expired, pick);
      var rx := s.pcs[t].rx;
      && (forall x :: r == Got(x) <==> CameOut(s, s', x))
      && (r.Got? <==> rx in s.recvs && s.buffer != [])
      && (!r.Got? ==> Untouched(s, s'))
      && (r == ClosedResource <==> rx !in s.recvs)
      && (r == EndOfStream <==> rx in s.recvs && s.buffer == [] && s.sends == {})
      && (r == TimedOut <==> rx in s.recvs && s.buffer == [] && s.sends != {} && expired)
      && (r == Blocks <==> rx in s.recvs && s.buffer == [] && s.sends != {} && !expired)
      && r !in {Ok, WouldBlock}
  {
    EndsAre(s);
    TakeGives(s, pick);
    hide NoPlace, NoPlaceNow, Reachable, CanPut, CanPutNowait, Take, CameOut;
  }

  /** Its thread blocks as a waiting receiver, or is done; no other thread and no end is touched. */
  lemma GetMoves(s: State, t: Thread, expired: bool, pick: Thread)
    requires Reachable(s) && Enabled(s, GetPass(t, expired, pick))
    ensures var (s', r) := GetCheckStep(s, t, expired, pick);
      && OnlyMoves(s, s', t)
      && (r == Blocks <==> At(s', t, GetWait(s.pcs[t].rx)) && t in s'.notEmpty)
      && (r == Blocks <==> !Gone(s', t))
  {
    TakeGives(s, pick);
    hide Reachable, Take, CameOut;
  }

  lemma TakeGives(s: State, pick: Thread)
    ensures s.buffer != [] ==>
              var s' := Take(s, pick);
              && s'.pcs == s.pcs && s'.sends == s.sends && s'.recvs == s.recvs
              && s'.openSend == s.openSend && s'.openRecv == s.openRecv
              && forall s'': State, x ::
                   s''.accepted == s'.accepted && s''.delivered == s'.delivered && s''.buffer == s'.buffer ==>
                     (CameOut(s, s'', x) <==> x == s.buffer[0])
    ensures forall s': State, x :: Untouched(s, s') ==> !CameOut(s, s', x)
  {
    if s.buffer != [] {
      assert [s.buffer[0]] + s.buffer[1..] == s.buffer;
    }
    forall s': State, x | Untouched(s, s')
      ensures !CameOut(s, s', x)
    {
      assert s.delivered + [x] != s.delivered;
    }
  }

  /** `get_nowait` likewise. */
  lemma GetNowaitOutcome(s: State, rx: End, pick: Thread)
    requires Reachable(s) && Enabled(s, Action.GetNowait(rx, pick))
    ensures var (s', r) := GetNowaitStep(s, rx, pick);
      && s'.sends == s.sends && s'.recvs == s.recvs && s'.pcs == s.pcs
      && (forall x :: r == Got(x) <==> CameOut(s, s', x))
      && (r.Got? <==> rx in s.recvs && s.buffer != [])
      && (!r.Got? ==> Untouched(s, s'))
      && (r == ClosedResource <==> rx !in s.recvs)
      && (r == EndOfStream <==> rx in s.recvs && s.buffer == [] && s.sends == {})
      && (r == WouldBlock <==> rx in s.recvs && s.buffer == [] && s.sends != {})
  {
    EndsAre(s);
    hide NoPlace, NoPlaceNow, Reachable, CanPut, CanPutNowait;
    TakeGives(s, pick);
    hide Take;
  }

  // ------------------------------------------------------------------
  // Ends
  // ------------------------------------------------------------------

  /** A clone is a new open end, exactly when the end cloned is open. */
  lemma CloneSendOutcome(s: State, e: End)
    requires Reachable(s)
    ensures var (s', r) := CloneSendStep(s, e);
      && Untouched(s, s') && s'.recvs == s.recvs && s'.pcs == s.pcs && (r == Ok <==> e in s.sends)
      && if r == Ok then s.nextSend !in s.sends && s'.sends == s.sends + {s.nextSend} && s'.nextSend > s.nextSend
         else r == ClosedResource && s'.sends == s.sends
  {
    ReachableInv(s);
    assert Ends(s);
    hide Inv, Reachable, NoneClosed;
  }

  lemma CloneRecvOutcome(s: State, e: End)
    requires Reachable(s)
    ensures var (s', r) := CloneRecvStep(s, e);
      && Untouched(s, s') && s'.sends == s.sends && s'.pcs == s.pcs && (r == Ok <==> e in s.recvs)
      && if r == Ok then s.nextRecv !in s.recvs && s'.recvs == s.recvs + {s.nextRecv} && s'.nextRecv > s.nextRecv
         else r == ClosedResource && s'.recvs == s.recvs
  {
    ReachableInv(s);
    assert Ends(s);
    hide Inv, Reachable, NoneClosed;
  }

  /** A close takes one end away, and nothing else; the first close of an end wakes everyone. */
  lemma CloseOutcome(s: State, e: End)
    ensures var s' := CloseSendStep(s, e);
      && Untouched(s, s') && s'.sends == s.sends - {e} && s'.recvs == s.recvs && s'.pcs == s.pcs
      && (e in s.sends ==> s'.notEmpty == {} && s'.notFull == {})
    ensures var s' := CloseRecvStep(s, e);
      && Untouched(s, s') && s'.recvs == s.recvs - {e} && s'.sends == s.sends && s'.pcs == s.pcs
      && (e in s.recvs ==> s'.notEmpty == {} && s'.notFull == {})
  {
  }

  /** Whoever is left when the last end of the other side goes is woken. */
  lemma LastEndWakes(s: State, e: End)
    requires Reachable(s)
    ensures CloseSendStep(s, e).sends == {} ==> CloseSendStep(s, e).notEmpty == {}
    ensures CloseRecvStep(s, e).recvs == {} ==> CloseRecvStep(s, e).notFull == {}
  {
    ReachableInv(s);
    CloseSendKeeps(s, e);
    CloseRecvKeeps(s, e);
    CloseOutcome(s, e);
    var s1, s2 := CloseSendStep(s, e), CloseRecvStep(s, e);
    assert Ends(s1) && Waits(s1) && Ends(s2) && Waits(s2);
    hide CloseSendStep, CloseRecvStep, Inv, Reachable;
  }

  /** A call begins at its check, with the end and the item it was given. */
  lemma CallBegins(s: State, t: Thread, tx: End, item: Item, rx: End)
    ensures var s' := PutStartStep(s, t, tx, item);
      Untouched(s, s') && OnlyMoves(s, s', t) && At(s', t, PutCheck(tx, item))
    ensures var s' := GetStartStep(s, t, rx); Untouched(s, s') && OnlyMoves(s, s', t) && At(s', t, GetCheck(rx))
  {
  }

  /** A thread inside `wait` comes back to its own check. */
  lemma WaitReturns(s: State, t: Thread)
    ensures t in s.pcs && s.pcs[t].PutWait? ==>
              var s', pc := PutWakeStep(s, t), s.pcs[t];
              Untouched(s, s') && OnlyMoves(s, s', t) && At(s', t, PutCheck(pc.tx, pc.item)) && t !in s'.notFull
    ensures t in s.pcs && s.pcs[t].HandWait? ==>
              var s', pc := HandWakeStep(s, t), s.pcs[t];
              && Untouched(s, s') && OnlyMoves(s, s', t) && t !in s'.notFull
              && At(s', t, HandCheck(pc.tx, pc.item, pc.target))
    ensures t in s.pcs && s.pcs[t].GetWait? ==>
              var s' := GetWakeStep(s, t);
              Untouched(s, s') && OnlyMoves(s, s', t) && At(s', t, GetCheck(s.pcs[t].rx)) && t !in s'.notEmpty
  {
  }

  // ------------------------------------------------------------------
  // Over any step
  // ------------------------------------------------------------------

  predicate Puts(s: State, a: Action, item: Item) {
    || (a.PutNowait? && a.item == item)
    || (a.PutPass? && a.t in s.pcs && s.pcs[a.t].PutCheck? && s.pcs[a.t].item == item)
  }

  /** Items go in through a `put` of that item only, and come out through a `get` only, one at a time. */
  lemma ItemsMoveOneByOne(s: State, a: Action)
    requires Reachable(s) && Enabled(s, a)
    ensures var s' := Apply(s, a);
      || Untouched(s, s')
      || (exists item :: WentIn(s, s', item) && Puts(s, a, item))
      || (exists item :: CameOut(s, s', item) && (a.GetNowait? || a.GetPass?))
  {
    var s' := Apply(s, a);
    match a
    case CloneSend(tx) => CloneSendOutcome(s, tx);
    case CloneRecv(rx) => CloneRecvOutcome(s, rx);
    case CloseSend(tx) => CloseOutcome(s, tx);
    case CloseRecv(rx) => CloseOutcome(s, rx);
    case PutNowait(tx, item, pick) => PutNowaitOutcome(s, tx, item, pick);
    case PutStart(t, tx, item) => CallBegins(s, t, tx, item, 0);
    case PutPass(t, expired, pick) => PutOutcome(s, t, expired, pick);
    case PutWake(t) => WaitReturns(s, t);
    case HandPass(t, expired) => HandOutcome(s, t, expired);
    case HandWake(t) => WaitReturns(s, t);
    case GetNowait(rx, pick) => GetNowaitOutcome(s, rx, pick);
    case GetStart(t, rx) => CallBegins(s, t, 0, 0, rx);
    case GetPass(t, expired, pick) => GetOutcome(s, t, expired, pick);
    case GetWake(t) => WaitReturns(s, t);
  }
}
