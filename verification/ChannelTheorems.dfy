/**
 The guarantees of the channel, over every interleaving of calls on a fresh channel of any
 capacity, and the one guarantee that a rendezvous does not give.
 */
module ChannelTheorems {
  import opened Wrappers
  import opened Channel
  import opened ChannelProofs

  lemma InitInv(capacity: Option<nat>)
    ensures Inv(Init(capacity))
  {
    var s := Init(capacity);
    assert Waiters(s.pcs) == {} && Checkers(s.pcs) == {};
  }

  lemma {:induction false} RunKeeps(s: State, run: seq<Action>)
    requires Inv(s) && Possible(s, run)
    ensures Inv(After(s, run))
    decreases |run|
  {
    if run != [] {
      ActionKeeps(s, run[0]);
      RunKeeps(Apply(s, run[0]), run[1..]);
    }
  }

  lemma ReachableInv(s: State)
    requires Reachable(s)
    ensures Inv(s)
  {
    var capacity: Option<nat>, run :| Possible(Init(capacity), run) && s == After(Init(capacity), run);
    InitInv(capacity);
    RunKeeps(Init(capacity), run);
  }

  // ------------------------------------------------------------------
  // Safety of every run
  // ------------------------------------------------------------------

  /** While a receiver is blocked, someone else is on the way to every buffered item, and senders exist. */
  lemma NoLostWakeupForReceivers(s: State)
    requires Reachable(s) && s.notEmpty != {}
    ensures |s.buffer| <= |ActiveReceivers(s.pcs, s.notEmpty, s.recvs)|
    ensures s.sends != {}
  {
    ReachableInv(s);
  }

  /** While a sender of a bounded channel is blocked, someone else is on the way to every free place. */
  lemma NoLostWakeupForSenders(s: State)
    requires Reachable(s) && s.notFull != {} && s.capacity.Some? && s.capacity.value > 0
    ensures s.capacity.value - |s.buffer| <= |ActiveSenders(s.pcs, s.notFull, s.sends)|
    ensures s.recvs != {}
  {
    ReachableInv(s);
  }

  /** A sender of an unbounded channel never blocks. */
  lemma UnboundedNeverBlocks(s: State)
    requires Reachable(s) && s.capacity.None?
    ensures s.notFull == {}
  {
    ReachableInv(s);
  }

  /**
   No stall: with an item in the buffer and a receiver blocked, some receiver has only to run its
   next sections, without blocking and whatever its deadline, to take an item.
   */
  lemma SomeReceiverTakes(s: State) returns (t: Thread)
    requires Reachable(s) && s.notEmpty != {} && s.buffer != []
    ensures t in s.pcs
    ensures s.pcs[t].GetCheck? || (s.pcs[t].GetWait? && t !in s.notEmpty)
    ensures var s1 := if s.pcs[t].GetCheck? then s else GetWakeStep(s, t);
      forall expired, pick :: GetCheckStep(s1, t, expired, pick).1 == Got(s.buffer[0])
  {
    ReachableInv(s);
    t :| t in ActiveReceivers(s.pcs, s.notEmpty, s.recvs);
  }

  /** Items come out in the order they went in, each at most once, and none is made up or lost. */
  lemma FifoExactlyOnce(s: State)
    requires Reachable(s)
    ensures s.accepted == s.delivered + s.buffer
    ensures s.capacity.Some? && s.capacity.value > 0 ==> |s.buffer| <= s.capacity.value
  {
    ReachableInv(s);
  }

  /** Rendezvous: at most one unclaimed item, and every claim has a receiver of its own behind it. */
  lemma RendezvousBudget(s: State)
    requires Reachable(s) && Rendezvous(s)
    ensures s.pending <= |s.buffer| <= s.pending + 1
    ensures !s.recvClosed ==> s.pending <= |Waiters(s.pcs) + Checkers(s.pcs)|
  {
    ReachableInv(s);
    assert Waiters(s.pcs) !! Checkers(s.pcs);
  }

  /** Where a sender's own item stands when its phase 2 ends. */
  predicate OwnItemTaken(s: State, target: int, item: Item) {
    0 < target <= |s.delivered| && s.delivered[target - 1] == item
  }

  predicate OwnItemBuffered(s: State, target: int, item: Item) {
    |s.delivered| < target <= |s.delivered| + |s.buffer| && s.buffer[target - 1 - |s.delivered|] == item
  }

  /**
   A rendezvous `put` returns normally exactly when its own end is open and its own item is out
   or no receiver is left; a timeout leaves its own item, and no other, in the buffer.
   */
  lemma RendezvousPut(s: State, t: Thread, expired: bool)
    requires Reachable(s) && t in s.pcs && s.pcs[t].HandCheck?
    ensures var pc, r := s.pcs[t], HandCheckStep(s, t, expired).1;
      && (OwnItemTaken(s, pc.target, pc.item) <==> !OwnItemBuffered(s, pc.target, pc.item))
      && (r == Ok <==> pc.tx in s.sends && (OwnItemTaken(s, pc.target, pc.item) || s.recvs == {}))
      && (r == TimedOut ==> expired && OwnItemBuffered(s, pc.target, pc.item))
  {
    ReachableInv(s);
    assert Ticket(s.pcs[t], s.accepted);
    assert Conserved(s);
  }

  /**
   The ticket a sender takes into phase 2 is the position of the item it has just put in, with
   any number of other items in flight.
   */
  lemma TicketIsOwn(s: State, t: Thread, expired: bool, pick: Thread)
    requires Reachable(s) && Rendezvous(s) && t in s.pcs && s.pcs[t].PutCheck?
    requires PutCheckStep(s, t, expired, pick).0.accepted != s.accepted
    ensures var s' := PutCheckStep(s, t, expired, pick).0;
      && s'.accepted == s.accepted + [s.pcs[t].item]
      && s'.pcs[t] == HandCheck(s.pcs[t].tx, s.pcs[t].item, |s'.accepted|)
  {
    ReachableInv(s);
    assert Conserved(s) && Budget(s);
  }

  // ------------------------------------------------------------------
  // Wakeups of rendezvous senders
  // ------------------------------------------------------------------

  ghost function Senders(pcs: Places): set<Thread> {
    set t | t in pcs && InPut(pcs[t])
  }

  /** No sender is blocked, un-notified, on something that has already happened. */
  ghost predicate SendersAwake(s: State) {
    forall t <- s.notFull | t in s.pcs ::
      && (s.pcs[t].PutWait? ==> !CanPut(s))
      && (s.pcs[t].HandWait? ==> s.consumed < s.pcs[t].target)
  }

  /** At no point of the run are more than `k` threads inside `put`. */
  ghost predicate AtMost(s: State, run: seq<Action>, k: nat)
    requires Possible(s, run)
    decreases |run|
  {
    |Senders(s.pcs)| <= k && (run != [] ==> AtMost(Apply(s, run[0]), run[1..], k))
  }

  /** Up to `k` concurrent calls of `put` on a rendezvous channel never leave a sender asleep. */
  ghost predicate SafeFor(k: nat) {
    forall run | Possible(Init(Some(0)), run) && AtMost(Init(Some(0)), run, k) ::
      SendersAwake(After(Init(Some(0)), run))
  }

  lemma Lone(s: State, t: Thread, u: Thread)
    requires t in s.pcs && u in s.pcs && InPut(s.pcs[t]) && InPut(s.pcs[u]) && |Senders(s.pcs)| <= 1
    ensures t == u
  {
    if t != u {
      SubsetCard({t, u}, Senders(s.pcs));
    }
  }

  /** A lone sender that acts is not in a wait set, and nobody else is. */
  lemma LoneActs(s: State, t: Thread)
    requires Waits(s) && t in s.pcs && InPut(s.pcs[t]) && |Senders(s.pcs)| <= 1
    ensures s.notFull <= {t}
    ensures s.pcs[t].PutCheck? || s.pcs[t].HandCheck? ==> s.notFull == {}
  {
    forall u <- s.notFull ensures u == t {
      Lone(s, t, u);
    }
  }

  lemma LonePut(s: State, t: Thread, expired: bool, pick: Thread)
    requires Waits(s) && Rendezvous(s) && |Senders(s.pcs)| <= 1 && t in s.pcs && s.pcs[t].PutCheck?
    ensures SendersAwake(PutCheckStep(s, t, expired, pick).0)
  {
    LoneActs(s, t);
  }

  lemma LoneHand(s: State, t: Thread, expired: bool)
    requires Waits(s) && |Senders(s.pcs)| <= 1 && t in s.pcs && s.pcs[t].HandCheck?
    ensures SendersAwake(HandCheckStep(s, t, expired).0)
  {
    LoneActs(s, t);
  }

  lemma LoneWakes(s: State, t: Thread)
    requires Waits(s) && |Senders(s.pcs)| <= 1 && t in s.pcs
    ensures s.pcs[t].PutWait? ==> SendersAwake(PutWakeStep(s, t))
    ensures s.pcs[t].HandWait? ==> SendersAwake(HandWakeStep(s, t))
  {
    if s.pcs[t].PutWait? || s.pcs[t].HandWait? {
      LoneActs(s, t);
    }
  }

  lemma LoneStarts(s: State, t: Thread, tx: End, item: Item)
    requires Waits(s) && t !in s.pcs && |Senders(PutStartStep(s, t, tx, item).pcs)| <= 1
    ensures SendersAwake(PutStartStep(s, t, tx, item))
  {
    var s' := PutStartStep(s, t, tx, item);
    forall u <- s.notFull ensures u == t {
      Lone(s', t, u);
    }
  }

  lemma LoneTake(s: State, pick: Thread)
    requires Waits(s) && |Senders(s.pcs)| <= 1 && Picks(s.notFull, pick) && s.buffer != []
    ensures Take(s, pick).notFull == {}
  {
    if pick in s.notFull {
      LoneActs(s, pick);
    }
  }

  lemma LoneGet(s: State, t: Thread, expired: bool, pick: Thread)
    requires Waits(s) && SendersAwake(s) && Rendezvous(s) && |Senders(s.pcs)| <= 1
    requires t in s.pcs && s.pcs[t].GetCheck? && Picks(s.notFull, pick)
    ensures SendersAwake(GetCheckStep(s, t, expired, pick).0)
  {
    if s.buffer != [] {
      LoneTake(s, pick);
    }
  }

  lemma LoneGetNowait(s: State, rx: End, pick: Thread)
    requires Waits(s) && SendersAwake(s) && |Senders(s.pcs)| <= 1 && Picks(s.notFull, pick)
    ensures SendersAwake(GetNowaitStep(s, rx, pick).0)
  {
    if s.buffer != [] {
      LoneTake(s, pick);
    }
  }

  lemma LonePutNowait(s: State, tx: End, item: Item, pick: Thread)
    requires Waits(s) && SendersAwake(s) && Rendezvous(s)
    ensures SendersAwake(PutNowaitStep(s, tx, item, pick).0)
  {
  }

  lemma LoneEnds(s: State, e: End)
    requires SendersAwake(s) && Rendezvous(s)
    ensures SendersAwake(CloneSendStep(s, e).0) && SendersAwake(CloneRecvStep(s, e).0)
    ensures SendersAwake(CloseSendStep(s, e)) && SendersAwake(CloseRecvStep(s, e))
  {
  }

  lemma LoneReceiverMoves(s: State, t: Thread, rx: End)
    requires SendersAwake(s) && Waits(s) && Rendezvous(s)
    ensures t !in s.pcs ==> SendersAwake(GetStartStep(s, t, rx))
    ensures t in s.pcs && s.pcs[t].GetWait? ==> SendersAwake(GetWakeStep(s, t))
  {
  }

  lemma LoneSenderKeeps(s: State, a: Action)
    requires Inv(s) && SendersAwake(s) && Rendezvous(s) && Enabled(s, a)
    requires |Senders(s.pcs)| <= 1 && |Senders(Apply(s, a).pcs)| <= 1
    ensures SendersAwake(Apply(s, a))
  {
    assert Waits(s);
    hide Inv, Waits, SendersAwake;
    match a
    case CloneSend(tx) => LoneEnds(s, tx);
    case CloneRecv(rx) => LoneEnds(s, rx);
    case CloseSend(tx) => LoneEnds(s, tx);
    case CloseRecv(rx) => LoneEnds(s, rx);
    case PutNowait(tx, item, pick) => LonePutNowait(s, tx, item, pick);
    case PutStart(t, tx, item) => LoneStarts(s, t, tx, item);
    case PutPass(t, expired, pick) => LonePut(s, t, expired, pick);
    case PutWake(t) => LoneWakes(s, t);
    case HandPass(t, expired) => LoneHand(s, t, expired);
    case HandWake(t) => LoneWakes(s, t);
    case GetNowait(rx, pick) => LoneGetNowait(s, rx, pick);
    case GetStart(t, rx) => LoneReceiverMoves(s, t, rx);
    case GetPass(t, expired, pick) => LoneGet(s, t, expired, pick);
    case GetWake(t) => LoneReceiverMoves(s, t, 0);
  }

  lemma CapacityStays(s: State, a: Action)
    requires Enabled(s, a)
    ensures Apply(s, a).capacity == s.capacity
  {
  }

  lemma {:induction false} LoneSenderRun(s: State, run: seq<Action>)
    requires Inv(s) && SendersAwake(s) && Rendezvous(s) && Possible(s, run) && AtMost(s, run, 1)
    ensures SendersAwake(After(s, run))
    decreases |run|
  {
    if run != [] {
      var s' := Apply(s, run[0]);
      assert AtMost(s', run[1..], 1);
      ActionKeeps(s, run[0]);
      CapacityStays(s, run[0]);
      LoneSenderKeeps(s, run[0]);
      LoneSenderRun(s', run[1..]);
    }
  }

  lemma {:induction false} Snoc(s: State, run: seq<Action>, a: Action, k: nat)
    requires Possible(s, run) && AtMost(s, run, k) && Enabled(After(s, run), a)
    requires |Senders(Apply(After(s, run), a).pcs)| <= k
    ensures Possible(s, run + [a]) && AtMost(s, run + [a], k)
    ensures After(s, run + [a]) == Apply(After(s, run), a)
    decreases |run|
  {
    if run == [] {
      assert run + [a] == [a];
    } else {
      assert (run + [a])[1..] == run[1..] + [a];
      Snoc(Apply(s, run[0]), run[1..], a, k);
    }
  }

  // The run that strands a sender: two calls of `put` (threads 1 and 2), two calls of `get`
  // (thread 3), one notification, which goes to the sender that has waited longest.

  function Stage(pcs: Places, buffer: seq<Item>, waiting: int, notEmpty: set<Thread>, notFull: set<Thread>,
                 delivered: seq<Item>): State {
    Init(Some(0)).(pcs := pcs, buffer := buffer, waiting := waiting, consumed := |delivered|, notEmpty := notEmpty,
                   notFull := notFull, accepted := delivered + buffer, delivered := delivered)
  }

  function Strand(i: nat): State {
    var parked := map[1 := HandWait(0, 10, 1), 2 := PutWait(0, 20)];
    if i == 0 then Init(Some(0))
    else if i == 1 then Stage(map[1 := PutCheck(0, 10)], [], 0, {}, {}, [])
    else if i == 2 then Stage(map[1 := HandCheck(0, 10, 1)], [10], 0, {}, {}, [])
    else if i == 3 then Stage(map[1 := HandWait(0, 10, 1)], [10], 0, {}, {1}, [])
    else if i == 4 then Stage(map[1 := HandWait(0, 10, 1), 2 := PutCheck(0, 20)], [10], 0, {}, {1}, [])
    else if i == 5 then Stage(parked, [10], 0, {}, {1, 2}, [])
    else if i == 6 then Stage(parked[3 := GetCheck(0)], [10], 0, {}, {1, 2}, [])
    else if i == 7 then Stage(parked, [], 0, {}, {2}, [10])
    else if i == 8 then Stage(map[1 := HandCheck(0, 10, 1), 2 := PutWait(0, 20)], [], 0, {}, {2}, [10])
    else if i == 9 then Stage(map[2 := PutWait(0, 20)], [], 0, {}, {2}, [10])
    else if i == 10 then Stage(map[2 := PutWait(0, 20), 3 := GetCheck(0)], [], 0, {}, {2}, [10])
    else Stage(map[2 := PutWait(0, 20), 3 := GetWait(0)], [], 1, {3}, {2}, [10])
  }

  const STRANDING: seq<Action> := [
    PutStart(1, 0, 10), PutPass(1, false, 0), HandPass(1, false),
    PutStart(2, 0, 20), PutPass(2, false, 0),
    GetStart(3, 0), GetPass(3, false, 1),
    HandWake(1), HandPass(1, false),
    GetStart(3, 0), GetPass(3, false, 2)]

  lemma StrandStep(i: nat)
    requires i < 11
    ensures Enabled(Strand(i), STRANDING[i]) && Apply(Strand(i), STRANDING[i]) == Strand(i + 1)
  {
    if i < 6 {
      StrandStepEarly(i);
    } else if i < 9 {
      StrandStepMiddle(i);
    } else {
      StrandStepLate(i);
    }
  }

  lemma StrandStepEarly(i: nat)
    requires i < 6
    ensures Enabled(Strand(i), STRANDING[i]) && Apply(Strand(i), STRANDING[i]) == Strand(i + 1)
  {
  }

  lemma StrandStepMiddle(i: nat)
    requires 6 <= i < 9
    ensures Enabled(Strand(i), STRANDING[i]) && Apply(Strand(i), STRANDING[i]) == Strand(i + 1)
  {
  }

  lemma StrandStepLate(i: nat)
    requires 9 <= i < 11
    ensures Enabled(Strand(i), STRANDING[i]) && Apply(Strand(i), STRANDING[i]) == Strand(i + 1)
  {
  }

  lemma TwoSenders(i: nat)
    ensures |Senders(Strand(i).pcs)| <= 2
  {
    SubsetCard(Senders(Strand(i).pcs), {1, 2});
  }

  lemma StrandStart()
    ensures Strand(0) == Init(Some(0))
  {
  }

  lemma {:induction false} StrandRun(n: nat)
    requires n <= 11
    ensures Possible(Init(Some(0)), STRANDING[..n]) && AtMost(Init(Some(0)), STRANDING[..n], 2)
    ensures After(Init(Some(0)), STRANDING[..n]) == Strand(n)
  {
    StrandStart();
    hide Strand, Apply, Enabled, Senders, Init;
    TwoSenders(n);
    if n > 0 {
      StrandRun(n - 1);
      StrandStep(n - 1);
      assert STRANDING[..n] == STRANDING[..n - 1] + [STRANDING[n - 1]];
      Snoc(Init(Some(0)), STRANDING[..n - 1], STRANDING[n - 1], 2);
    } else {
      assert STRANDING[..n] == [];
    }
  }

  /**
   A rendezvous can come to rest with work to do: a sender blocked and un-notified although it
   could put, a receiver blocked and un-notified on the empty buffer, every end open and no other
   thread inside the channel.  The one notification of `_take` went to a sender in phase 2.
   */
  lemma RendezvousStrandsASender() returns (s: State)
    ensures Reachable(s) && Rendezvous(s)
    ensures s.pcs == map[2 := PutWait(0, 20), 3 := GetWait(0)] && s.notFull == {2} && s.notEmpty == {3}
    ensures s.sends != {} && s.recvs != {} && s.buffer == [] && CanPut(s)
  {
    StrandReachable(11);
    s := Strand(11);
  }

  lemma StrandReachable(n: nat)
    requires n <= 11
    ensures Reachable(Strand(n))
  {
    hide Strand, Possible, After;
    StrandRun(n);
  }

  /** The exact number of concurrent calls of `put` that a rendezvous channel supports: one. */
  lemma RendezvousSafeExactlyForOneSender(k: nat)
    ensures SafeFor(k) <==> k <= 1
  {
    var s := Init(Some(0));
    if k <= 1 {
      forall run | Possible(s, run) && AtMost(s, run, k) ensures SendersAwake(After(s, run)) {
        AtMostGrows(s, run, k, 1);
        InitInv(Some(0));
        LoneSenderRun(s, run);
      }
    } else {
      StrandRun(11);
      AtMostGrows(s, STRANDING[..11], 2, k);
      assert !SendersAwake(Strand(11));
    }
  }

  lemma {:induction false} AtMostGrows(s: State, run: seq<Action>, k: nat, l: nat)
    requires Possible(s, run) && AtMost(s, run, k) && k <= l
    ensures AtMost(s, run, l)
    decreases |run|
  {
    if run != [] {
      AtMostGrows(Apply(s, run[0]), run[1..], k, l);
    }
  }
}
