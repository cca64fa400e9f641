/**
 The channel as the object the source keeps under one lock.  Each method is one lock-held
 section and is proved against the step function of the same name; `t` is the calling thread,
 `expired` what the clock says about its deadline, `pick` the waiter the next `notify` wakes.
 */
module ChannelObject {
  import opened Wrappers
  import opened Channel
  import opened ChannelProofs
  import opened ChannelTheorems

  class ChannelState {
    const capacity: Option<nat>
    var buffer: seq<Item>
    var openSend: int
    var openRecv: int
    var waiting: int
    var pending: int
    var consumed: int
    var notEmpty: set<Thread>
    var notFull: set<Thread>
    var sends: set<End>
    var recvs: set<End>
    var nextSend: End
    var nextRecv: End
    ghost var recvClosed: bool
    ghost var pcs: map<Thread, PC>
    ghost var accepted: seq<Item>
    ghost var delivered: seq<Item>

    ghost function View(): State
      reads this
    {
      State(capacity, buffer, openSend, openRecv, waiting, pending, consumed, notEmpty, notFull, sends, recvs,
            nextSend, nextRecv, recvClosed, pcs, accepted, delivered)
    }

    ghost predicate Valid()
      reads this
    {
      Inv(View())
    }

    constructor (capacity: Option<nat>)
      ensures Valid() && View() == Init(capacity)
    {
      this.capacity := capacity;
      buffer, openSend, openRecv := [], 1, 1;
      waiting, pending, consumed := 0, 0, 0;
      notEmpty, notFull := {}, {};
      sends, recvs, nextSend, nextRecv := {0}, {0}, 1, 1;
      recvClosed, pcs, accepted, delivered := false, map[], [], [];
      new;
      InitInv(capacity);
    }

    /** `Channel.create`: a negative capacity is refused. */
    static method Create(capacity: Option<int>) returns (ch: ChannelState?)
      ensures ch == null <==> capacity.Some? && capacity.value < 0
      ensures ch != null ==> fresh(ch) && ch.Valid()
      ensures ch != null ==> ch.View() == Init(if capacity.Some? then Some(capacity.value as nat) else None)
    {
      if capacity.Some? && capacity.value < 0 {
        return null;
      }
      ch := new ChannelState(if capacity.Some? then Some(capacity.value as nat) else None);
    }

    /** `notify_all` on both conditions. */
    method NotifyAll()
      modifies this`notEmpty, this`notFull
      ensures View() == old(View()).(notEmpty := {}, notFull := {})
    {
      notEmpty, notFull := {}, {};
    }

    method Exit()
      modifies this`notEmpty, this`notFull
      ensures View() == Leave(old(View()))
    {
      if openSend == 0 || openRecv == 0 {
        NotifyAll();
      }
    }

    /** The calling thread is at another place. */
    method GotoPlace(t: Thread, ghost pc: PC)
      modifies this`pcs
      ensures View() == Goto(old(View()), t, pc)
    {
      pcs := pcs[t := pc];
    }

    /** The calling thread leaves the channel. */
    method DoneHere(t: Thread)
      modifies this`pcs
      ensures View() == Done(old(View()), t)
    {
      pcs := pcs - {t};
    }

    /** One more sending end. */
    method OpenSend()
      modifies this`openSend, this`sends, this`nextSend
      ensures View() == OpenedSend(old(View()))
    {
      openSend, sends, nextSend := openSend + 1, sends + {nextSend}, nextSend + 1;
    }

    /** One more receiving end. */
    method OpenRecv()
      modifies this`openRecv, this`recvs, this`nextRecv
      ensures View() == OpenedRecv(old(View()))
    {
      openRecv, recvs, nextRecv := openRecv + 1, recvs + {nextRecv}, nextRecv + 1;
    }

    method CloneSend(tx: End) returns (r: Outcome)
      requires Valid() && Enabled(View(), Action.CloneSend(tx))
      modifies this
      ensures Valid() && (View(), r) == CloneSendStep(old(View()), tx)
    {
      CloneSendKeeps(View(), tx);
      hide Inv, Enabled, Leave, OpenedSend;
      r := ClosedResource;
      if tx in sends {
        OpenSend();
        r := Ok;
      }
      Exit();
    }

    method CloneRecv(rx: End) returns (r: Outcome)
      requires Valid() && Enabled(View(), Action.CloneRecv(rx))
      modifies this
      ensures Valid() && (View(), r) == CloneRecvStep(old(View()), rx)
    {
      CloneRecvKeeps(View(), rx);
      hide Inv, Enabled, Leave, OpenedRecv;
      r := ClosedResource;
      if rx in recvs {
        OpenRecv();
        r := Ok;
      }
      Exit();
    }

    method DropSend(tx: End)
      modifies this`openSend, this`sends, this`notEmpty, this`notFull
      ensures View() == old(View()).(openSend := old(openSend) - 1, sends := old(sends) - {tx},
                                     notEmpty := {}, notFull := {})
    {
      sends, openSend := sends - {tx}, openSend - 1;
      NotifyAll();
    }

    method DropRecv(rx: End)
      modifies this`openRecv, this`recvs, this`recvClosed, this`notEmpty, this`notFull
      ensures View() == old(View()).(openRecv := old(openRecv) - 1, recvs := old(recvs) - {rx}, recvClosed := true,
                                     notEmpty := {}, notFull := {})
    {
      recvs, openRecv, recvClosed := recvs - {rx}, openRecv - 1, true;
      NotifyAll();
    }

    method CloseSend(tx: End)
      requires Valid() && Enabled(View(), Action.CloseSend(tx))
      modifies this
      ensures Valid() && View() == CloseSendStep(old(View()), tx)
    {
      CloseSendKeeps(View(), tx);
      hide Inv, Enabled, Leave;
      if tx in sends {
        DropSend(tx);
      }
      Exit();
    }

    method CloseRecv(rx: End)
      requires Valid() && Enabled(View(), Action.CloseRecv(rx))
      modifies this
      ensures Valid() && View() == CloseRecvStep(old(View()), rx)
    {
      CloseRecvKeeps(View(), rx);
      hide Inv, Enabled, Leave;
      if rx in recvs {
        DropRecv(rx);
      }
      Exit();
    }

    /** Appends an item, claims a waiting receiver for it if one is free, and notifies. */
    method DepositLocked(item: Item, pick: Thread)
      modifies this`buffer, this`accepted, this`pending, this`notEmpty
      ensures View() == Deposit(old(View()), item, pick)
    {
      buffer, accepted := buffer + [item], accepted + [item];
      if capacity == Some(0) && waiting > pending {
        pending := pending + 1;
      }
      notEmpty := notEmpty - {pick};
    }

    method PutNowait(tx: End, item: Item, pick: Thread) returns (r: Outcome)
      requires Valid() && Enabled(View(), Action.PutNowait(tx, item, pick))
      modifies this
      ensures Valid() && (View(), r) == PutNowaitStep(old(View()), tx, item, pick)
    {
      PutNowaitKeeps(View(), tx, item, pick);
      hide Inv, Enabled, Leave;
      if tx !in sends || openRecv == 0 {
        r := ClosedResource;
      } else if !(if capacity == Some(0) then waiting > pending else capacity.None? || |buffer| < capacity.value) {
        r := WouldBlock;
      } else {
        DepositLocked(item, pick);
        r := Ok;
      }
      Exit();
    }

    method PutStart(t: Thread, tx: End, item: Item)
      requires Valid() && Enabled(View(), Action.PutStart(t, tx, item))
      modifies this
      ensures Valid() && View() == PutStartStep(old(View()), t, tx, item)
    {
      SenderStarts(View(), t, tx, item);
      hide Inv, Enabled, Leave;
      pcs := pcs[t := PutCheck(tx, item)];
    }

    method LandLocked(t: Thread, tx: End, item: Item, pick: Thread) returns (r: Outcome, target: int)
      modifies this
      ensures (View(), r) == LandStep(old(View()), t, tx, item, pick)
      ensures t in pcs ==> pcs[t] == HandCheck(tx, item, target)
    {
      DepositLocked(item, pick);
      if capacity == Some(0) {
        target := consumed + |buffer|;
        pcs := pcs[t := HandCheck(tx, item, target)];
        r := Blocks;
      } else {
        target := 0;
        pcs := pcs - {t};
        r := Ok;
      }
    }

    /** `not_full.wait`: the calling thread blocks. */
    method ParkSender(t: Thread, ghost pc: PC)
      modifies this`pcs, this`notFull
      ensures View() == Goto(old(View()), t, pc).(notFull := old(notFull) + {t})
    {
      pcs, notFull := pcs[t := pc], notFull + {t};
    }

    /** One pass of phase 1.  `target` is what a rendezvous sender takes into phase 2. */
    method PutPass(t: Thread, tx: End, item: Item, expired: bool, pick: Thread) returns (r: Outcome, target: int)
      requires Valid() && Enabled(View(), Action.PutPass(t, expired, pick)) && pcs[t] == PutCheck(tx, item)
      modifies this
      ensures Valid() && (View(), r) == PutCheckStep(old(View()), t, expired, pick)
      ensures t in pcs && pcs[t].HandCheck? ==> pcs[t].target == target
    {
      PutCheckKeeps(View(), t, expired, pick);
      hide Inv, Enabled, Leave;
      target := 0;
      if tx !in sends || openRecv == 0 {
        DoneHere(t);
        r := ClosedResource;
      } else if if capacity == Some(0) then waiting > pending || buffer == []
                else capacity.None? || |buffer| < capacity.value {
        r, target := LandLocked(t, tx, item, pick);
      } else if expired {
        DoneHere(t);
        r := TimedOut;
      } else {
        ParkSender(t, PutWait(tx, item));
        return Blocks, 0;
      }
      Exit();
    }

    method PutWake(t: Thread)
      requires Valid() && Enabled(View(), Action.PutWake(t))
      modifies this
      ensures Valid() && View() == PutWakeStep(old(View()), t)
    {
      SenderWakes(View(), t);
      hide Inv, Enabled, Leave;
      notFull := notFull - {t};
      GotoPlace(t, PutCheck(pcs[t].tx, pcs[t].item));
      Exit();
    }

    /** One pass of phase 2. */
    method HandPass(t: Thread, tx: End, target: int, expired: bool) returns (r: Outcome)
      requires Valid() && Enabled(View(), Action.HandPass(t, expired))
      requires pcs[t].tx == tx && pcs[t].target == target
      modifies this
      ensures Valid() && (View(), r) == HandCheckStep(old(View()), t, expired)
    {
      HandCheckKeeps(View(), t, expired);
      hide Inv, Enabled, Leave;
      if tx in sends && consumed < target && openRecv != 0 && !expired {
        ParkSender(t, HandWait(tx, pcs[t].item, target));
        return Blocks;
      }
      r := if tx !in sends then ClosedResource
           else if consumed >= target || openRecv == 0 then Ok
           else TimedOut;
      DoneHere(t);
      Exit();
    }

    method HandWake(t: Thread)
      requires Valid() && Enabled(View(), Action.HandWake(t))
      modifies this
      ensures Valid() && View() == HandWakeStep(old(View()), t)
    {
      SenderWakes(View(), t);
      hide Inv, Enabled, Leave;
      notFull := notFull - {t};
      GotoPlace(t, HandCheck(pcs[t].tx, pcs[t].item, pcs[t].target));
      Exit();
    }

    /** A rendezvous counts the item and settles a hand-off. */
    method SettleLocked()
      modifies this`consumed, this`pending
      ensures consumed == old(consumed) + 1 && pending == if old(pending) > 0 then old(pending) - 1 else old(pending)
    {
      consumed := consumed + 1;
      if pending > 0 {
        pending := pending - 1;
      }
    }

    /** `_take`, under the lock of the caller. */
    method TakeLocked(pick: Thread) returns (item: Item)
      requires buffer != []
      modifies this`buffer, this`delivered, this`consumed, this`pending, this`notFull
      ensures View() == Take(old(View()), pick) && item == old(buffer)[0]
    {
      item := buffer[0];
      buffer, delivered := buffer[1..], delivered + [item];
      if capacity == Some(0) {
        SettleLocked();
      }
      notFull := notFull - {pick};
    }

    method GetNowait(rx: End, pick: Thread) returns (r: Outcome)
      requires Valid() && Enabled(View(), Action.GetNowait(rx, pick))
      modifies this
      ensures Valid() && (View(), r) == GetNowaitStep(old(View()), rx, pick)
    {
      GetNowaitKeeps(View(), rx, pick);
      hide Inv, Enabled, Leave;
      if rx !in recvs {
        r := ClosedResource;
      } else if buffer != [] {
        var item := TakeLocked(pick);
        r := Got(item);
      } else {
        r := if openSend == 0 then EndOfStream else WouldBlock;
      }
      Exit();
    }

    method GetStart(t: Thread, rx: End)
      requires Valid() && Enabled(View(), Action.GetStart(t, rx))
      modifies this
      ensures Valid() && View() == GetStartStep(old(View()), t, rx)
    {
      ReceiverStarts(View(), t, rx);
      hide Inv, Enabled, Leave;
      pcs := pcs[t := GetCheck(rx)];
    }

    /** `not_empty.wait`: the calling thread blocks and counts as a waiting receiver. */
    method ParkReceiver(t: Thread, rx: End)
      modifies this`pcs, this`notEmpty, this`waiting
      ensures View() == Goto(old(View()), t, GetWait(rx)).(waiting := old(waiting) + 1, notEmpty := old(notEmpty) + {t})
    {
      waiting := waiting + 1;
      pcs, notEmpty := pcs[t := GetWait(rx)], notEmpty + {t};
    }

    method GetPass(t: Thread, rx: End, expired: bool, pick: Thread) returns (r: Outcome)
      requires Valid() && Enabled(View(), Action.GetPass(t, expired, pick)) && pcs[t] == GetCheck(rx)
      modifies this
      ensures Valid() && (View(), r) == GetCheckStep(old(View()), t, expired, pick)
    {
      GetCheckKeeps(View(), t, expired, pick);
      hide Inv, Enabled, Leave, Take;
      if rx in recvs && buffer == [] && openSend != 0 && !expired {
        ParkReceiver(t, rx);
        return Blocks;
      }
      if rx !in recvs {
        r := ClosedResource;
      } else if buffer != [] {
        var item := TakeLocked(pick);
        r := Got(item);
      } else {
        r := if openSend == 0 then EndOfStream else TimedOut;
      }
      DoneHere(t);
      Exit();
    }

    /** `not_empty.wait` returns. */
    method UnparkReceiver(t: Thread)
      requires t in pcs && pcs[t].GetWait?
      modifies this`pcs, this`notEmpty, this`waiting
      ensures View() == Goto(old(View()), t, GetCheck(old(pcs)[t].rx)).(waiting := old(waiting) - 1,
                                                                        notEmpty := old(notEmpty) - {t})
    {
      pcs, notEmpty, waiting := pcs[t := GetCheck(pcs[t].rx)], notEmpty - {t}, waiting - 1;
    }

    method GetWake(t: Thread)
      requires Valid() && Enabled(View(), Action.GetWake(t))
      modifies this
      ensures Valid() && View() == GetWakeStep(old(View()), t)
    {
      ReceiverWakes(View(), t);
      hide Inv, Enabled, Leave;
      UnparkReceiver(t);
      Exit();
    }
  }
}
