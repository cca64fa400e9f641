/**
 The channel of `threadtools/_channel.py`: many senders, many receivers, and a buffer that is
 unbounded, bounded or a rendezvous point.

 A `State` is everything the lock protects, the wait sets of the two conditions, the place at
 which each thread stands, and two logs (what was put in, what was taken out).  Each function
 `XxxStep` is one lock-held section; a wait splits a call into the section before it and the
 section after it.  A thread inside `wait` is blocked while it is in a wait set and notified once
 it has left it.  A wait may time out at any moment, which is the same as leaving the wait set
 on reacquiring the lock.
 */
module Channel {
  import opened Wrappers

  /** A payload.  The channel moves payloads and never looks into them. */
  type Item = int
  type Thread = nat
  /** The identity of one send or receive end; ends are never reused. */
  type End = nat

  datatype PC =
    | GetCheck(rx: End)                             // about to run the check at the top of `get`
    | GetWait(rx: End)                              // inside `not_empty.wait`
    | PutCheck(tx: End, item: Item)                 // about to run the check of phase 1 of `put`
    | PutWait(tx: End, item: Item)                  // inside `not_full.wait` of phase 1
    | HandCheck(tx: End, item: Item, target: int)   // about to run the check of phase 2
    | HandWait(tx: End, item: Item, target: int)    // inside `not_full.wait` of phase 2

  datatype State = State(
    capacity: Option<nat>,
    buffer: seq<Item>,
    openSend: int,
    openRecv: int,
    waiting: int,              // waiting_receivers
    pending: int,              // pending_handoffs
    consumed: int,             // items_consumed
    notEmpty: set<Thread>,     // wait set of not_empty
    notFull: set<Thread>,      // wait set of not_full
    sends: set<End>,           // send ends whose _closed flag is down
    recvs: set<End>,           // receive ends whose _closed flag is down
    nextSend: End,
    nextRecv: End,
    recvClosed: bool,          // has a receive end ever been closed
    pcs: map<Thread, PC>,
    accepted: seq<Item>,       // every item appended to the buffer, oldest first
    delivered: seq<Item>)      // every item taken from the buffer, oldest first

  /** What a section reports to the code around it. */
  datatype Outcome =
    | Ok
    | Got(item: Item)
    | Blocks
    | ClosedResource
    | EndOfStream
    | WouldBlock
    | TimedOut

  // ------------------------------------------------------------------
  // Building blocks
  // ------------------------------------------------------------------

  function Init(capacity: Option<nat>): State {
    State(capacity, [], 1, 1, 0, 0, 0, {}, {}, {0}, {0}, 1, 1, false, map[], [], [])
  }

  predicate Rendezvous(s: State) {
    s.capacity == Some(0)
  }

  /** `can_put`, past its check for receivers. */
  predicate CanPut(s: State) {
    if Rendezvous(s) then s.waiting > s.pending || s.buffer == []
    else s.capacity.None? || |s.buffer| < s.capacity.value
  }

  /** `can_put_nowait`, past its check for receivers. */
  predicate CanPutNowait(s: State) {
    if Rendezvous(s) then s.waiting > s.pending
    else s.capacity.None? || |s.buffer| < s.capacity.value
  }

  /** `__exit__` of the state: wake everyone once one side is gone. */
  function Leave(s: State): State {
    if s.openSend == 0 || s.openRecv == 0 then s.(notEmpty := {}, notFull := {}) else s
  }

  /** The scheduler's choice of the thread that one `notify` wakes. */
  predicate Picks(waiters: set<Thread>, pick: Thread) {
    waiters != {} ==> pick in waiters
  }

  function Append(s: State, item: Item): State {
    s.(buffer := s.buffer + [item], accepted := s.accepted + [item])
  }

  /** Appends, claims a waiting receiver if one is free (rendezvous only), and notifies. */
  function Deposit(s: State, item: Item, pick: Thread): State {
    var s1 := Append(s, item);
    var s2 := if Rendezvous(s) && s.waiting > s.pending then s1.(pending := s.pending + 1) else s1;
    s2.(notEmpty := s.notEmpty - {pick})
  }

  function Take(s: State, pick: Thread): State
    requires s.buffer != []
  {
    var s1 := s.(buffer := s.buffer[1..], delivered := s.delivered + [s.buffer[0]]);
    var s2 := if Rendezvous(s)
              then s1.(consumed := s.consumed + 1, pending := if s.pending > 0 then s.pending - 1 else s.pending)
              else s1;
    s2.(notFull := s.notFull - {pick})
  }

  function Goto(s: State, t: Thread, pc: PC): State {
    s.(pcs := s.pcs[t := pc])
  }

  function Done(s: State, t: Thread): State {
    s.(pcs := s.pcs - {t})
  }

  // ------------------------------------------------------------------
  // Sections
  // ------------------------------------------------------------------

  function OpenedSend(s: State): State {
    s.(openSend := s.openSend + 1, sends := s.sends + {s.nextSend}, nextSend := s.nextSend + 1)
  }

  function CloneSendStep(s: State, tx: End): (State, Outcome) {
    if tx !in s.sends then (Leave(s), ClosedResource)
    else (Leave(OpenedSend(s)), Ok)
  }

  function OpenedRecv(s: State): State {
    s.(openRecv := s.openRecv + 1, recvs := s.recvs + {s.nextRecv}, nextRecv := s.nextRecv + 1)
  }

  function CloneRecvStep(s: State, rx: End): (State, Outcome) {
    if rx !in s.recvs then (Leave(s), ClosedResource)
    else (Leave(OpenedRecv(s)), Ok)
  }

  function CloseSendStep(s: State, tx: End): State {
    if tx !in s.sends then Leave(s)
    else Leave(s.(openSend := s.openSend - 1, sends := s.sends - {tx}, notEmpty := {}, notFull := {}))
  }

  function CloseRecvStep(s: State, rx: End): State {
    if rx !in s.recvs then Leave(s)
    else Leave(s.(openRecv := s.openRecv - 1, recvs := s.recvs - {rx}, recvClosed := true,
                  notEmpty := {}, notFull := {}))
  }

  function PutNowaitStep(s: State, tx: End, item: Item, pick: Thread): (State, Outcome) {
    if tx !in s.sends then (Leave(s), ClosedResource)
    else if s.openRecv == 0 then (Leave(s), ClosedResource)
    else if !CanPutNowait(s) then (Leave(s), WouldBlock)
    else
      var s1 := Append(s, item);
      var s2 := if Rendezvous(s) then s1.(pending := s.pending + 1) else s1;
      (Leave(s2.(notEmpty := s.notEmpty - {pick})), Ok)
  }

  function PutStartStep(s: State, t: Thread, tx: End, item: Item): State {
    Goto(s, t, PutCheck(tx, item))
  }

  /** The item finds its place; a rendezvous goes on to phase 2 with the ticket of its own item. */
  function LandStep(s: State, t: Thread, tx: End, item: Item, pick: Thread): (State, Outcome) {
    var s1 := Deposit(s, item, pick);
    if Rendezvous(s) then (Goto(s1, t, HandCheck(tx, item, s1.consumed + |s1.buffer|)), Blocks)
    else (Done(s1, t), Ok)
  }

  /** One pass of the phase 1 loop.  `expired` says whether the deadline has passed. */
  function PutCheckStep(s: State, t: Thread, expired: bool, pick: Thread): (State, Outcome)
    requires t in s.pcs && s.pcs[t].PutCheck?
  {
    var tx, item := s.pcs[t].tx, s.pcs[t].item;
    if tx !in s.sends then (Leave(Done(s, t)), ClosedResource)
    else if s.openRecv == 0 then (Leave(Done(s, t)), ClosedResource)
    else if CanPut(s) then
      var (s1, r) := LandStep(s, t, tx, item, pick);
      (Leave(s1), r)
    else if expired then (Leave(Done(s, t)), TimedOut)
    else (Goto(s, t, PutWait(tx, item)).(notFull := s.notFull + {t}), Blocks)
  }

  /** `not_full.wait` of phase 1 returns, by notification or by timeout. */
  function PutWakeStep(s: State, t: Thread): State
    requires t in s.pcs && s.pcs[t].PutWait?
  {
    Leave(Goto(s, t, PutCheck(s.pcs[t].tx, s.pcs[t].item)).(notFull := s.notFull - {t}))
  }

  /** One pass of the phase 2 loop. */
  function HandCheckStep(s: State, t: Thread, expired: bool): (State, Outcome)
    requires t in s.pcs && s.pcs[t].HandCheck?
  {
    var tx, item, target := s.pcs[t].tx, s.pcs[t].item, s.pcs[t].target;
    if tx !in s.sends then (Leave(Done(s, t)), ClosedResource)
    else if s.consumed >= target then (Leave(Done(s, t)), Ok)
    else if s.openRecv == 0 then (Leave(Done(s, t)), Ok)
    else if expired then (Leave(Done(s, t)), TimedOut)
    else (Goto(s, t, HandWait(tx, item, target)).(notFull := s.notFull + {t}), Blocks)
  }

  function HandWakeStep(s: State, t: Thread): State
    requires t in s.pcs && s.pcs[t].HandWait?
  {
    Leave(Goto(s, t, HandCheck(s.pcs[t].tx, s.pcs[t].item, s.pcs[t].target)).(notFull := s.notFull - {t}))
  }

  function GetNowaitStep(s: State, rx: End, pick: Thread): (State, Outcome) {
    if rx !in s.recvs then (Leave(s), ClosedResource)
    else if s.buffer != [] then (Leave(Take(s, pick)), Got(s.buffer[0]))
    else if s.openSend == 0 then (Leave(s), EndOfStream)
    else (Leave(s), WouldBlock)
  }

  function GetStartStep(s: State, t: Thread, rx: End): State {
    Goto(s, t, GetCheck(rx))
  }

  /** One pass of the loop of `get`, up to `wait`. */
  function GetCheckStep(s: State, t: Thread, expired: bool, pick: Thread): (State, Outcome)
    requires t in s.pcs && s.pcs[t].GetCheck?
  {
    var rx := s.pcs[t].rx;
    if rx !in s.recvs then (Leave(Done(s, t)), ClosedResource)
    else if s.buffer != [] then (Leave(Done(Take(s, pick), t)), Got(s.buffer[0]))
    else if s.openSend == 0 then (Leave(Done(s, t)), EndOfStream)
    else if expired then (Leave(Done(s, t)), TimedOut)
    else (Goto(s, t, GetWait(rx)).(waiting := s.waiting + 1, notEmpty := s.notEmpty + {t}), Blocks)
  }

  /** `not_empty.wait` returns, by notification or by timeout. */
  function GetWakeStep(s: State, t: Thread): State
    requires t in s.pcs && s.pcs[t].GetWait?
  {
    Leave(Goto(s, t, GetCheck(s.pcs[t].rx)).(waiting := s.waiting - 1, notEmpty := s.notEmpty - {t}))
  }

  // ------------------------------------------------------------------
  // Runs
  // ------------------------------------------------------------------

  datatype Action =
    | CloneSend(tx: End)
    | CloneRecv(rx: End)
    | CloseSend(tx: End)
    | CloseRecv(rx: End)
    | PutNowait(tx: End, item: Item, pick: Thread)
    | PutStart(t: Thread, tx: End, item: Item)
    | PutPass(t: Thread, expired: bool, pick: Thread)
    | PutWake(t: Thread)
    | HandPass(t: Thread, expired: bool)
    | HandWake(t: Thread)
    | GetNowait(rx: End, pick: Thread)
    | GetStart(t: Thread, rx: End)
    | GetPass(t: Thread, expired: bool, pick: Thread)
    | GetWake(t: Thread)

  /** Ends handed to a call exist, threads are where the section starts, and `notify` picks a waiter. */
  predicate Enabled(s: State, a: Action) {
    match a
    case CloneSend(tx) => tx < s.nextSend
    case CloneRecv(rx) => rx < s.nextRecv
    case CloseSend(tx) => tx < s.nextSend
    case CloseRecv(rx) => rx < s.nextRecv
    case PutNowait(tx, _, pick) => tx < s.nextSend && Picks(s.notEmpty, pick)
    case PutStart(t, tx, _) => tx < s.nextSend && t !in s.pcs
    case PutPass(t, _, pick) => t in s.pcs && s.pcs[t].PutCheck? && Picks(s.notEmpty, pick)
    case PutWake(t) => t in s.pcs && s.pcs[t].PutWait?
    case HandPass(t, _) => t in s.pcs && s.pcs[t].HandCheck?
    case HandWake(t) => t in s.pcs && s.pcs[t].HandWait?
    case GetNowait(rx, pick) => rx < s.nextRecv && Picks(s.notFull, pick)
    case GetStart(t, rx) => rx < s.nextRecv && t !in s.pcs
    case GetPass(t, _, pick) => t in s.pcs && s.pcs[t].GetCheck? && Picks(s.notFull, pick)
    case GetWake(t) => t in s.pcs && s.pcs[t].GetWait?
  }

  function Apply(s: State, a: Action): State
    requires Enabled(s, a)
  {
    match a
    case CloneSend(tx) => CloneSendStep(s, tx).0
    case CloneRecv(rx) => CloneRecvStep(s, rx).0
    case CloseSend(tx) => CloseSendStep(s, tx)
    case CloseRecv(rx) => CloseRecvStep(s, rx)
    case PutNowait(tx, item, pick) => PutNowaitStep(s, tx, item, pick).0
    case PutStart(t, tx, item) => PutStartStep(s, t, tx, item)
    case PutPass(t, expired, pick) => PutCheckStep(s, t, expired, pick).0
    case PutWake(t) => PutWakeStep(s, t)
    case HandPass(t, expired) => HandCheckStep(s, t, expired).0
    case HandWake(t) => HandWakeStep(s, t)
    case GetNowait(rx, pick) => GetNowaitStep(s, rx, pick).0
    case GetStart(t, rx) => GetStartStep(s, t, rx)
    case GetPass(t, expired, pick) => GetCheckStep(s, t, expired, pick).0
    case GetWake(t) => GetWakeStep(s, t)
  }

  /** `run` is an interleaving: every action is enabled where it happens. */
  predicate Possible(s: State, run: seq<Action>)
    decreases |run|
  {
    run == [] || (Enabled(s, run[0]) && Possible(Apply(s, run[0]), run[1..]))
  }

  function After(s: State, run: seq<Action>): State
    requires Possible(s, run)
    decreases |run|
  {
    if run == [] then s else After(Apply(s, run[0]), run[1..])
  }

  /** The states that some interleaving of calls on a fresh channel leads to. */
  ghost predicate Reachable(s: State) {
    exists capacity: Option<nat>, run: seq<Action> ::
      Possible(Init(capacity), run) && s == After(Init(capacity), run)
  }
}
