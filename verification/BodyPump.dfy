/**
 The pump of `http/asgi.py` as a task of its own, beside the handler that reads.  Their stream holds
 nothing: a piece passes when the one sends and the other receives.
 */
module BodyPump {
  import opened RequestBody

  /** Where the pump is: receiving events, sending a piece, just sent it, watching for a disconnect, gone. */
  datatype Pump = Taking | Offering(body: string, last: bool) | Passed(last: bool) | Watching | Gone

  datatype State = State(
    origin: seq<Event>,       // everything the server will deliver
    events: seq<Event>,       // what it has not delivered yet
    pump: Pump,
    closed: bool,             // the sending end of the stream
    disconnected: bool,
    failed: bool,             // `receive` has raised inside the pump
    leftover: string,
    eof: bool,
    read: string)             // what the handler has got so far

  function Init(events: seq<Event>): State {
    State(events, events, Taking, false, false, false, "", false, "")
  }

  function TakeStep(s: State): State
    requires s.pump.Taking? && s.events != []
  {
    var s1 := s.(events := s.events[1..]);
    match s.events[0]
    case Disconnect => s1.(pump := Gone, closed := true, disconnected := true)
    case Other => s1
    case Request(body, more) =>
      if body != "" then s1.(pump := Offering(body, !more))
      else if more then s1
      else s1.(pump := Watching, closed := true)
  }

  function PassedStep(s: State): State
    requires s.pump.Passed?
  {
    if s.pump.last then s.(pump := Watching, closed := true) else s.(pump := Taking)
  }

  function WatchStep(s: State): State
    requires s.pump.Watching? && s.events != []
  {
    var s1 := s.(events := s.events[1..]);
    if s.events[0].Disconnect? then s1.(pump := Gone, disconnected := true) else s1
  }

  /** An exception ends the pump silently; the stream is closed on the way out. */
  function FailStep(s: State): State {
    s.(pump := Gone, closed := true, failed := true)
  }

  /** `receive`, when it can return: the piece, and the state after it. */
  function ReadStep(s: State, size: nat): (State, string)
    requires s.leftover != "" || s.eof || s.closed || s.pump.Offering?
  {
    if s.leftover != "" then
      var n := if |s.leftover| <= size then |s.leftover| else size;
      (s.(leftover := s.leftover[n..], read := s.read + s.leftover[..n]), s.leftover[..n])
    else if s.eof then (s, "")
    else if s.pump.Offering? then
      var n := if |s.pump.body| <= size then |s.pump.body| else size;
      (s.(pump := Passed(s.pump.last), leftover := s.pump.body[n..], read := s.read + s.pump.body[..n]),
       s.pump.body[..n])
    else (s.(eof := true), "")
  }

  datatype Action = Take | GoOn | Watch | Fail | Read(size: nat)

  predicate Enabled(s: State, a: Action) {
    match a
    case Take => s.pump.Taking? && s.events != []
    case GoOn => s.pump.Passed?
    case Watch => s.pump.Watching? && s.events != []
    case Fail => s.pump.Taking? || s.pump.Watching?
    case Read(_) => s.leftover != "" || s.eof || s.closed || s.pump.Offering?
  }

  function Apply(s: State, a: Action): State
    requires Enabled(s, a)
  {
    match a
    case Take => TakeStep(s)
    case GoOn => PassedStep(s)
    case Watch => WatchStep(s)
    case Fail => FailStep(s)
    case Read(size) => ReadStep(s, size).0
  }

  predicate Possible(s: State, run: seq<Action>)
    decreases |run|
  {
    run == [] || (Enabled(s, run[0]) && Possible(Apply(s, run[0]), run[1..]))
  }

  function After(s: State, run: seq<Action>): State
    requires Possible(s, run)
    decreases |run|
  {
    if run == [] then s else After(Apply(s, run[0]), run[1..])
  }

  // ------------------------------------------------------------------
  // What every interleaving keeps
  // ------------------------------------------------------------------

  /** What the pump has still to pass on. */
  function Coming(pump: Pump, events: seq<Event>): string {
    match pump
    case Taking => Payload(events)
    case Offering(body, last) => body + if last then "" else Payload(events)
    case Passed(last) => if last then "" else Payload(events)
    case Watching => ""
    case Gone => ""
  }

  predicate Inv(s: State) {
    && (!s.failed ==> s.read + s.leftover + Coming(s.pump, s.events) == Payload(s.origin))
    && s.read + s.leftover <= Payload(s.origin)
    && (s.failed ==> s.closed)
    && (s.closed <==> s.pump.Watching? || s.pump.Gone?)
    && (s.pump.Offering? ==> s.pump.body != "")
    && (s.eof ==> s.closed && s.leftover == "")
  }

  lemma Cut(read: string, b: string, n: nat, rest: string)
    requires n <= |b|
    ensures read + b[..n] + b[n..] + rest == read + b + rest == read + "" + (b + rest)
    ensures read + b[..n] + b[n..] == read + b
  {
    assert b == b[..n] + b[n..];
  }

  lemma ReadKeeps(s: State, size: nat)
    requires Inv(s) && Enabled(s, Read(size))
    ensures Inv(ReadStep(s, size).0)
  {
    hide Payload;
    if s.leftover != "" {
      Cut(s.read, s.leftover, if |s.leftover| <= size then |s.leftover| else size, Coming(s.pump, s.events));
      hide Coming;
    } else if !s.eof && s.pump.Offering? {
      OfferKeeps(s, size);
    }
  }

  lemma OfferKeeps(s: State, size: nat)
    requires Inv(s) && s.leftover == "" && !s.eof && s.pump.Offering?
    ensures Inv(ReadStep(s, size).0)
  {
    hide Payload;
    var b, rest := s.pump.body, if s.pump.last then "" else Payload(s.events);
    Cut(s.read, b, if |b| <= size then |b| else size, rest);
    assert !s.failed;
    PrefixOf(s.read + b, rest, Payload(s.origin));
  }

  lemma PrefixOf(a: string, b: string, c: string)
    requires a + b == c
    ensures a <= c
  {
  }

  lemma ActionKeeps(s: State, a: Action)
    requires Inv(s) && Enabled(s, a)
    ensures Inv(Apply(s, a)) && Apply(s, a).origin == s.origin
  {
    if a.Read? {
      ReadKeeps(s, a.size);
    } else if a.Take? {
      TakeKeeps(s);
    }
  }

  lemma TakeKeeps(s: State)
    requires Inv(s) && Enabled(s, Take)
    ensures Inv(TakeStep(s))
  {
    var e := s.events[0];
    if e.Request? && e.body == "" {
      assert e.body + Payload(s.events[1..]) == Payload(s.events[1..]);
    }
  }

  lemma {:induction false} RunKeeps(s: State, run: seq<Action>)
    requires Inv(s) && Possible(s, run)
    ensures Inv(After(s, run)) && After(s, run).origin == s.origin
    decreases |run|
  {
    hide Inv, Enabled, Apply;
    if run != [] {
      ActionKeeps(s, run[0]);
      RunKeeps(Apply(s, run[0]), run[1..]);
    }
  }

  /**
   However pump and handler interleave and whatever sizes are asked for: what has been read is the
   start of the body, and all of it once the handler has seen the end, unless the pump has failed.
   */
  lemma EverythingIsRead(events: seq<Event>, run: seq<Action>)
    requires Possible(Init(events), run)
    ensures var s := After(Init(events), run);
      && s.read <= Payload(events)
      && (s.eof && !s.failed ==> s.read == Payload(events))
  {
    assert "" + "" + Payload(events) == Payload(events);
    RunKeeps(Init(events), run);
    var s := After(Init(events), run);
    assert s.eof ==> s.read + s.leftover + Coming(s.pump, s.events) == s.read;
  }

  /** In every such run a piece is no longer than asked for, and empty only at the end, or if nothing was asked for. */
  lemma PiecesAreFair(events: seq<Event>, run: seq<Action>, size: nat)
    requires Possible(Init(events), run) && Enabled(After(Init(events), run), Read(size))
    ensures var (s, piece) := ReadStep(After(Init(events), run), size);
      && |piece| <= size && s.read == After(Init(events), run).read + piece
      && (piece == "" && size > 0 ==> s.eof)
  {
    assert "" + "" + Payload(events) == Payload(events);
    RunKeeps(Init(events), run);
  }

  // ------------------------------------------------------------------
  // Who knows that the client is gone
  // ------------------------------------------------------------------

  predicate Told(s: State) {
    Taken(s.origin, false, s.events, s.disconnected) && (s.disconnected ==> s.pump.Gone?)
  }

  lemma ReadTells(s: State, size: nat)
    requires Enabled(s, Read(size))
    ensures var s' := ReadStep(s, size).0;
      && s'.origin == s.origin && s'.events == s.events && s'.disconnected == s.disconnected
      && (s.pump.Gone? ==> s'.pump.Gone?)
  {
  }

  lemma EventTells(s: State)
    requires Told(s) && s.events != []
    ensures s.pump.Taking? ==> Told(TakeStep(s))
    ensures s.pump.Watching? ==> Told(WatchStep(s))
  {
    OneMoreTaken(s.origin, false, s.events, s.disconnected);
    hide Taken;
  }

  lemma ActionTells(s: State, a: Action)
    requires Told(s) && Enabled(s, a)
    ensures Told(Apply(s, a))
  {
    hide Taken, ReadStep, TakeStep, WatchStep;
    match a
    case Take => EventTells(s);
    case Watch => EventTells(s);
    case Read(size) => ReadTells(s, size);
    case GoOn =>
    case Fail =>
  }

  lemma {:induction false} RunTells(s: State, run: seq<Action>)
    requires Told(s) && Possible(s, run)
    ensures Told(After(s, run))
    decreases |run|
  {
    hide Told, Apply, Enabled;
    if run != [] {
      ActionTells(s, run[0]);
      RunTells(Apply(s, run[0]), run[1..]);
    }
  }

  /**
   In every run the flag is up exactly when a disconnect has been taken from the server, in the middle
   of the body or after it.
   */
  lemma DisconnectedExactlyWhen(events: seq<Event>, run: seq<Action>)
    requires Possible(Init(events), run)
    ensures var s := After(Init(events), run);
      && |s.events| <= |events| && (s.disconnected <==> Disconnect in events[..|events| - |s.events|])
  {
    assert "" + "" + Payload(events) == Payload(events);
    RunKeeps(Init(events), run);
    NoneTaken(events, false);
    RunTells(Init(events), run);
  }
}
