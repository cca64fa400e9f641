/**
 Request bodies over ASGI: the channel pump and the `receive` of `http/asgi.py`, and the loop of
 `http/_body.py`.  A byte is the character with its code.
 */
module RequestBody {
  const BUFFER_SIZE: nat := 64 * 1024

  /** What the ASGI server delivers; `Other` is any event of another type. */
  datatype Event = Request(body: string, more: bool) | Disconnect | Other

  predicate Final(e: Event) {
    e.Disconnect? || (e.Request? && !e.more)
  }

  /** The body the events carry, up to the first that is final. */
  function Payload(events: seq<Event>): string {
    if events == [] || events[0].Disconnect? then ""
    else if events[0].Other? then Payload(events[1..])
    else if events[0].more then events[0].body + Payload(events[1..])
    else events[0].body
  }

  predicate Ends(events: seq<Event>) {
    events != [] && (Final(events[0]) || Ends(events[1..]))
  }

  /** The first final event is the end of the body, not of the client. */
  predicate Complete(events: seq<Event>) {
    events != [] && !events[0].Disconnect? && (Final(events[0]) || Complete(events[1..]))
  }

  function Joined(pieces: seq<string>): string {
    if pieces == [] then "" else pieces[0] + Joined(pieces[1..])
  }

  /** What arrives of a client that sends `pieces`, and is gone after the first `k` unless that is all. */
  function Delivery(pieces: seq<string>, k: nat): seq<Event>
    requires k <= |pieces|
  {
    if pieces == [] then [Request("", false)]
    else if k == 0 then [Disconnect]
    else if |pieces| == 1 then [Request(pieces[0], false)]
    else [Request(pieces[0], true)] + Delivery(pieces[1..], k - 1)
  }

  lemma {:induction false} DeliveryBrings(pieces: seq<string>, k: nat)
    requires k <= |pieces|
    ensures Ends(Delivery(pieces, k)) && Payload(Delivery(pieces, k)) == Joined(pieces[..k])
    ensures Complete(Delivery(pieces, k)) <==> k == |pieces|
    decreases |pieces|
  {
    if |pieces| == 1 && k == 1 {
      assert pieces[..1] == pieces && pieces[1..] == [];
      assert Joined(pieces) == pieces[0] + "" == pieces[0];
    } else if pieces != [] && k > 0 {
      assert pieces[..k][1..] == pieces[1..][..k - 1];
      assert Delivery(pieces, k)[1..] == Delivery(pieces[1..], k - 1);
      DeliveryBrings(pieces[1..], k - 1);
    }
  }

  /**
   What arrived is complete exactly when the client was not gone before its last piece; the payload
   is all that it meant to send exactly when the missing pieces are empty.
   */
  lemma DeliveryIsComplete(pieces: seq<string>, k: nat)
    requires k <= |pieces|
    ensures Ends(Delivery(pieces, k)) && (Complete(Delivery(pieces, k)) <==> k == |pieces|)
    ensures Payload(Delivery(pieces, k)) == Joined(pieces) <==> Joined(pieces[k..]) == ""
  {
    DeliveryBrings(pieces, k);
    JoinedSplits(pieces, k);
    hide Joined, Payload, Delivery;
    var front, rest := Joined(pieces[..k]), Joined(pieces[k..]);
    assert |front + rest| == |front| + |rest|;
    assert rest == "" ==> front + rest == front;
  }

  lemma {:induction false} JoinedSplits(pieces: seq<string>, k: nat)
    requires k <= |pieces|
    ensures Joined(pieces) == Joined(pieces[..k]) + Joined(pieces[k..])
  {
    if k == 0 {
      assert pieces[k..] == pieces;
      assert "" + Joined(pieces) == Joined(pieces);
    } else {
      JoinedSplits(pieces[1..], k - 1);
      assert pieces[..k][1..] == pieces[1..][..k - 1] && pieces[1..][k - 1..] == pieces[k..];
    }
  }

  /** Nothing after the first final event matters. */
  lemma {:induction false} NothingAfterTheEnd(a: seq<Event>, b: seq<Event>)
    ensures Ends(a) ==> Payload(a + b) == Payload(a) && Ends(a + b)
    ensures !Ends(a) ==> Payload(a + b) == Payload(a) + Payload(b) && (Ends(a + b) <==> Ends(b))
  {
    if a == [] {
      assert a + b == b;
    } else {
      assert (a + b)[1..] == a[1..] + b;
      NothingAfterTheEnd(a[1..], b);
    }
  }

  /** How the server cuts a body into events does not matter. */
  lemma CutsDoNotMatter(a: seq<Event>, x: string, y: string, more: bool, b: seq<Event>)
    ensures Payload(a + [Request(x, true), Request(y, more)] + b) == Payload(a + [Request(x + y, more)] + b)
    ensures Ends(a + [Request(x, true), Request(y, more)] + b) <==> Ends(a + [Request(x + y, more)] + b)
  {
    var two, one := [Request(x, true), Request(y, more)] + b, [Request(x + y, more)] + b;
    assert a + [Request(x, true), Request(y, more)] + b == a + two;
    assert a + [Request(x + y, more)] + b == a + one;
    NothingAfterTheEnd(a, two);
    NothingAfterTheEnd(a, one);
    assert one[1..] == b && two[1..] == [Request(y, more)] + b && two[1..][1..] == b;
    assert x + (y + Payload(b)) == x + y + Payload(b);
  }

  /** Events of another type do not matter. */
  lemma OthersDoNotMatter(a: seq<Event>, b: seq<Event>)
    ensures Payload(a + [Other] + b) == Payload(a + b) && (Ends(a + [Other] + b) <==> Ends(a + b))
  {
    assert a + [Other] + b == a + ([Other] + b);
    assert ([Other] + b)[1..] == b;
    NothingAfterTheEnd(a, [Other] + b);
    NothingAfterTheEnd(a, b);
  }

  /** Events have been taken from the front, and the client is known to be gone if one of them said so. */
  predicate Taken(before: seq<Event>, wasGone: bool, events: seq<Event>, gone: bool) {
    && |events| <= |before| && before[|before| - |events|..] == events
    && (gone <==> wasGone || Disconnect in before[..|before| - |events|])
  }

  lemma NoneTaken(events: seq<Event>, gone: bool)
    ensures Taken(events, gone, events, gone)
  {
  }

  lemma OneMoreTaken(before: seq<Event>, wasGone: bool, events: seq<Event>, gone: bool)
    requires Taken(before, wasGone, events, gone) && events != []
    ensures Taken(before, wasGone, events[1..], gone || events[0] == Disconnect)
  {
    var n := |before| - |events|;
    assert before[..n + 1] == before[..n] + [events[0]] && before[n + 1..] == events[1..];
  }

  datatype Received = Chunk(data: string) | EndOfStream | Waiting

  datatype Outcome = Whole(data: string) | TooLarge(n: nat) | Blocked

  class RequestCtx {
    var events: seq<Event>       // not received yet
    var bodyDone: bool           // the pump has seen the final event
    var closed: bool             // and has closed the stream
    var disconnected: bool
    var leftover: string
    var eof: bool

    constructor (events: seq<Event>)
      ensures Valid() && this.events == events && Rest() == Payload(events)
      ensures (Ended() <==> Ends(events)) && (Completes() <==> Complete(events))
    {
      this.events := events;
      bodyDone, closed, disconnected, leftover, eof := false, false, false, "", false;
      new;
      assert "" + Payload(events) == Payload(events);
    }

    ghost predicate Valid()
      reads this
    {
      eof ==> closed && leftover == ""
    }

    /** What the handler has not read yet. */
    ghost function Rest(): string
      reads this
    {
      leftover + (if bodyDone || closed then "" else Payload(events))
    }

    /** Whether the end of the body is among the events. */
    ghost predicate Ended()
      reads this
    {
      bodyDone || closed || Ends(events)
    }

    /** Whether the body ends before the client does. */
    ghost predicate Completes()
      reads this
    {
      bodyDone || (!closed && Complete(events))
    }

    /** `_body_stream.receive()`, fed by the pump: events up to the next piece of the body. */
    method StreamReceive() returns (r: Received)
      requires Valid() && leftover == "" && !eof
      modifies this`events, this`bodyDone, this`closed, this`disconnected
      ensures Valid() && Ended() == old(Ended()) && Completes() == old(Completes())
      ensures r.Chunk? ==> r.data != "" && old(Rest()) == r.data + Rest()
      ensures r.EndOfStream? ==> closed && old(Rest()) == "" && old(Ended())
      ensures r.Waiting? ==> !Ended() && old(Rest()) == Rest() == ""
      ensures Taken(old(events), old(disconnected), events, disconnected)
    {
      NoneTaken(events, disconnected);
      hide Taken;
      while events != [] && !bodyDone && !closed
        invariant Taken(old(events), old(disconnected), events, disconnected)
        invariant Valid() && Ended() == old(Ended()) && Completes() == old(Completes()) && Rest() == old(Rest())
        decreases |events|
      {
        var e := events[0];
        OneMoreTaken(old(events), old(disconnected), events, disconnected);
        events := events[1..];
        match e {
          case Disconnect =>
            disconnected, closed := true, true;
          case Other =>
          case Request(body, more) =>
            bodyDone := !more;
            if body != "" {
              return Chunk(body);
            }
        }
      }
      if bodyDone || closed {
        closed := true;
        return EndOfStream;
      }
      r := Waiting;
    }

    /** `receive`: at most `size` bytes; empty only when there are no more, or none were asked for. */
    method Receive(size: nat) returns (r: Received)
      requires Valid()
      modifies this
      ensures Valid() && Ended() == old(Ended()) && Completes() == old(Completes()) && !r.EndOfStream?
      ensures r.Chunk? ==> |r.data| <= size && old(Rest()) == r.data + Rest()
      ensures r.Chunk? && r.data == "" ==> size == 0 || (old(Rest()) == "" && Ended() && closed)
      ensures r.Waiting? ==> !Ended() && old(Rest()) == Rest() == ""
    {
      if leftover != "" {
        if |leftover| <= size {
          r := Chunk(leftover);
          leftover := "";
          return;
        }
        r := Chunk(leftover[..size]);
        leftover := leftover[size..];
        return;
      }
      if eof {
        return Chunk("");
      }
      r := StreamReceive();
      if r.EndOfStream? {
        eof := true;
        return Chunk("");
      }
      if r.Waiting? || |r.data| <= size {
        return;
      }
      leftover := r.data[size..];
      assert r.data == r.data[..size] + r.data[size..];
      r := Chunk(r.data[..size]);
    }

    /**
     `aread_body`: the whole body; an error exactly when it is longer than the limit, raised before
     more than one buffer past the limit is held.
     */
    method ReadBody(maxSize: nat) returns (r: Outcome)
      requires Valid()
      modifies this
      ensures r.Whole? <==> old(Ended()) && |old(Rest())| <= maxSize
      ensures r.TooLarge? <==> |old(Rest())| > maxSize
      ensures r.Whole? ==> r.data == old(Rest())
      ensures r.TooLarge? ==> maxSize < r.n <= maxSize + BUFFER_SIZE && r.n <= |old(Rest())|
      ensures r.Whole? ==> (bodyDone <==> old(Completes()))
    {
      var buf := "";
      while true
        invariant Valid() && Ended() == old(Ended()) && Completes() == old(Completes())
        invariant |buf| <= maxSize && buf + Rest() == old(Rest())
        decreases |Rest()|
      {
        var chunk := Receive(BUFFER_SIZE);
        if chunk.Waiting? {
          return Blocked;
        }
        if chunk.data == "" {
          return Whole(buf);
        }
        if |buf| + |chunk.data| > maxSize {
          return TooLarge(|buf| + |chunk.data|);
        }
        buf := buf + chunk.data;
      }
    }

    /**
     Reading with any sizes, one after the other: the pieces are the body from its start, none is
     longer than asked for, and none is empty before the end unless no bytes were asked for.
     */
    method ReceiveAll(sizes: seq<nat>) returns (pieces: seq<string>)
      requires Valid()
      modifies this
      ensures Valid() && Ended() == old(Ended()) && Completes() == old(Completes())
      ensures |pieces| <= |sizes| && Joined(pieces) + Rest() == old(Rest())
      ensures |pieces| < |sizes| ==> !Ended() && Rest() == ""
      ensures forall i | 0 <= i < |pieces| :: |pieces[i]| <= sizes[i]
      ensures forall i | 0 <= i < |pieces| && pieces[i] == "" && sizes[i] > 0 ::
                Joined(pieces[..i]) == old(Rest()) && old(Ended())
    {
      pieces := [];
      for i := 0 to |sizes|
        invariant Valid() && Ended() == old(Ended()) && Completes() == old(Completes())
        invariant |pieces| == i && Joined(pieces) + Rest() == old(Rest())
        invariant forall j | 0 <= j < i :: |pieces[j]| <= sizes[j]
        invariant forall j | 0 <= j < i && pieces[j] == "" && sizes[j] > 0 ::
                    Joined(pieces[..j]) == old(Rest()) && old(Ended())
      {
        var r := Receive(sizes[i]);
        if r.Waiting? {
          return;
        }
        var longer := pieces + [r.data];
        JoinedSplits(longer, i);
        assert longer[..i] == pieces && longer[i..] == [r.data];
        assert Joined([r.data]) == r.data + "";
        assert forall j | 0 <= j < i :: longer[..j] == pieces[..j];
        pieces := longer;
      }
    }
  }

  /** A client gone in the middle of its body: what had arrived is taken for the whole. */
  method CutOffLooksWhole() returns (r: Outcome, bodyDone: bool)
    ensures r == Whole("ab") && !bodyDone
  {
    var events := [Request("ab", true), Disconnect];
    var ctx := new RequestCtx(events);
    assert events[1..] == [Disconnect];
    assert Payload(events) == "ab" + "";
    r := ctx.ReadBody(10);
    bodyDone := ctx.bodyDone;
  }
}
