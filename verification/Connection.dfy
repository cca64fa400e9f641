/** A connection of `http/server_httptools.py` from one request to the next, until it is closed. */
module HttpConnection {
  import opened Wrappers
  import opened Framing
  import opened HttpReqCtx

  /** What a handler hands over: a body in one piece or none (`complete`), or chunks (`stream`). */
  datatype Content = Whole(body: Option<string>) | Streamed(chunks: seq<string>)

  function Chunks(c: Content): seq<string> {
    match c
    case Whole(body) => if body.Some? then [body.value] else []
    case Streamed(chunks) => chunks
  }

  datatype Exchange = Exchange(request: string, keepAlive: bool, response: Response, content: Content)

  function Output(e: Exchange): string {
    Message(e.request, e.response, Chunks(e.content))
  }

  predicate IsLast(e: Exchange) {
    Closes(e.response, e.keepAlive)
  }

  /** Whether one of the responses ends the connection. */
  predicate Ends(exchanges: seq<Exchange>) {
    exchanges != [] && (IsLast(exchanges[0]) || Ends(exchanges[1..]))
  }

  /** The messages up to the one after which the connection is closed. */
  function Wire(exchanges: seq<Exchange>): string {
    if exchanges == [] then ""
    else Output(exchanges[0]) + if IsLast(exchanges[0]) then "" else Wire(exchanges[1..])
  }

  class HTTPConn {
    var tracked: bool      // not closed
    var wire: string       // every byte the kernel took

    constructor ()
      ensures tracked && wire == ""
    {
      tracked, wire := true, "";
    }

    /**
     One request: its handler answers, and the read loop closes the connection or goes on.  A
     response that is broken off closes it too.
     */
    method Answer(e: Exchange) returns (ok: bool)
      requires tracked
      modifies this
      ensures old(wire) <= wire <= old(wire) + Output(e)
      ensures ok ==> wire == old(wire) + Output(e)
      ensures tracked == (ok && !IsLast(e))
    {
      hide Message, Closes;
      var ctx := new ReqCtx(e.request, e.keepAlive);
      match e.content {
        case Whole(body) => ok := ctx.Complete(e.response, body);
        case Streamed(chunks) => ok := ctx.Stream(e.response, chunks);
      }
      Longer(wire, ctx.wire, Output(e));
      wire := wire + ctx.wire;
      CloseIsDecided(e);
      if !ok || ctx.closeAfterResponse || !ctx.keepAlive {
        tracked := false;
      }
    }

    /** `_loop`, as far as responses go. */
    method Loop(exchanges: seq<Exchange>) returns (ok: bool)
      requires tracked
      modifies this
      ensures old(wire) <= wire <= old(wire) + Wire(exchanges)
      ensures ok ==> wire == old(wire) + Wire(exchanges) && tracked == !Ends(exchanges)
      ensures !ok ==> !tracked
    {
      hide Output, IsLast;
      ok := true;
      var i := 0;
      assert exchanges[0..] == exchanges;
      while tracked && i < |exchanges|
        invariant i <= |exchanges| && old(wire) <= wire
        invariant ok && tracked ==>
                    && wire + Wire(exchanges[i..]) == old(wire) + Wire(exchanges)
                    && Ends(exchanges[i..]) == Ends(exchanges)
        invariant ok && !tracked ==> wire == old(wire) + Wire(exchanges) && Ends(exchanges)
        invariant !ok ==> !tracked && wire <= old(wire) + Wire(exchanges)
      {
        ghost var before := wire;
        assert exchanges[i..][1..] == exchanges[i + 1..];
        Regroup(before, Output(exchanges[i]), if IsLast(exchanges[i]) then "" else Wire(exchanges[i + 1..]));
        ok := Answer(exchanges[i]);
        i := i + 1;
      }
    }
  }

  lemma Longer(base: string, part: string, whole: string)
    requires part <= whole
    ensures base <= base + part <= base + whole
  {
  }

  lemma Regroup(a: string, b: string, c: string)
    ensures a + b + c == a + (b + c) && a + b <= a + (b + c) && a + b + "" == a + b
  {
  }

  lemma CloseIsDecided(e: Exchange)
    ensures !e.keepAlive ==> IsLast(e)
  {
  }
}
