/** The writing half of `_HTTPReqCtx` in `http/server_httptools.py`, over a socket that may stop anywhere. */
module HttpReqCtx {
  import opened Wrappers
  import opened Framing

  datatype SendResult = Sent(n: nat) | WouldBlock | Broken

  class ReqCtx {
    const request: string
    const keepAlive: bool
    var pending: string              // `_pending_header_bytes`; empty once flushed
    var chunked: bool
    var bodyAllowed: bool
    var closeAfterResponse: bool
    var wire: string                 // every byte the kernel took

    constructor (request: string, keepAlive: bool)
      ensures this.request == request && this.keepAlive == keepAlive
      ensures pending == "" && !chunked && bodyAllowed && !closeAfterResponse && wire == ""
    {
      this.request, this.keepAlive := request, keepAlive;
      pending, chunked, bodyAllowed, closeAfterResponse, wire := "", false, true, false, "";
    }

    /** What the response has produced so far, on the wire or about to go there. */
    ghost function Written(): string
      reads this
    {
      wire + pending
    }

    /** `sock.send`: the kernel takes any part of the data, or none. */
    method SocketSend(data: string) returns (r: SendResult)
      modifies this`wire
      ensures wire == old(wire) + (if r.Sent? && r.n <= |data| then data[..r.n] else "")
      ensures r.Sent? ==> r.n <= |data|
    {
      var broken, blocked, n := *, *, *;
      if broken {
        return Broken;
      }
      if blocked || !(0 <= n <= |data|) {
        return WouldBlock;
      }
      wire := wire + data[..n];
      r := Sent(n);
    }

    /** `sock.sendall` under a timeout. */
    method SocketSendAll(data: string) returns (ok: bool)
      modifies this`wire
      ensures old(wire) <= wire <= old(wire) + data
      ensures ok ==> wire == old(wire) + data
    {
      var n := *;
      if 0 <= n < |data| {
        wire := wire + data[..n];
        return false;
      }
      wire := wire + data;
      ok := true;
    }

    /** `_send_all`: all of the payload, or a prefix of it and an error. */
    method SendAll(payload: string) returns (ok: bool)
      modifies this`wire
      ensures old(wire) <= wire <= old(wire) + payload
      ensures ok ==> wire == old(wire) + payload
    {
      var sent := 0;
      while sent < |payload|
        invariant sent <= |payload| && wire == old(wire) + payload[..sent]
      {
        ghost var before := wire;
        var r := SocketSend(payload[sent..]);
        match r {
          case WouldBlock =>
            ok := SocketSendAll(payload[sent..]);
            Rest(old(wire), payload, sent);
            return;
          case Broken =>
            return false;
          case Sent(n) =>
            if n == 0 {
              return false;
            }
            assert payload[..sent + n] == payload[..sent] + payload[sent..][..n];
            sent := sent + n;
        }
      }
      ok := true;
    }

    static lemma Rest(wire: string, payload: string, sent: nat)
      requires sent <= |payload|
      ensures wire + payload[..sent] + payload[sent..] == wire + payload
    {
    }

    /** `start_response`: nothing is written yet; the framing is decided. */
    method StartResponse(r: Response)
      modifies this`pending, this`chunked, this`bodyAllowed, this`closeAfterResponse
      ensures pending == Serialized(Framed(request, r))
      ensures bodyAllowed == AllowsBody(request, r.status)
      ensures chunked == (old(chunked) || Chunked(request, r))
      ensures closeAfterResponse == (old(closeAfterResponse) || Closes(r, keepAlive))
    {
      hide HasClose, HasFraming, HasChunked, Serialized;
      var response := r;
      bodyAllowed := AllowsBody(request, r.status);
      var hasClose, hasFraming, hasChunked := ScanResponseHeaders(r.headers);
      if hasClose || !keepAlive {
        closeAfterResponse := true;
      }
      if bodyAllowed {
        if !hasFraming {
          response := r.(headers := r.headers + [Header("transfer-encoding", "chunked")]);
          chunked := true;
        } else if hasChunked {
          chunked := true;
        }
      }
      pending := SerializeResponse(response);
    }

    /** `start_response` with an informational response: written at once, nothing else changes. */
    method Inform(r: Response) returns (ok: bool)
      modifies this`wire
      ensures old(wire) <= wire <= old(wire) + Serialized(r)
      ensures ok ==> wire == old(wire) + Serialized(r)
    {
      var bytes := SerializeResponse(r);
      ok := SendAll(bytes);
    }

    /** What `send` adds for one chunk of data. */
    ghost function Added(data: string): string
      reads this
    {
      if !bodyAllowed then "" else if chunked then Chunk(data) else data
    }

    /** The header block, with what comes right behind it. */
    method SendPending(behind: string) returns (ok: bool)
      requires pending != ""
      modifies this`wire, this`pending
      ensures old(wire) <= wire <= old(Written()) + behind
      ensures ok ==> pending == "" && wire == old(Written()) + behind
    {
      ok := SendAll(pending + behind);
      assert old(wire) + (pending + behind) == old(Written()) + behind;
      if ok {
        pending := "";
      }
    }

    /** `send`: the header block goes out with the first chunk; an empty chunk adds nothing. */
    method Send(data: string) returns (ok: bool)
      modifies this`wire, this`pending
      ensures old(wire) <= wire <= old(Written()) + Added(data)
      ensures ok ==> pending == "" && wire == old(Written()) + Added(data)
    {
      ok := true;
      if !bodyAllowed {
        if pending != "" {
          ok := SendPending("");
        }
        return;
      }
      if data == "" && pending == "" {
        return;
      }
      var framed := if chunked && data != "" then Chunk(data) else data;
      assert framed == Added(data);
      if pending != "" {
        ok := SendPending(framed);
      } else if framed != "" {
        ok := SendAll(framed);
      }
    }

    /** `finish_response`: headers that are still buffered, and the last chunk. */
    method FinishResponse() returns (ok: bool)
      modifies this`wire, this`pending
      ensures var all := old(Written()) + (if chunked then LAST_CHUNK else "");
        && old(wire) <= wire <= all && (ok ==> pending == "" && wire == all)
    {
      var terminator := if chunked then LAST_CHUNK else "";
      ok := true;
      if pending != "" {
        ok := SendPending(terminator);
      } else if terminator != "" {
        ok := SendAll(terminator);
      }
    }

    /** `_native_stream`: the whole message, or a prefix of it when the peer or the request is gone. */
    method Stream(r: Response, chunks: seq<string>) returns (ok: bool)
      requires pending == "" && !chunked
      modifies this
      ensures old(wire) <= wire <= old(wire) + Message(request, r, chunks)
      ensures ok ==> pending == "" && wire == old(wire) + Message(request, r, chunks)
      ensures closeAfterResponse == (old(closeAfterResponse) || Closes(r, keepAlive))
    {
      hide Message, Pieces, Serialized, Framed, Chunked, AllowsBody, Chunk;
      StartResponse(r);
      ghost var head := old(wire) + Serialized(Framed(request, r));
      NoPieces(request, r, head);
      for i := 0 to |chunks|
        invariant bodyAllowed == AllowsBody(request, r.status) && chunked == Chunked(request, r)
        invariant closeAfterResponse == (old(closeAfterResponse) || Closes(r, keepAlive))
        invariant old(wire) <= wire && Written() == head + Pieces(request, r, chunks[..i])
      {
        PartOfMessage(request, r, chunks, i, old(wire));
        var cancelled := *;
        if cancelled {
          return false;
        }
        ok := Send(chunks[i]);
        OnePieceMore(request, r, chunks, i, head);
        PartOfMessage(request, r, chunks, i + 1, old(wire));
        if !ok {
          return;
        }
      }
      assert chunks[..|chunks|] == chunks;
      MessageIs(request, r, chunks, old(wire));
      ok := FinishResponse();
    }

    /** `complete`: one chunk, or none at all. */
    method Complete(r: Response, body: Option<string>) returns (ok: bool)
      requires pending == "" && !chunked
      modifies this
      ensures var message := Message(request, r, if body.Some? then [body.value] else []);
        && old(wire) <= wire <= old(wire) + message
        && (ok ==> pending == "" && wire == old(wire) + message)
      ensures closeAfterResponse == (old(closeAfterResponse) || Closes(r, keepAlive))
    {
      hide Message, Pieces, Serialized, Framed, Chunked, AllowsBody, Chunk;
      ghost var chunks := if body.Some? then [body.value] else [];
      StartResponse(r);
      ghost var head := old(wire) + Serialized(Framed(request, r));
      NoPieces(request, r, head);
      if body.Some? {
        OnePieceMore(request, r, chunks, 0, head);
        PartOfMessage(request, r, chunks, 1, old(wire));
        assert chunks[..1] == chunks && chunks[..0] == [];
        ok := Send(body.value);
        if !ok {
          return;
        }
      }
      MessageIs(request, r, chunks, old(wire));
      ok := FinishResponse();
    }
  }

  lemma NoPieces(request: string, r: Response, head: string)
    ensures Pieces(request, r, []) == "" && head + "" == head
  {
  }

  lemma OnePieceMore(request: string, r: Response, chunks: seq<string>, i: nat, head: string)
    requires i < |chunks|
    ensures Pieces(request, r, chunks[..i + 1]) == Pieces(request, r, chunks[..i]) + Piece(request, r, chunks[i])
    ensures head + Pieces(request, r, chunks[..i + 1])
         == head + Pieces(request, r, chunks[..i]) + Piece(request, r, chunks[i])
  {
    assert chunks[..i + 1][..i] == chunks[..i];
  }

  lemma MessageIs(request: string, r: Response, chunks: seq<string>, base: string)
    ensures base + Message(request, r, chunks) ==
              base + Serialized(Framed(request, r)) + Pieces(request, r, chunks) + Ending(request, r)
  {
    hide Serialized, Framed, Pieces, Ending;
  }

  /** Everything up to some chunk is a prefix of the message. */
  lemma {:induction false} PartOfMessage(request: string, r: Response, chunks: seq<string>, i: nat, base: string)
    requires i <= |chunks|
    ensures base + Serialized(Framed(request, r)) + Pieces(request, r, chunks[..i])
         <= base + Message(request, r, chunks)
    decreases |chunks| - i
  {
    hide Serialized, Framed, Piece;
    if i < |chunks| {
      PartOfMessage(request, r, chunks, i + 1, base);
      OnePieceMore(request, r, chunks, i, base + Serialized(Framed(request, r)));
    } else {
      assert chunks[..i] == chunks;
      MessageIs(request, r, chunks, base);
    }
  }
}
