/**
 The response writer of `http/server_httptools.py`, and a client that reads by RFC 7230.  A byte
 is the character with its code.
 */
module Framing {
  import opened Wrappers
  import Decimal

  const CRLF: string := "\r\n"
  const LAST_CHUNK: string := "0\r\n\r\n"

  datatype Header = Header(name: string, value: string)

  datatype Response = Response(status: nat, headers: seq<Header>, reason: string)

  const PHRASES: map<nat, string> := map[
    100 := "Continue", 200 := "OK", 204 := "No Content", 301 := "Moved Permanently", 302 := "Found",
    304 := "Not Modified", 400 := "Bad Request", 401 := "Unauthorized", 403 := "Forbidden", 404 := "Not Found",
    405 := "Method Not Allowed", 408 := "Request Timeout", 413 := "Payload Too Large", 417 := "Expectation Failed",
    500 := "Internal Server Error", 501 := "Not Implemented", 502 := "Bad Gateway", 503 := "Service Unavailable"]

  function Reason(r: Response): string {
    if r.reason != "" then r.reason else if r.status in PHRASES then PHRASES[r.status] else ""
  }

  function LowerChar(c: char): char {
    if 'A' <= c <= 'Z' then (c as nat + 32) as char else c
  }

  /** `bytes.lower` */
  function Lower(s: string): (r: string)
    ensures |r| == |s| && forall i | 0 <= i < |s| :: r[i] == LowerChar(s[i])
  {
    if s == "" then "" else [LowerChar(s[0])] + Lower(s[1..])
  }

  /** `part in s` */
  predicate Contains(s: string, part: string) {
    |part| <= |s| && (s[..|part|] == part || Contains(s[1..], part))
  }

  // ------------------------------------------------------------------
  // Headers
  // ------------------------------------------------------------------

  function Line(h: Header): string {
    h.name + ": " + h.value + CRLF
  }

  function Lines(headers: seq<Header>): string {
    if headers == [] then "" else Line(headers[0]) + Lines(headers[1..])
  }

  /** What `_serialize_response` writes. */
  function Serialized(r: Response): string {
    "HTTP/1.1 " + Decimal.Str(r.status) + " " + Reason(r) + CRLF + Lines(r.headers) + CRLF
  }

  lemma {:induction false} OneLineMore(headers: seq<Header>, i: nat)
    requires i < |headers|
    ensures Lines(headers[..i + 1]) == Lines(headers[..i]) + Line(headers[i])
  {
    if i > 0 {
      OneLineMore(headers[1..], i - 1);
      assert headers[..i + 1][1..] == headers[1..][..i] && headers[..i][1..] == headers[1..][..i - 1];
    } else {
      assert headers[..1][1..] == [];
    }
  }

  lemma LineAdded(out: string, headers: seq<Header>, i: nat, statusLine: string)
    requires i < |headers| && out == statusLine + Lines(headers[..i])
    ensures out + headers[i].name + ": " + headers[i].value + CRLF == statusLine + Lines(headers[..i + 1])
  {
    OneLineMore(headers, i);
    hide Lines;
    var h := headers[i];
    assert out + h.name + ": " + h.value + CRLF == out + Line(h);
  }

  /** `_serialize_response` */
  method SerializeResponse(r: Response) returns (out: string)
    ensures out == Serialized(r)
  {
    assert Lines([]) == "";
    hide Lines, Reason, Decimal.Str;
    out := "HTTP/1.1 ";
    out := out + Decimal.Str(r.status);
    out := out + " ";
    out := out + Reason(r);
    out := out + CRLF;
    ghost var statusLine := out;
    for i := 0 to |r.headers|
      invariant out == statusLine + Lines(r.headers[..i])
    {
      LineAdded(out, r.headers, i, statusLine);
      out := out + r.headers[i].name;
      out := out + ": ";
      out := out + r.headers[i].value;
      out := out + CRLF;
    }
    assert r.headers[..|r.headers|] == r.headers;
    out := out + CRLF;
  }

  predicate SaysClose(h: Header) {
    Lower(h.name) == "connection" && Contains(Lower(h.value), "close")
  }

  predicate IsTransferEncoding(h: Header) {
    Lower(h.name) == "transfer-encoding"
  }

  predicate IsContentLength(h: Header) {
    Lower(h.name) == "content-length"
  }

  predicate SaysChunked(h: Header) {
    IsTransferEncoding(h) && Contains(Lower(h.value), "chunked")
  }

  predicate HasClose(headers: seq<Header>) {
    exists h <- headers :: SaysClose(h)
  }

  predicate HasFraming(headers: seq<Header>) {
    exists h <- headers :: IsTransferEncoding(h) || IsContentLength(h)
  }

  predicate HasChunked(headers: seq<Header>) {
    exists h <- headers :: SaysChunked(h)
  }

  lemma OneHeaderMore(headers: seq<Header>, h: Header)
    ensures HasClose(headers + [h]) <==> HasClose(headers) || SaysClose(h)
    ensures HasFraming(headers + [h]) <==> HasFraming(headers) || IsTransferEncoding(h) || IsContentLength(h)
    ensures HasChunked(headers + [h]) <==> HasChunked(headers) || SaysChunked(h)
  {
    hide SaysClose, IsTransferEncoding, IsContentLength, SaysChunked;
    var all := headers + [h];
    assert all[|headers|] == h;
    assert forall o :: o in all <==> o in headers || o == h;
  }

  /** `scan_response_headers` */
  method ScanResponseHeaders(headers: seq<Header>) returns (hasClose: bool, hasFraming: bool, hasChunked: bool)
    ensures hasClose == HasClose(headers) && hasFraming == HasFraming(headers) && hasChunked == HasChunked(headers)
  {
    hide Contains, Lower, HasClose, HasFraming, HasChunked;
    hasClose, hasFraming, hasChunked := false, false, false;
    NoHeaders();
    for i := 0 to |headers|
      invariant hasClose == HasClose(headers[..i])
      invariant hasFraming == HasFraming(headers[..i])
      invariant hasChunked == HasChunked(headers[..i])
    {
      var h := headers[i];
      assert headers[..i + 1] == headers[..i] + [h];
      OneHeaderMore(headers[..i], h);
      var n := Lower(h.name);
      if n == "connection" && Contains(Lower(h.value), "close") {
        hasClose := true;
      } else if n == "content-length" {
        hasFraming := true;
      } else if n == "transfer-encoding" {
        hasFraming := true;
        if Contains(Lower(h.value), "chunked") {
          hasChunked := true;
        }
      }
    }
    assert headers[..|headers|] == headers;
  }

  lemma NoHeaders()
    ensures !HasClose([]) && !HasFraming([]) && !HasChunked([])
  {
  }

  // ------------------------------------------------------------------
  // The whole message
  // ------------------------------------------------------------------

  /** `_response_allows_body` */
  predicate AllowsBody(request: string, status: nat) {
    request != "HEAD" && !(100 <= status < 200 || status in {204, 304})
  }

  /** The response that is sent: framing is added when it is missing. */
  function Framed(request: string, r: Response): Response {
    if AllowsBody(request, r.status) && !HasFraming(r.headers) then
      r.(headers := r.headers + [Header("transfer-encoding", "chunked")])
    else r
  }

  predicate Chunked(request: string, r: Response) {
    AllowsBody(request, r.status) && (!HasFraming(r.headers) || HasChunked(r.headers))
  }

  function Chunk(data: string): string {
    if data == "" then "" else Decimal.Hex(|data|) + CRLF + data + CRLF
  }

  /** What one `send` adds to the body. */
  function Piece(request: string, r: Response, data: string): string {
    if !AllowsBody(request, r.status) then "" else if Chunked(request, r) then Chunk(data) else data
  }

  function Pieces(request: string, r: Response, body: seq<string>): string {
    if body == [] then "" else Pieces(request, r, body[..|body| - 1]) + Piece(request, r, body[|body| - 1])
  }

  function Ending(request: string, r: Response): string {
    if Chunked(request, r) then LAST_CHUNK else ""
  }

  /** Whether the connection is closed after the response: `_close_after_response`. */
  predicate Closes(r: Response, keepAlive: bool) {
    HasClose(r.headers) || !keepAlive
  }

  /** A whole response on the wire: one header block, the body, the end of the body. */
  function Message(request: string, r: Response, body: seq<string>): string {
    Serialized(Framed(request, r)) + Pieces(request, r, body) + Ending(request, r)
  }

  function Concat(body: seq<string>): string {
    if body == [] then "" else Concat(body[..|body| - 1]) + body[|body| - 1]
  }
}
