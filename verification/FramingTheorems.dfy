/** Which responses arrive, and what arrives of the others. */
module FramingTheorems {
  import opened Wrappers
  import opened Framing
  import opened HttpClient
  import opened FramingProofs
  import Decimal

  // ------------------------------------------------------------------
  // The body
  // ------------------------------------------------------------------

  /** The body is as long as Content-Length says. */
  predicate CountedBody(request: string, r: Response) {
    && !NeverHasBody(request, r.status) && FinalChunked(Fields(r.headers)).None?
    && Lengths(Fields(r.headers)) != []
  }

  predicate TrueLengths(r: Response, body: seq<string>) {
    forall n <- Lengths(Fields(r.headers)) :: n == Some(|Concat(body)|)
  }

  /** A transfer coding without `chunked` at its end: the body ends with the connection. */
  predicate UntilClose(request: string, r: Response) {
    && !NeverHasBody(request, r.status)
    && FinalChunked(Fields(r.headers)).Some? && !FinalChunked(Fields(r.headers)).value
  }

  /** What the client should find after the header block. */
  function Expected(request: string, r: Response, body: seq<string>): string {
    if NeverHasBody(request, r.status) then "" else Concat(body)
  }

  /** What is on the wire after the header block. */
  function Tail(request: string, r: Response, body: seq<string>): string {
    Pieces(request, r, body) + Ending(request, r)
  }

  function BodyRead(request: string, r: Response, body: seq<string>, next: string, ended: bool)
    : Option<(string, string)>
  {
    ReadBody(request, r.status, Fields(Framed(request, r).headers), Tail(request, r, body) + next, ended)
  }

  lemma NoFraming(headers: seq<Header>)
    requires !HasFraming(headers)
    ensures FinalChunked(Fields(headers)).None? && Lengths(Fields(headers)) == [] && !HasChunked(headers)
  {
    FieldsKeepNames(headers);
    FinalCodingExists(Fields(headers));
    LengthsExist(Fields(headers));
    hide IsTransferEncoding;
  }

  lemma SomeFraming(headers: seq<Header>)
    requires HasFraming(headers) && FinalChunked(Fields(headers)).None?
    ensures Lengths(Fields(headers)) != []
  {
    FieldsKeepNames(headers);
    FinalCodingExists(Fields(headers));
    LengthsExist(Fields(headers));
    hide IsTransferEncoding, IsContentLength, Fields;
  }

  /** A body is counted exactly when there is framing and none of it is a transfer coding. */
  lemma CountedIs(request: string, r: Response)
    ensures CountedBody(request, r) <==>
              AllowsBody(request, r.status) && HasFraming(r.headers) && FinalChunked(Fields(r.headers)).None?
  {
    NoBodyAgrees(request, r.status);
    hide HasFraming, FinalChunked, Fields, Lengths, AllowsBody, NeverHasBody;
    if HasFraming(r.headers) {
      if FinalChunked(Fields(r.headers)).None? {
        SomeFraming(r.headers);
      }
    } else {
      NoFraming(r.headers);
    }
  }

  lemma NoBodyBack(request: string, r: Response, body: seq<string>, next: string, ended: bool)
    requires NeverHasBody(request, r.status)
    ensures BodyRead(request, r, body, next, ended) == Some(("", next))
  {
    NoBodyAgrees(request, r.status);
    PiecesUnframed(request, r, body);
    hide Fields, Pieces;
    assert Tail(request, r, body) + next == next;
  }

  lemma ChunksBack(request: string, r: Response, body: seq<string>, next: string, ended: bool)
    requires !NeverHasBody(request, r.status) && !UntilClose(request, r) && !CountedBody(request, r)
    ensures BodyRead(request, r, body, next, ended) == Some((Concat(body), next))
  {
    CountedIs(request, r);
    NoBodyAgrees(request, r.status);
    hide NeverHasBody, CountedBody;
    hide Fields, FinalChunked, Lengths, Pieces, AllowsBody, Concat, ReadChunks;
    if HasFraming(r.headers) {
      assert Framed(request, r) == r;
      FinalMeansHas(r.headers);
    } else {
      AddedFraming(r.headers);
    }
    assert Tail(request, r, body) + next == Pieces(request, r, body) + LAST_CHUNK + next;
    ReadChunksBack(request, r, body, next);
  }

  lemma UntilCloseIsFramed(request: string, r: Response)
    requires UntilClose(request, r)
    ensures HasFraming(r.headers) && Framed(request, r) == r && (Chunked(request, r) <==> HasChunked(r.headers))
  {
    NoBodyAgrees(request, r.status);
    hide NeverHasBody, AllowsBody;
    if !HasFraming(r.headers) {
      NoFraming(r.headers);
    }
  }

  /** Everything up to the end of the connection is body, and without an end there is none. */
  lemma UntilCloseBack(request: string, r: Response, body: seq<string>, next: string, ended: bool)
    requires UntilClose(request, r)
    ensures BodyRead(request, r, body, next, ended) == if ended then Some((Tail(request, r, body) + next, "")) else None
  {
    UntilCloseIsFramed(request, r);
    hide Fields, FinalChunked, Lengths, Pieces, AllowsBody, NeverHasBody;
  }

  lemma UntilCloseTail(request: string, r: Response, body: seq<string>)
    requires UntilClose(request, r)
    ensures Tail(request, r, body) == Concat(body) <==> !HasChunked(r.headers)
  {
    UntilCloseIsFramed(request, r);
    NoBodyAgrees(request, r.status);
    hide Fields, FinalChunked, Pieces, Concat, HasChunked, AllowsBody, HasFraming, NeverHasBody;
    if HasChunked(r.headers) {
      PiecesFramedAreLong(request, r, body);
    } else {
      PiecesUnframed(request, r, body);
    }
  }

  lemma CountedTail(request: string, r: Response, body: seq<string>)
    requires CountedBody(request, r)
    ensures !Chunked(request, r) && Framed(request, r) == r && Lengths(Fields(r.headers)) != []
    ensures Tail(request, r, body) == Concat(body)
  {
    CountedIs(request, r);
    NoBodyAgrees(request, r.status);
    hide IsTransferEncoding, IsContentLength, AllowsBody, FinalChunked, Fields, Lengths, Pieces, Concat, NeverHasBody;
    FieldsKeepNames(r.headers);
    FinalCodingExists(Fields(r.headers));
    LengthsExist(Fields(r.headers));
    PiecesUnframed(request, r, body);
    assert Concat(body) + "" == Concat(body);
  }

  /** A counted body comes back exactly when every Content-Length is its length. */
  lemma CountedBack(request: string, r: Response, body: seq<string>, next: string, ended: bool)
    requires CountedBody(request, r)
    ensures BodyRead(request, r, body, next, ended) == Some((Concat(body), next)) <==> TrueLengths(r, body)
  {
    CountedTail(request, r, body);
    hide AllowsBody, NeverHasBody, FinalChunked, Fields, Lengths, Concat, Tail;
    var lengths, s := Lengths(Fields(r.headers)), Concat(body) + next;
    assert lengths[0] in lengths;
    assert s[..|Concat(body)|] == Concat(body) && s[|Concat(body)|..] == next;
    if n :| n in lengths && n != Some(|Concat(body)|) && n == lengths[0] && n.Some? && n.value <= |s| {
      assert |s[..n.value]| == n.value;
    }
  }

  // ------------------------------------------------------------------
  // The header block
  // ------------------------------------------------------------------

  /** A header block that reads back: three digits, tokens for names, no CRLF in a value or the reason. */
  predicate PlainHead(r: Response) {
    ThreeDigits(r.status) && !HoldsCrlf(Reason(r)) && PlainFields(r.headers)
  }

  lemma FramedIsPlain(request: string, r: Response)
    ensures PlainFields(Framed(request, r).headers) <==> PlainFields(r.headers)
    ensures Framed(request, r).status == r.status && Reason(Framed(request, r)) == Reason(r)
  {
    hide HoldsCrlf, HasFraming, AllowsBody;
    NoCr("chunked");
    assert Token("transfer-encoding");
    assert forall i | 0 <= i < |r.headers| :: r.headers[i] == Framed(request, r).headers[i];
  }

  function StatusLine(r: Response): string {
    "HTTP/1.1 " + Decimal.Str(r.status) + " " + Reason(r)
  }

  function Block(request: string, r: Response, body: seq<string>, next: string): string {
    Lines(Framed(request, r).headers) + CRLF + (Tail(request, r, body) + next)
  }

  lemma MessageSplits(request: string, r: Response, body: seq<string>, next: string)
    ensures Message(request, r, body) + next == StatusLine(r) + CRLF + Block(request, r, body, next)
  {
    assert Framed(request, r).status == r.status && Reason(Framed(request, r)) == Reason(r);
    hide Pieces, Ending, Lines, Framed, Reason;
  }

  lemma StatusLineHolds(r: Response)
    ensures HoldsCrlf(StatusLine(r)) <==> HoldsCrlf(Reason(r))
  {
    hide HoldsCrlf, Reason;
    var line, digits := StatusLine(r), Decimal.Str(r.status);
    var n := 10 + |digits|;
    StrIsPlain(r.status);
    assert line[n..|line|] == Reason(r);
    if HoldsCrlf(Reason(r)) {
      SliceHolds(line, n, |line|);
    }
    HoldsCrlfIs(line);
    HoldsCrlfIs(Reason(r));
    forall k | 9 <= k < n - 1
      ensures line[k] != '\r'
    {
      assert line[k] == digits[k - 9] && digits[k - 9] in digits;
    }
    if i: nat :| CrlfAt(line, i) {
      assert i >= n;
      assert CrlfAt(Reason(r), i - n);
    }
  }

  /** A plain header block is read back, and the body is then read from what follows it. */
  lemma HeadBack(request: string, r: Response, body: seq<string>, next: string, ended: bool)
    requires PlainHead(r)
    ensures Read(request, Message(request, r, body) + next, ended) ==
              var b := BodyRead(request, r, body, next, ended);
              if b.None? then None
              else Some(Received(r.status, Reason(r), Fields(Framed(request, r).headers), b.value.0, b.value.1))
  {
    FramedIsPlain(request, r);
    hide *;
    var headers := Framed(request, r).headers;
    PlainIs(r);
    MessageSplits(request, r, body, next);
    StatusLineHolds(r);
    ReadLineBack(StatusLine(r), Block(request, r, body, next));
    StatusBack(r);
    BlockBack(request, r, body, next);
    ReadUnfolds(request, Message(request, r, body) + next, ended);
    BodyReadIs(request, r, body, next, ended);
  }

  lemma PlainIs(r: Response)
    requires PlainHead(r)
    ensures PlainFields(r.headers) && !HoldsCrlf(Reason(r)) && ThreeDigits(r.status)
  {
  }

  lemma StatusBack(r: Response)
    ensures ReadStatus(StatusLine(r)) == if ThreeDigits(r.status) then Some((r.status, Reason(r))) else None
  {
    ReadStatusBack(r.status, Reason(r));
  }

  lemma BlockBack(request: string, r: Response, body: seq<string>, next: string)
    requires PlainFields(Framed(request, r).headers)
    ensures ReadFields(Block(request, r, body, next)) ==
              Some((Fields(Framed(request, r).headers), Tail(request, r, body) + next))
  {
    hide Lines, Framed, Tail, ReadFields, PlainFields, Fields;
    ReadFieldsBack(Framed(request, r).headers, Tail(request, r, body) + next);
  }

  lemma BodyReadIs(request: string, r: Response, body: seq<string>, next: string, ended: bool)
    ensures BodyRead(request, r, body, next, ended) ==
              ReadBody(request, r.status, Fields(Framed(request, r).headers), Tail(request, r, body) + next, ended)
  {
  }

  lemma ReadUnfolds(request: string, s: string, ended: bool)
    requires ReadLine(s).Some? && ReadStatus(ReadLine(s).value.0).Some? && ReadFields(ReadLine(s).value.1).Some?
    ensures Read(request, s, ended) ==
              var status, fields := ReadStatus(ReadLine(s).value.0).value, ReadFields(ReadLine(s).value.1).value;
              var b := ReadBody(request, status.0, fields.0, fields.1, ended);
              if b.None? then None else Some(Received(status.0, status.1, fields.0, b.value.0, b.value.1))
  {
    hide ReadLine, ReadStatus, ReadFields, ReadBody;
  }

  // ------------------------------------------------------------------
  // Header blocks that do not come back
  // ------------------------------------------------------------------

  lemma StatusIsSlice(line: string)
    requires ReadStatus(line).Some? && !HoldsCrlf(line)
    ensures !HoldsCrlf(ReadStatus(line).value.1)
  {
    hide HoldsCrlf;
    assert line[13..] == line[13..|line|];
    if HoldsCrlf(line[13..]) {
      SliceHolds(line, 13, |line|);
    }
  }

  lemma ReadStatusAndFields(request: string, s: string, ended: bool)
    requires Read(request, s, ended).Some?
    ensures ReadLine(s).Some? && ReadStatus(ReadLine(s).value.0).Some? && ReadFields(ReadLine(s).value.1).Some?
    ensures Read(request, s, ended).value.reason == ReadStatus(ReadLine(s).value.0).value.1
    ensures Read(request, s, ended).value.headers == ReadFields(ReadLine(s).value.1).value.0
  {
    hide ReadLine, ReadStatus, ReadFields, ReadBody;
  }

  lemma BadHead(request: string, r: Response, body: seq<string>, next: string, ended: bool)
    requires !PlainHead(r)
    ensures var read := Read(request, Message(request, r, body) + next, ended);
      read.None? || read.value.reason != Reason(r) || read.value.headers != Fields(Framed(request, r).headers)
  {
    FramedIsPlain(request, r);
    hide HoldsCrlf, Reason, Framed, Read, ReadLine, ReadStatus, ReadFields, PlainFields, Message, Fields, StatusLine;
    hide ThreeDigits;
    var s, block := Message(request, r, body) + next, Block(request, r, body, next);
    MessageSplits(request, r, body, next);
    StatusLineHolds(r);
    if Read(request, s, ended).Some? {
      ReadStatusAndFields(request, s, ended);
      ReadLineTakes(s);
      StatusIsSlice(ReadLine(s).value.0);
      FieldsReadArePlain(ReadLine(s).value.1);
      if !HoldsCrlf(Reason(r)) {
        ReadLineBack(StatusLine(r), block);
        StatusBack(r);
        if !PlainFields(r.headers) && Fields(Framed(request, r).headers) == ReadFields(block).value.0 {
          PlainAsSeen(Framed(request, r).headers);
        }
      }
    }
  }

  // ------------------------------------------------------------------
  // What arrives
  // ------------------------------------------------------------------

  /** The server closes the connection after the response: a field says so, or the client has asked for it. */
  ghost predicate EndsThere(r: Response, keepAlive: bool) {
    !keepAlive || Mentions(r.headers, "connection", "close")
  }

  /** What may come after the message: the end of the connection when it is closed, else anything. */
  ghost predicate Follows(r: Response, keepAlive: bool, next: string, ended: bool) {
    EndsThere(r, keepAlive) ==> next == "" && ended
  }

  /** The fields the client should see: those of the response, and the framing field when it needs one. */
  ghost function FieldsSeen(request: string, r: Response): seq<Header> {
    Fields(r.headers) + if NeverHasBody(request, r.status) || Delimited(r.headers) then []
                        else [Header("transfer-encoding", "chunked")]
  }

  /**
   Whatever follows, a client reads back the status, the reason, the fields and the body, and is
   left with exactly what follows.
   */
  ghost predicate Arrives(request: string, r: Response, body: seq<string>, keepAlive: bool) {
    forall next, ended | Follows(r, keepAlive, next, ended) ::
      Read(request, Message(request, r, body) + next, ended)
      == Some(Received(r.status, Reason(r), FieldsSeen(request, r), Expected(request, r, body), next))
  }

  /** The conditions on the body alone. */
  ghost predicate Deliverable(request: string, r: Response, body: seq<string>, keepAlive: bool) {
    && (UntilClose(request, r) ==>
          EndsThere(r, keepAlive) && !Mentions(r.headers, "transfer-encoding", "chunked"))
    && (CountedBody(request, r) ==> TrueLengths(r, body))
  }

  /** What the writer decides is what the client goes by. */
  lemma WriterAgrees(request: string, r: Response, keepAlive: bool)
    ensures Closes(r, keepAlive) <==> EndsThere(r, keepAlive)
    ensures HasChunked(r.headers) <==> Mentions(r.headers, "transfer-encoding", "chunked")
    ensures Fields(Framed(request, r).headers) == FieldsSeen(request, r)
    ensures Framed(request, r).status == r.status && Framed(request, r).reason == r.reason
    ensures r.reason != "" ==> Reason(r) == r.reason
  {
    ScanAgrees(r.headers);
    NoBodyAgrees(request, r.status);
    NothingToTrim("chunked");
    hide HasClose, HasChunked, HasFraming, AllowsBody, NeverHasBody, Mentions, Delimited, Trim;
    var added := Header("transfer-encoding", "chunked");
    assert Fields(r.headers + [added]) == Fields(r.headers) + [added];
  }

  lemma BodyBack(request: string, r: Response, body: seq<string>, keepAlive: bool, next: string, ended: bool)
    requires Deliverable(request, r, body, keepAlive) && Follows(r, keepAlive, next, ended)
    ensures BodyRead(request, r, body, next, ended) == Some((Expected(request, r, body), next))
  {
    WriterAgrees(request, r, keepAlive);
    hide BodyRead, TrueLengths, NeverHasBody, EndsThere, HasChunked, Concat, Tail, Mentions, CountedBody, FieldsSeen;
    if NeverHasBody(request, r.status) {
      NoBodyBack(request, r, body, next, ended);
    } else if UntilClose(request, r) {
      UntilCloseBack(request, r, body, next, ended);
      UntilCloseTail(request, r, body);
      assert Tail(request, r, body) + next == Tail(request, r, body);
    } else if CountedBody(request, r) {
      CountedBack(request, r, body, next, ended);
    } else {
      ChunksBack(request, r, body, next, ended);
    }
  }

  /** Otherwise the body is misread as soon as anything but the end of the connection follows. */
  lemma BodyMissed(request: string, r: Response, body: seq<string>, keepAlive: bool, next: string, ended: bool)
    requires !Deliverable(request, r, body, keepAlive) && Follows(r, keepAlive, next, ended)
    requires EndsThere(r, keepAlive) || next != "" || !ended
    ensures BodyRead(request, r, body, next, ended) != Some((Expected(request, r, body), next))
  {
    WriterAgrees(request, r, keepAlive);
    hide BodyRead, TrueLengths, EndsThere, HasChunked, Concat, Tail, Mentions, NeverHasBody, FieldsSeen;
    if UntilClose(request, r) {
      UntilCloseTail(request, r, body);
      UntilCloseBack(request, r, body, next, ended);
      assert Tail(request, r, body) + "" == Tail(request, r, body);
    } else {
      CountedBack(request, r, body, next, ended);
    }
  }

  /**
   For every response, method and sequence of chunks: the response arrives exactly when
   - the status has three digits, each name is a token, and no value and no reason holds a CRLF;
   - a body that ends with the connection is not framed in chunks, and the connection is closed; and
   - a Content-Length that the client obeys is the length of the body.
   */
  lemma ArrivesExactlyWhen(request: string, r: Response, body: seq<string>, keepAlive: bool)
    ensures Arrives(request, r, body, keepAlive) <==> PlainHead(r) && Deliverable(request, r, body, keepAlive)
  {
    WriterAgrees(request, r, keepAlive);
    hide Read, Message, BodyRead, Fields, Framed, Reason, PlainHead, Deliverable, Expected, EndsThere, FieldsSeen;
    if !PlainHead(r) {
      BadHead(request, r, body, "", true);
      assert Follows(r, keepAlive, "", true);
    } else if !Deliverable(request, r, body, keepAlive) {
      var ended := EndsThere(r, keepAlive);
      assert Follows(r, keepAlive, "", ended);
      BodyMissed(request, r, body, keepAlive, "", ended);
      HeadBack(request, r, body, "", ended);
    } else {
      forall next, ended | Follows(r, keepAlive, next, ended)
        ensures Read(request, Message(request, r, body) + next, ended)
             == Some(Received(r.status, Reason(r), FieldsSeen(request, r), Expected(request, r, body), next))
      {
        BodyBack(request, r, body, keepAlive, next, ended);
        HeadBack(request, r, body, next, ended);
      }
    }
  }
}
