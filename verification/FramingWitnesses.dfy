/** Responses that do not arrive, and what the client makes of them. */
module FramingWitnesses {
  import opened Wrappers
  import opened Framing
  import opened HttpClient
  import opened FramingProofs
  import opened FramingTheorems
  import opened Strings
  import Decimal

  function Coded(value: string): Response {
    Response(200, [Header("transfer-encoding", value)], "")
  }

  function Sized(value: string): Response {
    Response(200, [Header("content-length", value)], "")
  }

  function Named(value: string): Response {
    Response(200, [Header("a", value)], "")
  }

  lemma {:induction false} AfterComma(a: string, b: string)
    requires ',' !in b
    ensures LastItem(a + "," + b) == b
  {
    var s := a + "," + b;
    if b != "" {
      var front := b[..|b| - 1];
      AfterComma(a, front);
      assert s[..|s| - 1] == a + "," + front;
      assert front + [b[|b| - 1]] == b;
    }
  }

  /** What the code and the client make of one field name. */
  lemma CodingHeader(value: string)
    ensures var h := Header("transfer-encoding", value);
      && IsTransferEncoding(h) && !SaysClose(h) && (SaysChunked(h) <==> Contains(Lower(value), "chunked"))
  {
    hide Lower, Contains;
    LowerCaseStays("transfer-encoding");
  }

  lemma LengthHeader(value: string)
    ensures var h := Header("content-length", value);
      IsContentLength(h) && !IsTransferEncoding(h) && !SaysClose(h)
  {
    hide Lower, Contains;
    LowerCaseStays("content-length");
  }

  lemma PlainName(name: string, value: string)
    requires Token(name)
    ensures PlainField(Header(name, value)) <==> !HoldsCrlf(value)
  {
    hide HoldsCrlf, Token;
  }

  lemma OneHeader(h: Header)
    ensures HasClose([h]) <==> SaysClose(h)
    ensures HasFraming([h]) <==> IsTransferEncoding(h) || IsContentLength(h)
    ensures HasChunked([h]) <==> SaysChunked(h)
    ensures Trim(h.value) == h.value ==> Fields([h]) == [h]
    ensures PlainField(h) <==> PlainFields([h])
  {
    hide SaysClose, IsTransferEncoding, IsContentLength, SaysChunked, Trim, PlainField;
    assert h in [h];
  }

  lemma NoneFinal()
    ensures FinalChunked([]).None? && Lengths([]) == []
  {
  }

  lemma FinalOfOne(h: Header)
    ensures FinalChunked([h]) ==
              if !IsTransferEncoding(h) then None else Some(Lower(FinalCoding(h.value)) == "chunked")
  {
    FinalUnfolds([h]);
    NoneFinal();
    NothingFolds();
    hide Trim, Lower, FinalCoding, IsTransferEncoding, FinalChunked;
    assert [h][..0] == [];
  }

  lemma NothingFolds()
    ensures Lower("") != "chunked"
  {
  }

  lemma LengthOfOne(h: Header)
    requires IsContentLength(h) && !IsTransferEncoding(h)
    ensures Lengths([h]) == [Decimal.Number(h.value, 10)] && FinalChunked([h]).None?
  {
    FinalOfOne(h);
    NoneFinal();
    NamesAgree(h);
    hide IsTransferEncoding, IsContentLength, Named, Decimal.Number, FinalChunked;
    assert [h][1..] == [];
  }

  /** A response with one field. */
  function With(h: Header): Response {
    Response(200, [h], "")
  }

  lemma OneCodingHeader(h: Header)
    requires IsTransferEncoding(h) && !SaysClose(h) && PlainField(h) && Trim(h.value) == h.value
    requires Lower(FinalCoding(h.value)) != "chunked"
    ensures PlainHead(With(h)) && Reason(With(h)) == "OK" && UntilClose("GET", With(h))
    ensures Fields([h]) == [h] && Framed("GET", With(h)) == With(h) && !HasClose([h])
    ensures HasChunked([h]) <==> SaysChunked(h)
  {
    hide Trim, Lower, FinalCoding, HoldsCrlf, Reason, AllowsBody, HasClose, HasChunked, HasFraming, IsTransferEncoding;
    hide SaysClose, SaysChunked, Fields, PlainFields, PlainField, FinalChunked;
    OneHeader(h);
    FinalOfOne(h);
    Ok(With(h));
  }

  lemma OneLengthHeader(h: Header)
    requires IsContentLength(h) && !IsTransferEncoding(h) && !SaysClose(h) && PlainField(h) && Trim(h.value) == h.value
    ensures PlainHead(With(h)) && Reason(With(h)) == "OK" && CountedBody("GET", With(h)) && !UntilClose("GET", With(h))
    ensures Fields([h]) == [h] && Lengths([h]) == [Decimal.Number(h.value, 10)]
  {
    hide Trim, HoldsCrlf, Reason, AllowsBody, HasClose, HasFraming, IsTransferEncoding, IsContentLength;
    hide SaysClose, Fields, PlainFields, PlainField, FinalChunked, Lengths;
    OneHeader(h);
    LengthOfOne(h);
    Ok(With(h));
  }

  lemma Ok(r: Response)
    requires r.status == 200 && r.reason == ""
    ensures Reason(r) == "OK" && !HoldsCrlf(Reason(r)) && AllowsBody("GET", 200)
  {
    NoCr("OK");
  }

  lemma OneCoding(value: string)
    requires Trim(value) == value && !HoldsCrlf(value) && Lower(FinalCoding(value)) != "chunked"
    ensures PlainHead(Coded(value)) && Reason(Coded(value)) == "OK" && UntilClose("GET", Coded(value))
    ensures Fields(Coded(value).headers) == Coded(value).headers
    ensures Framed("GET", Coded(value)) == Coded(value) && !HasClose(Coded(value).headers)
    ensures HasChunked(Coded(value).headers) <==> Contains(Lower(value), "chunked")
  {
    hide Trim, Lower, FinalCoding, Contains, HoldsCrlf, Reason, UntilClose, HasClose, HasChunked, PlainHead;
    hide Framed, Fields;
    hide IsTransferEncoding, SaysClose, SaysChunked, PlainField;
    CodingHeader(value);
    PlainName("transfer-encoding", value);
    OneCodingHeader(Header("transfer-encoding", value));
  }

  // ------------------------------------------------------------------
  // Framed in chunks behind the client's back
  // ------------------------------------------------------------------

  const CHUNKED_THEN_GZIP: string := "chunked, gzip"

  lemma GzipIsFinal()
    ensures Trim(CHUNKED_THEN_GZIP) == CHUNKED_THEN_GZIP
    ensures Lower(FinalCoding(CHUNKED_THEN_GZIP)) == "gzip"
  {
    hide LastItem, Lower;
    NothingToTrim(CHUNKED_THEN_GZIP);
    AfterComma("chunked", " gzip");
    assert CHUNKED_THEN_GZIP == "chunked" + "," + " gzip";
    assert " gzip"[1..] == "gzip";
    LowerCaseStays("gzip");
    assert Trim(" gzip") == "gzip";
  }

  lemma SubstringIsFound()
    ensures Contains(Lower(CHUNKED_THEN_GZIP), "chunked")
  {
    hide Contains, Lower;
    LowerCaseStays(CHUNKED_THEN_GZIP);
    ContainsSlice(CHUNKED_THEN_GZIP, 0, 7);
    assert CHUNKED_THEN_GZIP[0..7] == "chunked";
  }

  lemma OneChunk(r: Response, data: string)
    requires Chunked("GET", r)
    ensures Tail("GET", r, [data]) == Chunk(data) + LAST_CHUNK
  {
    ChunkedPiece("GET", r, data);
    hide Chunked, Piece, Chunk;
    assert [data][..0] == [];
    assert Pieces("GET", r, [data]) == "" + Chunk(data) == Chunk(data);
  }

  lemma ChunkOfTwo()
    ensures Chunk("hi") == "2\r\nhi\r\n"
  {
    assert Decimal.Digits(2, 16) == "2";
  }

  /** A transfer coding that does not end in `chunked`: the client takes the chunk lines for the body. */
  lemma ChunkLinesAsBody()
    ensures Closes(Coded(CHUNKED_THEN_GZIP), false)
    ensures Read("GET", Message("GET", Coded(CHUNKED_THEN_GZIP), ["hi"]), true) ==
              Some(Received(200, "OK", Coded(CHUNKED_THEN_GZIP).headers, "2\r\nhi\r\n0\r\n\r\n", ""))
  {
    var r := Coded(CHUNKED_THEN_GZIP);
    hide Trim, Lower, FinalCoding, Contains, HoldsCrlf, Read, Message, Fields, PlainHead, BodyRead, Reason;
    hide Tail, FinalChunked;
    GzipIsFinal();
    SubstringIsFound();
    NoCr(CHUNKED_THEN_GZIP);
    OneCoding(CHUNKED_THEN_GZIP);
    UntilCloseIsFramed("GET", r);
    UntilCloseBack("GET", r, ["hi"], "", true);
    OneChunk(r, "hi");
    ChunkOfTwo();
    HeadBack("GET", r, ["hi"], "", true);
    assert Message("GET", r, ["hi"]) + "" == Message("GET", r, ["hi"]);
    assert Tail("GET", r, ["hi"]) + "" == "2\r\nhi\r\n0\r\n\r\n";
  }

  // ------------------------------------------------------------------
  // A body without an end
  // ------------------------------------------------------------------

  lemma GzipAlone()
    ensures Trim("gzip") == "gzip" && Lower("gzip") == "gzip" && FinalCoding("gzip") == "gzip"
    ensures !Contains("gzip", "chunked") && !HoldsCrlf("gzip")
  {
    hide LastItem, Lower;
    NothingToTrim("gzip");
    WithoutComma("gzip");
    LowerCaseStays("gzip");
    hide Contains;
    NoCr("gzip");
    TooShort("gzip", "chunked");
  }

  lemma TooShort(s: string, part: string)
    requires |s| < |part|
    ensures !Contains(s, part)
  {
  }

  /**
   `gzip` on a connection that is kept alive: the client waits for the end of the body, and takes
   whatever is sent next for a part of it.
   */
  lemma GzipNeverEnds(body: seq<string>, next: string)
    ensures !Closes(Coded("gzip"), true) && !HasChunked(Coded("gzip").headers)
    ensures Read("GET", Message("GET", Coded("gzip"), body) + next, false).None?
    ensures Read("GET", Message("GET", Coded("gzip"), body) + next, true) ==
              Some(Received(200, "OK", Coded("gzip").headers, Concat(body) + next, ""))
  {
    var r := Coded("gzip");
    GzipAlone();
    hide Trim, Lower, FinalCoding, Contains, HoldsCrlf, Read, Message, Fields, PlainHead, BodyRead, Reason;
    hide Tail, FinalChunked;
    hide HasChunked, HasClose, Concat;
    OneCoding("gzip");
    UntilCloseIsFramed("GET", r);
    UntilCloseTail("GET", r, body);
    UntilCloseBack("GET", r, body, next, true);
    UntilCloseBack("GET", r, body, next, false);
    HeadBack("GET", r, body, next, true);
    HeadBack("GET", r, body, next, false);
  }

  // ------------------------------------------------------------------
  // Content-Length
  // ------------------------------------------------------------------

  /** `value` is a length. */
  predicate IsLength(value: string, n: nat) {
    Decimal.Number(value, 10) == Some(n) && Trim(value) == value && !HoldsCrlf(value)
  }

  lemma OneLength(value: string, n: nat)
    requires IsLength(value, n)
    ensures Fields(Sized(value).headers) == Sized(value).headers && Lengths(Sized(value).headers) == [Some(n)]
    ensures PlainHead(Sized(value)) && Reason(Sized(value)) == "OK" && CountedBody("GET", Sized(value))
    ensures !UntilClose("GET", Sized(value))
  {
    hide Trim, HoldsCrlf, Reason, CountedBody, UntilClose, PlainHead, IsContentLength, IsTransferEncoding, Fields;
    hide Lengths;
    hide Decimal.Number, SaysClose, PlainField;
    LengthHeader(value);
    PlainName("content-length", value);
    OneLengthHeader(Header("content-length", value));
  }

  lemma ReadCounted(r: Response, s: string, n: nat)
    requires CountedBody("GET", r) && Lengths(Fields(r.headers)) == [Some(n)] && n <= |s|
    ensures ReadBody("GET", r.status, Fields(r.headers), s, false) == Some((s[..n], s[n..]))
  {
    hide Fields, Lengths, FinalChunked, HasFraming, AllowsBody;
  }

  /** Whatever the body is, the client takes as many bytes as Content-Length says, and eats into what is sent next. */
  lemma LengthDecides(value: string, n: nat, body: seq<string>, next: string)
    requires IsLength(value, n) && n <= |Concat(body) + next|
    ensures var s := Concat(body) + next;
      Read("GET", Message("GET", Sized(value), body) + next, false) ==
        Some(Received(200, "OK", Sized(value).headers, s[..n], s[n..]))
  {
    var r := Sized(value);
    OneLength(value, n);
    hide HoldsCrlf, Read, Message, Fields, PlainHead, Reason, CountedBody, Lengths, Tail, ReadBody, Concat, UntilClose;
    CountedTail("GET", r, body);
    HeadBack("GET", r, body, next, false);
    ReadCounted(r, Concat(body) + next, n);
  }

  lemma FiveIsFive()
    ensures IsLength("5", 5)
  {
    NothingToTrim("5");
    NoCr("5");
  }

  /** A Content-Length that is too large, by an example. */
  lemma WrongLengthEatsOn()
    ensures Read("GET", Message("GET", Sized("5"), ["hi"]) + "HTTP/1.1", false) ==
              Some(Received(200, "OK", Sized("5").headers, "hiHTT", "P/1.1"))
  {
    hide *;
    FiveIsFive();
    ConcatOne("hi");
    var s := "hi" + "HTTP/1.1";
    LengthDecides("5", 5, ["hi"], "HTTP/1.1");
    assert s[..5] == "hiHTT" && s[5..] == "P/1.1";
  }

  lemma ConcatOne(data: string)
    ensures Concat([data]) == data
  {
    assert [data][..0] == [];
    assert "" + data == data;
  }

  /** A response to HEAD may tell the length of a body it does not carry. */
  lemma HeadMayTellALength(value: string, n: nat, keepAlive: bool)
    requires IsLength(value, n)
    ensures Arrives("HEAD", Sized(value), [], keepAlive)
  {
    hide Arrives, PlainHead, FinalChunked, Lengths, Fields;
    OneLength(value, n);
    ArrivesExactlyWhen("HEAD", Sized(value), [], keepAlive);
  }

  // ------------------------------------------------------------------
  // Line breaks in a value
  // ------------------------------------------------------------------

  lemma TwoLines(a: Header, b: Header)
    ensures Lines([a, b]) == Line(a) + Line(b)
  {
    hide Line;
    assert [a, b][1..] == [b] && [b][1..] == [];
    assert Lines([b]) == Line(b) + "" == Line(b);
  }

  lemma OneLine(h: Header)
    ensures Lines([h]) == Line(h)
  {
    assert [h][1..] == [];
    assert Line(h) + "" == Line(h);
  }

  /** A CRLF in a value: the client reads two fields. */
  lemma CrlfMakesTwoFields(rest: string)
    ensures ReadFields(Lines([Header("a", "b\r\nc: d")]) + CRLF + rest)
         == Some(([Header("a", "b"), Header("c", "d")], rest))
  {
    var a, c, one := Header("a", "b"), Header("c", "d"), Header("a", "b\r\nc: d");
    assert Line(a) + Line(c) == Line(one);
    assert PlainField(a) && PlainField(c);
    NothingToTrim("b");
    NothingToTrim("d");
    hide HoldsCrlf, Trim, ReadFields, Line, PlainField;
    TwoLines(a, c);
    OneLine(one);
    ReadFieldsBack([a, c], rest);
    assert Fields([a, c]) == [a, c];
  }

  lemma ReadTwoLines(first: string, second: string, rest: string)
    requires first != "" && second != "" && !HoldsCrlf(first) && !HoldsCrlf(second)
    ensures ReadLines(first + CRLF + (second + CRLF + ("" + CRLF + rest))) == Some(([first, second], rest))
  {
    assert !HoldsCrlf("");
    hide HoldsCrlf, ReadLine;
    var last := "" + CRLF + rest;
    ReadLineBack(first, second + CRLF + last);
    ReadLineBack(second, last);
    ReadLineBack("", rest);
    assert ReadLines(last) == Some(([], rest));
    assert [second] + [] == [second] && [first] + [second] == [first, second];
  }

  lemma FoldTwo(first: string, second: string)
    requires Folds(second)
    ensures Unfold([first, second]) == [first + " " + TrimLeft(second)]
  {
    hide TrimLeft;
    assert [first, second][..1] == [first] && [first][..0] == [];
    assert Unfold([first]) == [first] && [first][..0] == [];
  }

  lemma ParseOne(name: string, value: string)
    requires Token(name) && !HoldsCrlf(value) && Trim(value) == value
    ensures ParseFields([name + ": " + value]) == Some([Header(name, value)])
  {
    var h := Header(name, value);
    hide Trim, Token, HoldsCrlf;
    FieldLineBack(h);
    hide ParseField, Folds;
    assert [FieldText(h)][1..] == [];
    assert ParseFields([]) == Some([]) && [h] + [] == [h];
  }

  /** A name that begins with white space: the client takes the field for a part of the one before. */
  lemma BlankNameFolds(rest: string)
    ensures ReadFields(Lines([Header("a", "b"), Header(" c", "d")]) + CRLF + rest)
         == Some(([Header("a", "b c: d")], rest))
  {
    var a, c := "a: b", " c: d";
    BlankLines();
    hide *;
    BlankText(rest);
    ReadTwoLines(a, c, rest);
    FoldTwo(a, c);
    ParseOne("a", "b c: d");
    assert a + " " + "c: d" == "a" + ": " + "b c: d";
    FieldsOf(Lines([Header("a", "b"), Header(" c", "d")]) + CRLF + rest);
  }

  lemma BlankLines()
    ensures !HoldsCrlf("a: b") && !HoldsCrlf(" c: d") && !HoldsCrlf("b c: d") && Token("a")
    ensures Trim("b c: d") == "b c: d" && TrimLeft(" c: d") == "c: d" && Folds(" c: d")
  {
    NoCr("a: b");
    NoCr(" c: d");
    NoCr("b c: d");
    NothingToTrim("b c: d");
    assert " c: d"[1..] == "c: d";
  }

  lemma BlankText(rest: string)
    ensures Lines([Header("a", "b"), Header(" c", "d")]) + CRLF + rest
         == "a: b" + CRLF + (" c: d" + CRLF + ("" + CRLF + rest))
  {
    TwoLines(Header("a", "b"), Header(" c", "d"));
    hide Lines;
    assert Line(Header("a", "b")) == "a: b" + CRLF && Line(Header(" c", "d")) == " c: d" + CRLF;
  }

  lemma FieldsOf(s: string)
    requires ReadLines(s).Some? && ParseFields(Unfold(ReadLines(s).value.0)).Some?
    ensures ReadFields(s) == Some((ParseFields(Unfold(ReadLines(s).value.0)).value, ReadLines(s).value.1))
  {
    hide ReadLines, ParseFields, Unfold;
  }

  /** A CR alone does no harm. */
  lemma CrAloneArrives(body: seq<string>, keepAlive: bool)
    ensures Arrives("HEAD", Named("b\rc"), body, keepAlive)
  {
    assert !HoldsCrlf("b\rc") by {
      HoldsCrlfIs("b\rc");
    }
    assert Token("a");
    NoCr("OK");
    hide HoldsCrlf;
    ArrivesExactlyWhen("HEAD", Named("b\rc"), body, keepAlive);
  }

  // ------------------------------------------------------------------
  // Odd lists and odd statuses
  // ------------------------------------------------------------------

  /** An empty element after `chunked` changes nothing: the body is framed in chunks, and read so. */
  lemma EmptyElementArrives(body: seq<string>, keepAlive: bool)
    ensures Arrives("GET", Coded("chunked,"), body, keepAlive)
  {
    ChunkedIsFinal();
    NoCr("chunked,");
    hide *;
    FinalCodingArrives("chunked,", body, keepAlive);
  }

  lemma HeadOfOne(h: Header)
    requires PlainField(h)
    ensures PlainHead(With(h))
  {
    hide PlainField, HoldsCrlf, Reason;
    Ok(With(h));
    OneHeader(h);
  }

  lemma FinalCodingHead(value: string)
    requires Trim(value) == value && !HoldsCrlf(value) && Lower(FinalCoding(value)) == "chunked"
    ensures PlainHead(Coded(value)) && FinalChunked(Fields(Coded(value).headers)) == Some(true)
  {
    assert Token("transfer-encoding");
    hide *;
    var h := Header("transfer-encoding", value);
    CodingHeader(value);
    PlainName("transfer-encoding", value);
    HeadOfOne(h);
    OneHeader(h);
    FinalOfOne(h);
  }

  lemma FinalCodingArrives(value: string, body: seq<string>, keepAlive: bool)
    requires Trim(value) == value && !HoldsCrlf(value) && Lower(FinalCoding(value)) == "chunked"
    ensures Arrives("GET", Coded(value), body, keepAlive)
  {
    FinalCodingHead(value);
    hide Fields, FinalChunked, Lengths, PlainHead, Arrives, HasFraming, Closes, AllowsBody, HasChunked;
    hide Trim, Lower, FinalCoding, HoldsCrlf;
    ArrivesExactlyWhen("GET", Coded(value), body, keepAlive);
  }

  lemma ChunkedIsFinal()
    ensures Trim("chunked,") == "chunked," && Lower(FinalCoding("chunked,")) == "chunked"
  {
    hide LastItem, Lower;
    NothingToTrim("chunked,");
    AfterComma("chunked", "");
    WithoutComma("chunked");
    NothingToTrim("chunked");
    LowerCaseStays("chunked");
    assert "chunked,"[..7] == "chunked" && "chunked" + "," + "" == "chunked,";
    assert Trim("") == "";
  }

  /** A status of fewer or more than three digits is written as it is, and no client takes the response. */
  lemma OddStatusIsRefused(request: string, status: nat, body: seq<string>, next: string, ended: bool)
    requires !ThreeDigits(status)
    ensures Read(request, Message(request, Response(status, [], "x"), body) + next, ended).None?
  {
    var r := Response(status, [], "x");
    NoCr("x");
    hide HoldsCrlf, ReadLine, ReadStatus, ReadFields, Message, StatusLine, Block;
    MessageSplits(request, r, body, next);
    StatusLineHolds(r);
    ReadLineBack(StatusLine(r), Block(request, r, body, next));
    StatusBack(r);
  }
}
