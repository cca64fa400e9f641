/** What an RFC 7230 client reads from the wire is what was sent. */
module FramingProofs {
  import opened Wrappers
  import opened Framing
  import opened HttpClient
  import opened Strings
  import Decimal

  // ------------------------------------------------------------------
  // Lines
  // ------------------------------------------------------------------

  predicate HoldsCrlf(s: string) {
    Contains(s, CRLF)
  }

  predicate CrlfAt(s: string, i: nat) {
    i + 1 < |s| && s[i] == '\r' && s[i + 1] == '\n'
  }

  lemma {:induction false} HoldsCrlfIs(s: string)
    ensures HoldsCrlf(s) <==> exists i: nat :: CrlfAt(s, i)
  {
    if |s| >= 2 {
      assert s[..2][0] == s[0] && s[..2][1] == s[1];
      if CrlfAt(s, 0) {
        assert s[..2] == CRLF;
      } else {
        HoldsCrlfIs(s[1..]);
        if i: nat :| CrlfAt(s, i) {
          assert CrlfAt(s[1..], i - 1);
        }
        if i: nat :| CrlfAt(s[1..], i) {
          assert CrlfAt(s, i + 1);
        }
      }
    }
  }

  lemma SliceHolds(s: string, a: nat, b: nat)
    requires a <= b <= |s| && HoldsCrlf(s[a..b])
    ensures HoldsCrlf(s)
  {
    hide HoldsCrlf;
    HoldsCrlfIs(s[a..b]);
    HoldsCrlfIs(s);
    var i: nat :| CrlfAt(s[a..b], i);
    assert CrlfAt(s, a + i);
  }

  lemma {:induction false} ReadLineBack(line: string, rest: string)
    requires !HoldsCrlf(line)
    ensures ReadLine(line + CRLF + rest) == Some((line, rest))
  {
    var s := line + CRLF + rest;
    if line == "" {
      assert s[..2] == CRLF && s[2..] == rest;
    } else {
      assert s[..2] != CRLF by {
        assert |line| > 1 ==> s[..2] == line[..2];
        assert |line| == 1 ==> s[1] == '\r';
      }
      assert s[1..] == line[1..] + CRLF + rest;
      ReadLineBack(line[1..], rest);
      assert [line[0]] + line[1..] == line;
    }
  }

  lemma {:induction false} ReadLineTakes(s: string)
    requires ReadLine(s).Some?
    ensures s == ReadLine(s).value.0 + CRLF + ReadLine(s).value.1 && !HoldsCrlf(ReadLine(s).value.0)
  {
    if s[..2] == CRLF {
      assert s == "" + CRLF + s[2..];
    } else {
      ReadLineTakes(s[1..]);
      var front, line := ReadLine(s[1..]).value.0, ReadLine(s).value.0;
      assert s == [s[0]] + s[1..];
      assert line[1..] == front;
      if |line| >= 2 {
        assert line[..2] == s[..2];
      }
    }
  }

  /** No CRLF arises where two texts are joined. */
  lemma JoinedHolds(a: string, sep: string, b: string)
    requires sep != "" && '\r' !in sep && '\n' !in sep
    ensures HoldsCrlf(a + sep + b) <==> HoldsCrlf(a) || HoldsCrlf(b)
  {
    hide HoldsCrlf;
    var text, n, m := a + sep + b, |a|, |a| + |sep|;
    HoldsCrlfIs(text);
    HoldsCrlfIs(a);
    HoldsCrlfIs(b);
    if i: nat :| CrlfAt(a, i) {
      assert CrlfAt(text, i);
    }
    if i: nat :| CrlfAt(b, i) {
      assert CrlfAt(text, m + i);
    }
    if i: nat :| CrlfAt(text, i) {
      assert forall k | n <= k < m :: text[k] == sep[k - n];
      if i < n {
        assert CrlfAt(a, i);
      } else {
        assert CrlfAt(b, i - m);
      }
    }
  }

  // ------------------------------------------------------------------
  // Header fields
  // ------------------------------------------------------------------

  /** A field that is read back as it is: a token for a name, and no CRLF in the value. */
  predicate PlainField(h: Header) {
    Token(h.name) && !HoldsCrlf(h.value)
  }

  predicate PlainFields(headers: seq<Header>) {
    forall i | 0 <= i < |headers| :: PlainField(headers[i])
  }

  /** The fields as a client sees them: white space around a value is not part of it. */
  function Fields(headers: seq<Header>): (r: seq<Header>)
    ensures |r| == |headers|
    ensures forall i | 0 <= i < |headers| :: r[i] == Header(headers[i].name, Trim(headers[i].value))
  {
    if headers == [] then [] else [Header(headers[0].name, Trim(headers[0].value))] + Fields(headers[1..])
  }

  function FieldText(h: Header): string {
    h.name + ": " + h.value
  }

  function FieldTexts(headers: seq<Header>): (r: seq<string>)
    ensures |r| == |headers| && forall i | 0 <= i < |headers| :: r[i] == FieldText(headers[i])
  {
    if headers == [] then [] else [FieldText(headers[0])] + FieldTexts(headers[1..])
  }

  lemma TrimSpace(v: string)
    ensures Trim(" " + v) == Trim(v)
  {
    assert (" " + v)[1..] == v;
  }

  lemma TokenIsPlain(name: string)
    requires Token(name)
    ensures !HoldsCrlf(name) && ':' !in name && !Blank(name[0])
  {
    assert forall c | TokenChar(c) :: c != '\r' && c != ':' && !Blank(c);
    assert forall c <- name :: TokenChar(c);
    NoCr(name);
  }

  lemma FieldLineBack(h: Header)
    requires PlainField(h)
    ensures var line := FieldText(h);
      && line != "" && !HoldsCrlf(line) && !Folds(line)
      && ParseField(line) == Some(Header(h.name, Trim(h.value)))
  {
    var line := FieldText(h);
    TokenIsPlain(h.name);
    hide HoldsCrlf, Trim, Token;
    JoinedHolds(h.name, ": ", h.value);
    assert line[..|h.name|] == h.name;
    assert line[0] == h.name[0];
    PositionIs(line, ':', |h.name|);
    assert line[|h.name| + 1..] == " " + h.value;
    TrimSpace(h.value);
  }

  lemma {:induction false} ReadLinesBack(headers: seq<Header>, rest: string)
    requires PlainFields(headers)
    ensures ReadLines(Lines(headers) + CRLF + rest) == Some((FieldTexts(headers), rest))
    decreases |headers|
  {
    var s := Lines(headers) + CRLF + rest;
    if headers == [] {
      assert s == "" + CRLF + rest;
      ReadLineBack("", rest);
    } else {
      var text, more := FieldText(headers[0]), Lines(headers[1..]) + CRLF + rest;
      assert PlainField(headers[0]);
      hide PlainField, HoldsCrlf, ReadLine;
      FieldLineBack(headers[0]);
      assert s == text + CRLF + more;
      ReadLineBack(text, more);
      ReadLinesBack(headers[1..], rest);
    }
  }

  lemma {:induction false} NothingToUnfold(lines: seq<string>)
    requires forall i | 0 <= i < |lines| :: !Folds(lines[i])
    ensures Unfold(lines) == lines
  {
    if lines != [] {
      NothingToUnfold(lines[..|lines| - 1]);
      assert lines == lines[..|lines| - 1] + [lines[|lines| - 1]];
    }
  }

  lemma {:induction false} ParseFieldsBack(headers: seq<Header>)
    requires PlainFields(headers)
    ensures ParseFields(FieldTexts(headers)) == Some(Fields(headers))
  {
    hide PlainField, Trim, ParseField, FieldText;
    if headers != [] {
      assert PlainField(headers[0]);
      FieldLineBack(headers[0]);
      ParseFieldsBack(headers[1..]);
      assert FieldTexts(headers)[1..] == FieldTexts(headers[1..]);
    }
  }

  lemma ReadFieldsBack(headers: seq<Header>, rest: string)
    requires PlainFields(headers)
    ensures ReadFields(Lines(headers) + CRLF + rest) == Some((Fields(headers), rest))
  {
    hide PlainField, ReadLines, ParseFields, Unfold, Folds, FieldText;
    ReadLinesBack(headers, rest);
    forall i | 0 <= i < |headers|
      ensures !Folds(FieldTexts(headers)[i])
    {
      assert PlainField(headers[i]);
      FieldLineBack(headers[i]);
    }
    NothingToUnfold(FieldTexts(headers));
    ParseFieldsBack(headers);
  }

  // ------------------------------------------------------------------
  // Fields that do not come back
  // ------------------------------------------------------------------

  predicate NoneHolds(lines: seq<string>) {
    forall i | 0 <= i < |lines| :: !HoldsCrlf(lines[i])
  }

  lemma {:induction false} LinesReadHoldNone(s: string)
    requires ReadLines(s).Some?
    ensures NoneHolds(ReadLines(s).value.0)
    decreases |s|
  {
    hide ReadLine, HoldsCrlf;
    ReadLineTakes(s);
    if ReadLine(s).value.0 != "" {
      LinesReadHoldNone(ReadLine(s).value.1);
    }
  }

  lemma {:induction false} UnfoldHoldsNone(lines: seq<string>)
    requires NoneHolds(lines)
    ensures NoneHolds(Unfold(lines))
  {
    hide HoldsCrlf, TrimLeft;
    if lines != [] {
      var front, last := Unfold(lines[..|lines| - 1]), lines[|lines| - 1];
      UnfoldHoldsNone(lines[..|lines| - 1]);
      if Folds(last) && front != [] {
        var a := TrimLeftCuts(last);
        if HoldsCrlf(TrimLeft(last)) {
          assert last[a..] == last[a..|last|];
          SliceHolds(last, a, |last|);
        }
        JoinedHolds(front[|front| - 1], " ", TrimLeft(last));
      }
    }
  }

  lemma TrimAddsNone(v: string)
    requires !HoldsCrlf(v)
    ensures !HoldsCrlf(Trim(v))
  {
    hide HoldsCrlf, Trim;
    var a, b := TrimCuts(v);
    if HoldsCrlf(v[a..b]) {
      SliceHolds(v, a, b);
    }
  }

  lemma ParsedIsPlain(line: string)
    requires !HoldsCrlf(line) && ParseField(line).Some?
    ensures PlainField(ParseField(line).value)
  {
    hide HoldsCrlf, Trim, Token;
    var value := line[Position(line, ':') + 1..];
    assert value == line[Position(line, ':') + 1..|line|];
    if HoldsCrlf(value) {
      SliceHolds(line, Position(line, ':') + 1, |line|);
    }
    TrimAddsNone(value);
  }

  lemma {:induction false} ParsedArePlain(lines: seq<string>)
    requires NoneHolds(lines) && ParseFields(lines).Some?
    ensures PlainFields(ParseFields(lines).value)
  {
    hide HoldsCrlf, ParseField, PlainField;
    if lines != [] {
      ParsedIsPlain(lines[0]);
      ParsedArePlain(lines[1..]);
    }
  }

  /** Whatever is on the wire, the fields a client reads are plain. */
  lemma FieldsReadArePlain(s: string)
    requires ReadFields(s).Some?
    ensures PlainFields(ReadFields(s).value.0)
  {
    hide ReadLines, NoneHolds, ParseFields, Unfold, PlainFields;
    LinesReadHoldNone(s);
    UnfoldHoldsNone(ReadLines(s).value.0);
    ParsedArePlain(Unfold(ReadLines(s).value.0));
  }

  lemma {:induction false} TrimLeftKeeps(v: string)
    requires HoldsCrlf(v)
    ensures HoldsCrlf(TrimLeft(v))
  {
    if Blank(v[0]) {
      assert v[..2][0] == v[0];
      TrimLeftKeeps(v[1..]);
    }
  }

  lemma {:induction false} TrimRightKeeps(v: string)
    requires HoldsCrlf(v)
    ensures HoldsCrlf(TrimRight(v))
  {
    hide HoldsCrlf;
    HoldsCrlfIs(v);
    var i: nat :| CrlfAt(v, i);
    if Blank(v[|v| - 1]) {
      var front := v[..|v| - 1];
      assert CrlfAt(front, i);
      HoldsCrlfIs(front);
      TrimRightKeeps(front);
    }
  }

  lemma TrimKeeps(v: string)
    requires HoldsCrlf(v)
    ensures HoldsCrlf(Trim(v))
  {
    TrimLeftKeeps(v);
    TrimRightKeeps(TrimLeft(v));
  }

  lemma PlainAsSeen(headers: seq<Header>)
    requires PlainFields(Fields(headers))
    ensures PlainFields(headers)
  {
    hide HoldsCrlf, Trim, Token;
    forall i | 0 <= i < |headers|
      ensures PlainField(headers[i])
    {
      assert PlainField(Fields(headers)[i]);
      if HoldsCrlf(headers[i].value) {
        TrimKeeps(headers[i].value);
      }
    }
  }

  /** The header fields come back exactly when each name is a token and no value holds a CRLF. */
  lemma FieldsComeBackExactlyWhen(headers: seq<Header>, rest: string)
    ensures ReadFields(Lines(headers) + CRLF + rest) == Some((Fields(headers), rest)) <==> PlainFields(headers)
  {
    hide PlainFields, ReadFields, Fields;
    if PlainFields(headers) {
      ReadFieldsBack(headers, rest);
    } else if ReadFields(Lines(headers) + CRLF + rest).Some? {
      FieldsReadArePlain(Lines(headers) + CRLF + rest);
      if Fields(headers) == ReadFields(Lines(headers) + CRLF + rest).value.0 {
        PlainAsSeen(headers);
      }
    }
  }

  lemma StrIsPlain(n: nat)
    ensures ' ' !in Decimal.Str(n) && '\r' !in Decimal.Str(n) && '\r' !in Decimal.Hex(n)
    ensures !HoldsCrlf(Decimal.Str(n)) && !HoldsCrlf(Decimal.Hex(n))
  {
    assert forall c <- Decimal.DIGITS[..10] :: c != ' ' && c != '\r';
    assert forall c <- Decimal.DIGITS[..16] :: c != '\r';
    NoCr(Decimal.Str(n));
    NoCr(Decimal.Hex(n));
  }

  lemma {:induction false} NoCr(s: string)
    requires '\r' !in s
    ensures !HoldsCrlf(s)
  {
    if |s| >= 2 {
      assert s[..2][0] == s[0];
      NoCr(s[1..]);
    }
  }

  predicate ThreeDigits(status: nat) {
    100 <= status <= 999
  }

  lemma StrLength(n: nat)
    ensures |Decimal.Str(n)| == 3 <==> ThreeDigits(n)
  {
    Decimal.LengthOf(n, 10);
    if n >= 10 {
      Decimal.LengthOf(n / 10, 10);
      if n >= 100 {
        Decimal.LengthOf(n / 10 / 10, 10);
      }
    }
  }

  lemma {:induction false} NumbersHoldNoSpace(s: string)
    requires Decimal.Number(s, 10).Some?
    ensures ' ' !in s
  {
    var n := |s| - 1;
    assert s == s[..n] + [s[n]];
    if n > 0 {
      NumbersHoldNoSpace(s[..n]);
    }
  }

  /** A status line comes back when the status has three digits, and is refused otherwise. */
  lemma ReadStatusBack(status: nat, reason: string)
    ensures ReadStatus("HTTP/1.1 " + Decimal.Str(status) + " " + reason) ==
              if ThreeDigits(status) then Some((status, reason)) else None
  {
    var digits := Decimal.Str(status);
    var n, line := |digits|, "HTTP/1.1 " + digits + " " + reason;
    StrLength(status);
    StrIsPlain(status);
    Decimal.NumberRoundTrip(status, 10);
    hide HoldsCrlf;
    assert line[..9] == "HTTP/1.1 " && line[9..9 + n] == digits && line[9 + n] == ' ';
    if n == 3 {
      assert line[13..] == reason;
    } else if n > 3 {
      assert line[12] == digits[3];
      assert digits[3] in digits;
    } else if |line| >= 13 {
      assert line[9..12][n] == ' ';
      if Decimal.Number(line[9..12], 10).Some? {
        NumbersHoldNoSpace(line[9..12]);
      }
    }
  }

  // ------------------------------------------------------------------
  // Bodies
  // ------------------------------------------------------------------

  lemma {:induction false} ConcatFromLeft(body: seq<string>)
    requires body != []
    ensures Concat(body) == body[0] + Concat(body[1..])
  {
    if |body| > 1 {
      ConcatFromLeft(body[..|body| - 1]);
      assert body[..|body| - 1][1..] == body[1..][..|body| - 2];
    }
  }

  lemma {:induction false} PiecesFromLeft(request: string, r: Response, body: seq<string>)
    requires body != []
    ensures Pieces(request, r, body) == Piece(request, r, body[0]) + Pieces(request, r, body[1..])
  {
    hide Piece;
    if |body| > 1 {
      PiecesFromLeft(request, r, body[..|body| - 1]);
      assert body[..|body| - 1][1..] == body[1..][..|body| - 2];
    }
  }

  lemma {:induction false} PiecesUnframed(request: string, r: Response, body: seq<string>)
    requires !Chunked(request, r)
    ensures Pieces(request, r, body) == if AllowsBody(request, r.status) then Concat(body) else ""
  {
    hide AllowsBody, Chunked;
    if body != [] {
      PiecesUnframed(request, r, body[..|body| - 1]);
    }
  }

  lemma {:induction false} PiecesFramedAreLong(request: string, r: Response, body: seq<string>)
    requires Chunked(request, r)
    ensures |Concat(body)| <= |Pieces(request, r, body)|
  {
    hide AllowsBody, Chunked;
    if body != [] {
      PiecesFramedAreLong(request, r, body[..|body| - 1]);
      ChunkedPiece(request, r, body[|body| - 1]);
    }
  }

  lemma ReadLastChunk(rest: string)
    ensures ReadChunks(LAST_CHUNK + rest) == Some(("", rest))
  {
    var s, more := LAST_CHUNK + rest, CRLF + rest;
    assert s == "0" + CRLF + more;
    ReadLineBack("0", more);
    Decimal.NumberRoundTrip(0, 16);
    assert Decimal.Digits(0, 16) == "0";
    ReadLineBack("", rest);
    assert more == "" + CRLF + rest;
  }

  lemma ReadOneChunk(data: string, rest: string)
    requires data != ""
    ensures ReadChunks(Chunk(data) + rest) ==
              var more := ReadChunks(rest);
              if more.None? then None else Some((data + more.value.0, more.value.1))
  {
    var hex, after := Decimal.Hex(|data|), data + CRLF + rest;
    StrIsPlain(|data|);
    ReadLineBack(hex, after);
    assert Chunk(data) + rest == hex + CRLF + after;
    Decimal.NumberRoundTrip(|data|, 16);
    assert after[..|data|] == data && after[|data|..|data| + 2] == CRLF && after[|data| + 2..] == rest;
  }

  /** Section 4.1 recovers the data of all chunks, and consumes exactly what was written. */
  lemma {:induction false} ReadChunksBack(request: string, r: Response, body: seq<string>, rest: string)
    requires Chunked(request, r)
    ensures ReadChunks(Pieces(request, r, body) + LAST_CHUNK + rest) == Some((Concat(body), rest))
    decreases |body|
  {
    hide ReadChunks, Chunked, AllowsBody, Piece;
    if body == [] {
      assert Pieces(request, r, body) + LAST_CHUNK + rest == LAST_CHUNK + rest;
      ReadLastChunk(rest);
    } else {
      PiecesFromLeft(request, r, body);
      ConcatFromLeft(body);
      var more := Pieces(request, r, body[1..]) + LAST_CHUNK + rest;
      assert Piece(request, r, body[0]) == Chunk(body[0]) by {
        ChunkedPiece(request, r, body[0]);
      }
      assert Pieces(request, r, body) + LAST_CHUNK + rest == Chunk(body[0]) + more;
      if body[0] == "" {
        assert Chunk(body[0]) + more == more && body[0] + Concat(body[1..]) == Concat(body[1..]);
        ReadChunksBack(request, r, body[1..], rest);
      } else {
        ReadOneChunk(body[0], more);
        ReadChunksBack(request, r, body[1..], rest);
      }
    }
  }

  lemma ChunkedPiece(request: string, r: Response, data: string)
    requires Chunked(request, r)
    ensures Piece(request, r, data) == Chunk(data)
  {
  }

  // ------------------------------------------------------------------
  // The writer and the client agree about fields and statuses
  // ------------------------------------------------------------------

  lemma FoldedIsLower(s: string)
    ensures Folded(s) == Lower(s)
  {
    forall i | 0 <= i < |s|
      ensures Folded(s)[i] == Lower(s)[i]
    {
      CharFolds(s[i]);
    }
  }

  lemma CharFolds(c: char)
    ensures FoldedChar(c) == LowerChar(c)
  {
    assert forall i | 0 <= i < 26 :: UPPER[i] as int == 'A' as int + i && LOWER[i] as int == 'a' as int + i;
    if 'A' <= c <= 'Z' {
      var i := c as int - 'A' as int;
      assert UPPER[i] == c;
      assert forall j | 0 <= j < i :: UPPER[j] != c;
      PositionIs(UPPER, c, i);
    } else {
      assert c !in UPPER[..26];
      PositionIs(UPPER, c, 26);
    }
  }

  lemma NamesAgree(h: Header)
    ensures IsTransferEncoding(h) <==> Named(h, "transfer-encoding")
    ensures IsContentLength(h) <==> Named(h, "content-length")
  {
    FoldedIsLower(h.name);
  }

  /** The writer leaves the body away exactly where a client by rule 1 of section 3.3.3 expects none. */
  lemma NoBodyAgrees(request: string, status: nat)
    ensures AllowsBody(request, status) <==> !NeverHasBody(request, status)
  {
  }

  predicate StandsAt(s: string, part: string, i: nat) {
    i + |part| <= |s| && s[i..i + |part|] == part
  }

  /** The same, whatever the case of its letters. */
  predicate MentionsAt(s: string, part: string, i: nat) {
    i + |part| <= |s| && Folded(s[i..i + |part|]) == part
  }

  ghost predicate Mentions(headers: seq<Header>, name: string, part: string) {
    exists h, i: nat :: h in headers && Named(h, name) && MentionsAt(h.value, part, i)
  }

  ghost predicate Delimited(headers: seq<Header>) {
    exists h <- headers :: Named(h, "transfer-encoding") || Named(h, "content-length")
  }

  lemma StandsFurther(s: string, part: string, i: nat)
    requires s != ""
    ensures StandsAt(s[1..], part, i) <==> StandsAt(s, part, i + 1)
  {
    if i + 1 + |part| <= |s| {
      assert s[1..][i..i + |part|] == s[i + 1..i + 1 + |part|];
    }
  }

  lemma {:induction false} ContainsIs(s: string, part: string)
    ensures Contains(s, part) <==> exists i: nat :: StandsAt(s, part, i)
  {
    if |part| <= |s| {
      assert StandsAt(s, part, 0) <==> s[..|part|] == part;
      if s != "" {
        ContainsIs(s[1..], part);
        if i: nat :| StandsAt(s, part, i) && i > 0 {
          StandsFurther(s, part, i - 1);
        }
        if i: nat :| StandsAt(s[1..], part, i) {
          StandsFurther(s, part, i);
        }
      }
    }
  }

  lemma FoldedStands(s: string, part: string, i: nat)
    ensures StandsAt(Lower(s), part, i) <==> MentionsAt(s, part, i)
  {
    if i + |part| <= |s| {
      LowerOfSlice(s, i, i + |part|);
      FoldedIsLower(s[i..i + |part|]);
    }
  }

  lemma ContainsMentions(s: string, part: string)
    ensures Contains(Lower(s), part) <==> exists i: nat :: MentionsAt(s, part, i)
  {
    ContainsIs(Lower(s), part);
    hide Contains, Lower, StandsAt, MentionsAt;
    forall i: nat
      ensures StandsAt(Lower(s), part, i) <==> MentionsAt(s, part, i)
    {
      FoldedStands(s, part, i);
    }
  }

  lemma FieldMentions(h: Header)
    ensures SaysClose(h) <==> exists i: nat :: Named(h, "connection") && MentionsAt(h.value, "close", i)
    ensures SaysChunked(h) <==> exists i: nat :: Named(h, "transfer-encoding") && MentionsAt(h.value, "chunked", i)
  {
    FoldedIsLower(h.name);
    ContainsMentions(h.value, "close");
    ContainsMentions(h.value, "chunked");
    hide Contains, Lower, Folded, MentionsAt;
  }

  /**
   What the one pass over the header fields looks for: a Connection field that mentions `close`, any
   framing field, a Transfer-Encoding that mentions `chunked`.
   */
  lemma ScanAgrees(headers: seq<Header>)
    ensures HasClose(headers) <==> Mentions(headers, "connection", "close")
    ensures HasFraming(headers) <==> Delimited(headers)
    ensures HasChunked(headers) <==> Mentions(headers, "transfer-encoding", "chunked")
  {
    hide SaysClose, SaysChunked, IsTransferEncoding, IsContentLength, Named, MentionsAt;
    forall h | h in headers
      ensures SaysClose(h) <==> exists i: nat :: Named(h, "connection") && MentionsAt(h.value, "close", i)
      ensures SaysChunked(h) <==> exists i: nat :: Named(h, "transfer-encoding") && MentionsAt(h.value, "chunked", i)
      ensures IsTransferEncoding(h) <==> Named(h, "transfer-encoding")
      ensures IsContentLength(h) <==> Named(h, "content-length")
    {
      FieldMentions(h);
      NamesAgree(h);
    }
  }

  // ------------------------------------------------------------------
  // Which framing the client sees
  // ------------------------------------------------------------------

  lemma FinalUnfolds(headers: seq<Header>)
    requires headers != []
    ensures FinalChunked(headers) ==
              var front, last := FinalChunked(headers[..|headers| - 1]), headers[|headers| - 1];
              if !IsTransferEncoding(last) then front
              else if FinalCoding(last.value) != "" then Some(Lower(FinalCoding(last.value)) == "chunked")
              else if front.Some? then front
              else Some(false)
  {
    hide IsTransferEncoding, Named, FinalCoding, Lower, Folded;
    NamesAgree(headers[|headers| - 1]);
    FoldedIsLower(FinalCoding(headers[|headers| - 1].value));
  }

  lemma {:induction false} FinalCodingExists(headers: seq<Header>)
    ensures FinalChunked(headers).None? <==> forall h <- headers :: !IsTransferEncoding(h)
  {
    hide IsTransferEncoding, Trim, Lower, FinalCoding, Named;
    if headers != [] {
      var last := headers[|headers| - 1];
      FinalUnfolds(headers);
      assert headers == headers[..|headers| - 1] + [last];
      FinalCodingExists(headers[..|headers| - 1]);
    }
  }

  lemma {:induction false} LengthsExist(headers: seq<Header>)
    ensures Lengths(headers) == [] <==> forall h <- headers :: !IsContentLength(h)
  {
    hide IsContentLength, Named;
    if headers != [] {
      NamesAgree(headers[0]);
      assert headers == [headers[0]] + headers[1..];
      LengthsExist(headers[1..]);
    }
  }

  lemma FieldsKeepNames(headers: seq<Header>)
    ensures (forall h <- headers :: !IsTransferEncoding(h)) <==> forall h <- Fields(headers) :: !IsTransferEncoding(h)
    ensures (forall h <- headers :: !IsContentLength(h)) <==> forall h <- Fields(headers) :: !IsContentLength(h)
  {
    hide Trim, Lower;
    forall i | 0 <= i < |headers|
      ensures IsTransferEncoding(headers[i]) <==> IsTransferEncoding(Fields(headers)[i])
      ensures IsContentLength(headers[i]) <==> IsContentLength(Fields(headers)[i])
    {
    }
  }

  lemma {:induction false} ContainsSlice(s: string, a: nat, b: nat)
    requires a <= b <= |s|
    ensures Contains(s, s[a..b])
  {
    if a > 0 {
      ContainsSlice(s[1..], a - 1, b - 1);
      assert s[1..][a - 1..b - 1] == s[a..b];
    }
  }

  lemma {:induction false} TrimLeftCuts(s: string) returns (a: nat)
    ensures a <= |s| && TrimLeft(s) == s[a..]
  {
    if s != "" && Blank(s[0]) {
      var k := TrimLeftCuts(s[1..]);
      a := k + 1;
    } else {
      a := 0;
    }
  }

  lemma {:induction false} TrimRightCuts(s: string) returns (b: nat)
    ensures b <= |s| && TrimRight(s) == s[..b]
  {
    if s != "" && Blank(s[|s| - 1]) {
      b := TrimRightCuts(s[..|s| - 1]);
      assert s[..|s| - 1][..b] == s[..b];
    } else {
      b := |s|;
    }
  }

  lemma TrimCuts(s: string) returns (a: nat, b: nat)
    ensures a <= b <= |s| && Trim(s) == s[a..b]
  {
    a := TrimLeftCuts(s);
    var n := TrimRightCuts(s[a..]);
    b := a + n;
  }

  lemma {:induction false} LastItemCuts(s: string) returns (a: nat)
    ensures a <= |s| && LastItem(s) == s[a..]
  {
    if s == "" || s[|s| - 1] == ',' {
      a := |s|;
    } else {
      a := LastItemCuts(s[..|s| - 1]);
      assert s[a..] == s[..|s| - 1][a..] + [s[|s| - 1]];
    }
  }

  lemma {:induction false} FinalCodingCuts(s: string) returns (a: nat, b: nat)
    ensures a <= b <= |s| && FinalCoding(s) == s[a..b]
    decreases |s|
  {
    hide Trim, LastItem;
    var item := LastItem(s);
    if Trim(item) != "" || |item| == |s| {
      var c := LastItemCuts(s);
      var d, e := TrimCuts(item);
      a, b := c + d, c + e;
      assert s[c..][d..e] == s[a..b];
    } else {
      var front := s[..|s| - |item| - 1];
      a, b := FinalCodingCuts(front);
      assert front[a..b] == s[a..b];
    }
  }

  lemma LowerOfSlice(s: string, a: nat, b: nat)
    requires a <= b <= |s|
    ensures Lower(s)[a..b] == Lower(s[a..b])
  {
    hide Lower, LowerChar;
    forall i | 0 <= i < b - a
      ensures Lower(s)[a..b][i] == Lower(s[a..b])[i]
    {
    }
  }

  lemma SliceOfSlice(s: string, a: nat, b: nat, c: nat, d: nat)
    requires a <= b <= |s| && c <= d <= b - a
    ensures s[a..b][c..d] == s[a + c..a + d]
  {
    forall k | 0 <= k < d - c
      ensures s[a..b][c..d][k] == s[a + c..a + d][k]
    {
      assert s[a..b][c + k] == s[a + c + k];
    }
  }

  /** A final coding `chunked` is found by the search for the substring. */
  lemma FinalMeansContains(value: string)
    requires Lower(FinalCoding(Trim(value))) == "chunked"
    ensures Contains(Lower(value), "chunked")
  {
    hide Trim, FinalCoding, Contains, Lower;
    var from, to := TrimCuts(value);
    var d, e := FinalCodingCuts(Trim(value));
    var a, b := from + d, from + e;
    SliceOfSlice(value, from, to, d, e);
    LowerOfSlice(value, a, b);
    ContainsSlice(Lower(value), a, b);
  }

  lemma {:induction false} FinalMeansHas(headers: seq<Header>)
    requires FinalChunked(Fields(headers)) == Some(true)
    ensures HasChunked(headers)
  {
    hide Contains, Lower, Trim, FinalCoding, Named, Folded;
    var n := |headers| - 1;
    var last := headers[n];
    FinalUnfolds(Fields(headers));
    if IsTransferEncoding(last) && FinalCoding(Trim(last.value)) != "" {
      FinalMeansContains(last.value);
      assert SaysChunked(last);
    } else {
      assert Fields(headers)[..n] == Fields(headers[..n]);
      FinalMeansHas(headers[..n]);
    }
  }

  lemma {:induction false} WithoutComma(s: string)
    requires ',' !in s
    ensures LastItem(s) == s
  {
    if s != "" {
      WithoutComma(s[..|s| - 1]);
    }
  }

  lemma LowerCaseStays(s: string)
    requires forall c <- s :: !('A' <= c <= 'Z')
    ensures Lower(s) == s
  {
    forall i | 0 <= i < |s|
      ensures Lower(s)[i] == s[i]
    {
      assert s[i] in s;
    }
  }

  lemma NothingToTrim(s: string)
    requires s != "" && !Blank(s[0]) && !Blank(s[|s| - 1])
    ensures Trim(s) == s
  {
  }

  lemma AddedFraming(headers: seq<Header>)
    ensures FinalChunked(Fields(headers + [Header("transfer-encoding", "chunked")])) == Some(true)
  {
    hide Trim, Lower, LastItem, Named, Folded;
    NothingToTrim("chunked");
    WithoutComma("chunked");
    LowerCaseStays("chunked");
    LowerCaseStays("transfer-encoding");
    var fields := Fields(headers + [Header("transfer-encoding", "chunked")]);
    assert FinalCoding("chunked") == "chunked";
    FinalUnfolds(fields);
    assert fields[|fields| - 1] == Header("transfer-encoding", "chunked");
  }
}
