/** Reading a response by sections 3 and 4.1 of RFC 7230. */
module HttpClient {
  import opened Wrappers
  import opened Framing
  import opened Strings
  import Decimal

  /** The text up to the first CRLF, and the text after it. */
  function ReadLine(s: string): (r: Option<(string, string)>)
    ensures r.Some? ==> |r.value.0| + 2 + |r.value.1| == |s|
  {
    if |s| < 2 then None
    else if s[..2] == CRLF then Some(("", s[2..]))
    else
      var rest := ReadLine(s[1..]);
      if rest.None? then None else Some(([s[0]] + rest.value.0, rest.value.1))
  }

  predicate Blank(c: char) {
    c == ' ' || c == '\t'
  }

  function TrimLeft(s: string): string {
    if s != "" && Blank(s[0]) then TrimLeft(s[1..]) else s
  }

  function TrimRight(s: string): string {
    if s != "" && Blank(s[|s| - 1]) then TrimRight(s[..|s| - 1]) else s
  }

  /** Optional white space around a field value is not part of it. */
  function Trim(s: string): string {
    TrimRight(TrimLeft(s))
  }

  /** The lines up to the empty line, and the text after that. */
  function ReadLines(s: string): Option<(seq<string>, string)>
    decreases |s|
  {
    var line := ReadLine(s);
    if line.None? then None
    else if line.value.0 == "" then Some(([], line.value.1))
    else
      var rest := ReadLines(line.value.1);
      if rest.None? then None else Some(([line.value.0] + rest.value.0, rest.value.1))
  }

  predicate Folds(line: string) {
    line != "" && Blank(line[0])
  }

  /** Section 3.2.4: a line that begins with white space goes on with the field before it. */
  function Unfold(lines: seq<string>): seq<string> {
    if lines == [] then []
    else
      var front, last := Unfold(lines[..|lines| - 1]), lines[|lines| - 1];
      if Folds(last) && front != [] then front[..|front| - 1] + [front[|front| - 1] + " " + TrimLeft(last)]
      else front + [last]
  }

  /** Section 3.2.6 */
  predicate TokenChar(c: char) {
    'a' <= c <= 'z' || 'A' <= c <= 'Z' || '0' <= c <= '9' || c in "!#$%&'*+-.^_`|~"
  }

  predicate Token(s: string) {
    s != "" && forall i | 0 <= i < |s| :: TokenChar(s[i])
  }

  /**
   Section 3.2: a field name is a token, and a colon follows it at once.  Values are taken as they
   are, control characters included.
   */
  function ParseField(line: string): Option<Header> {
    var n := Position(line, ':');
    if n == |line| || !Token(line[..n]) then None else Some(Header(line[..n], Trim(line[n + 1..])))
  }

  function ParseFields(lines: seq<string>): Option<seq<Header>> {
    if lines == [] then Some([])
    else
      var first, rest := ParseField(lines[0]), ParseFields(lines[1..]);
      if first.None? || rest.None? then None else Some([first.value] + rest.value)
  }

  /** Section 3: the header fields up to the empty line. */
  function ReadFields(s: string): Option<(seq<Header>, string)> {
    var lines := ReadLines(s);
    if lines.None? then None
    else
      var fields := ParseFields(Unfold(lines.value.0));
      if fields.None? then None else Some((fields.value, lines.value.1))
  }

  /** Section 3.1.2: the status line; a status has three digits. */
  function ReadStatus(line: string): Option<(nat, string)> {
    if |line| < 13 || line[..9] != "HTTP/1.1 " || line[12] != ' ' then None
    else
      var status := Decimal.Number(line[9..12], 10);
      if status.None? then None else Some((status.value, line[13..]))
  }

  /** Section 4.1: chunks, the last chunk, and a trailer section. */
  function ReadChunks(s: string): Option<(string, string)>
    decreases |s|
  {
    var line := ReadLine(s);
    if line.None? then None
    else
      var size, after := Decimal.Number(line.value.0, 16), line.value.1;
      if size.None? then None
      else if size.value == 0 then
        var trailer := ReadFields(after);
        if trailer.None? then None else Some(("", trailer.value.1))
      else if |after| < size.value + 2 || after[size.value..size.value + 2] != CRLF then None
      else
        var rest := ReadChunks(after[size.value + 2..]);
        if rest.None? then None else Some((after[..size.value] + rest.value.0, rest.value.1))
  }

  /** The text after the last comma. */
  function LastItem(s: string): (r: string)
    ensures |r| <= |s|
  {
    if s == "" || s[|s| - 1] == ',' then "" else LastItem(s[..|s| - 1]) + [s[|s| - 1]]
  }

  /** The last element of a list; empty elements do not count (section 7). */
  function FinalCoding(s: string): string
    decreases |s|
  {
    var item := LastItem(s);
    if Trim(item) != "" || |item| == |s| then Trim(item) else FinalCoding(s[..|s| - |item| - 1])
  }

  const UPPER: string := "ABCDEFGHIJKLMNOPQRSTUVWXYZ"
  const LOWER: string := "abcdefghijklmnopqrstuvwxyz"

  function FoldedChar(c: char): char {
    if Position(UPPER, c) < |UPPER| then LOWER[Position(UPPER, c)] else c
  }

  /** Names of fields and of codings are compared without regard to case (sections 3.2 and 4). */
  function Folded(s: string): (r: string)
    ensures |r| == |s| && forall i | 0 <= i < |s| :: r[i] == FoldedChar(s[i])
  {
    if s == "" then "" else [FoldedChar(s[0])] + Folded(s[1..])
  }

  predicate Named(h: Header, name: string) {
    Folded(h.name) == name
  }

  /** Section 3.3.1: whether `chunked` is the final transfer coding; `None` without the field. */
  function FinalChunked(headers: seq<Header>): Option<bool> {
    if headers == [] then None
    else
      var front, last := FinalChunked(headers[..|headers| - 1]), headers[|headers| - 1];
      if !Named(last, "transfer-encoding") then front
      else if FinalCoding(last.value) != "" then Some(Folded(FinalCoding(last.value)) == "chunked")
      else if front.Some? then front
      else Some(false)
  }

  function Lengths(headers: seq<Header>): seq<Option<nat>> {
    if headers == [] then []
    else if Named(headers[0], "content-length") then [Decimal.Number(headers[0].value, 10)] + Lengths(headers[1..])
    else Lengths(headers[1..])
  }

  /** Section 3.3.3, rule 1: the answer ends with the empty line, whatever its fields say. */
  predicate NeverHasBody(request: string, status: nat) {
    request == "HEAD" || status / 100 == 1 || status == 204 || status == 304
  }

  /**
   Section 3.3.3, as far as it concerns responses to anything but CONNECT.  `ended` tells whether
   the server has closed the connection after `s`; until then a body that only its end delimits is
   not complete.
   */
  function ReadBody(request: string, status: nat, headers: seq<Header>, s: string, ended: bool)
    : Option<(string, string)>
  {
    if NeverHasBody(request, status) then Some(("", s))
    else
      var chunked := FinalChunked(headers);
      var lengths := Lengths(headers);
      if chunked.Some? && chunked.value then ReadChunks(s)
      else if chunked.Some? || lengths == [] then if ended then Some((s, "")) else None
      else if exists n <- lengths :: n != lengths[0] || n.None? then None
      else if |s| < lengths[0].value then None
      else Some((s[..lengths[0].value], s[lengths[0].value..]))
  }

  datatype Received = Received(status: nat, reason: string, headers: seq<Header>, body: string, rest: string)

  /** A whole response, and what follows it on the connection. */
  function Read(request: string, s: string, ended: bool): Option<Received> {
    var line := ReadLine(s);
    if line.None? then None
    else
      var status := ReadStatus(line.value.0);
      var fields := ReadFields(line.value.1);
      if status.None? || fields.None? then None
      else
        var body := ReadBody(request, status.value.0, fields.value.0, fields.value.1, ended);
        if body.None? then None
        else Some(Received(status.value.0, status.value.1, fields.value.0, body.value.0, body.value.1))
  }

  /** The responses to one request after the other, each read from what the one before has left. */
  function ReadAll(requests: seq<string>, s: string, ended: bool): Option<seq<Received>> {
    if requests == [] then Some([])
    else
      var first := Read(requests[0], s, ended);
      if first.None? then None
      else
        var others := ReadAll(requests[1..], first.value.rest, ended);
        if others.None? then None else Some([first.value] + others.value)
  }
}
