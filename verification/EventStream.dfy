/**
 Server-sent events: the encoder of `openapi/sse.py`, and the parser of the HTML standard, sections
 9.2.5 and 9.2.6.  Text is not yet, or no longer, UTF-8.
 */
module EventStream {
  import opened Wrappers
  import opened Strings
  import Decimal

  datatype Event = Event(
    data: string,
    event: Option<string>,
    id: Option<string>,
    retry: Option<int>,
    comment: Option<string>)

  datatype Item = Bare(data: string) | Full(fields: Event)

  /** `s.split("\n")` */
  function Split(s: string): (r: seq<string>)
    ensures r != []
  {
    var n := Position(s, '\n');
    if n == |s| then [s] else [s[..n]] + Split(s[n + 1..])
  }

  /** `"\n".join(lines)` */
  function Join(lines: seq<string>): string {
    if lines == [] then "" else if |lines| == 1 then lines[0] else lines[0] + "\n" + Join(lines[1..])
  }

  function Prefixed(prefix: string, lines: seq<string>): (r: seq<string>)
    ensures |r| == |lines| && forall i | 0 <= i < |lines| :: r[i] == prefix + lines[i]
  {
    if lines == [] then [] else [prefix + lines[0]] + Prefixed(prefix, lines[1..])
  }

  /** `str(n)` */
  function Number(n: int): string {
    if n < 0 then "-" + Decimal.Str(-n) else Decimal.Str(n)
  }

  /** `format_data_field`, for text */
  function FormatDataField(text: string): string {
    Join(Prefixed("data: ", Split(text)))
  }

  /** The lines in front of the data. */
  function FieldLines(e: Event): seq<string> {
    (if e.comment.Some? then Prefixed(": ", Split(e.comment.value)) else [])
    + (if e.event.Some? then ["event: " + e.event.value] else [])
    + (if e.id.Some? then ["id: " + e.id.value] else [])
    + (if e.retry.Some? then ["retry: " + Number(e.retry.value)] else [])
  }

  function Encoded(item: Item): string {
    match item
    case Bare(data) => FormatDataField(data) + "\n\n"
    case Full(e) => Join(FieldLines(e) + [FormatDataField(e.data)]) + "\n\n"
  }

  function Stream(items: seq<Item>): string {
    if items == [] then "" else Encoded(items[0]) + Stream(items[1..])
  }

  /** `encode_event` */
  method EncodeEvent(item: Item) returns (out: string)
    ensures out == Encoded(item)
  {
    hide Join, Split, Number, FormatDataField, Prefixed;
    if item.Bare? {
      return FormatDataField(item.data) + "\n\n";
    }
    var e := item.fields;
    var lines: seq<string> := [];
    if e.comment.Some? {
      lines := lines + Prefixed(": ", Split(e.comment.value));
    }
    if e.event.Some? {
      lines := lines + ["event: " + e.event.value];
    }
    if e.id.Some? {
      lines := lines + ["id: " + e.id.value];
    }
    if e.retry.Some? {
      lines := lines + ["retry: " + Number(e.retry.value)];
    }
    assert lines == FieldLines(e);
    lines := lines + [FormatDataField(e.data)];
    out := Join(lines) + "\n\n";
  }

  /** `iter_events`: the pieces that are sent, one for each event. */
  method IterEvents(items: seq<Item>) returns (pieces: seq<string>)
    ensures |pieces| == |items| && forall i | 0 <= i < |items| :: pieces[i] == Encoded(items[i])
  {
    pieces := [];
    for i := 0 to |items|
      invariant |pieces| == i && forall j | 0 <= j < i :: pieces[j] == Encoded(items[j])
    {
      var piece := EncodeEvent(items[i]);
      pieces := pieces + [piece];
    }
  }

  // ------------------------------------------------------------------
  // The parser of the standard
  // ------------------------------------------------------------------

  /** The buffers of the parser, and what outlives an event: the last event id and the reconnection time. */
  datatype Parser = Parser(data: string, event: string, id: string, retry: Option<nat>)

  datatype Dispatched = Dispatched(event: string, data: string, id: string, retry: Option<nat>)

  const FRESH: Parser := Parser("", "", "", None)

  /** The first line, ended by CRLF, LF or CR, and the rest. */
  function FirstLine(s: string): Option<(string, string)> {
    if s == "" then None
    else if s[0] == '\n' then Some(("", s[1..]))
    else if s[0] == '\r' then Some(("", if |s| > 1 && s[1] == '\n' then s[2..] else s[1..]))
    else
      var rest := FirstLine(s[1..]);
      if rest.None? then None else Some(([s[0]] + rest.value.0, rest.value.1))
  }

  lemma FirstLineIsShorter(s: string)
    requires FirstLine(s).Some?
    ensures |FirstLine(s).value.1| < |s|
  {
  }

  predicate Digits(s: string) {
    s != "" && forall c <- s :: '0' <= c <= '9'
  }

  /** Processing a field. */
  function Field(p: Parser, name: string, value: string): Parser {
    if name == "event" then p.(event := value)
    else if name == "data" then p.(data := p.data + value + "\n")
    else if name == "id" then if '\0' in value then p else p.(id := value)
    else if name == "retry" then if Digits(value) then p.(retry := Decimal.Number(value, 10)) else p
    else p
  }

  /** Processing a line that is not empty. */
  function Line(p: Parser, line: string): Parser
    requires line != ""
  {
    var n := Position(line, ':');
    if n == 0 then p
    else if n == |line| then Field(p, line, "")
    else
      var value := line[n + 1..];
      Field(p, line[..n], if value != "" && value[0] == ' ' then value[1..] else value)
  }

  /** Dispatching: an empty data buffer makes no event. */
  function Dispatch(p: Parser): seq<Dispatched> {
    if p.data == "" then []
    else
      var data := if p.data[|p.data| - 1] == '\n' then p.data[..|p.data| - 1] else p.data;
      [Dispatched(if p.event == "" then "message" else p.event, data, p.id, p.retry)]
  }

  function Interpret(p: Parser, s: string): seq<Dispatched>
    decreases |s|
  {
    var line := FirstLine(s);
    if line.None? then []
    else
      FirstLineIsShorter(s);
      if line.value.0 == "" then Dispatch(p) + Interpret(p.(data := "", event := ""), line.value.1)
      else Interpret(Line(p, line.value.0), line.value.1)
  }

  /** One leading byte order mark is ignored. */
  function Decode(s: string): seq<Dispatched> {
    Interpret(FRESH, if s != "" && s[0] == '\U{FEFF}' then s[1..] else s)
  }
}
