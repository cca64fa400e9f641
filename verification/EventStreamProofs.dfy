/** The parser reads back what the encoder wrote. */
module EventStreamProofs {
  import opened Wrappers
  import opened EventStream
  import opened Strings
  import Decimal

  // ------------------------------------------------------------------
  // Lines
  // ------------------------------------------------------------------

  predicate OneLine(s: string) {
    '\n' !in s && '\r' !in s
  }

  lemma {:induction false} FirstLineBack(line: string, rest: string)
    requires OneLine(line)
    ensures FirstLine(line + "\n" + rest) == Some((line, rest))
  {
    var s := line + "\n" + rest;
    if line != "" {
      assert s[1..] == line[1..] + "\n" + rest;
      FirstLineBack(line[1..], rest);
      assert [line[0]] + line[1..] == line;
    } else {
      assert s == ['\n'] + rest;
    }
  }

  function Unlines(lines: seq<string>): string {
    if lines == [] then "" else lines[0] + "\n" + Unlines(lines[1..])
  }

  lemma {:induction false} JoinIsUnlines(lines: seq<string>)
    requires lines != []
    ensures Join(lines) + "\n" == Unlines(lines)
  {
    if |lines| > 1 {
      JoinIsUnlines(lines[1..]);
    } else {
      assert lines[1..] == [];
    }
  }

  lemma {:induction false} UnlinesConcat(a: seq<string>, b: seq<string>)
    ensures Unlines(a + b) == Unlines(a) + Unlines(b)
  {
    if a == [] {
      assert a + b == b;
    } else {
      assert (a + b)[1..] == a[1..] + b;
      UnlinesConcat(a[1..], b);
    }
  }

  predicate NonEmpty(lines: seq<string>) {
    forall i | 0 <= i < |lines| :: lines[i] != ""
  }

  predicate PlainLines(lines: seq<string>) {
    forall i | 0 <= i < |lines| :: lines[i] != "" && OneLine(lines[i])
  }

  function After(p: Parser, lines: seq<string>): Parser
    requires NonEmpty(lines)
    decreases |lines|
  {
    if lines == [] then p else After(Line(p, lines[0]), lines[1..])
  }

  lemma {:induction false} AfterConcat(p: Parser, a: seq<string>, b: seq<string>)
    requires NonEmpty(a) && NonEmpty(b)
    ensures NonEmpty(a + b) && After(p, a + b) == After(After(p, a), b)
    decreases |a|
  {
    hide Line;
    if a == [] {
      assert a + b == b;
    } else {
      assert (a + b)[1..] == a[1..] + b;
      AfterConcat(Line(p, a[0]), a[1..], b);
    }
  }

  lemma {:induction false} InterpretLines(p: Parser, lines: seq<string>, rest: string)
    requires PlainLines(lines)
    ensures NonEmpty(lines) && Interpret(p, Unlines(lines) + rest) == Interpret(After(p, lines), rest)
    decreases |lines|
  {
    hide Line, FirstLine, Dispatch;
    if lines == [] {
      assert Unlines(lines) + rest == rest;
    } else {
      var more := Unlines(lines[1..]) + rest;
      assert Unlines(lines) + rest == lines[0] + "\n" + more;
      FirstLineBack(lines[0], more);
      InterpretLines(Line(p, lines[0]), lines[1..], rest);
    }
  }

  lemma InterpretBlank(p: Parser, rest: string)
    ensures Interpret(p, "\n" + rest) == Dispatch(p) + Interpret(p.(data := "", event := ""), rest)
  {
    FirstLineBack("", rest);
    assert "" + "\n" + rest == "\n" + rest;
  }

  // ------------------------------------------------------------------
  // Splitting and joining
  // ------------------------------------------------------------------

  lemma {:induction false} JoinSplit(s: string)
    ensures Join(Split(s)) == s && forall line <- Split(s) :: '\n' !in line && ('\r' !in s ==> '\r' !in line)
    decreases |s|
  {
    var n := Position(s, '\n');
    if n < |s| {
      JoinSplit(s[n + 1..]);
      var rest := Split(s[n + 1..]);
      assert Split(s)[1..] == rest;
      assert s == s[..n] + "\n" + s[n + 1..];
      assert forall line <- Split(s) :: line == s[..n] || line in rest;
    } else {
      assert s[..n] == s;
    }
  }

  // ------------------------------------------------------------------
  // Fields
  // ------------------------------------------------------------------

  lemma FieldLine(p: Parser, name: string, value: string)
    requires name != "" && ':' !in name
    ensures Line(p, name + ": " + value) == Field(p, name, value)
  {
    hide Field;
    var line := name + ": " + value;
    assert line[..|name|] == name;
    PositionIs(line, ':', |name|);
    assert line[|name| + 1..] == " " + value && (" " + value)[1..] == value;
  }

  lemma CommentLine(p: Parser, text: string)
    ensures Line(p, ": " + text) == p
  {
    PositionIs(": " + text, ':', 0);
  }

  lemma {:induction false} AfterComments(p: Parser, lines: seq<string>)
    ensures After(p, Prefixed(": ", lines)) == p
    decreases |lines|
  {
    if lines != [] {
      CommentLine(p, lines[0]);
      assert Prefixed(": ", lines)[1..] == Prefixed(": ", lines[1..]);
      AfterComments(p, lines[1..]);
    }
  }

  lemma DataLine(p: Parser, text: string)
    ensures Line(p, "data: " + text) == p.(data := p.data + text + "\n")
  {
    FieldLine(p, "data", text);
    hide Line;
    assert "data" + ": " + text == "data: " + text;
  }

  lemma {:induction false} AfterData(p: Parser, lines: seq<string>)
    ensures After(p, Prefixed("data: ", lines)) == p.(data := p.data + Unlines(lines))
    decreases |lines|
  {
    hide Line;
    if lines != [] {
      DataLine(p, lines[0]);
      assert Prefixed("data: ", lines)[1..] == Prefixed("data: ", lines[1..]);
      AfterData(p.(data := p.data + lines[0] + "\n"), lines[1..]);
      assert p.data + lines[0] + "\n" + Unlines(lines[1..]) == p.data + Unlines(lines);
    } else {
      assert p.data + "" == p.data;
    }
  }

  /** The fields of an event fit on lines: no CR, and no LF where the format has room for one line only. */
  predicate PlainFields(item: Item) {
    item.Full? ==>
      && (item.fields.event.Some? ==> OneLine(item.fields.event.value))
      && (item.fields.id.Some? ==> OneLine(item.fields.id.value))
      && (item.fields.comment.Some? ==> '\r' !in item.fields.comment.value)
  }

  function Data(item: Item): string {
    if item.Bare? then item.data else item.fields.data
  }

  predicate Plain(item: Item) {
    PlainFields(item) && '\r' !in Data(item)
  }

  // ------------------------------------------------------------------
  // One event
  // ------------------------------------------------------------------

  function DataLines(text: string): seq<string> {
    Prefixed("data: ", Split(text))
  }

  function AllLines(item: Item): seq<string> {
    (if item.Full? then FieldLines(item.fields) else []) + DataLines(Data(item))
  }

  lemma EncodedIsLines(item: Item)
    ensures Encoded(item) == Unlines(AllLines(item)) + "\n"
  {
    var lines := DataLines(Data(item));
    JoinIsUnlines(lines);
    hide Join, Unlines, Prefixed, FieldLines, Split;
    if item.Bare? {
      assert [] + lines == lines;
      assert Encoded(item) == (FormatDataField(Data(item)) + "\n") + "\n";
    } else {
      JoinedLines(FieldLines(item.fields), lines);
      assert Encoded(item) == (Join(FieldLines(item.fields) + [Join(lines)]) + "\n") + "\n";
    }
  }

  lemma JoinedLines(front: seq<string>, lines: seq<string>)
    requires lines != []
    ensures Join(front + [Join(lines)]) + "\n" == Unlines(front + lines)
  {
    JoinIsUnlines(front + [Join(lines)]);
    UnlinesConcat(front, [Join(lines)]);
    JoinIsUnlines(lines);
    UnlinesConcat(front, lines);
    assert Unlines([Join(lines)]) == Join(lines) + "\n" + "";
    hide Join, Unlines;
  }

  lemma PrefixedAreLines(prefix: string, text: string)
    requires prefix != "" && OneLine(prefix) && '\r' !in text
    ensures PlainLines(Prefixed(prefix, Split(text)))
  {
    JoinSplit(text);
    hide Split;
    var lines := Prefixed(prefix, Split(text));
    forall i | 0 <= i < |lines|
      ensures lines[i] != "" && OneLine(lines[i])
    {
      assert Split(text)[i] in Split(text);
    }
  }

  lemma NumberIsPlain(n: int)
    ensures OneLine(Number(n)) && (n < 0 ==> !Digits(Number(n)))
    ensures n >= 0 ==> Digits(Number(n)) && Decimal.Number(Number(n), 10) == Some(n)
  {
    assert forall c <- Decimal.DIGITS[..10] :: '0' <= c <= '9';
    if n < 0 {
      assert Number(n)[0] in Number(n);
    } else {
      Decimal.NumberRoundTrip(n, 10);
    }
  }

  lemma OneLinePrefixed(prefix: string, value: string)
    requires prefix != "" && OneLine(prefix) && OneLine(value)
    ensures PlainLines([prefix + value])
  {
  }

  lemma FieldLinesArePlain(e: Event)
    requires PlainFields(Full(e))
    ensures PlainLines(FieldLines(e))
  {
    if e.comment.Some? {
      PrefixedAreLines(": ", e.comment.value);
    }
    if e.event.Some? {
      OneLinePrefixed("event: ", e.event.value);
    }
    if e.id.Some? {
      OneLinePrefixed("id: ", e.id.value);
    }
    if e.retry.Some? {
      NumberIsPlain(e.retry.value);
      OneLinePrefixed("retry: ", Number(e.retry.value));
    }
    hide Prefixed, Split, OneLine, Number;
  }

  function WithEvent(p: Parser, e: Event): Parser {
    if e.event.Some? then p.(event := e.event.value) else p
  }

  function WithId(p: Parser, e: Event): Parser {
    if e.id.Some? && '\0' !in e.id.value then p.(id := e.id.value) else p
  }

  function WithRetry(p: Parser, e: Event): Parser {
    if e.retry.Some? && e.retry.value >= 0 then p.(retry := Some(e.retry.value)) else p
  }

  lemma AfterOne(p: Parser, name: string, value: string)
    requires name != "" && ':' !in name
    ensures After(p, [name + ": " + value]) == Field(p, name, value)
  {
    FieldLine(p, name, value);
    assert [name + ": " + value][1..] == [];
  }

  /** A line that may be missing. */
  function Maybe(name: string, value: Option<string>): seq<string> {
    if value.Some? then [name + ": " + value.value] else []
  }

  lemma AfterMaybe(p: Parser, name: string, value: Option<string>)
    requires name != "" && ':' !in name
    ensures NonEmpty(Maybe(name, value))
    ensures After(p, Maybe(name, value)) == if value.Some? then Field(p, name, value.value) else p
  {
    if value.Some? {
      AfterOne(p, name, value.value);
    }
  }

  function RetryText(e: Event): Option<string> {
    if e.retry.Some? then Some(Number(e.retry.value)) else None
  }

  function CommentLines(e: Event): seq<string> {
    if e.comment.Some? then Prefixed(": ", Split(e.comment.value)) else []
  }

  lemma FieldLinesAre(e: Event)
    ensures FieldLines(e)
         == CommentLines(e) + Maybe("event", e.event) + Maybe("id", e.id) + Maybe("retry", RetryText(e))
  {
    hide Prefixed, Split, Number;
    assert "event" + ": " == "event: " && "id" + ": " == "id: " && "retry" + ": " == "retry: ";
  }

  lemma AfterFields(p: Parser, e: Event)
    requires PlainFields(Full(e))
    ensures NonEmpty(FieldLines(e))
    ensures After(p, FieldLines(e)) == WithRetry(WithId(WithEvent(p, e), e), e)
  {
    FieldLinesArePlain(e);
    FieldLinesAre(e);
    hide FieldLines, PlainFields, After, Maybe, Number, Digits, OneLine;
    var c, v, i, r := CommentLines(e), Maybe("event", e.event), Maybe("id", e.id), Maybe("retry", RetryText(e));
    AfterCommentLines(p, e);
    AfterMaybe(p, "event", e.event);
    AfterMaybe(WithEvent(p, e), "id", e.id);
    AfterMaybe(WithId(WithEvent(p, e), e), "retry", RetryText(e));
    AfterConcat(p, c, v);
    AfterConcat(p, c + v, i);
    AfterConcat(p, c + v + i, r);
    if e.retry.Some? {
      NumberIsPlain(e.retry.value);
    }
  }

  lemma AfterCommentLines(p: Parser, e: Event)
    ensures NonEmpty(CommentLines(e)) && After(p, CommentLines(e)) == p
  {
    if e.comment.Some? {
      AfterComments(p, Split(e.comment.value));
    }
  }

  /** What outlives an event. */
  function Kept(p: Parser, item: Item): Parser {
    if item.Bare? then p else WithRetry(WithId(p, item.fields), item.fields)
  }

  function EventName(item: Item): string {
    if item.Full? && item.fields.event.Some? && item.fields.event.value != "" then item.fields.event.value
    else "message"
  }

  predicate Idle(p: Parser) {
    p.data == "" && p.event == ""
  }

  function Seen(p: Parser, item: Item): Dispatched {
    Dispatched(EventName(item), Data(item), Kept(p, item).id, Kept(p, item).retry)
  }

  lemma AllLinesArePlain(item: Item)
    requires Plain(item)
    ensures PlainLines(AllLines(item)) && NonEmpty(AllLines(item))
  {
    if item.Full? {
      FieldLinesArePlain(item.fields);
    }
    PrefixedAreLines("data: ", Data(item));
    hide FieldLines, Split, Prefixed, OneLine, PlainFields, Data;
  }

  lemma AfterDataLines(p: Parser, text: string)
    requires p.data == ""
    ensures NonEmpty(DataLines(text)) && After(p, DataLines(text)) == p.(data := text + "\n")
  {
    AfterData(p, Split(text));
    JoinIsUnlines(Split(text));
    JoinSplit(text);
    hide After, Unlines, Split, Prefixed;
    assert "" + Unlines(Split(text)) == Unlines(Split(text));
  }

  lemma AfterAll(p: Parser, item: Item)
    requires Idle(p) && Plain(item)
    ensures NonEmpty(AllLines(item))
    ensures var q := After(p, AllLines(item));
      && q.data == Data(item) + "\n" && q.id == Kept(p, item).id && q.retry == Kept(p, item).retry
      && (if q.event == "" then "message" else q.event) == EventName(item)
  {
    hide FieldLines, DataLines, OneLine, After, PlainFields;
    var lines := DataLines(Data(item));
    if item.Full? {
      AfterFields(p, item.fields);
      var q := WithRetry(WithId(WithEvent(p, item.fields), item.fields), item.fields);
      AfterDataLines(q, Data(item));
      AfterConcat(p, FieldLines(item.fields), lines);
    } else {
      assert [] + lines == lines;
      AfterDataLines(p, Data(item));
    }
  }

  lemma KeptIsIdle(p: Parser, item: Item)
    requires Idle(p)
    ensures Idle(Kept(p, item))
  {
  }

  lemma DispatchesSeen(p: Parser, q: Parser, item: Item)
    requires Idle(p) && q.data == Data(item) + "\n" && q.id == Kept(p, item).id && q.retry == Kept(p, item).retry
    requires (if q.event == "" then "message" else q.event) == EventName(item)
    ensures Dispatch(q) == [Seen(p, item)] && q.(data := "", event := "") == Kept(p, item)
  {
    KeptIsIdle(p, item);
    hide Kept, EventName, Data;
    assert (Data(item) + "\n")[..|Data(item)|] == Data(item);
  }

  /** One event is encoded as one event: same name, same data, same id, same reconnection time. */
  lemma OneEventBack(p: Parser, item: Item, rest: string)
    requires Idle(p) && Plain(item)
    ensures Interpret(p, Encoded(item) + rest) == [Seen(p, item)] + Interpret(Kept(p, item), rest)
    ensures Idle(Kept(p, item))
  {
    hide *;
    AllLinesArePlain(item);
    AfterAll(p, item);
    EncodedIsLines(item);
    KeptIsIdle(p, item);
    var lines := AllLines(item);
    var q := After(p, lines);
    DispatchesSeen(p, q, item);
    InterpretLines(p, lines, "\n" + rest);
    assert Unlines(lines) + "\n" + rest == Unlines(lines) + ("\n" + rest);
    InterpretBlank(q, rest);
  }

  // ------------------------------------------------------------------
  // Whole streams
  // ------------------------------------------------------------------

  /** What a client should see: names, data, and the id and reconnection time in force. */
  function Expected(items: seq<Item>, p: Parser): seq<Dispatched> {
    if items == [] then [] else [Seen(p, items[0])] + Expected(items[1..], Kept(p, items[0]))
  }

  lemma {:induction false} InterpretStream(p: Parser, items: seq<Item>)
    requires Idle(p) && forall item <- items :: Plain(item)
    ensures Interpret(p, Stream(items)) == Expected(items, p)
    decreases |items|
  {
    hide Plain, Seen, Kept, Encoded;
    if items != [] {
      assert items[0] in items;
      OneEventBack(p, items[0], Stream(items[1..]));
      InterpretStream(Kept(p, items[0]), items[1..]);
    }
  }

  lemma NoMark(items: seq<Item>)
    ensures Stream(items) != "" ==> Stream(items)[0] != '\U{FEFF}'
  {
    if items != [] {
      EncodedIsLines(items[0]);
      var lines := AllLines(items[0]);
      assert lines != [];
      assert lines[0] != "" && lines[0][0] != '\U{FEFF}';
    }
  }

  /** Decoding the encoded events gives the events back. */
  lemma RoundTrip(items: seq<Item>)
    requires forall item <- items :: Plain(item)
    ensures Decode(Stream(items)) == Expected(items, FRESH)
  {
    InterpretStream(FRESH, items);
    NoMark(items);
  }

  // ------------------------------------------------------------------
  // Text that cannot be sent
  // ------------------------------------------------------------------

  function Texts(out: seq<Dispatched>): seq<string> {
    if out == [] then [] else [out[0].data] + Texts(out[1..])
  }

  function Sent(items: seq<Item>): seq<string> {
    if items == [] then [] else [Data(items[0])] + Sent(items[1..])
  }

  lemma {:induction false} FirstLineIsPlain(s: string)
    requires FirstLine(s).Some?
    ensures OneLine(FirstLine(s).value.0)
  {
    if s[0] != '\n' && s[0] != '\r' {
      FirstLineIsPlain(s[1..]);
    }
  }

  predicate CleanId(id: string) {
    OneLine(id) && '\0' !in id
  }

  predicate CleanParser(p: Parser) {
    '\r' !in p.data && OneLine(p.event) && CleanId(p.id)
  }

  predicate Clean(d: Dispatched) {
    '\r' !in d.data && OneLine(d.event) && CleanId(d.id)
  }

  lemma LineKeepsClean(p: Parser, line: string)
    requires line != "" && OneLine(line) && CleanParser(p)
    ensures CleanParser(Line(p, line))
  {
    var n := Position(line, ':');
    if n < |line| {
      var value := line[n + 1..];
      assert OneLine(value) && OneLine(if value != "" && value[0] == ' ' then value[1..] else value);
      assert OneLine(line[..n]);
    }
  }

  lemma DispatchIsClean(p: Parser)
    requires CleanParser(p)
    ensures |Dispatch(p)| <= 1 && (Dispatch(p) != [] ==> Clean(Dispatch(p)[0]))
  {
  }

  /** Whatever it reads, a parser hands out no CR, no line break in a name or an id, and no NUL in an id. */
  lemma {:induction false} SeenIsClean(p: Parser, s: string)
    requires CleanParser(p)
    ensures forall i | 0 <= i < |Interpret(p, s)| :: Clean(Interpret(p, s)[i])
    decreases |s|
  {
    hide Line, CleanId, Clean, OneLine, Dispatch;
    var line := FirstLine(s);
    if line.Some? {
      FirstLineIsShorter(s);
      FirstLineIsPlain(s);
      if line.value.0 == "" {
        assert CleanParser(p.(data := "", event := "")) by {
          assert OneLine("") by { EmptyIsOneLine(); }
        }
        DispatchIsClean(p);
        SeenIsClean(p.(data := "", event := ""), line.value.1);
      } else {
        LineKeepsClean(p, line.value.0);
        SeenIsClean(Line(p, line.value.0), line.value.1);
      }
    }
  }

  lemma EmptyIsOneLine()
    ensures OneLine("")
  {
  }

  lemma DecodedIsClean(s: string)
    ensures forall i | 0 <= i < |Decode(s)| :: Clean(Decode(s)[i])
  {
    SeenIsClean(FRESH, if s != "" && s[0] == '\U{FEFF}' then s[1..] else s);
    hide Clean, Interpret;
  }

  lemma {:induction false} TextsOfClean(out: seq<Dispatched>)
    requires forall i | 0 <= i < |out| :: Clean(out[i])
    ensures forall text <- Texts(out) :: '\r' !in text
  {
    if out != [] {
      assert Clean(out[0]);
      TextsOfClean(out[1..]);
    }
  }

  lemma {:induction false} ExpectedTexts(items: seq<Item>, p: Parser)
    ensures Texts(Expected(items, p)) == Sent(items)
    decreases |items|
  {
    hide Kept;
    if items != [] {
      ExpectedTexts(items[1..], Kept(p, items[0]));
      assert Expected(items, p)[1..] == Expected(items[1..], Kept(p, items[0]));
    }
  }

  lemma {:induction false} SentHolds(items: seq<Item>, item: Item)
    requires item in items
    ensures Data(item) in Sent(items)
  {
    if item != items[0] {
      SentHolds(items[1..], item);
    }
  }

  /** The texts arrive exactly when none of them holds a CR. */
  lemma TextsArriveExactlyWhen(items: seq<Item>)
    requires forall item <- items :: PlainFields(item)
    ensures Texts(Decode(Stream(items))) == Sent(items) <==> forall item <- items :: '\r' !in Data(item)
  {
    hide Data, Texts, Sent, PlainFields, Stream, Decode, Clean;
    if item :| item in items && '\r' in Data(item) {
      SentHolds(items, item);
      DecodedIsClean(Stream(items));
      TextsOfClean(Decode(Stream(items)));
    } else {
      RoundTrip(items);
      ExpectedTexts(items, FRESH);
    }
  }

  // ------------------------------------------------------------------
  // Events that cannot be sent
  // ------------------------------------------------------------------

  /** Every part of the event has arrived; a part it does not have is as it was before. */
  predicate Arrived(d: Dispatched, item: Item, id: string, retry: Option<nat>) {
    && d.event == EventName(item) && d.data == Data(item)
    && d.id == (if item.Full? && item.fields.id.Some? then item.fields.id.value else id)
    && if item.Full? && item.fields.retry.Some? then d.retry.Some? && d.retry.value == item.fields.retry.value
       else d.retry == retry
  }

  predicate AllArrived(out: seq<Dispatched>, items: seq<Item>, id: string, retry: Option<nat>) {
    if items == [] then out == []
    else out != [] && Arrived(out[0], items[0], id, retry) && AllArrived(out[1..], items[1..], out[0].id, out[0].retry)
  }

  /** A name and an id of one line, no NUL in the id, a reconnection time from zero up, no CR in the data. */
  predicate Sendable(item: Item) {
    && '\r' !in Data(item)
    && (item.Full? ==>
          && (item.fields.event.Some? ==> OneLine(item.fields.event.value))
          && (item.fields.id.Some? ==> CleanId(item.fields.id.value))
          && (item.fields.retry.Some? ==> item.fields.retry.value >= 0))
  }

  predicate PlainComment(item: Item) {
    item.Full? && item.fields.comment.Some? ==> '\r' !in item.fields.comment.value
  }

  lemma SendableIsPlain(item: Item)
    requires Sendable(item) && PlainComment(item)
    ensures Plain(item)
  {
  }

  lemma SeenArrived(p: Parser, item: Item)
    requires Sendable(item)
    ensures Arrived(Seen(p, item), item, p.id, p.retry)
    ensures Seen(p, item).id == Kept(p, item).id && Seen(p, item).retry == Kept(p, item).retry
  {
    hide OneLine, EventName, Data;
  }

  lemma {:induction false} ExpectedArrived(items: seq<Item>, p: Parser)
    requires forall i | 0 <= i < |items| :: Sendable(items[i])
    ensures AllArrived(Expected(items, p), items, p.id, p.retry)
    decreases |items|
  {
    hide Sendable, Arrived, Seen, Kept;
    if items != [] {
      SeenArrived(p, items[0]);
      ExpectedArrived(items[1..], Kept(p, items[0]));
      assert Expected(items, p)[1..] == Expected(items[1..], Kept(p, items[0]));
    }
  }

  lemma ArrivedIsSendable(d: Dispatched, item: Item, id: string, retry: Option<nat>)
    requires Clean(d) && Arrived(d, item, id, retry)
    ensures Sendable(item)
  {
  }

  lemma {:induction false} AllArrivedAreSendable(out: seq<Dispatched>, items: seq<Item>, id: string, retry: Option<nat>)
    requires AllArrived(out, items, id, retry) && forall i | 0 <= i < |out| :: Clean(out[i])
    ensures forall i | 0 <= i < |items| :: Sendable(items[i])
    decreases |items|
  {
    hide Clean, Arrived, Sendable;
    if items != [] {
      ArrivedIsSendable(out[0], items[0], id, retry);
      AllArrivedAreSendable(out[1..], items[1..], out[0].id, out[0].retry);
    }
  }

  /** Every part of every event arrives exactly when each event can be sent. */
  lemma EventsArriveExactlyWhen(items: seq<Item>)
    requires forall i | 0 <= i < |items| :: PlainComment(items[i])
    ensures AllArrived(Decode(Stream(items)), items, "", None) <==> forall i | 0 <= i < |items| :: Sendable(items[i])
  {
    hide Stream, Decode, Sendable, PlainComment, Clean, AllArrived, Expected, Plain;
    if AllArrived(Decode(Stream(items)), items, "", None) {
      DecodedIsClean(Stream(items));
      AllArrivedAreSendable(Decode(Stream(items)), items, "", None);
    } else if forall i | 0 <= i < |items| :: Sendable(items[i]) {
      forall item | item in items
        ensures Plain(item)
      {
        var i :| 0 <= i < |items| && items[i] == item;
        SendableIsPlain(item);
      }
      RoundTrip(items);
      ExpectedArrived(items, FRESH);
    }
  }

  lemma {:induction false} FirstLineByCr(line: string, rest: string)
    requires OneLine(line) && rest != "" && rest[0] != '\n'
    ensures FirstLine(line + "\r" + rest) == Some((line, rest))
  {
    var s := line + "\r" + rest;
    if line != "" {
      assert s[1..] == line[1..] + "\r" + rest;
      FirstLineByCr(line[1..], rest);
      assert [line[0]] + line[1..] == line;
    } else {
      assert s == ['\r'] + rest;
    }
  }

  lemma SplitOne(s: string)
    requires '\n' !in s
    ensures Split(s) == [s]
  {
    assert s[..|s|] == s;
    PositionIs(s, '\n', |s|);
  }

  function CrComment(a: string, x: string, b: string): Event {
    Event(b, None, None, None, Some(a + "\r" + ("data: " + x)))
  }

  lemma PrefixedOne(prefix: string, s: string)
    ensures Prefixed(prefix, [s]) == [prefix + s]
  {
    assert [s][1..] == [];
  }

  lemma CommentAndData(comment: string, b: string)
    requires '\n' !in comment && '\n' !in b
    ensures Encoded(Full(Event(b, None, None, None, Some(comment)))) == ": " + comment + "\n" + ("data: " + b) + "\n\n"
  {
    var e := Event(b, None, None, None, Some(comment));
    SplitOne(comment);
    SplitOne(b);
    PrefixedOne(": ", comment);
    PrefixedOne("data: ", b);
    hide Split, Prefixed;
    assert FieldLines(e) == [": " + comment];
    assert FormatDataField(b) == "data: " + b;
    hide FieldLines, FormatDataField;
    JoinTwo(": " + comment, "data: " + b);
  }

  lemma CommentText(a: string, x: string, b: string)
    requires OneLine(a) && OneLine(x) && OneLine(b)
    ensures Encoded(Full(CrComment(a, x, b))) ==
              (": " + a) + "\r" + (("data: " + x) + "\n" + (("data: " + b) + "\n" + ("\n" + "")))
  {
    CommentAndData(a + "\r" + ("data: " + x), b);
    hide Encoded;
  }

  lemma JoinTwo(a: string, b: string)
    ensures Join([a] + [b]) == a + "\n" + b
  {
    assert ([a] + [b])[1..] == [b];
  }

  lemma InterpretOne(p: Parser, s: string, line: string, rest: string)
    requires FirstLine(s) == Some((line, rest)) && line != ""
    ensures Interpret(p, s) == Interpret(Line(p, line), rest)
  {
    hide Line, FirstLine;
  }

  lemma StreamOfOne(item: Item)
    ensures Stream([item]) == Encoded(item)
  {
    hide Encoded;
    assert [item][1..] == [];
    assert Encoded(item) + "" == Encoded(item);
  }

  /** A comment may hold LF, but a CR in it lets the text behind be read as a field. */
  lemma CommentIsRead(a: string, x: string, b: string)
    requires OneLine(a) && OneLine(x) && OneLine(b)
    ensures Decode(Stream([Full(CrComment(a, x, b))])) == [Dispatched("message", x + "\n" + b, "", None)]
  {
    var end := "\n" + "";
    var last := ("data: " + b) + "\n" + end;
    var rest := ("data: " + x) + "\n" + last;
    var s := (": " + a) + "\r" + rest;
    var p, q := FRESH.(data := x + "\n"), FRESH.(data := x + "\n" + b + "\n");
    StreamOfOne(Full(CrComment(a, x, b)));
    CommentText(a, x, b);
    FirstLineByCr(": " + a, rest);
    FirstLineBack("data: " + x, last);
    FirstLineBack("data: " + b, end);
    assert s[0] == ':';
    TwoData(a, x, b);
    hide FirstLine, Line, Dispatch, Stream, OneLine;
    InterpretOne(FRESH, s, ": " + a, rest);
    InterpretOne(FRESH, rest, "data: " + x, last);
    InterpretOne(p, last, "data: " + b, end);
    InterpretBlank(q, "");
    NothingLeft(q.(data := "", event := ""));
  }

  lemma TwoData(a: string, x: string, b: string)
    ensures var p, q := FRESH.(data := x + "\n"), FRESH.(data := x + "\n" + b + "\n");
      && Line(FRESH, ": " + a) == FRESH && Line(FRESH, "data: " + x) == p && Line(p, "data: " + b) == q
      && Dispatch(q) == [Dispatched("message", x + "\n" + b, "", None)]
  {
    var p, q := FRESH.(data := x + "\n"), FRESH.(data := x + "\n" + b + "\n");
    CommentLine(FRESH, a);
    FieldLine(FRESH, "data", x);
    FieldLine(p, "data", b);
    hide Line;
    assert "data" + ": " + x == "data: " + x && "data" + ": " + b == "data: " + b;
    assert "" + x + "\n" == x + "\n";
    assert q.data[..|q.data| - 1] == x + "\n" + b;
  }

  lemma NothingLeft(p: Parser)
    ensures Interpret(p, "") == []
  {
  }

  /** A comment is written in front of the rest of its event, each of its lines as a line of comment. */
  lemma CommentStandsFirst(e: Event)
    requires e.comment.Some?
    ensures Encoded(Full(e)) == Unlines(Prefixed(": ", Split(e.comment.value))) + Encoded(Full(e.(comment := None)))
  {
    var bare, comment := e.(comment := None), Prefixed(": ", Split(e.comment.value));
    EncodedIsLines(Full(e));
    EncodedIsLines(Full(bare));
    AllLinesOf(e);
    UnlinesConcat(comment, AllLines(Full(bare)));
    hide *;
  }

  lemma AllLinesOf(e: Event)
    requires e.comment.Some?
    ensures AllLines(Full(e)) == Prefixed(": ", Split(e.comment.value)) + AllLines(Full(e.(comment := None)))
  {
    FieldLinesAre(e);
    FieldLinesAre(e.(comment := None));
    hide FieldLines, Split, Prefixed, Maybe, DataLines;
  }
}
