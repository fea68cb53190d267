/** The event stream as text: the printer of the server, and the parser every browser has, as sections 9.2.5
    and 9.2.6 of the WHATWG HTML Standard define it. */
module Sse {

  /** An ID of zero is not printed. */
  datatype Frame = Frame(id: nat, name: string, data: string)

  function Digit(d: nat): char
    requires d < 10
  {
    ['0', '1', '2', '3', '4', '5', '6', '7', '8', '9'][d]
  }

  function Decimal(n: nat): string {
    if n < 10 then [Digit(n)] else Decimal(n / 10) + [Digit(n % 10)]
  }

  function FieldLine(field: string, value: string): string {
    field + ": " + value + "\n"
  }

  function IdLine(f: Frame): string {
    if f.id > 0 then FieldLine("id", Decimal(f.id)) else ""
  }

  function Body(f: Frame): string {
    FieldLine("event", f.name) + FieldLine("data", f.data) + "\n"
  }

  function Printed(f: Frame): string {
    IdLine(f) + Body(f)
  }

  function PrintedAll(frames: seq<Frame>): string {
    if frames == [] then "" else PrintedAll(frames[..|frames| - 1]) + Printed(frames[|frames| - 1])
  }

  class Writer {
    var text: string

    constructor ()
      ensures text == ""
    {
      text := "";
    }

    method WriteSSE(name: string, id: nat, data: string)
      modifies this
      ensures text == old(text) + Printed(Frame(id, name, data))
    {
      ghost var frame := Frame(id, name, data);
      AsFormatted(frame);
      hide FieldLine, Decimal;
      if id > 0 {
        text := text + ("id: " + Decimal(id) + "\n");
      }
      text := text + ("event: " + name + "\ndata: " + data + "\n\n");
    }
  }

  /** The format strings the printer fills in. */
  lemma AsFormatted(f: Frame)
    ensures FieldLine("id", Decimal(f.id)) == "id: " + Decimal(f.id) + "\n"
    ensures Body(f) == "event: " + f.name + "\ndata: " + f.data + "\n\n"
  {
    hide Decimal;
    var event, data := FieldLine("event", f.name), FieldLine("data", f.data);
    assert event == "event: " + f.name + "\n";
    assert data == "data: " + f.data + "\n";
  }

  // ---------- the parser ----------

  /** `lastEventId` is as the page sees it when the message is dispatched. */
  datatype Message = Message(name: string, data: string, lastEventId: string)

  /** `line` is the line so far; after a carriage return a line feed belongs to the line before. */
  datatype Parser = Parser(line: string, afterReturn: bool, name: string, data: string, lastId: string,
                           messages: seq<Message>)

  const FRESH := Parser("", false, "", "", "", [])

  /** The place of the first colon, or the length. */
  function Colon(line: string): (k: nat)
    ensures k <= |line|
  {
    if line == "" || line[0] == ':' then 0 else 1 + Colon(line[1..])
  }

  function DropSpace(s: string): string {
    if s != "" && s[0] == ' ' then s[1..] else s
  }

  function ProcessField(p: Parser, field: string, value: string): Parser {
    if field == "event" then p.(name := value)
    else if field == "data" then p.(data := p.data + value + "\n")
    else if field == "id" && '\0' !in value then p.(lastId := value)
    else p
  }

  function Dispatch(p: Parser): Parser {
    if p.data == "" then p.(name := "")
    else
      var last := |p.data| - 1;
      var data := if p.data[last] == '\n' then p.data[..last] else p.data;
      var message := Message(if p.name == "" then "message" else p.name, data, p.lastId);
      p.(messages := p.messages + [message], name := "", data := "")
  }

  function EndLine(p: Parser): Parser {
    var line, q, k := p.line, p.(line := ""), Colon(p.line);
    if line == "" then Dispatch(q)
    else if k == 0 then q
    else if k < |line| then ProcessField(q, line[..k], DropSpace(line[k + 1..]))
    else ProcessField(q, line, "")
  }

  function Read(p: Parser, c: char): Parser {
    if c == '\n' && p.afterReturn then p.(afterReturn := false)
    else if c == '\n' then EndLine(p)
    else if c == '\r' then EndLine(p).(afterReturn := true)
    else p.(line := p.line + [c], afterReturn := false)
  }

  function ReadAll(p: Parser, text: string): Parser {
    if text == "" then p else Read(ReadAll(p, text[..|text| - 1]), text[|text| - 1])
  }

  // ---------- reading line by line ----------

  predicate OneLine(s: string) {
    '\n' !in s && '\r' !in s
  }

  lemma {:induction false} ReadInTurn(p: Parser, a: string, b: string)
    ensures ReadAll(p, a + b) == ReadAll(ReadAll(p, a), b)
  {
    if b == "" {
      assert a + b == a;
    } else {
      var k := |b| - 1;
      assert (a + b)[..|a + b| - 1] == a + b[..k];
      ReadInTurn(p, a, b[..k]);
    }
  }

  lemma {:induction false} ReadPlain(p: Parser, s: string)
    requires OneLine(s) && !p.afterReturn
    ensures ReadAll(p, s) == p.(line := p.line + s)
  {
    if s == "" {
      assert p.line + s == p.line;
    } else {
      var k := |s| - 1;
      ReadPlain(p, s[..k]);
      assert p.line + s == p.line + s[..k] + [s[k]];
    }
  }

  /** A whole line, read at the start of one. */
  lemma ReadLine(p: Parser, s: string)
    requires OneLine(s) && !p.afterReturn && p.line == ""
    ensures ReadAll(p, s + "\n") == EndLine(p.(line := s))
  {
    ReadInTurn(p, s, "\n");
    ReadPlain(p, s);
    var q := p.(line := s);
    assert p.line + s == s;
    assert "\n"[..0] == "";
    assert ReadAll(q, "\n") == Read(ReadAll(q, ""), '\n');
  }

  lemma {:induction false} ColonAfter(field: string, rest: string)
    requires ':' !in field
    ensures Colon(field + ":" + rest) == |field|
  {
    if field != "" {
      assert (field + ":" + rest)[1..] == field[1..] + ":" + rest;
      ColonAfter(field[1..], rest);
    }
  }

  lemma FieldIsParted(field: string, value: string)
    requires ':' !in field
    ensures var line := field + ": " + value;
            && Colon(line) == |field| < |line|
            && line[..|field|] == field && DropSpace(line[|field| + 1..]) == value
  {
    var line := field + ": " + value;
    assert line == field + ":" + (" " + value);
    ColonAfter(field, " " + value);
    assert line[|field| + 1..] == " " + value;
    assert (" " + value)[1..] == value;
  }

  /** A field line, as the printer writes one, is the field and its value again. */
  lemma ReadField(p: Parser, field: string, value: string)
    requires field != "" && OneLine(field) && ':' !in field && OneLine(value) && !p.afterReturn && p.line == ""
    ensures ReadAll(p, FieldLine(field, value)) == ProcessField(p, field, value)
  {
    hide ProcessField, ReadAll, Colon, DropSpace;
    var line := field + ": " + value;
    FieldIsParted(field, value);
    ReadLine(p, line);
    assert p.(line := line).(line := "") == p;
  }

  lemma {:induction false} DecimalIsDigits(n: nat)
    ensures Decimal(n) != "" && forall c | c in Decimal(n) :: '0' <= c <= '9'
  {
    if n >= 10 {
      DecimalIsDigits(n / 10);
    }
  }

  /** What a frame reads back as. */
  function LatestId(f: Frame, last: string): string {
    if f.id > 0 then Decimal(f.id) else last
  }

  function Delivered(f: Frame, last: string): Message {
    Message(if f.name == "" then "message" else f.name, f.data, LatestId(f, last))
  }

  /** Nothing is left over from the frames before. */
  predicate Between(p: Parser) {
    p.line == "" && !p.afterReturn && p.name == "" && p.data == ""
  }

  predicate Printable(f: Frame) {
    OneLine(f.name) && OneLine(f.data)
  }

  lemma ReadId(p: Parser, f: Frame)
    requires Between(p)
    ensures ReadAll(p, IdLine(f)) == p.(lastId := LatestId(f, p.lastId))
  {
    if f.id > 0 {
      hide ReadAll, Decimal, FieldLine;
      DecimalIsDigits(f.id);
      ReadField(p, "id", Decimal(f.id));
    }
  }

  /** The empty line after a name and a payload sends them off. */
  lemma ReadEnd(p: Parser, f: Frame)
    requires Between(p)
    ensures ReadAll(p.(name := f.name, data := f.data + "\n"), "\n")
         == p.(messages := p.messages + [Message(if f.name == "" then "message" else f.name, f.data, p.lastId)])
  {
    hide ReadAll;
    var full := p.(name := f.name, data := f.data + "\n");
    assert "" + "\n" == "\n";
    ReadLine(full, "");
    assert full.(line := "") == full;
    assert (f.data + "\n")[..|f.data|] == f.data;
  }

  lemma ReadPayload(p: Parser, f: Frame)
    requires Between(p) && Printable(f)
    ensures ReadAll(p, FieldLine("event", f.name) + FieldLine("data", f.data))
         == p.(name := f.name, data := f.data + "\n")
  {
    hide ReadAll, FieldLine;
    ReadField(p, "event", f.name);
    var named := p.(name := f.name);
    ReadField(named, "data", f.data);
    assert "" + f.data + "\n" == f.data + "\n";
    ReadInTurn(p, FieldLine("event", f.name), FieldLine("data", f.data));
  }

  lemma ReadFrame(p: Parser, f: Frame)
    requires Between(p) && Printable(f)
    ensures ReadAll(p, Printed(f))
         == p.(lastId := LatestId(f, p.lastId), messages := p.messages + [Delivered(f, p.lastId)])
  {
    hide ReadAll, FieldLine, IdLine, Printable;
    var q := p.(lastId := LatestId(f, p.lastId));
    ReadInTurn(p, IdLine(f), Body(f));
    ReadId(p, f);
    ReadPayload(q, f);
    ReadInTurn(q, FieldLine("event", f.name) + FieldLine("data", f.data), "\n");
    ReadEnd(q, f);
  }

  // ---------- the whole stream ----------

  /** The newest positive ID, in decimal. */
  function LastId(frames: seq<Frame>): string {
    if frames == [] then "" else LatestId(frames[|frames| - 1], LastId(frames[..|frames| - 1]))
  }

  function DeliveredAll(frames: seq<Frame>): seq<Message> {
    if frames == [] then []
    else
      var k := |frames| - 1;
      DeliveredAll(frames[..k]) + [Delivered(frames[k], LastId(frames[..k]))]
  }

  /** Whatever frames of one-line names and payloads are printed one after another, the browser reads the same
      names and payloads in the same order; with each goes the newest positive ID, which a ping leaves as it was. */
  lemma {:induction false} StreamRoundTrip(frames: seq<Frame>)
    requires forall f | f in frames :: Printable(f)
    ensures ReadAll(FRESH, PrintedAll(frames))
         == FRESH.(lastId := LastId(frames), messages := DeliveredAll(frames))
  {
    hide Printed, Printable, Delivered, LatestId;
    if frames != [] {
      var k := |frames| - 1;
      StreamRoundTrip(frames[..k]);
      ReadInTurn(FRESH, PrintedAll(frames[..k]), Printed(frames[k]));
      assert frames[k] in frames;
      ReadFrame(FRESH.(lastId := LastId(frames[..k]), messages := DeliveredAll(frames[..k])), frames[k]);
    }
  }

  /** Message by message. */
  lemma {:induction false} EachIsDelivered(frames: seq<Frame>, i: nat)
    requires i < |frames|
    ensures |DeliveredAll(frames)| == |frames|
    ensures DeliveredAll(frames)[i] == Delivered(frames[i], LastId(frames[..i]))
  {
    hide Delivered, LastId;
    var k := |frames| - 1;
    if i < k {
      EachIsDelivered(frames[..k], i);
      assert frames[..k][..i] == frames[..i];
    } else if k > 0 {
      EachIsDelivered(frames[..k], 0);
    }
  }

  function Number(s: string): int {
    if s == "" then 0 else Number(s[..|s| - 1]) * 10 + (s[|s| - 1] as int - '0' as int)
  }

  /** An ID can be told from its decimal. */
  lemma {:induction false} DecimalReadsBack(n: nat)
    ensures Number(Decimal(n)) == n
  {
    var s, k := Decimal(n), |Decimal(n)| - 1;
    if n < 10 {
      assert s[..0] == "";
    } else {
      DecimalReadsBack(n / 10);
      assert s[..k] == Decimal(n / 10);
    }
  }

  /** The newest positive ID is what the browser would ask to resume from. */
  lemma {:induction false} LastIdIsTheNewest(frames: seq<Frame>, i: nat)
    requires i < |frames| && frames[i].id > 0 && forall j | i < j < |frames| :: frames[j].id == 0
    ensures Number(LastId(frames)) == frames[i].id
  {
    var k := |frames| - 1;
    if i < k {
      LastIdIsTheNewest(frames[..k], i);
    } else {
      DecimalReadsBack(frames[k].id);
    }
  }
}
