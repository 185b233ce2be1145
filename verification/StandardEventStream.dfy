/** The interpretation of an event stream by sections 9.2.5 and 9.2.6 of the WHATWG HTML
    Living Standard, written from the standard and not from the client, and its agreement
    with the client's hand-written parser on everything the server sends. Fields other
    than `event` and `data` do not affect the events dispatched here. */
module StandardEventStream {
  import opened EventStream

  /** The event type buffer and the data buffer of section 9.2.6. */
  datatype Buffers = Buffers(eventType: string, data: string)

  const Fresh := Buffers("", "")

  predicate LineEnd(c: char) {
    c == '\n' || c == '\r'
  }

  /** How many characters the first line has before its end, or |s| if it never ends. */
  function LineLength(s: string): (n: nat)
    ensures n <= |s|
    ensures n < |s| ==> LineEnd(s[n])
    ensures forall k :: 0 <= k < n ==> !LineEnd(s[k])
  {
    if s == "" || LineEnd(s[0]) then 0 else 1 + LineLength(s[1..])
  }

  /** What follows the first line: a line ends with LF, CR, or CR LF. */
  function AfterLine(s: string): string
    requires LineLength(s) < |s|
  {
    var n := LineLength(s);
    if s[n] == '\r' && n + 1 < |s| && s[n + 1] == '\n' then s[n + 2..] else s[n + 1..]
  }

  function ColonAt(line: string): (i: nat)
    ensures i <= |line|
    ensures i < |line| ==> line[i] == ':'
    ensures forall k :: 0 <= k < i ==> line[k] != ':'
  {
    if line == "" || line[0] == ':' then 0 else 1 + ColonAt(line[1..])
  }

  /** The value of a field: what follows the colon, less one leading space. */
  function FieldValue(line: string): string {
    var i := ColonAt(line);
    if i == |line| then ""
    else if i + 1 < |line| && line[i + 1] == ' ' then line[i + 2..]
    else line[i + 1..]
  }

  function ProcessField(b: Buffers, name: string, value: string): Buffers {
    if name == "event" then b.(eventType := value)
    else if name == "data" then b.(data := b.data + value + "\n")
    else b
  }

  /** A non-blank line: a comment, or a field. */
  function ProcessLine(b: Buffers, line: string): Buffers {
    if line != "" && line[0] == ':' then b
    else ProcessField(b, line[..ColonAt(line)], FieldValue(line))
  }

  /** A blank line: dispatches the event, unless its data buffer is empty. */
  function Dispatch(b: Buffers): seq<Received> {
    if b.data == "" then []
    else
      var data := if b.data[|b.data| - 1] == '\n' then b.data[..|b.data| - 1] else b.data;
      [Received(if b.eventType == "" then "message" else b.eventType, data)]
  }

  /** The events dispatched for a stream; an incomplete last line is discarded. */
  function Interpret(b: Buffers, s: string): seq<Received>
    decreases |s|
  {
    var n := LineLength(s);
    if n == |s| then []
    else if n == 0 then Dispatch(b) + Interpret(Fresh, AfterLine(s))
    else Interpret(ProcessLine(b, s[..n]), AfterLine(s))
  }

  // ----- Agreement -----

  predicate Unbroken(s: string) {
    forall k :: 0 <= k < |s| ==> !LineEnd(s[k])
  }

  /** What the server sends: ASCII JSON of an object, under a fixed event name. */
  predicate Sendable(f: Frame) {
    match f
    case Event(name, data) => name != "" && Unbroken(name) && data != "" && Unbroken(data)
    case Comment(text) => Unbroken(text)
  }

  lemma {:induction false} FirstLine(line: string, rest: string)
    requires Unbroken(line)
    ensures LineLength(line + "\n" + rest) == |line|
    ensures AfterLine(line + "\n" + rest) == rest
  {
    var s := line + "\n" + rest;
    assert s[|line|] == '\n';
    forall k | 0 <= k < |line| ensures !LineEnd(s[k]) {
      assert s[k] == line[k];
    }
    var n := LineLength(s);
    assert n == |line|;
    assert s[n + 1..] == rest;
  }

  lemma InterpretLine(b: Buffers, line: string, rest: string)
    requires Unbroken(line) && line != ""
    ensures Interpret(b, line + "\n" + rest) == Interpret(ProcessLine(b, line), rest)
  {
    FirstLine(line, rest);
    assert (line + "\n" + rest)[..|line|] == line;
  }

  lemma InterpretBlank(b: Buffers, rest: string)
    ensures Interpret(b, "\n" + rest) == Dispatch(b) + Interpret(Fresh, rest)
  {
    FirstLine("", rest);
    assert "" + "\n" + rest == "\n" + rest;
  }

  lemma FieldOf(name: string, value: string)
    requires ':' !in name
    ensures var line := name + ": " + value;
            line[..ColonAt(line)] == name && FieldValue(line) == value
  {
    var line := name + ": " + value;
    assert line[|name|] == ':' && line[|name| + 1] == ' ';
    assert forall k :: 0 <= k < |name| ==> line[k] == name[k];
    assert ColonAt(line) == |name|;
    assert line[..|name|] == name && line[|name| + 2..] == value;
  }

  lemma EventLines(name: string, data: string, rest: string)
    requires Sendable(Event(name, data))
    ensures PrintFrame(Event(name, data)) + rest
            == ("event" + ": " + name) + "\n" + (("data" + ": " + data) + "\n" + ("\n" + rest))
    ensures Unbroken("event" + ": " + name) && Unbroken("data" + ": " + data)
  {}

  lemma InterpretFieldLine(b: Buffers, field: string, value: string, rest: string)
    requires field == "event" || field == "data"
    requires Unbroken(field + ": " + value)
    ensures Interpret(b, (field + ": " + value) + "\n" + rest) == Interpret(ProcessField(b, field, value), rest)
  {
    FieldOf(field, value);
    assert (field + ": " + value)[0] == field[0];
    InterpretLine(b, field + ": " + value, rest);
  }

  lemma BuffersOfEvent(name: string, data: string)
    ensures ProcessField(Fresh, "event", name) == Buffers(name, "")
    ensures ProcessField(Buffers(name, ""), "data", data) == Buffers(name, data + "\n")
  {
    assert "event"[0] != "data"[0];
    assert "" + data + "\n" == data + "\n";
  }

  lemma DispatchOfEvent(name: string, data: string)
    requires name != ""
    ensures Dispatch(Buffers(name, data + "\n")) == [Received(name, data)]
  {
    var buffer := data + "\n";
    assert buffer[|buffer| - 1] == '\n' && buffer[..|buffer| - 1] == data;
  }

  lemma InterpretEvent(name: string, data: string, rest: string)
    requires Sendable(Event(name, data))
    ensures Interpret(Fresh, PrintFrame(Event(name, data)) + rest) == [Received(name, data)] + Interpret(Fresh, rest)
  {
    EventLines(name, data, rest);
    BuffersOfEvent(name, data);
    DispatchOfEvent(name, data);
    InterpretFieldLine(Fresh, "event", name, ("data" + ": " + data) + "\n" + ("\n" + rest));
    InterpretFieldLine(Buffers(name, ""), "data", data, "\n" + rest);
    InterpretBlank(Buffers(name, data + "\n"), rest);
  }

  lemma InterpretComment(text: string, rest: string)
    requires Sendable(Comment(text))
    ensures Interpret(Fresh, PrintFrame(Comment(text)) + rest) == Interpret(Fresh, rest)
  {
    var line := ":" + text;
    assert PrintFrame(Comment(text)) + rest == line + "\n" + ("\n" + rest);
    assert Unbroken(line) && line[0] == ':';
    InterpretLine(Fresh, line, "\n" + rest);
    InterpretBlank(Fresh, rest);
  }

  lemma {:induction false} StandardReadsPrinted(fs: seq<Frame>)
    requires forall i :: 0 <= i < |fs| ==> Sendable(fs[i])
    ensures Interpret(Fresh, Print(fs)) == EventsOf(fs)
  {
    if fs == [] {
    } else {
      StandardReadsPrinted(fs[1..]);
      match fs[0] {
        case Event(name, data) => InterpretEvent(name, data, Print(fs[1..]));
        case Comment(text) => InterpretComment(text, Print(fs[1..]));
      }
    }
  }

  /** On everything the server sends, cut anywhere, the client's parser and the standard
      give the same events. */
  lemma ClientAgreesWithStandard(fs: seq<Frame>, chunks: seq<string>)
    requires forall i :: 0 <= i < |fs| ==> Sendable(fs[i])
    requires Joined(chunks) == Print(fs)
    ensures ReadAll("", chunks) == Interpret(Fresh, Joined(chunks))
  {
    forall i | 0 <= i < |fs| ensures Clean(fs[i]) {
      assert Sendable(fs[i]);
    }
    RoundTrip(fs, chunks);
    StandardReadsPrinted(fs);
  }
}
