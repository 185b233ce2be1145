/** The event stream of `POST /query`: the printer of api/routes_query.py, the incremental
    parser of web/src/lib/queryStream.ts, and the interpretation that sections 9.2.5 and
    9.2.6 of the WHATWG HTML Living Standard give the same text. */
module EventStream {
  import opened Basics

  /** `_sse(event, data)`, and the padding and heartbeat comments. */
  datatype Frame = Event(name: string, data: string) | Comment(text: string)

  const HEARTBEAT := Comment(" heartbeat")
  const PADDING := Comment(seq(2048, _ => ' '))

  datatype Received = Received(name: string, data: string)

  function PrintFrame(f: Frame): string {
    match f
    case Event(name, data) => "event: " + name + "\ndata: " + data + "\n\n"
    case Comment(text) => ":" + text + "\n\n"
  }

  function Print(fs: seq<Frame>): string {
    if fs == [] then "" else PrintFrame(fs[0]) + Print(fs[1..])
  }

  function EventsOf(fs: seq<Frame>): seq<Received> {
    if fs == [] then []
    else (if fs[0].Event? then [Received(fs[0].name, fs[0].data)] else []) + EventsOf(fs[1..])
  }

  // ----- The parser -----

  /** Where the first blank-line separator is, or the length of the buffer if none. */
  function IndexOfSeparator(s: string): (i: nat)
    ensures i <= |s|
    ensures i < |s| ==> i + 1 < |s| && s[i] == '\n' && s[i + 1] == '\n'
    ensures forall k :: 0 <= k < i && k + 1 < |s| ==> !(s[k] == '\n' && s[k + 1] == '\n')
  {
    if |s| < 2 then |s|
    else if s[0] == '\n' && s[1] == '\n' then 0
    else 1 + IndexOfSeparator(s[1..])
  }

  predicate HoldsSeparator(s: string) {
    IndexOfSeparator(s) < |s|
  }

  function SplitLines(s: string): (lines: seq<string>)
    ensures lines != [] && forall i :: 0 <= i < |lines| ==> '\n' !in lines[i]
  {
    if s == "" then [""]
    else
      var rest := SplitLines(s[1..]);
      if s[0] == '\n' then [""] + rest else [[s[0]] + rest[0]] + rest[1..]
  }

  predicate StartsWith(s: string, prefix: string) {
    |prefix| <= |s| && s[..|prefix|] == prefix
  }

  /** The last `event: ` line names the event, the last `data: ` line is its data. */
  function ReadFields(lines: seq<string>, soFar: Received): Received {
    if lines == [] then soFar
    else if StartsWith(lines[0], "event: ") then ReadFields(lines[1..], soFar.(name := lines[0][7..]))
    else if StartsWith(lines[0], "data: ") then ReadFields(lines[1..], soFar.(data := lines[0][6..]))
    else ReadFields(lines[1..], soFar)
  }

  function ParseRaw(raw: string): Option<Received> {
    if StartsWith(raw, ":") then None
    else
      var r := ReadFields(SplitLines(raw), Received("message", ""));
      if r.data == "" then None else Some(r)
  }

  function Yielded(o: Option<Received>): seq<Received> {
    if o.Some? then [o.value] else []
  }

  /** The events that a buffer completes. */
  function Events(s: string): seq<Received>
    decreases |s|
  {
    var i := IndexOfSeparator(s);
    if i == |s| then [] else Yielded(ParseRaw(s[..i])) + Events(s[i + 2..])
  }

  /** What is left of a buffer once its events are taken out. */
  function Rest(s: string): string
    decreases |s|
  {
    var i := IndexOfSeparator(s);
    if i == |s| then s else Rest(s[i + 2..])
  }

  class StreamReader {
    var buffer: string

    constructor ()
      ensures buffer == ""
    {
      buffer := "";
    }

    /** One `reader.read()`: appends the decoded chunk and yields the events that are
        complete now. */
    method Read(chunk: string) returns (events: seq<Received>)
      modifies this
      ensures events == Events(old(buffer) + chunk) && buffer == Rest(old(buffer) + chunk)
      ensures !HoldsSeparator(buffer)
    {
      buffer := buffer + chunk;
      events := [];
      ghost var whole := buffer;
      while HoldsSeparator(buffer)
        invariant Events(whole) == events + Events(buffer) && Rest(whole) == Rest(buffer)
        decreases |buffer|
      {
        ghost var before := events;
        var event := TakeEvent();
        events := events + Yielded(event);
        RegroupedEvents(before, Yielded(event), Events(buffer));
      }
    }

    /** Cuts the first raw event off the buffer and parses it. */
    method TakeEvent() returns (event: Option<Received>)
      requires HoldsSeparator(buffer)
      modifies this
      ensures Events(old(buffer)) == Yielded(event) + Events(buffer)
      ensures Rest(old(buffer)) == Rest(buffer)
      ensures |buffer| < |old(buffer)|
    {
      var sepIndex := IndexOfSeparator(buffer);
      var rawEvent := buffer[..sepIndex];
      buffer := buffer[sepIndex + 2..];
      event := ParseEvent(rawEvent);
    }

    method ParseEvent(rawEvent: string) returns (event: Option<Received>)
      ensures event == ParseRaw(rawEvent)
    {
      if StartsWith(rawEvent, ":") {
        return None;
      }
      var r := ReadLines(SplitLines(rawEvent));
      return if r.data == "" then None else Some(r);
    }

    method ReadLines(lines: seq<string>) returns (r: Received)
      ensures r == ReadFields(lines, Received("message", ""))
    {
      r := Received("message", "");
      for i := 0 to |lines|
        invariant ReadFields(lines, Received("message", "")) == ReadFields(lines[i..], r)
      {
        assert lines[i..][1..] == lines[i + 1..];
        if StartsWith(lines[i], "event: ") {
          r := r.(name := lines[i][7..]);
        } else if StartsWith(lines[i], "data: ") {
          r := r.(data := lines[i][6..]);
        }
      }
      assert lines[|lines|..] == [];
    }
  }

  function Joined(chunks: seq<string>): string {
    if chunks == [] then "" else chunks[0] + Joined(chunks[1..])
  }

  /** What the client yields for chunks read one after the other. */
  function ReadAll(buffer: string, chunks: seq<string>): seq<Received>
    decreases |chunks|
  {
    if chunks == [] then []
    else Events(buffer + chunks[0]) + ReadAll(Rest(buffer + chunks[0]), chunks[1..])
  }

  /** What its buffer holds afterwards. */
  function LeftOver(buffer: string, chunks: seq<string>): string
    decreases |chunks|
  {
    if chunks == [] then buffer else LeftOver(Rest(buffer + chunks[0]), chunks[1..])
  }

  // ----- Cuts do not matter -----

  lemma {:induction false} SeparatorIsFirst(s: string, i: nat)
    requires i + 1 < |s| && s[i] == '\n' && s[i + 1] == '\n'
    requires forall k :: 0 <= k < i ==> !(s[k] == '\n' && s[k + 1] == '\n')
    ensures IndexOfSeparator(s) == i
  {
    var j := IndexOfSeparator(s);
  }

  lemma NothingYet(a: string)
    requires IndexOfSeparator(a) == |a|
    ensures Events(a) == [] && Rest(a) == a
  {}

  lemma FirstEvent(a: string, i: nat)
    requires i == IndexOfSeparator(a) < |a|
    ensures Events(a) == Yielded(ParseRaw(a[..i])) + Events(a[i + 2..]) && Rest(a) == Rest(a[i + 2..])
  {}

  lemma {:induction false} ReadInTwo(a: string, b: string)
    ensures Events(a + b) == Events(a) + Events(Rest(a) + b)
    ensures Rest(a + b) == Rest(Rest(a) + b)
    decreases |a|
  {
    var i := IndexOfSeparator(a);
    if i == |a| {
      NothingYet(a);
    } else {
      var more := a[i + 2..];
      FirstEvent(a, i);
      FirstSeparator(a, b, i);
      ReadInTwo(more, b);
      RegroupedEvents(Yielded(ParseRaw(a[..i])), Events(more), Events(Rest(more) + b));
    }
  }

  lemma RegroupedEvents(a: seq<Received>, b: seq<Received>, c: seq<Received>)
    ensures a + (b + c) == a + b + c
  {}

  lemma FirstSeparator(a: string, b: string, i: nat)
    requires i == IndexOfSeparator(a) < |a|
    ensures Events(a + b) == Yielded(ParseRaw(a[..i])) + Events(a[i + 2..] + b)
    ensures Rest(a + b) == Rest(a[i + 2..] + b)
  {
    SumFrom(a, b, i + 2);
    SumFrom(a, b, i);
    SeparatorIsFirst(a + b, i);
    FirstEvent(a + b, i);
  }

  lemma SumFrom(a: string, b: string, k: nat)
    requires k <= |a|
    ensures (a + b)[..k] == a[..k] && (a + b)[k..] == a[k..] + b
  {}

  lemma {:induction false} RestHoldsNothing(s: string)
    ensures !HoldsSeparator(Rest(s))
    decreases |s|
  {
    if !HoldsSeparator(s) {
    } else {
      RestHoldsNothing(s[IndexOfSeparator(s) + 2..]);
    }
  }

  lemma Regrouped(a: string, b: string, c: string)
    ensures a + (b + c) == a + b + c
  {}

  /** What is parsed depends on the text alone, not on where the network cut it. */
  lemma {:induction false} CutsDoNotMatter(buffer: string, chunks: seq<string>)
    requires !HoldsSeparator(buffer)
    ensures ReadAll(buffer, chunks) == Events(buffer + Joined(chunks))
    ensures LeftOver(buffer, chunks) == Rest(buffer + Joined(chunks))
    decreases |chunks|
  {
    if chunks == [] {
      assert buffer + "" == buffer;
    } else {
      var first, more := buffer + chunks[0], Joined(chunks[1..]);
      RestHoldsNothing(first);
      CutsDoNotMatter(Rest(first), chunks[1..]);
      ReadInTwo(first, more);
      Regrouped(buffer, chunks[0], more);
    }
  }

  // ----- Round trip -----

  /** What `json.dumps` produces is non-empty and has no raw newline. */
  predicate Clean(f: Frame) {
    match f
    case Event(name, data) => OneLine(name) && OneLine(data) && data != ""
    case Comment(text) => OneLine(text)
  }

  lemma {:induction false} SplitOneLine(s: string)
    requires OneLine(s)
    ensures SplitLines(s) == [s]
  {
    if s == "" {
    } else {
      SplitOneLine(s[1..]);
      assert [s[0]] + s[1..] == s;
      assert '\n' !in s[1..] && s[0] != '\n';
    }
  }

  lemma {:induction false} SplitAtNewline(s: string, rest: string)
    requires OneLine(s)
    ensures SplitLines(s + "\n" + rest) == [s] + SplitLines(rest)
  {
    var t := s + "\n" + rest;
    if s == "" {
      assert t == ['\n'] + rest;
      assert t[1..] == rest;
    } else {
      assert t[1..] == s[1..] + "\n" + rest && t[0] == s[0] && t != "";
      SplitAtNewline(s[1..], rest);
      assert [s[0]] + s[1..] == s;
      assert ([s[1..]] + SplitLines(rest))[1..] == SplitLines(rest);
    }
  }

  lemma Prefixed(prefix: string, s: string)
    ensures StartsWith(prefix + s, prefix) && (prefix + s)[|prefix|..] == s
  {}

  lemma NotAnEvent(data: string)
    ensures !StartsWith("data: " + data, "event: ")
  {
    assert ("data: " + data)[0] == 'd';
  }

  lemma ReadLine(line: string, others: seq<string>, soFar: Received)
    ensures StartsWith(line, "event: ") ==>
              ReadFields([line] + others, soFar) == ReadFields(others, soFar.(name := line[7..]))
    ensures !StartsWith(line, "event: ") && StartsWith(line, "data: ") ==>
              ReadFields([line] + others, soFar) == ReadFields(others, soFar.(data := line[6..]))
  {
    assert ([line] + others)[1..] == others;
  }

  lemma ReadTwoLines(name: string, data: string)
    ensures ReadFields(["event: " + name] + ["data: " + data], Received("message", "")) == Received(name, data)
  {
    var e, d := "event: " + name, "data: " + data;
    Prefixed("event: ", name);
    Prefixed("data: ", data);
    NotAnEvent(data);
    ReadLine(e, [d], Received("message", ""));
    ReadLine(d, [], Received(name, ""));
    assert [d] + [] == [d];
  }

  lemma ParsePrinted(name: string, data: string)
    requires Clean(Event(name, data))
    ensures ParseRaw("event: " + name + "\ndata: " + data) == Some(Received(name, data))
  {
    var e, d := "event: " + name, "data: " + data;
    assert e + "\ndata: " + data == e + "\n" + d;
    SplitAtNewline(e, d);
    SplitOneLine(d);
    ReadTwoLines(name, data);
    assert (e + "\n" + d)[0] == 'e';
  }

  /** The raw text of a frame, without its separator. */
  function RawOf(f: Frame): string {
    match f
    case Event(name, data) => "event: " + name + "\ndata: " + data
    case Comment(text) => ":" + text
  }

  lemma RawHasNoSeparator(f: Frame)
    requires Clean(f)
    ensures PrintFrame(f) == RawOf(f) + "\n\n" && |RawOf(f)| > 0 && RawOf(f)[|RawOf(f)| - 1] != '\n'
    ensures forall k :: 0 <= k < |RawOf(f)| - 1 ==> !(RawOf(f)[k] == '\n' && RawOf(f)[k + 1] == '\n')
  {
    var s := RawOf(f);
    match f {
      case Comment(text) =>
        forall k | 0 < k < |s| ensures s[k] != '\n' {
          assert s[k] == text[k - 1];
        }
      case Event(name, data) =>
        var e, d := "event: " + name, "data: " + data;
        assert s == e + "\n" + d;
        assert OneLine(e) && OneLine(d);
        forall k | 0 <= k < |s| && k != |e| ensures s[k] != '\n' {
          assert s[k] == if k < |e| then e[k] else d[k - |e| - 1];
        }
    }
  }

  lemma SeparatorAfterRaw(raw: string, rest: string)
    requires |raw| > 0 && raw[|raw| - 1] != '\n'
    requires forall k :: 0 <= k < |raw| - 1 ==> !(raw[k] == '\n' && raw[k + 1] == '\n')
    ensures Events(raw + "\n\n" + rest) == Yielded(ParseRaw(raw)) + Events(rest)
    ensures Rest(raw + "\n\n" + rest) == Rest(rest)
  {
    var s := raw + "\n\n" + rest;
    SeparatorIsFirst(s, |raw|);
    assert s[..|raw|] == raw && s[|raw| + 2..] == rest;
  }

  /** What the client yields for one frame: its event, or nothing for a comment. */
  lemma ReadPrintedFrame(f: Frame, rest: string)
    requires Clean(f)
    ensures Events(PrintFrame(f) + rest) == (if f.Event? then [Received(f.name, f.data)] else []) + Events(rest)
    ensures Rest(PrintFrame(f) + rest) == Rest(rest)
  {
    RawHasNoSeparator(f);
    SeparatorAfterRaw(RawOf(f), rest);
    if f.Event? {
      ParsePrinted(f.name, f.data);
    }
  }

  lemma {:induction false} ReadPrinted(fs: seq<Frame>)
    requires forall i :: 0 <= i < |fs| ==> Clean(fs[i])
    ensures Events(Print(fs)) == EventsOf(fs) && Rest(Print(fs)) == ""
  {
    if fs == [] {
    } else {
      ReadPrinted(fs[1..]);
      ReadPrintedFrame(fs[0], Print(fs[1..]));
    }
  }

  /** Round trip: whatever frames are sent, with comments between them, and however the
      network cuts them, the client gets exactly the events, in order, and keeps nothing. */
  lemma RoundTrip(fs: seq<Frame>, chunks: seq<string>)
    requires forall i :: 0 <= i < |fs| ==> Clean(fs[i])
    requires Joined(chunks) == Print(fs)
    ensures ReadAll("", chunks) == EventsOf(fs) && LeftOver("", chunks) == ""
  {
    CutsDoNotMatter("", chunks);
    assert "" + Joined(chunks) == Joined(chunks);
    ReadPrinted(fs);
  }

  /** A connection that drops early delivers a prefix of the events, none of them torn. */
  lemma DroppedConnection(fs: seq<Frame>, received: string, lost: string)
    requires forall i :: 0 <= i < |fs| ==> Clean(fs[i])
    requires received + lost == Print(fs)
    ensures Events(received) <= EventsOf(fs)
  {
    ReadInTwo(received, lost);
    ReadPrinted(fs);
  }

  predicate CleanReceived(r: Received) {
    OneLine(r.name) && OneLine(r.data) && r.data != ""
  }

  lemma {:induction false} FieldsAreClean(lines: seq<string>, soFar: Received)
    requires forall i :: 0 <= i < |lines| ==> OneLine(lines[i])
    requires OneLine(soFar.name) && OneLine(soFar.data)
    ensures OneLine(ReadFields(lines, soFar).name) && OneLine(ReadFields(lines, soFar).data)
    decreases |lines|
  {
    if lines == [] {
    } else {
      var next := if StartsWith(lines[0], "event: ") then soFar.(name := lines[0][7..])
                  else if StartsWith(lines[0], "data: ") then soFar.(data := lines[0][6..])
                  else soFar;
      FieldsAreClean(lines[1..], next);
    }
  }

  lemma {:induction false} ParsedIsClean(s: string)
    ensures forall i :: 0 <= i < |Events(s)| ==> CleanReceived(Events(s)[i])
    decreases |s|
  {
    var i := IndexOfSeparator(s);
    if i >= |s| {
    } else {
      ParsedIsClean(s[i + 2..]);
      FieldsAreClean(SplitLines(s[..i]), Received("message", ""));
    }
  }

  lemma {:induction false} EventsOfIndex(fs: seq<Frame>, i: nat)
    requires i < |fs| && fs[i].Event?
    ensures Received(fs[i].name, fs[i].data) in EventsOf(fs)
  {
    if i <= 0 {
    } else {
      EventsOfIndex(fs[1..], i - 1);
    }
  }

  /** The round trip needs what `json.dumps` gives, and no more: with one-line comments,
      the events arrive unchanged if and only if each has a one-line name and a
      non-empty one-line payload. */
  lemma RoundTripExactly(fs: seq<Frame>)
    requires forall i :: 0 <= i < |fs| && fs[i].Comment? ==> Clean(fs[i])
    ensures Events(Print(fs)) == EventsOf(fs) <==> forall i :: 0 <= i < |fs| ==> Clean(fs[i])
  {
    if forall i :: 0 <= i < |fs| ==> Clean(fs[i]) {
      ReadPrinted(fs);
    } else if Events(Print(fs)) == EventsOf(fs) {
      var i :| 0 <= i < |fs| && !Clean(fs[i]);
      ParsedIsClean(Print(fs));
      EventsOfIndex(fs, i);
    }
  }
}
