/** The client's side of the frames: an event stream parser as section 9.2.6 of the
    WHATWG HTML Standard describes it, as far as the fields a frame has. */
module EventStream {
  import opened Sse

  /** The event type and data buffers. */
  datatype Buffers = Buffers(event: string, data: string)

  const EMPTY := Buffers("", "")

  predicate Ends(c: char) { c == '\n' || c == '\r' }

  predicate Unbroken(s: string) {
    forall i :: 0 <= i < |s| ==> !Ends(s[i])
  }

  /** Where the first line ends: a line feed, a carriage return, or both as one. */
  function LineEnd(text: string): (n: nat)
    ensures n <= |text|
  {
    if text == "" || Ends(text[0]) then 0 else 1 + LineEnd(text[1..])
  }

  function NextLine(text: string): (rest: string)
    requires LineEnd(text) < |text|
    ensures |rest| < |text|
  {
    var n := LineEnd(text);
    if text[n] == '\r' && n + 1 < |text| && text[n + 1] == '\n' then text[n + 2..] else text[n + 1..]
  }

  /** Where the first colon of a line is. */
  function Colon(line: string): (n: nat)
    ensures n <= |line|
  {
    if line == "" || line[0] == ':' then 0 else 1 + Colon(line[1..])
  }

  function Name(line: string): string { line[..Colon(line)] }

  /** What follows the colon, without one leading space. */
  function Value(line: string): string {
    var tail := if Colon(line) < |line| then line[Colon(line) + 1..] else "";
    if tail != "" && tail[0] == ' ' then tail[1..] else tail
  }

  function Absorb(b: Buffers, line: string): Buffers {
    match Name(line)
    case "event" => b.(event := Value(line))
    case "data" => b.(data := b.data + Value(line) + "\n")
    case _ => b
  }

  function Dispatch(b: Buffers): seq<Frame> {
    if b.data == "" then [] else [Frame(b.event, b.data[..|b.data| - 1])]
  }

  function Parse(text: string, b: Buffers): seq<Frame>
    decreases |text|
  {
    if LineEnd(text) == |text| then []
    else if LineEnd(text) == 0 then Dispatch(b) + Parse(NextLine(text), EMPTY)
    else Parse(NextLine(text), Absorb(b, text[..LineEnd(text)]))
  }

  lemma {:induction false} LineEndAt(line: string, rest: string)
    requires Unbroken(line)
    ensures LineEnd(line + "\n" + rest) == |line| && NextLine(line + "\n" + rest) == rest
  {
    var text := line + "\n" + rest;
    if line != "" {
      LineEndAt(line[1..], rest);
      assert text[1..] == line[1..] + "\n" + rest;
    }
  }

  lemma {:induction false} ColonAt(name: string, tail: string)
    requires ':' !in name
    ensures Colon(name + ":" + tail) == |name|
  {
    if name != "" {
      ColonAt(name[1..], tail);
      assert (name + ":" + tail)[1..] == name[1..] + ":" + tail;
    }
  }

  function FieldLine(name: string, value: string): string { name + ":" + (" " + value) }

  lemma AbsorbEvent(b: Buffers, value: string)
    ensures Absorb(b, FieldLine("event", value)) == b.(event := value)
  {
    var line := FieldLine("event", value);
    ColonAt("event", " " + value);
    assert Name(line) == "event" && Value(line) == value;
  }

  lemma AbsorbData(b: Buffers, value: string)
    ensures Absorb(b, FieldLine("data", value)) == b.(data := b.data + value + "\n")
  {
    var line := FieldLine("data", value);
    ColonAt("data", " " + value);
    assert Name(line) == "data" && Value(line) == value;
  }

  lemma ParseLine(line: string, rest: string, b: Buffers)
    requires Unbroken(line) && line != ""
    ensures Parse(line + "\n" + rest, b) == Parse(rest, Absorb(b, line))
  {
    LineEndAt(line, rest);
    assert (line + "\n" + rest)[..|line|] == line;
  }

  lemma ParseBlank(rest: string, b: Buffers)
    ensures Parse("\n" + rest, b) == Dispatch(b) + Parse(rest, EMPTY)
  {
    LineEndAt("", rest);
    assert "" + "\n" + rest == "\n" + rest;
  }

  /** The lines of a frame that carry its body. */
  function BodyLines(body: string, rest: string): string { FieldLine("data", body) + "\n" + ("\n" + rest) }

  lemma DispatchBody(event: string, body: string)
    ensures Dispatch(Buffers(event, body + "\n")) == [Frame(event, body)]
  {
    assert (body + "\n")[..|body|] == body;
  }

  lemma FirstData(event: string, body: string)
    ensures Absorb(Buffers(event, ""), FieldLine("data", body)) == Buffers(event, body + "\n")
  {
    AbsorbData(Buffers(event, ""), body);
    assert "" + body + "\n" == body + "\n";
  }

  lemma ParseBody(event: string, body: string, rest: string)
    requires Unbroken(body)
    ensures Parse(BodyLines(body, rest), Buffers(event, "")) == [Frame(event, body)] + Parse(rest, EMPTY)
  {
    UnbrokenField("data", body);
    ParseLine(FieldLine("data", body), "\n" + rest, Buffers(event, ""));
    FirstData(event, body);
    ParseBlank(rest, Buffers(event, body + "\n"));
    DispatchBody(event, body);
  }

  lemma UnbrokenField(name: string, value: string)
    requires Unbroken(name) && Unbroken(value)
    ensures Unbroken(FieldLine(name, value)) && FieldLine(name, value) != ""
  {
  }

  lemma FrameLines(f: Frame, rest: string)
    ensures Print(f) + rest == if f.event == "" then BodyLines(f.body, rest)
                               else FieldLine("event", f.event) + "\n" + BodyLines(f.body, rest)
  {
    assert "data: " + f.body + "\n\n" + rest == BodyLines(f.body, rest);
    assert "event: " + f.event + "\n" == FieldLine("event", f.event) + "\n";
  }

  lemma ParseFrame(f: Frame, rest: string)
    requires Unbroken(f.event) && Unbroken(f.body)
    ensures Parse(Print(f) + rest, EMPTY) == [f] + Parse(rest, EMPTY)
  {
    FrameLines(f, rest);
    ParseBody(f.event, f.body, rest);
    if f.event != "" {
      UnbrokenField("event", f.event);
      ParseLine(FieldLine("event", f.event), BodyLines(f.body, rest), EMPTY);
      AbsorbEvent(EMPTY, f.event);
    }
  }

  /** A client that follows the standard gets back exactly the frames written, event
      names and all, if no name and no body contains a line break. */
  lemma {:induction false} ClientsGetTheFrames(fs: seq<Frame>)
    requires forall i :: 0 <= i < |fs| ==> Unbroken(fs[i].event) && Unbroken(fs[i].body)
    ensures Parse(PrintAll(fs), EMPTY) == fs
  {
    if fs != [] {
      ParseFrame(fs[0], PrintAll(fs[1..]));
      ClientsGetTheFrames(fs[1..]);
      assert fs == [fs[0]] + fs[1..];
    }
  }
}
