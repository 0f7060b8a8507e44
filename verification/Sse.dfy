/** Server-sent events, both ways: the frames the gateway writes to its clients
    (internal/core/diffractcontext.go) and the line loop that reads them from a
    provider (internal/providers/openai/handler.go). The format is section 9.2 of
    the WHATWG HTML Standard; text is valid UTF-8, taken as its code points. */
module Sse {
  import opened Wrappers
  import opened Text

  const DONE := "[DONE]"
  const DATA := "data:"

  /** The longest line the reader's buffer cannot hold, in bytes. */
  const MAX_LINE: nat := 1024 * 1024

  function Utf8Width(c: char): nat {
    var code := c as int;
    if code < 0x80 then 1 else if code < 0x800 then 2 else if code < 0x10000 then 3 else 4
  }

  function Utf8Len(s: string): nat {
    if s == "" then 0 else Utf8Width(s[0]) + Utf8Len(s[1..])
  }

  predicate TooLong(line: string) {
    Utf8Len(line) >= MAX_LINE
  }

  function DropCR(line: string): string {
    if line != "" && line[|line| - 1] == '\r' then line[..|line| - 1] else line
  }

  /** The payload of one line, if it is a data line with any. */
  function Payload(raw: string): Option<string> {
    var line := TrimSpace(DropCR(raw));
    if line == "" || line[0] == ':' || !(DATA <= line) then None
    else
      var delta := TrimSpace(line[|DATA|..]);
      if delta == "" then None else Some(delta)
  }

  /** What the line loop makes of a stream: the payloads in order, whether the
      closing frame was seen, and whether a line was too long to scan. */
  datatype Scan = Scan(deltas: seq<string>, closed: bool, tooLong: bool)

  function Prepend(deltas: seq<string>, rest: Scan): Scan {
    rest.(deltas := deltas + rest.deltas)
  }

  predicate OneLine(s: string) {
    forall i :: 0 <= i < |s| ==> s[i] != '\n'
  }

  function Break(text: string): (n: nat)
    ensures n <= |text| && OneLine(text[..n])
    ensures n < |text| ==> text[n] == '\n'
  {
    if text == "" || text[0] == '\n' then 0
    else
      assert text[..1 + Break(text[1..])] == [text[0]] + text[1..][..Break(text[1..])];
      1 + Break(text[1..])
  }

  function AfterLine(text: string): (rest: string)
    ensures text != "" ==> |rest| < |text|
  {
    if Break(text) < |text| then text[Break(text) + 1..] else ""
  }

  /** One line, ahead of what the lines after it give. */
  function Took(line: string, after: Scan): Scan {
    if TooLong(line) then Scan([], false, true)
    else
      match Payload(line)
      case None => after
      case Some(delta) => if delta == DONE then Scan([], true, false) else Prepend([delta], after)
  }

  function Read(text: string): Scan
    decreases |text|
  {
    if text == "" then Scan([], false, false) else Took(text[..Break(text)], Read(AfterLine(text)))
  }

  /** One event as written to the client. */
  datatype Frame = Frame(event: string, body: string)

  function Print(f: Frame): string {
    (if f.event == "" then "" else "event: " + f.event + "\n") + "data: " + f.body + "\n\n"
  }

  function PrintAll(fs: seq<Frame>): string {
    if fs == [] then "" else Print(fs[0]) + PrintAll(fs[1..])
  }

  function Closing(done: bool): string {
    if done then Print(Frame("", DONE)) else ""
  }

  function Bodies(fs: seq<Frame>): seq<string> {
    if fs == [] then [] else [fs[0].body] + Bodies(fs[1..])
  }

  predicate OneLineEach(fs: seq<Frame>) {
    forall i :: 0 <= i < |fs| ==> OneLine(fs[i].event) && OneLine(fs[i].body)
  }

  /** A frame whose lines fit the reader's buffer. */
  predicate Fits(f: Frame) {
    (f.event == "" || !TooLong("event: " + f.event)) && !TooLong("data: " + f.body)
  }

  /** What the reader should get from printed frames, frame by frame. */
  function Expected(fs: seq<Frame>, done: bool): Scan {
    if fs == [] then Scan([], done, false)
    else if !Fits(fs[0]) then Scan([], false, true)
    else TookBody(fs[0].body, Expected(fs[1..], done))
  }

  // ---- Reading one printed line.

  lemma {:induction false} BreakAt(line: string, rest: string)
    requires OneLine(line)
    ensures Break(line + "\n" + rest) == |line|
  {
    var text := line + "\n" + rest;
    if line != "" {
      BreakAt(line[1..], rest);
      assert text[1..] == line[1..] + "\n" + rest;
    }
  }

  lemma ReadLine(line: string, rest: string)
    requires OneLine(line)
    ensures Read(line + "\n" + rest) == Took(line, Read(rest))
  {
    var text := line + "\n" + rest;
    BreakAt(line, rest);
    assert text[..|line|] == line && text[|line| + 1..] == rest;
  }

  lemma {:induction false} TrimRightDropCR(s: string)
    ensures TrimRight(DropCR(s)) == TrimRight(s)
  {
  }

  lemma PayloadOfData(body: string)
    ensures Payload("data: " + body) == if TrimSpace(body) == "" then None else Some(TrimSpace(body))
  {
    var raw := "data: " + body;
    var head, tail := DATA, " " + body;
    assert raw == head + tail;
    TrimRightDropCR(raw);
    assert TrimLeft(DropCR(raw)) == DropCR(raw);
    TrimRightKeepsHead(head, tail);
    var line := head + TrimRight(tail);
    assert line[|DATA|..] == TrimRight(tail);
    TrimLeftOfTrimRight(tail);
    assert tail[1..] == body;
    TrimRightTwice(TrimLeft(body));
  }

  lemma PayloadOfEvent(name: string)
    ensures Payload("event: " + name) == None
  {
    var raw := "event: " + name;
    assert raw == "event:" + (" " + name);
    TrimRightDropCR(raw);
    assert TrimLeft(DropCR(raw)) == DropCR(raw);
    TrimRightKeepsHead("event:", " " + name);
  }

  /** What one data line with this body gives. */
  function TookBody(body: string, after: Scan): Scan {
    if TooLong("data: " + body) then Scan([], false, true)
    else if TrimSpace(body) == "" then after
    else if TrimSpace(body) == DONE then Scan([], true, false)
    else Prepend([TrimSpace(body)], after)
  }

  lemma TookData(body: string, after: Scan)
    ensures Took("data: " + body, after) == TookBody(body, after)
  {
    PayloadOfData(body);
  }

  lemma ReadBody(body: string, rest: string)
    requires OneLine(body)
    ensures Read(DataLines(body, rest)) == TookBody(body, Read(rest))
  {
    var line, blank := "data: " + body, "\n" + rest;
    OneLineAfter("data: ", body);
    ReadLine(line, blank);
    TookData(body, Read(blank));
    ReadEmpty(rest);
  }

  lemma ReadEmpty(rest: string)
    ensures Read("\n" + rest) == Read(rest)
  {
    ReadLine("", rest);
    assert "" + "\n" + rest == "\n" + rest;
    BlankLine(Read(rest));
  }

  lemma BlankLine(after: Scan)
    ensures Took("", after) == after
  {
    ShortEnough("");
  }

  lemma ReadEvent(name: string, rest: string)
    requires OneLine(name)
    ensures Read("event: " + name + "\n" + rest) == if TooLong("event: " + name) then Scan([], false, true)
        else Read(rest)
  {
    var line := "event: " + name;
    OneLineAfter("event: ", name);
    ReadLine(line, rest);
    TookEvent(name, Read(rest));
  }

  lemma TookEvent(name: string, after: Scan)
    ensures Took("event: " + name, after) == if TooLong("event: " + name) then Scan([], false, true) else after
  {
    PayloadOfEvent(name);
  }

  lemma OneLineAfter(head: string, s: string)
    requires OneLine(head) && OneLine(s)
    ensures OneLine(head + s)
  {
  }

  lemma ReadFrame(f: Frame, rest: string)
    requires OneLine(f.event) && OneLine(f.body)
    ensures Read(Print(f) + rest) == if !Fits(f) then Scan([], false, true) else TookBody(f.body, Read(rest))
  {
    var data := DataLines(f.body, rest);
    PrintedShape(f, rest);
    ReadBody(f.body, rest);
    if f.event != "" { ReadEvent(f.event, data); }
  }

  function DataLines(body: string, rest: string): string {
    "data: " + body + "\n" + ("\n" + rest)
  }

  lemma PrintedShape(f: Frame, rest: string)
    ensures Print(f) + rest == if f.event == "" then DataLines(f.body, rest)
                               else "event: " + f.event + "\n" + DataLines(f.body, rest)
  {
    assert "data: " + f.body + "\n\n" + rest == DataLines(f.body, rest);
  }

  /** A code point takes one to four bytes, and one exactly when it is ASCII. */
  lemma {:induction false} Utf8LenBound(s: string)
    ensures |s| <= Utf8Len(s) <= 4 * |s|
    ensures Utf8Len(s) == |s| <==> forall i :: 0 <= i < |s| ==> s[i] as int < 128
  {
    if s != "" {
      Utf8LenBound(s[1..]);
      assert forall i :: 0 <= i < |s| - 1 ==> s[1..][i] == s[i + 1];
      assert forall i :: 0 < i < |s| ==> s[i] == s[1..][i - 1];
    }
  }

  lemma DoneIsTrimmed()
    ensures TrimSpace(DONE) == DONE
  {
    assert DONE[0] == '[' && DONE[|DONE| - 1] == ']';
    assert TrimLeft(DONE) == DONE;
  }

  lemma ShortEnough(s: string)
    requires |s| < 100
    ensures !TooLong(s)
  {
    Utf8LenBound(s);
  }

  lemma ReadClosing()
    ensures Read(Closing(true)) == Scan([], true, false)
  {
    DoneIsTrimmed();
    ShortEnough("data: " + DONE);
    var f := Frame("", DONE);
    ReadFrame(f, "");
    assert Print(f) + "" == Closing(true);
  }

  /** What the reader gets from any printed frames, with or without the closing one. */
  lemma {:induction false} ReadPrinted(fs: seq<Frame>, done: bool)
    requires OneLineEach(fs)
    ensures Read(PrintAll(fs) + Closing(done)) == Expected(fs, done)
  {
    if fs == [] {
      assert PrintAll(fs) + Closing(done) == Closing(done);
      ReadClosing();
    } else {
      assert PrintAll(fs) + Closing(done) == Print(fs[0]) + (PrintAll(fs[1..]) + Closing(done));
      ReadFrame(fs[0], PrintAll(fs[1..]) + Closing(done));
      ReadPrinted(fs[1..], done);
    }
  }

  // ---- The round trip.

  /** A body that survives: one line, something in it, no outer white space, not the
      closing marker, and - with its event name - short enough to scan. */
  predicate Survives(f: Frame) {
    OneLine(f.body) && f.body != "" && TrimSpace(f.body) == f.body && f.body != DONE && Fits(f)
  }

  lemma {:induction false} SurvivorsAreExpected(fs: seq<Frame>, done: bool)
    ensures (forall i :: 0 <= i < |fs| ==> Survives(fs[i])) ==> Expected(fs, done) == Scan(Bodies(fs), done, false)
  {
    if fs != [] {
      SurvivorsAreExpected(fs[1..], done);
      if forall i :: 0 <= i < |fs| ==> Survives(fs[i]) {
        assert Survives(fs[0]);
        assert forall i :: 0 <= i < |fs| - 1 ==> fs[1..][i] == fs[i + 1];
      }
    }
  }

  lemma {:induction false} ExpectedAreSurvivors(fs: seq<Frame>)
    requires OneLineEach(fs) && Expected(fs, true) == Scan(Bodies(fs), true, false)
    ensures forall i :: 0 <= i < |fs| ==> Survives(fs[i])
  {
    if fs != [] {
      ExpectedIsShort(fs[1..], true);
      BodiesLength(fs[1..]);
      var delta := TrimSpace(fs[0].body);
      assert delta != "" && delta != DONE;
      var rest := Expected(fs[1..], true);
      assert Bodies(fs)[0] == ([delta] + rest.deltas)[0] && Bodies(fs)[1..] == ([delta] + rest.deltas)[1..];
      ExpectedAreSurvivors(fs[1..]);
      forall i | 0 <= i < |fs| ensures Survives(fs[i]) {
        if i > 0 { assert fs[i] == fs[1..][i - 1]; }
      }
    }
  }

  lemma {:induction false} BodiesLength(fs: seq<Frame>)
    ensures |Bodies(fs)| == |fs|
    ensures forall i :: 0 <= i < |fs| ==> Bodies(fs)[i] == fs[i].body
  {
    if fs != [] { BodiesLength(fs[1..]); }
  }

  lemma {:induction false} ExpectedIsShort(fs: seq<Frame>, done: bool)
    ensures |Expected(fs, done).deltas| <= |fs|
  {
    if fs != [] { ExpectedIsShort(fs[1..], done); }
  }

  lemma {:induction false} TrimKeepsOneLine(s: string)
    requires OneLine(s)
    ensures OneLine(TrimSpace(s)) && OneLine(DropCR(s))
  {
    TrimLeftIsSuffix(s);
    TrimRightIsPrefix(TrimLeft(s));
  }

  /** No payload ever contains a line break, whatever the stream. */
  lemma {:induction false} PayloadsAreOneLine(text: string)
    ensures forall i :: 0 <= i < |Read(text).deltas| ==> OneLine(Read(text).deltas[i])
    decreases |text|
  {
    if text != "" {
      var raw, after := text[..Break(text)], Read(AfterLine(text));
      PayloadIsOneLine(raw);
      PayloadsAreOneLine(AfterLine(text));
      assert Read(text) == Took(raw, after);
    }
  }

  lemma PayloadIsOneLine(raw: string)
    requires OneLine(raw)
    ensures Payload(raw).Some? ==> OneLine(Payload(raw).value)
  {
    TrimKeepsOneLine(raw);
    TrimKeepsOneLine(DropCR(raw));
    var line := TrimSpace(DropCR(raw));
    if DATA <= line { TrimKeepsOneLine(line[|DATA|..]); }
  }

  // ---- Any stream, line by line.

  /** Blank lines, comments and other fields give nothing, and end nothing. */
  lemma SkippedLine(line: string, rest: string)
    requires OneLine(line) && Utf8Len(line) < 1024 * 1024
    requires var trimmed := TrimSpace(line); trimmed == "" || trimmed[0] == ':' || !("data:" <= trimmed)
    ensures Read(line + "\n" + rest) == Read(rest)
  {
    ReadLine(line, rest);
    TrimDropsCR(line);
  }

  /** A data line gives its trimmed payload, or the close, or - empty - nothing. */
  lemma DataLine(line: string, payload: string, rest: string)
    requires OneLine(line) && Utf8Len(line) < 1024 * 1024 && TrimSpace(line) == "data:" + payload
    ensures var (delta, after) := (TrimSpace(payload), Read(rest));
            Read(line + "\n" + rest) == if delta == "" then after
                                        else if delta == "[DONE]" then Scan([], true, false)
                                        else Scan([delta] + after.deltas, after.closed, after.tooLong)
  {
    ReadLine(line, rest);
    TrimDropsCR(line);
    var trimmed := "data:" + payload;
    assert trimmed[0] == 'd' && trimmed[|DATA|..] == payload;
  }

  /** White space around the field name and the payload makes no difference. */
  lemma PaddedDataLine(left: string, gap: string, payload: string, right: string, rest: string)
    requires AllSpaces(left) && AllSpaces(gap) && AllSpaces(right) && Solid(payload) && payload != ""
    requires var line := left + "data:" + gap + payload + right; OneLine(line) && Utf8Len(line) < 1024 * 1024
    ensures var after := Read(rest);
            Read(left + "data:" + gap + payload + right + "\n" + rest) ==
              if payload == "[DONE]" then Scan([], true, false)
              else Scan([payload] + after.deltas, after.closed, after.tooLong)
  {
    var line, field := left + "data:" + gap + payload + right, "data:" + (gap + payload);
    assert line == left + field + right && field[0] == 'd' && field[|field| - 1] == payload[|payload| - 1];
    TrimPadded(left, field, right);
    assert gap + payload + "" == gap + payload;
    TrimPadded(gap, payload, "");
    DataLine(line, gap + payload, rest);
  }

  /** A line the buffer cannot hold ends the reading. */
  lemma LongLine(line: string, rest: string)
    requires OneLine(line) && Utf8Len(line) >= 1024 * 1024
    ensures Read(line + "\n" + rest) == Scan([], false, true)
  {
    ReadLine(line, rest);
  }

  /** The end of the stream ends its last line. */
  lemma LastLine(line: string)
    requires OneLine(line)
    ensures Read(line) == Read(line + "\n") && Read("") == Scan([], false, false)
  {
    assert line + "\n" + "" == line + "\n";
    ReadLine(line, "");
    if line == "" {
      BlankLine(Read(""));
    } else {
      BreakAt(line, "");
      BreakOfLine(line);
      assert line[..|line|] == line;
    }
  }

  lemma {:induction false} BreakOfLine(line: string)
    requires OneLine(line)
    ensures Break(line) == |line|
  {
    if line != "" { BreakOfLine(line[1..]); }
  }

  lemma TrimDropsCR(line: string)
    ensures TrimSpace(DropCR(line)) == TrimSpace(line)
  {
    TrimRightDropCR(line);
    TrimLeftOfTrimRight(line);
    TrimLeftOfTrimRight(DropCR(line));
  }

  /** The round trip, for all frames with one-line event names: the reader returns
      exactly the bodies, in order and with the stream closed, if and only if every
      frame survives. */
  lemma RoundTrip(fs: seq<Frame>)
    requires forall i :: 0 <= i < |fs| ==> OneLine(fs[i].event)
    ensures Read(PrintAll(fs) + Closing(true)) == Scan(Bodies(fs), true, false)
            <==> forall i :: 0 <= i < |fs| ==> Survives(fs[i])
  {
    if forall i :: 0 <= i < |fs| ==> Survives(fs[i]) {
      ReadPrinted(fs, true);
      SurvivorsAreExpected(fs, true);
    }
    if Read(PrintAll(fs) + Closing(true)) == Scan(Bodies(fs), true, false) {
      PayloadsAreOneLine(PrintAll(fs) + Closing(true));
      BodiesLength(fs);
      ReadPrinted(fs, true);
      ExpectedAreSurvivors(fs);
    }
  }

  /** Without the closing frame the same bodies come back and the stream counts as
      cut short. */
  lemma CutShort(fs: seq<Frame>)
    requires forall i :: 0 <= i < |fs| ==> OneLine(fs[i].event) && Survives(fs[i])
    ensures Read(PrintAll(fs)) == Scan(Bodies(fs), false, false)
  {
    ReadPrinted(fs, false);
    SurvivorsAreExpected(fs, false);
    assert PrintAll(fs) + Closing(false) == PrintAll(fs);
  }

  // ---- The code that writes and reads.

  /** Some first part of `buf` went out, and was counted. */
  ghost predicate Part(buf: string, sentBefore: string, sentAfter: string, bytesBefore: nat, bytesAfter: nat) {
    exists n :: 0 <= n <= |buf| && sentAfter == sentBefore + buf[..n] && bytesAfter == bytesBefore + Utf8Len(buf[..n])
  }

  /** The response side of a request context. */
  class Context {
    var sent: string
    var responseBytes: nat

    /** The bytes the client connection took of `buf`; it may break part-way. */
    method Write(buf: string) returns (ok: bool)
      modifies this
      ensures ok ==> sent == old(sent) + buf && responseBytes == old(responseBytes) + Utf8Len(buf)
      ensures !ok ==> Part(buf, old(sent), sent, old(responseBytes), responseBytes)
    {
      var n :| 0 <= n <= |buf|;
      ok := n == |buf|;
      sent, responseBytes := sent + buf[..n], responseBytes + Utf8Len(buf[..n]);
      assert n == |buf| ==> buf[..n] == buf;
    }

    method WriteSSE(event: string, body: string) returns (ok: bool)
      modifies this
      ensures ok ==> sent == old(sent) + Print(Frame(event, body))
                     && responseBytes == old(responseBytes) + Utf8Len(Print(Frame(event, body)))
      ensures !ok ==> Part(Print(Frame(event, body)), old(sent), sent, old(responseBytes), responseBytes)
    {
      var buf := "";
      if event != "" {
        buf := buf + "event: " + event + "\n";
      }
      buf := buf + "data: " + body + "\n\n";
      assert buf == Print(Frame(event, body));
      ok := Write(buf);
    }
  }

  /** The provider's line loop. */
  method ReadStream(text: string) returns (deltas: seq<string>, streamClosed: bool, scanError: bool)
    ensures Scan(deltas, streamClosed, scanError) == Read(text)
  {
    deltas, streamClosed, scanError := [], false, false;
    var rest := text;
    while rest != ""
      invariant Prepend(deltas, Read(rest)) == Read(text)
      decreases |rest|
    {
      var raw := rest[..Break(rest)];
      var next := AfterLine(rest);
      assert Read(rest) == Took(raw, Read(next));
      if TooLong(raw) { return deltas, false, true; }
      var line := TrimSpace(DropCR(raw));
      if line == "" || line[0] == ':' || !(DATA <= line) {
        rest := next;
        continue;
      }
      var delta := TrimSpace(line[|DATA|..]);
      if delta == "" {
        rest := next;
        continue;
      }
      if delta == DONE { return deltas, true, false; }
      PrependOne(deltas, delta, Read(next));
      deltas, rest := deltas + [delta], next;
    }
  }

  lemma PrependOne(deltas: seq<string>, delta: string, after: Scan)
    ensures Prepend(deltas, Prepend([delta], after)) == Prepend(deltas + [delta], after)
  {
    assert deltas + ([delta] + after.deltas) == deltas + [delta] + after.deltas;
  }
}
