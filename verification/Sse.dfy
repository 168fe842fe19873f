/** The server-sent events wire: writeSSE on the server, parseSSEFrames and the buffer loop of
    readPresentationStream in the browser. The format is that of sections 9.2.5 and 9.2.6 of the
    WHATWG HTML Living Standard, restricted to the "event" and "data" fields. */
module Sse {
  import opened Splitting
  import opened Text

  datatype Frame = Frame(event: string, data: string)

  datatype Parsed = Parsed(frames: seq<Frame>, remainder: string)

  // ----- The writer

  /** The lines a frame is written as. */
  function FrameLines(f: Frame): seq<string> {
    ["event: " + f.event] + DataLines(Split(ReplaceAll(f.data, "\r\n", "\n"), "\n"))
  }

  function DataLines(lines: seq<string>): (r: seq<string>)
    ensures |r| == |lines|
    ensures forall i :: 0 <= i < |lines| ==> r[i] == "data: " + lines[i]
  {
    if lines == [] then [] else ["data: " + lines[0]] + DataLines(lines[1..])
  }

  function Terminated(lines: seq<string>): string {
    if lines == [] then "" else lines[0] + "\n" + Terminated(lines[1..])
  }

  function FrameText(f: Frame): string {
    Terminated(FrameLines(f)) + "\n"
  }

  function Wire(frames: seq<Frame>): string {
    if frames == [] then "" else FrameText(frames[0]) + Wire(frames[1..])
  }

  lemma TerminatedStep(line: string, lines: seq<string>)
    ensures Terminated([line] + lines) == line + "\n" + Terminated(lines)
  {
    assert ([line] + lines)[1..] == lines;
  }

  lemma {:induction false} TerminatedSnoc(lines: seq<string>, line: string)
    ensures Terminated(lines + [line]) == Terminated(lines) + line + "\n"
  {
    hide Terminated;
    if lines == [] {
      TerminatedStep(line, []);
      assert lines + [line] == [line] + [];
      assert Terminated([]) == "" by { TerminatedNone(); }
      assert line + "\n" + "" == "" + line + "\n";
    } else {
      var rest := lines[1..];
      TerminatedSnoc(rest, line);
      TerminatedStep(lines[0], rest);
      TerminatedStep(lines[0], rest + [line]);
      assert lines == [lines[0]] + rest && lines + [line] == [lines[0]] + (rest + [line]);
      assert lines[0] + "\n" + (Terminated(rest) + line + "\n") == (lines[0] + "\n" + Terminated(rest)) + line + "\n";
    }
  }

  lemma TerminatedNone()
    ensures Terminated([]) == ""
  {
  }

  lemma {:induction false} TerminatedIsJoin(lines: seq<string>)
    requires lines != []
    ensures Terminated(lines) == JoinWith(lines, "\n") + "\n"
    decreases |lines|
  {
    hide Terminated, JoinWith;
    var rest := lines[1..];
    assert lines == [lines[0]] + rest;
    TerminatedStep(lines[0], rest);
    JoinStep(lines[0], rest, "\n");
    if rest == [] {
      TerminatedNone();
      assert lines[0] + "\n" + "" == lines[0] + "\n";
    } else {
      TerminatedIsJoin(rest);
      assert lines[0] + "\n" + (JoinWith(rest, "\n") + "\n") == lines[0] + "\n" + JoinWith(rest, "\n") + "\n";
    }
  }

  lemma {:induction false} DataLinesJoined(lines: seq<string>)
    requires lines != []
    ensures JoinWith(DataLines(lines), "\n") == "data: " + JoinWith(lines, "\ndata: ")
    decreases |lines|
  {
    hide JoinWith, DataLines;
    var rest := lines[1..];
    assert lines == [lines[0]] + rest && DataLines(lines) == ["data: " + lines[0]] + DataLines(rest);
    JoinStep(lines[0], rest, "\ndata: ");
    JoinStep("data: " + lines[0], DataLines(rest), "\n");
    if rest != [] {
      DataLinesJoined(rest);
      assert "data: " + lines[0] + "\n" + ("data: " + JoinWith(rest, "\ndata: "))
             == "data: " + (lines[0] + "\ndata: " + JoinWith(rest, "\ndata: "));
    }
  }

  /** The written text: the event line, then the data with "data: " at the start of each of its lines, line breaks of
      either kind read as line feeds, then an empty line. */
  lemma FrameTextIs(f: Frame)
    ensures FrameText(f) == "event: " + f.event + "\n" + "data: "
                            + ReplaceAll(ReplaceAll(f.data, "\r\n", "\n"), "\n", "\ndata: ") + "\n\n"
  {
    hide JoinWith, DataLines, Terminated, Split;
    var text := ReplaceAll(f.data, "\r\n", "\n");
    var lines := Split(text, "\n");
    DataLinesJoined(lines);
    TerminatedStep("event: " + f.event, DataLines(lines));
    TerminatedIsJoin(DataLines(lines));
    var body := "data: " + JoinWith(lines, "\ndata: ");
    assert FrameText(f) == "event: " + f.event + "\n" + (body + "\n") + "\n";
    assert "event: " + f.event + "\n" + (body + "\n") + "\n"
           == "event: " + f.event + "\n" + "data: " + JoinWith(lines, "\ndata: ") + "\n\n";
  }

  /** What an HTTP response has been sent so far. */
  class ResponseWriter {
    var written: string

    constructor ()
      ensures written == ""
    {
      written := "";
    }

    method WriteSse(event: string, data: string)
      modifies this
      ensures written == old(written) + FrameText(Frame(event, data))
      ensures written == old(written) + ("event: " + event + "\n" + "data: "
                                         + ReplaceAll(ReplaceAll(data, "\r\n", "\n"), "\n", "\ndata: ") + "\n\n")
    {
      FrameTextIs(Frame(event, data));
      hide Terminated, Split, ReplaceAll, DataLines;
      written := written + "event: " + event + "\n";
      var lines := Split(ReplaceAll(data, "\r\n", "\n"), "\n");
      var all := FrameLines(Frame(event, data));
      WrittenFirst(event);
      for i := 0 to |lines|
        invariant written == old(written) + Terminated(all[..i + 1])
      {
        TerminatedSnoc(all[..i + 1], all[i + 1]);
        assert all[..i + 2] == all[..i + 1] + [all[i + 1]];
        written := written + "data: " + lines[i] + "\n";
      }
      assert all[..|lines| + 1] == all;
      written := written + "\n";
    }
  }

  lemma WrittenFirst(event: string)
    ensures Terminated(["event: " + event]) == "event: " + event + "\n"
  {
    TerminatedNone();
    TerminatedStep("event: " + event, []);
    assert ["event: " + event] + [] == ["event: " + event];
  }

  // ----- The parser

  /** The frame read from one part: the last event line wins, data lines are joined. */
  function ParseLines(lines: seq<string>, event: string, data: seq<string>): Frame
    decreases |lines|
  {
    if lines == [] then Frame(event, JoinWith(data, "\n"))
    else
      ParseLines(
        lines[1..],
        if "event: " <= lines[0] then lines[0][7..] else event,
        if "data: " <= lines[0] then data + [lines[0][6..]] else data)
  }

  function ParseFrame(part: string): Frame {
    ParseLines(Split(part, "\n"), "message", [])
  }

  function ParseFrames(parts: seq<string>): (r: seq<Frame>)
    ensures |r| == |parts|
    ensures forall i :: 0 <= i < |parts| ==> r[i] == ParseFrame(parts[i])
  {
    if parts == [] then [] else [ParseFrame(parts[0])] + ParseFrames(parts[1..])
  }

  /** Whole frames end with an empty line; what follows the last one is kept for later. */
  function Parse(buffer: string): Parsed {
    var parts := Split(buffer, "\n\n");
    Parsed(ParseFrames(parts[..|parts| - 1]), parts[|parts| - 1])
  }

  method ParseSseFrames(buffer: string) returns (frames: seq<Frame>, remainder: string)
    ensures Parsed(frames, remainder) == Parse(buffer)
  {
    hide Split, ParseLines;
    var parts := Split(buffer, "\n\n");
    remainder := parts[|parts| - 1];
    parts := parts[..|parts| - 1];
    frames := [];
    for i := 0 to |parts|
      invariant frames == ParseFrames(parts[..i])
    {
      var event, data := "message", [];
      var lines := Split(parts[i], "\n");
      for j := 0 to |lines|
        invariant ParseLines(lines, "message", []) == ParseLines(lines[j..], event, data)
      {
        ParseLinesStep(lines, j, event, data);
        if "event: " <= lines[j] { event := lines[j][7..]; }
        if "data: " <= lines[j] { data := data + [lines[j][6..]]; }
      }
      assert lines[|lines|..] == [];
      ParseLinesEnd(event, data);
      assert Frame(event, JoinWith(data, "\n")) == ParseFrame(parts[i]);
      assert parts[..i + 1] == parts[..i] + [parts[i]];
      ParseFramesAppend(parts[..i], [parts[i]]);
      frames := frames + [Frame(event, JoinWith(data, "\n"))];
    }
    assert parts[..|parts|] == parts;
  }

  lemma ParseLinesStep(lines: seq<string>, j: nat, event: string, data: seq<string>)
    requires j < |lines|
    ensures ParseLines(lines[j..], event, data) ==
            ParseLines(lines[j + 1..],
                       if "event: " <= lines[j] then lines[j][7..] else event,
                       if "data: " <= lines[j] then data + [lines[j][6..]] else data)
  {
    assert lines[j..][1..] == lines[j + 1..];
  }

  predicate HasData(lines: seq<string>, data: seq<string>) {
    data != [] || exists i :: 0 <= i < |lines| && "data: " <= lines[i]
  }

  /** What one more line does to a frame: an event line names it, a data line adds a line to its data, and any
      other line does nothing. */
  lemma {:induction false} OneMoreLine(lines: seq<string>, line: string, event: string, data: seq<string>)
    ensures var f, g := ParseLines(lines, event, data), ParseLines(lines + [line], event, data);
            && g.event == (if "event: " <= line then line[7..] else f.event)
            && g.data == (if !("data: " <= line) then f.data
                          else if HasData(lines, data) then f.data + "\n" + line[6..] else line[6..])
    decreases |lines|
  {
    hide JoinWith;
    if lines == [] {
      assert [] + [line] == [line] && [line][1..] == [];
      JoinSnoc(data, line[if "data: " <= line then 6 else 0..]);
    } else {
      var event', data' := if "event: " <= lines[0] then lines[0][7..] else event,
                           if "data: " <= lines[0] then data + [lines[0][6..]] else data;
      OneMoreLine(lines[1..], line, event', data');
      assert (lines + [line])[1..] == lines[1..] + [line];
      assert HasData(lines[1..], data') <==> HasData(lines, data) by { HasDataStep(lines, data); }
    }
  }

  lemma HasDataStep(lines: seq<string>, data: seq<string>)
    requires lines != []
    ensures HasData(lines[1..], if "data: " <= lines[0] then data + [lines[0][6..]] else data) <==> HasData(lines, data)
  {
    assert forall i :: 0 <= i < |lines| - 1 ==> lines[1..][i] == lines[i + 1];
    if i :| 0 <= i < |lines| && "data: " <= lines[i] {
      if i > 0 { assert "data: " <= lines[1..][i - 1]; }
    }
  }

  lemma {:induction false} JoinSnoc(parts: seq<string>, part: string)
    ensures JoinWith(parts + [part], "\n") == if parts == [] then part else JoinWith(parts, "\n") + "\n" + part
    decreases |parts|
  {
    hide JoinWith;
    if parts == [] {
      JoinStep(part, [], "\n");
      assert parts + [part] == [part] + [];
    } else {
      var rest := parts[1..];
      JoinSnoc(rest, part);
      JoinStep(parts[0], rest, "\n");
      JoinStep(parts[0], rest + [part], "\n");
      assert parts == [parts[0]] + rest && parts + [part] == [parts[0]] + (rest + [part]);
      if rest != [] {
        assert parts[0] + "\n" + (JoinWith(rest, "\n") + "\n" + part) == parts[0] + "\n" + JoinWith(rest, "\n") + "\n" + part;
      }
    }
  }

  predicate HasEvent(lines: seq<string>) {
    exists i :: 0 <= i < |lines| && "event: " <= lines[i]
  }

  predicate NamesLast(lines: seq<string>, i: nat) {
    i < |lines| && "event: " <= lines[i] && forall j :: i < j < |lines| ==> !("event: " <= lines[j])
  }

  /** The last event line names a frame, a frame without one is a message; without data lines its data is empty,
      and one more line adds to it as stated by OneMoreLine. */
  lemma FrameMeans(part: string)
    ensures var f, lines := ParseFrame(part), Split(part, "\n");
            && (!HasEvent(lines) ==> f.event == "message")
            && (forall i: nat :: NamesLast(lines, i) ==> f.event == lines[i][7..])
            && (!HasData(lines, []) ==> f.data == "")
  {
    hide Split, ParseLines, HasEvent, HasData, NamesLast;
    LinesMean(Split(part, "\n"));
  }

  lemma {:induction false} LinesMean(lines: seq<string>)
    ensures var f := ParseLines(lines, "message", []);
            && (!HasEvent(lines) ==> f.event == "message")
            && (forall i: nat :: NamesLast(lines, i) ==> f.event == lines[i][7..])
            && (!HasData(lines, []) ==> f.data == "")
  {
    ParseLinesEnd("message", []);
    if lines != [] {
      hide ParseLines;
      var n := |lines| - 1;
      var before, line := lines[..n], lines[n];
      assert lines == before + [line];
      LinesMean(before);
      OneMoreLine(before, line, "message", []);
      forall i: nat | NamesLast(lines, i) ensures i == n || NamesLast(before, i) {}
      assert !HasData(lines, []) ==> !("data: " <= line) && !HasData(before, []);
      assert !HasEvent(lines) ==> !("event: " <= line) && !HasEvent(before);
    }
  }

  lemma ParseLinesEnd(event: string, data: seq<string>)
    ensures ParseLines([], event, data) == Frame(event, JoinWith(data, "\n"))
  {
  }

  // ----- Independence of the network's pieces

  lemma ParseFramesAppend(a: seq<string>, b: seq<string>)
    ensures ParseFrames(a + b) == ParseFrames(a) + ParseFrames(b)
  {
    hide ParseFrames, ParseFrame;
    assert ParseFrames(a + b) == ParseFrames(a) + ParseFrames(b);
  }

  /** Parsing a text in two pieces is parsing the whole: the remainder of the first piece goes before the second. */
  lemma ParseInTwo(a: string, b: string)
    ensures var first := Parse(a);
            var second := Parse(first.remainder + b);
            Parse(a + b) == Parsed(first.frames + second.frames, second.remainder)
  {
    hide Split, ParseFrames;
    SplitAppend(a, b, "\n\n");
    var parts := Split(a, "\n\n");
    var k := |parts| - 1;
    var rest := Split(parts[k] + b, "\n\n");
    ParseFramesAppend(parts[..k], rest[..|rest| - 1]);
    assert (parts[..k] + rest)[..k + |rest| - 1] == parts[..k] + rest[..|rest| - 1];
  }

  /** What the buffer loop has rendered and kept after a list of pieces. */
  function Fed(pieces: seq<string>): Parsed {
    if pieces == [] then Parsed([], "")
    else
      var before := Fed(pieces[..|pieces| - 1]);
      var now := Parse(before.remainder + pieces[|pieces| - 1]);
      Parsed(before.frames + now.frames, now.remainder)
  }

  /** For arbitrary text in arbitrary pieces, the loop renders what parsing the whole text gives. */
  lemma {:induction false} FedIsParse(pieces: seq<string>)
    ensures Fed(pieces) == Parse(Concat(pieces))
  {
    hide Parse, Concat;
    if pieces == [] {
      ParseNothing();
    } else {
      var k := |pieces| - 1;
      FedIsParse(pieces[..k]);
      ParseInTwo(Concat(pieces[..k]), pieces[k]);
      ConcatSnoc(pieces[..k], pieces[k]);
      assert pieces == pieces[..k] + [pieces[k]];
    }
  }

  lemma ParseNothing()
    ensures Parse("") == Parsed([], "") && Concat([]) == ""
  {
  }

  /** The browser's reader: the text not yet parsed and the events handed on, in order. */
  class PresentationReader {
    var buffer: string
    var rendered: seq<Frame>
    ghost var received: string

    ghost predicate Valid()
      reads this
    {
      Parse(received) == Parsed(rendered, buffer)
    }

    constructor ()
      ensures Valid() && received == ""
    {
      buffer, rendered, received := "", [], "";
      new;
      ParseNothing();
    }

    /** One pass of the read loop. */
    method Read(value: string)
      requires Valid()
      modifies this
      ensures Valid() && received == old(received) + value
      ensures old(rendered) <= rendered
    {
      hide Parse;
      ParseInTwo(received, value);
      buffer := buffer + value;
      received := received + value;
      var frames, remainder := ParseSseFrames(buffer);
      buffer := remainder;
      for i := 0 to |frames|
        invariant rendered == old(rendered) + frames[..i]
        invariant buffer == remainder && received == old(received) + value
      {
        rendered := rendered + [frames[i]];
      }
      assert frames[..|frames|] == frames;
    }
  }

  // ----- The round trip

  /** A text that neither starts nor ends with a line feed and has no empty line. */
  predicate Solid(s: string) {
    && s != "" && s[0] != '\n' && s[|s| - 1] != '\n'
    && forall i :: 0 < i < |s| ==> s[i - 1] != '\n' || s[i] != '\n'
  }

  lemma SolidJoin(a: string, b: string)
    requires Solid(a) && Solid(b)
    ensures Solid(a + "\n" + b)
  {
    var s := a + "\n" + b;
    forall i | 0 < i < |s| ensures s[i - 1] != '\n' || s[i] != '\n' {
      if i < |a| {
        assert s[i - 1] == a[i - 1] && s[i] == a[i];
      } else if i > |a| + 1 {
        assert s[i - 1] == b[i - |a| - 2] && s[i] == b[i - |a| - 1];
      }
    }
  }

  lemma {:induction false} SolidLines(lines: seq<string>)
    requires lines != [] && forall i :: 0 <= i < |lines| ==> lines[i] != "" && OneLine(lines[i])
    ensures Solid(JoinWith(lines, "\n"))
    decreases |lines|
  {
    hide JoinWith, Solid;
    var rest := lines[1..];
    assert lines == [lines[0]] + rest;
    JoinStep(lines[0], rest, "\n");
    SolidLine(lines[0]);
    if rest != [] {
      SolidLines(rest);
      SolidJoin(lines[0], JoinWith(rest, "\n"));
    }
  }

  lemma SolidLine(line: string)
    requires line != "" && OneLine(line)
    ensures Solid(line)
  {
  }

  lemma SolidFirst(s: string)
    requires Solid(s)
    ensures FirstAtEnd(s, "\n\n")
  {
    forall i | 0 <= i < |s| ensures !("\n\n" <= (s + "\n\n")[i..]) {
      var t := (s + "\n\n")[i..];
      assert t[0] == s[i] && (i + 1 < |s| ==> t[1] == s[i + 1]);
      assert t[..2] == [t[0], t[1]];
    }
  }

  lemma FrameLinesAreLines(f: Frame)
    requires OneLine(f.event)
    ensures forall i :: 0 <= i < |FrameLines(f)| ==> FrameLines(f)[i] != "" && OneLine(FrameLines(f)[i])
  {
    hide Split, ReplaceAll;
    var lines := Split(ReplaceAll(f.data, "\r\n", "\n"), "\n");
    SplitLines(ReplaceAll(f.data, "\r\n", "\n"));
  }

  /** The text of a frame is its own part. */
  lemma FrameIsPart(f: Frame, rest: string)
    requires OneLine(f.event)
    ensures var body := JoinWith(FrameLines(f), "\n");
            && Split(FrameText(f) + rest, "\n\n") == [body] + Split(rest, "\n\n")
            && Split(body, "\n") == FrameLines(f)
  {
    hide Split, JoinWith, FrameLines, Terminated;
    var lines := FrameLines(f);
    FrameLinesAreLines(f);
    var body := JoinWith(lines, "\n");
    assert lines != [] by { SomeLines(f); }
    TerminatedIsJoin(lines);
    SolidLines(lines);
    SolidFirst(body);
    SplitFirst(body, "\n\n", rest);
    assert FrameText(f) + rest == body + "\n\n" + rest;
    SplitJoin(lines);
  }

  lemma SomeLines(f: Frame)
    ensures FrameLines(f) != []
  {
  }

  lemma {:induction false} ParseDataLines(lines: seq<string>, event: string, data: seq<string>)
    ensures ParseLines(DataLines(lines), event, data) == Frame(event, JoinWith(data + lines, "\n"))
    decreases |lines|
  {
    hide ParseLines, JoinWith, DataLines;
    var all := DataLines(lines);
    if lines == [] {
      ParseLinesEnd(event, data);
      assert data + lines == data;
    } else {
      DataLine(lines[0]);
      ParseLinesStep(all, 0, event, data);
      assert all[0..] == all && all[1..] == DataLines(lines[1..]);
      ParseDataLines(lines[1..], event, data + [lines[0]]);
      assert data + [lines[0]] + lines[1..] == data + lines;
    }
  }

  lemma DataLine(s: string)
    ensures var line := "data: " + s; "data: " <= line && !("event: " <= line) && line[6..] == s
  {
    var line := "data: " + s;
    assert line[0] == 'd' && "event: "[0] == 'e';
  }

  lemma EventLine(s: string)
    ensures var line := "event: " + s; "event: " <= line && !("data: " <= line) && line[7..] == s
  {
    var line := "event: " + s;
    assert line[0] == 'e' && "data: "[0] == 'd';
  }

  /** The frame a written event should come back as. */
  function Normal(f: Frame): Frame {
    Frame(f.event, ReplaceAll(f.data, "\r\n", "\n"))
  }

  function Normals(frames: seq<Frame>): (r: seq<Frame>)
    ensures |r| == |frames|
    ensures forall i :: 0 <= i < |frames| ==> r[i] == Normal(frames[i])
  {
    if frames == [] then [] else [Normal(frames[0])] + Normals(frames[1..])
  }

  lemma FrameReadBack(f: Frame)
    ensures ParseLines(FrameLines(f), "message", []) == Normal(f)
  {
    hide ParseLines, JoinWith, Split, ReplaceAll, DataLines;
    var text := ReplaceAll(f.data, "\r\n", "\n");
    var all := FrameLines(f);
    EventLine(f.event);
    ParseLinesStep(all, 0, "message", []);
    assert all[0..] == all && all[1..] == DataLines(Split(text, "\n"));
    ParseDataLines(Split(text, "\n"), f.event, []);
    assert [] + Split(text, "\n") == Split(text, "\n");
    JoinSplit(text, "\n");
  }

  predicate OneLineEvents(frames: seq<Frame>) {
    forall i :: 0 <= i < |frames| ==> OneLine(frames[i].event)
  }

  lemma {:induction false} WireReadBack(frames: seq<Frame>)
    requires OneLineEvents(frames)
    ensures Parse(Wire(frames)) == Parsed(Normals(frames), "")
    decreases |frames|
  {
    hide ParseLines, JoinWith, Split, FrameText, FrameLines, Normal;
    if frames == [] {
      ParseNothing();
    } else {
      var f, rest := frames[0], frames[1..];
      WireReadBack(rest);
      FrameIsPart(f, Wire(rest));
      FrameReadBack(f);
      var parts := Split(Wire(rest), "\n\n");
      var body := JoinWith(FrameLines(f), "\n");
      assert ([body] + parts)[..|parts|] == [body] + parts[..|parts| - 1];
      ParseFramesAppend([body], parts[..|parts| - 1]);
    }
  }

  lemma {:induction false} ParsedEventIsLine(lines: seq<string>, event: string, data: seq<string>)
    requires OneLine(event) && forall i :: 0 <= i < |lines| ==> OneLine(lines[i])
    ensures OneLine(ParseLines(lines, event, data).event)
    decreases |lines|
  {
    hide JoinWith;
    if lines != [] {
      ParsedEventIsLine(
        lines[1..],
        if "event: " <= lines[0] then lines[0][7..] else event,
        if "data: " <= lines[0] then data + [lines[0][6..]] else data);
    }
  }

  /** No parser result has a line feed in an event name. */
  lemma ParsedEventsAreLines(buffer: string)
    ensures OneLineEvents(Parse(buffer).frames)
  {
    hide ParseLines, Split;
    var parts := Split(buffer, "\n\n");
    forall i | 0 <= i < |parts| - 1 ensures OneLine(ParseFrame(parts[i]).event) {
      SplitLines(parts[i]);
      ParsedEventIsLine(Split(parts[i], "\n"), "message", []);
    }
  }

  /** The round trip, exactly: a list of written events comes back as it went, with nothing left over, if
      and only if no event name has a line feed in it. Any data does. */
  lemma RoundTripExactly(frames: seq<Frame>)
    ensures Parse(Wire(frames)) == Parsed(Normals(frames), "") <==> OneLineEvents(frames)
  {
    hide Parse, Wire, OneLine;
    ParsedEventsAreLines(Wire(frames));
    if OneLineEvents(frames) { WireReadBack(frames); }
    if Parse(Wire(frames)) == Parsed(Normals(frames), "") {
      forall i | 0 <= i < |frames| ensures OneLine(frames[i].event) {
        assert OneLine(Parse(Wire(frames)).frames[i].event);
      }
    }
  }

  /** Whatever pieces the network cuts the wire into, the browser renders the written events. */
  lemma AnyPieces(frames: seq<Frame>, pieces: seq<string>)
    requires OneLineEvents(frames) && Concat(pieces) == Wire(frames)
    ensures Fed(pieces) == Parsed(Normals(frames), "")
  {
    hide Parse, Wire, Concat, Fed;
    FedIsParse(pieces);
    WireReadBack(frames);
  }
}
