/** The interpretation of an event stream by the WHATWG HTML Standard, section
    9.2.6, as a reference: on what the mock prints, the listener's reader
    (internal/sselistener/listener.go:171-220) finds the same events. Reconnection
    times and last event ids dispatch nothing and are left out. */
module Standard {
  import opened Envelope
  import opened EventStream
  import opened Frames
  import opened Wrappers

  /** The data and event type buffers. */
  datatype Buffers = Buffers(data: string, eventType: string)

  const NO_BUFFERS := Buffers("", "")

  predicate IsLineBreak(c: char) {
    c == '\n' || c == '\r'
  }

  /** Where the first line ends: at a line feed, a carriage return, or the end. */
  function BreakAt(text: string): (n: nat)
    ensures n <= |text| && forall i :: 0 <= i < n ==> !IsLineBreak(text[i])
    ensures n < |text| ==> IsLineBreak(text[n])
  {
    if text == [] || IsLineBreak(text[0]) then 0 else 1 + BreakAt(text[1..])
  }

  /** A carriage return and a line feed are one line break. */
  function AfterBreak(text: string): (r: string)
    requires BreakAt(text) < |text|
    ensures |r| < |text|
  {
    var n := BreakAt(text);
    if text[n] == '\r' && n + 1 < |text| && text[n + 1] == '\n' then text[n + 2..] else text[n + 1..]
  }

  function ColonAt(line: string): (n: nat)
    ensures n <= |line|
  {
    if line == [] || line[0] == ':' then 0 else 1 + ColonAt(line[1..])
  }

  /** The field's value: what follows the colon, less one space. */
  function FieldValue(line: string): string {
    var n := ColonAt(line);
    if n == |line| then ""
    else if n + 1 < |line| && line[n + 1] == ' ' then line[n + 2..]
    else line[n + 1..]
  }

  function Process(b: Buffers, line: string): Buffers {
    var field := line[..ColonAt(line)];
    if field == "event" then b.(eventType := FieldValue(line))
    else if field == "data" then b.(data := b.data + FieldValue(line) + "\n")
    else b
  }

  /** Without data nothing is dispatched; the data's last line feed is dropped. */
  function DispatchEvent(b: Buffers): seq<Event> {
    if b.data == "" then []
    else [Event(if b.eventType == "" then "message" else b.eventType, b.data[..|b.data| - 1])]
  }

  /** All events of a stream; an event cut off by its end is discarded. */
  function Interpret(b: Buffers, text: string): seq<Event>
    decreases |text|
  {
    var n := BreakAt(text);
    if n == |text| then []
    else if n == 0 then DispatchEvent(b) + Interpret(NO_BUFFERS, AfterBreak(text))
    else Interpret(Process(b, text[..n]), AfterBreak(text))
  }

  // ---- Agreement on frames -----------------------------------------------------------

  predicate OneLiner(line: string) {
    forall i :: 0 <= i < |line| ==> !IsLineBreak(line[i])
  }

  lemma {:induction false} BreakOf(line: string, r: string)
    requires OneLiner(line)
    ensures BreakAt(line + "\n" + r) == |line|
  {
    if line != [] {
      assert (line + "\n" + r)[1..] == line[1..] + "\n" + r;
      BreakOf(line[1..], r);
    }
  }

  lemma InterpretLine(b: Buffers, line: string, r: string)
    requires OneLiner(line)
    ensures Interpret(b, line + "\n" + r) ==
      if line == "" then DispatchEvent(b) + Interpret(NO_BUFFERS, r) else Interpret(Process(b, line), r)
  {
    BreakOf(line, r);
    assert (line + "\n" + r)[..|line|] == line;
    assert (line + "\n" + r)[|line| + 1..] == r;
  }

  lemma {:induction false} ColonOf(field: string, rest: string)
    requires ':' !in field
    ensures ColonAt(field + ":" + rest) == |field|
  {
    if field != [] {
      assert (field + ":" + rest)[1..] == field[1..] + ":" + rest;
      ColonOf(field[1..], rest);
    }
  }

  lemma FieldOf(field: string, value: string)
    requires ':' !in field
    ensures
      var line := field + ":" + (" " + value);
      line[..ColonAt(line)] == field && FieldValue(line) == value
  {
    ColonOf(field, " " + value);
    var line := field + ":" + (" " + value);
    assert line[|field| + 1] == ' ' && line[|field| + 2..] == value;
  }

  lemma ProcessEvent(b: Buffers, name: string)
    ensures Process(b, "event: " + name) == b.(eventType := name)
  {
    FieldOf("event", name);
    assert "event: " + name == "event" + ":" + (" " + name);
  }

  lemma ProcessData(b: Buffers, value: string)
    ensures Process(b, "data: " + value) == b.(data := b.data + value + "\n")
  {
    FieldOf("data", value);
    assert "data: " + value == "data" + ":" + (" " + value);
    assert "data" != "event";
  }

  /** A signal without carriage returns, which the standard takes for line breaks
      and the reader keeps inside a line. */
  predicate Unbroken(s: Signal) {
    Printable(s) && '\r' !in s.name && '\r' !in s.value
  }

  lemma FrameInterpreted(s: Signal, r: string)
    requires Unbroken(s)
    ensures Interpret(NO_BUFFERS, Frame(s) + r) == [Seen(s)] + Interpret(NO_BUFFERS, r)
  {
    var envelope := Wrap(s.name, s.value);
    var l1, l2 := "event: " + s.name, "data: " + envelope;
    LinesUnbroken(s);
    FrameSpelled(s, r);
    InterpretLine(NO_BUFFERS, l1, l2 + "\n" + ("" + "\n" + r));
    ProcessEvent(NO_BUFFERS, s.name);
    InterpretLine(Buffers("", s.name), l2, "" + "\n" + r);
    ProcessData(Buffers("", s.name), envelope);
    InterpretLine(Buffers("" + envelope + "\n", s.name), "", r);
    DataDispatched(envelope, s.name);
  }

  lemma DataDispatched(data: string, name: string)
    requires name != ""
    ensures DispatchEvent(Buffers("" + data + "\n", name)) == [Event(name, data)]
  {
    assert ("" + data + "\n")[..|data|] == data;
  }

  lemma LinesUnbroken(s: Signal)
    requires Unbroken(s)
    ensures OneLiner("event: " + s.name) && OneLiner("data: " + Wrap(s.name, s.value))
  {}

  /** The standard finds in a printed stream exactly the printed events. */
  lemma {:induction false} InterpretedRoundTrip(signals: seq<Signal>, r: string)
    requires forall i :: 0 <= i < |signals| ==> Unbroken(signals[i])
    ensures Interpret(NO_BUFFERS, Print(signals) + r) == AllSeen(signals) + Interpret(NO_BUFFERS, r)
  {
    if signals == [] {
      assert Print(signals) + r == r;
    } else {
      var more := Print(signals[1..]);
      InterpretedRoundTrip(signals[1..], r);
      FrameInterpreted(signals[0], more + r);
      Regroup(Frame(signals[0]), more, r);
      Regroup([Seen(signals[0])], AllSeen(signals[1..]), Interpret(NO_BUFFERS, r));
    }
  }

  predicate AllUnbroken(signals: seq<Signal>) {
    forall i :: 0 <= i < |signals| ==> Unbroken(signals[i])
  }

  /** So on the mock's output the reader and the standard agree if and only if
      it has no carriage return, and then they agree on what follows it exactly
      when they agree on that alone. */
  lemma ReaderMeetsStandard(signals: seq<Signal>, r: string)
    requires forall i :: 0 <= i < |signals| ==> Printable(signals[i])
    ensures Events(EMPTY, Print(signals)) == Interpret(NO_BUFFERS, Print(signals)) <==> AllUnbroken(signals)
    ensures AllUnbroken(signals) ==>
      (Events(EMPTY, Print(signals) + r) == Interpret(NO_BUFFERS, Print(signals) + r) <==>
       Events(EMPTY, r) == Interpret(NO_BUFFERS, r))
  {
    PrintedIsSeen(signals);
    if AllUnbroken(signals) {
      UnbrokenAgrees(signals, r);
      UnbrokenAgrees(signals, "");
      assert Print(signals) + "" == Print(signals);
    } else {
      BrokenSeen(signals);
      InterpretedUnbroken(NO_BUFFERS, Print(signals));
      BrokenDiffers(AllSeen(signals), Interpret(NO_BUFFERS, Print(signals)));
    }
  }

  lemma PrintedIsSeen(signals: seq<Signal>)
    requires forall i :: 0 <= i < |signals| ==> Printable(signals[i])
    ensures Events(EMPTY, Print(signals)) == AllSeen(signals)
  {
    RoundTrip(signals, "");
    assert Print(signals) + "" == Print(signals);
  }

  lemma UnbrokenAgrees(signals: seq<Signal>, r: string)
    requires AllUnbroken(signals)
    ensures Events(EMPTY, Print(signals) + r) == Interpret(NO_BUFFERS, Print(signals) + r) <==>
      Events(EMPTY, r) == Interpret(NO_BUFFERS, r)
  {
    RoundTrip(signals, r);
    InterpretedRoundTrip(signals, r);
    SameTail(AllSeen(signals), Events(EMPTY, r), Interpret(NO_BUFFERS, r));
  }

  lemma BrokenDiffers(a: seq<Event>, b: seq<Event>)
    requires exists i :: 0 <= i < |a| && Broken(a[i])
    requires forall i :: 0 <= i < |b| ==> !Broken(b[i])
    ensures a != b
  {}

  /** An event with a carriage return in it. */
  predicate Broken(e: Event) {
    '\r' in e.name || '\r' in e.data
  }

  lemma BrokenSeen(signals: seq<Signal>)
    requires forall i :: 0 <= i < |signals| ==> Printable(signals[i])
    requires !AllUnbroken(signals)
    ensures exists i :: 0 <= i < |AllSeen(signals)| && Broken(AllSeen(signals)[i])
  {
    var i :| 0 <= i < |signals| && !Unbroken(signals[i]);
    WrapKeeps(signals[i].name, signals[i].value);
    assert Broken(AllSeen(signals)[i]);
  }

  lemma WrapKeeps(name: string, value: string)
    ensures '\r' in value ==> '\r' in Wrap(name, value)
  {
    if '\r' in value {
      var k :| 0 <= k < |value| && value[k] == '\r';
      var at := |Wrap(name, value)| - 3 - |value|;
      assert Wrap(name, value)[at..at + |value|] == value;
      assert Wrap(name, value)[at + k] == '\r';
    }
  }

  /** The standard never finds one. */
  lemma {:induction false} InterpretedUnbroken(b: Buffers, text: string)
    requires '\r' !in b.data && '\r' !in b.eventType
    ensures forall i :: 0 <= i < |Interpret(b, text)| ==> !Broken(Interpret(b, text)[i])
    decreases |text|
  {
    var n := BreakAt(text);
    if n == 0 < |text| {
      DispatchUnbroken(b);
      InterpretedUnbroken(NO_BUFFERS, AfterBreak(text));
    } else if n < |text| {
      FieldUnbroken(b, text[..n]);
      InterpretedUnbroken(Process(b, text[..n]), AfterBreak(text));
    }
  }

  lemma DispatchUnbroken(b: Buffers)
    requires '\r' !in b.data && '\r' !in b.eventType
    ensures forall i :: 0 <= i < |DispatchEvent(b)| ==> !Broken(DispatchEvent(b)[i])
  {}

  lemma FieldUnbroken(b: Buffers, line: string)
    requires '\r' !in b.data && '\r' !in b.eventType && '\r' !in line
    ensures '\r' !in Process(b, line).data && '\r' !in Process(b, line).eventType
  {}

  lemma SameTail<T>(a: seq<T>, b: seq<T>, c: seq<T>)
    ensures a + b == a + c <==> b == c
  {
    assert b == (a + b)[|a|..] && c == (a + c)[|a|..];
  }

  // ---- Agreement on blocks ----------------------------------------------------------

  /** A name that either side reads from a line as it is. */
  predicate Readable(name: string) {
    name != "" && Trimmed(name) && OneLiner(name) && !TooLong("event: " + name)
  }

  /** Values that fit on a data line each. */
  predicate FitLines(ds: seq<string>) {
    forall i :: 0 <= i < |ds| ==> OneLiner(ds[i]) && !TooLong("data: " + ds[i])
  }

  function DataLines(ds: seq<string>): string {
    if ds == [] then "\n" else "data: " + ds[0] + "\n" + DataLines(ds[1..])
  }

  /** An event line, if there is a name, data lines, and the blank line. */
  function BlockText(name: Option<string>, ds: seq<string>): string {
    if name.None? then DataLines(ds) else "event: " + name.value + "\n" + DataLines(ds)
  }

  /** What the reader makes of the data lines, and what the standard does. */
  function Joined(ds: seq<string>): string {
    if ds == [] then "" else TrimSpace(" " + ds[0]) + Joined(ds[1..])
  }

  function Fed(ds: seq<string>): string {
    if ds == [] then "" else ds[0] + "\n" + Fed(ds[1..])
  }

  lemma EventLine(name: string, r: string)
    requires Readable(name)
    ensures Events(EMPTY, "event: " + name + "\n" + r) == Events(Block(name, ""), r)
    ensures Interpret(NO_BUFFERS, "event: " + name + "\n" + r) == Interpret(Buffers("", name), r)
  {
    var line := "event: " + name;
    ReadEventLine(name);
    ReadOneLine(line, r);
    OneLine(EMPTY, line + "\n" + r);
    InterpretLine(NO_BUFFERS, line, r);
    ProcessEvent(NO_BUFFERS, name);
  }

  lemma ReadData(b: Block, data: string)
    requires OneLiner(data)
    ensures DropCR("data: " + data) == "data: " + data
    ensures ReadLine(b, "data: " + data) == b.(data := b.data + TrimSpace(" " + data))
  {
    var line := "data: " + data;
    assert data != "" ==> line[|line| - 1] == data[|data| - 1];
    assert line[0] == 'd' && !("event:" <= line);
    assert line[..5] == "data:" && line[5..] == " " + data;
  }

  lemma DataLineRead(b: Block, data: string, r: string)
    requires OneLiner(data) && !TooLong("data: " + data)
    ensures Events(b, "data: " + data + "\n" + r) == Events(b.(data := b.data + TrimSpace(" " + data)), r)
  {
    var line := "data: " + data;
    ReadData(b, data);
    ReadOneLine(line, r);
    OneLine(b, line + "\n" + r);
  }

  lemma DataLineInterpreted(c: Buffers, data: string, r: string)
    requires OneLiner(data)
    ensures Interpret(c, "data: " + data + "\n" + r) == Interpret(c.(data := c.data + data + "\n"), r)
  {
    ProcessData(c, data);
    InterpretField(c, "data: " + data, c.(data := c.data + data + "\n"), r);
  }

  lemma InterpretField(c: Buffers, line: string, c': Buffers, r: string)
    requires OneLiner(line) && line != "" && Process(c, line) == c'
    ensures Interpret(c, line + "\n" + r) == Interpret(c', r)
  {
    InterpretLine(c, line, r);
  }

  lemma {:induction false} DataRead(b: Block, ds: seq<string>)
    requires FitLines(ds)
    ensures Events(b, DataLines(ds)) == if b.name == "" then [] else [Event(b.name, b.data + Joined(ds))]
    decreases ds
  {
    if ds == [] {
      BlankLine(b, "\n");
      assert b.data + "" == b.data;
    } else {
      DataLineRead(b, ds[0], DataLines(ds[1..]));
      DataRead(b.(data := b.data + TrimSpace(" " + ds[0])), ds[1..]);
      Regroup(b.data, TrimSpace(" " + ds[0]), Joined(ds[1..]));
    }
  }

  lemma {:induction false} DataInterpreted(c: Buffers, ds: seq<string>)
    requires FitLines(ds)
    ensures Interpret(c, DataLines(ds)) == DispatchEvent(c.(data := c.data + Fed(ds)))
    decreases ds
  {
    if ds == [] {
      assert c.data + "" == c.data && "" + "\n" + "" == "\n";
      InterpretLine(c, "", "");
    } else {
      DataLineInterpreted(c, ds[0], DataLines(ds[1..]));
      DataInterpreted(c.(data := c.data + ds[0] + "\n"), ds[1..]);
      FedStep(c.data, ds[0], Fed(ds[1..]));
    }
  }

  lemma FedStep(before: string, data: string, after: string)
    ensures before + data + "\n" + after == before + (data + "\n" + after)
  {}

  lemma {:induction false} TrimShort(s: string)
    ensures |TrimSpace(s)| <= |s| && Trimmed(TrimSpace(s))
    decreases |s|
  {
    if s != [] && IsSpace(s[0]) {
      TrimShort(s[1..]);
    } else if s != [] && IsSpace(s[|s| - 1]) {
      TrimShort(s[..|s| - 1]);
    }
  }

  /** A value survives its trimming exactly when it has no outer blanks. */
  lemma TrimmedExactly(data: string)
    ensures |TrimSpace(" " + data)| <= |data|
    ensures TrimSpace(" " + data) == data <==> Trimmed(data)
  {
    assert (" " + data)[1..] == data;
    TrimShort(data);
    if Trimmed(data) {
      TrimmedStays(data);
    }
  }

  /** The standard's buffer is longer, by at least a line feed for each line. */
  lemma {:induction false} FedIsLonger(ds: seq<string>)
    ensures |Fed(ds)| >= |Joined(ds)| + |ds|
    decreases ds
  {
    if ds != [] {
      TrimmedExactly(ds[0]);
      FedIsLonger(ds[1..]);
    }
  }

  lemma BodyRead(name: string, ds: seq<string>)
    requires FitLines(ds)
    ensures Events(Block(name, ""), DataLines(ds)) == if name == "" then [] else [Event(name, Joined(ds))]
  {
    DataRead(Block(name, ""), ds);
    assert "" + Joined(ds) == Joined(ds);
  }

  lemma BodyInterpreted(name: string, ds: seq<string>)
    requires FitLines(ds)
    ensures Interpret(Buffers("", name), DataLines(ds)) == Message(name, Fed(ds))
  {
    DataInterpreted(Buffers("", name), ds);
    assert "" + Fed(ds) == Fed(ds);
  }

  /** What the standard dispatches for this event type and data buffer. */
  function Message(name: string, fed: string): seq<Event> {
    DispatchEvent(Buffers(fed, name))
  }

  lemma FedEmpty(ds: seq<string>)
    ensures Fed(ds) == "" <==> ds == []
  {
    FedIsLonger(ds);
  }

  /** What either side finds in a block. */
  lemma BlockRead(name: Option<string>, ds: seq<string>)
    requires (name.Some? ==> Readable(name.value)) && FitLines(ds)
    ensures Events(EMPTY, BlockText(name, ds)) == if name.None? then [] else [Event(name.value, Joined(ds))]
    ensures Interpret(NO_BUFFERS, BlockText(name, ds)) == Message(if name.None? then "" else name.value, Fed(ds))
  {
    if name.Some? {
      EventLine(name.value, DataLines(ds));
      BodyRead(name.value, ds);
      BodyInterpreted(name.value, ds);
    } else {
      BodyRead("", ds);
      BodyInterpreted("", ds);
    }
  }

  /** The exact condition for a block of any number of data lines, with or without
      a name: reader and standard agree if and only if there is a name and exactly
      one data line without outer blanks, or neither a name nor data. With more
      lines the reader leaves out the line feeds between them; with none it
      dispatches an empty event where the standard dispatches nothing; without a
      name it dispatches nothing where the standard dispatches a message. */
  lemma BlockAgreement(name: Option<string>, ds: seq<string>)
    requires (name.Some? ==> Readable(name.value)) && FitLines(ds)
    ensures Events(EMPTY, BlockText(name, ds)) == Interpret(NO_BUFFERS, BlockText(name, ds)) <==>
      if name.Some? then |ds| == 1 && Trimmed(ds[0]) else ds == []
  {
    BlockRead(name, ds);
    FedIsLonger(ds);
    FedEmpty(ds);
    if |ds| == 1 {
      TrimmedExactly(ds[0]);
      assert ds[1..] == [];
      assert Joined(ds) == TrimSpace(" " + ds[0]) && Fed(ds) == ds[0] + "\n";
    }
  }
}
