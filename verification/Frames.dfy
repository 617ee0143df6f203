/** Frames as the mock Teddycloud prints them (cmd/mock-teddycloud/main.go:26-30
    and 69-72), and what the listener's reader makes of them. */
module Frames {
  import opened Envelope
  import opened EventStream

  /** An event as the mock's hub passes it around. */
  datatype Signal = Signal(name: string, value: string)

  function Frame(s: Signal): string {
    "event: " + s.name + "\ndata: " + Wrap(s.name, s.value) + "\n\n"
  }

  function Print(signals: seq<Signal>): string {
    if signals == [] then "" else Frame(signals[0]) + Print(signals[1..])
  }

  /** What a frame can carry through the line framing: a trimmed, non-empty name,
      no newline, and lines the scanner accepts. */
  predicate Printable(s: Signal) {
    && s.name != "" && Trimmed(s.name)
    && '\n' !in s.name && '\n' !in s.value
    && !TooLong("event: " + s.name) && !TooLong("data: " + Wrap(s.name, s.value))
  }

  /** The event the listener should see. */
  function Seen(s: Signal): Event {
    Event(s.name, Wrap(s.name, s.value))
  }

  lemma FrameSpelled(s: Signal, r: string)
    ensures Frame(s) + r ==
      ("event: " + s.name) + "\n" + (("data: " + Wrap(s.name, s.value)) + "\n" + ("" + "\n" + r))
  {
    assert "\ndata: " == "\n" + "data: ";
    assert "\n\n" + r == "\n" + ("" + "\n" + r);
  }

  lemma TrimAfterBlank(s: string)
    requires Trimmed(s) && s != ""
    ensures TrimSpace(" " + s) == s
  {
    assert (" " + s)[1..] == s;
    TrimmedStays(s);
  }

  lemma ReadEventLine(name: string)
    requires name != "" && Trimmed(name)
    ensures DropCR("event: " + name) == "event: " + name
    ensures ReadLine(EMPTY, "event: " + name) == Block(name, "")
  {
    var line := "event: " + name;
    assert line[|line| - 1] == name[|name| - 1];
    assert line[..6] == "event:" && line[6..] == " " + name;
    TrimAfterBlank(name);
  }

  lemma ReadText(b: Block, text: string)
    requires text != "" && Trimmed(text)
    ensures DropCR("data: " + text) == "data: " + text
    ensures ReadLine(b, "data: " + text) == b.(data := b.data + text)
  {
    var line := "data: " + text;
    assert line[|line| - 1] == text[|text| - 1];
    assert line[0] == 'd' && !("event:" <= line);
    assert line[..5] == "data:" && line[5..] == " " + text;
    TrimAfterBlank(text);
  }

  lemma ReadDataLine(name: string, value: string)
    ensures
      var line := "data: " + Wrap(name, value);
      DropCR(line) == line && ReadLine(Block(name, ""), line) == Block(name, Wrap(name, value))
  {
    WrapIsTrimmed(name, value);
    ReadText(Block(name, ""), Wrap(name, value));
    assert "" + Wrap(name, value) == Wrap(name, value);
  }

  /** A name and a text on a line each, and a blank line, are one event. */
  lemma TextFrameRead(name: string, text: string, r: string)
    requires name != "" && Trimmed(name) && text != "" && Trimmed(text) && '\n' !in name && '\n' !in text
    requires !TooLong("event: " + name) && !TooLong("data: " + text)
    ensures
      var s := "event: " + name + "\ndata: " + text + "\n\n" + r;
      Events(EMPTY, s) == [Event(name, text)] + Events(EMPTY, r) && (AllFit(s) <==> AllFit(r))
  {
    var l1, l2 := "event: " + name, "data: " + text;
    TextFrameSpelled(name, text, r);
    ReadEventLine(name);
    ReadText(Block(name, ""), text);
    assert "" + text == text;
    ThreeLines(l1, l2, r, Block(name, ""), Block(name, text));
  }

  /** Two lines and a blank one. */
  lemma ThreeLines(l1: string, l2: string, r: string, b1: Block, b2: Block)
    requires '\n' !in l1 && '\n' !in l2 && !TooLong(l1) && !TooLong(l2)
    requires DropCR(l1) == l1 != "" && DropCR(l2) == l2 != ""
    requires ReadLine(EMPTY, l1) == b1 && ReadLine(b1, l2) == b2 && b2.name != ""
    ensures
      var s := l1 + "\n" + (l2 + "\n" + ("" + "\n" + r));
      Events(EMPTY, s) == [Event(b2.name, b2.data)] + Events(EMPTY, r) && (AllFit(s) <==> AllFit(r))
  {
    var afterData := "" + "\n" + r;
    var afterEvent := l2 + "\n" + afterData;
    ReadOneLine(l1, afterEvent);
    ReadOneLine(l2, afterData);
    ReadOneLine("", r);
    OneLine(EMPTY, l1 + "\n" + afterEvent);
    OneLine(b1, afterEvent);
    OneLine(b2, afterData);
  }

  lemma TextFrameSpelled(name: string, text: string, r: string)
    ensures "event: " + name + "\ndata: " + text + "\n\n" + r ==
      ("event: " + name) + "\n" + (("data: " + text) + "\n" + ("" + "\n" + r))
  {
    assert "\ndata: " == "\n" + "data: ";
    assert "\n\n" + r == "\n" + ("" + "\n" + r);
  }

  /** One frame at the head of a stream is one event, and leaves no trace. */
  lemma FrameRead(s: Signal, r: string)
    requires Printable(s)
    ensures Events(EMPTY, Frame(s) + r) == [Seen(s)] + Events(EMPTY, r)
    ensures AllFit(Frame(s) + r) <==> AllFit(r)
  {
    WrapIsTrimmed(s.name, s.value);
    NewlineFree(s);
    WrapHasNoNewline(s);
    TextFrameRead(s.name, Wrap(s.name, s.value), r);
  }

  lemma WrapHasNoNewline(s: Signal)
    requires Printable(s)
    ensures '\n' !in Wrap(s.name, s.value)
  {}

  lemma NewlineFree(s: Signal)
    requires Printable(s)
    ensures '\n' !in "event: " + s.name && '\n' !in "data: " + Wrap(s.name, s.value)
  {}

  /** Printing and reading back any list of events, in order, nothing lost. */
  lemma {:induction false} RoundTrip(signals: seq<Signal>, r: string)
    requires forall i :: 0 <= i < |signals| ==> Printable(signals[i])
    ensures Events(EMPTY, Print(signals) + r) == AllSeen(signals) + Events(EMPTY, r)
    ensures AllFit(Print(signals) + r) <==> AllFit(r)
  {
    if signals == [] {
      assert Print(signals) + r == r;
    } else {
      var more := Print(signals[1..]);
      RoundTrip(signals[1..], r);
      FrameRead(signals[0], more + r);
      Regroup(Frame(signals[0]), more, r);
      Regroup([Seen(signals[0])], AllSeen(signals[1..]), Events(EMPTY, r));
    }
  }

  function AllSeen(signals: seq<Signal>): (r: seq<Event>)
    ensures |r| == |signals| && forall i :: 0 <= i < |r| ==> r[i] == Seen(signals[i])
  {
    if signals == [] then [] else [Seen(signals[0])] + AllSeen(signals[1..])
  }

  /** For plain names the values come back too, exactly when they are plain. */
  lemma ValuesComeBack(signals: seq<Signal>, i: nat)
    requires forall j :: 0 <= j < |signals| ==> Printable(signals[j])
    requires i < |signals| && Plain(signals[i].name)
    ensures |Events(EMPTY, Print(signals))| == |signals|
    ensures Events(EMPTY, Print(signals))[i].name == signals[i].name
    ensures WrappedValue(Events(EMPTY, Print(signals))[i].data) == signals[i].value <==> Plain(signals[i].value)
  {
    RoundTrip(signals, "");
    assert Print(signals) + "" == Print(signals);
    UnwrapExactly(signals[i].name, signals[i].value);
  }

  // ---- Frames cut off by the end of the connection --------------------------------

  /** No line of the text is blank. */
  predicate NoBlankLine(text: string)
    decreases |text|
  {
    text == "" || (DropCR(FirstLine(text)) != "" && NoBlankLine(AfterFirstLine(text)))
  }

  lemma {:induction false} WithoutBlankLineNothing(b: Block, text: string)
    requires NoBlankLine(text)
    ensures Events(b, text) == []
    decreases |text|
  {
    if text != "" && !TooLong(FirstLine(text)) {
      WithoutBlankLineNothing(ReadLine(b, DropCR(FirstLine(text))), AfterFirstLine(text));
    }
  }

  lemma {:induction false} LineEndOfLast(line: string)
    requires '\n' !in line
    ensures LineEnd(line) == |line|
  {
    if line != "" { LineEndOfLast(line[1..]); }
  }

  /** A cut inside a line that starts with a letter. */
  lemma CutLine(line: string, k: nat)
    requires line != "" && '\n' !in line && line[0] != '\r' && k <= |line|
    ensures NoBlankLine(line[..k])
  {
    if k > 0 {
      assert line[..k][0] == line[0];
      LineEndOfLast(line[..k]);
    }
  }

  lemma AfterLine(line: string, text: string)
    requires '\n' !in line && DropCR(line) != "" && NoBlankLine(text)
    ensures NoBlankLine(line + "\n" + text)
  {
    ReadOneLine(line, text);
  }

  /** A cut of two such lines and a blank one, before its end. */
  lemma CutTwoLines(l1: string, l2: string, k: nat)
    requires '\n' !in l1 && '\n' !in l2 && DropCR(l1) != "" && DropCR(l2) != ""
    requires l1[0] != '\r' && l2[0] != '\r'
    requires k < |l1 + "\n" + (l2 + "\n" + "\n")|
    ensures NoBlankLine((l1 + "\n" + (l2 + "\n" + "\n"))[..k])
  {
    var whole := l1 + "\n" + (l2 + "\n" + "\n");
    if k <= |l1| {
      assert whole[..k] == l1[..k];
      CutLine(l1, k);
    } else if k <= |l1| + 1 + |l2| {
      var m := k - |l1| - 1;
      assert whole[..k] == l1 + "\n" + l2[..m];
      CutLine(l2, m);
      AfterLine(l1, l2[..m]);
    } else {
      assert whole[..k] == l1 + "\n" + (l2 + "\n" + "");
      AfterLine(l2, "");
      AfterLine(l1, l2 + "\n" + "");
    }
  }

  /** A frame of which the connection delivers only a part yields nothing. */
  lemma CutFrameYieldsNothing(s: Signal, k: nat)
    requires Printable(s) && k < |Frame(s)|
    ensures Events(EMPTY, Frame(s)[..k]) == []
  {
    var l1, l2 := "event: " + s.name, "data: " + Wrap(s.name, s.value);
    NewlineFree(s);
    FrameOfLines(s);
    ReadEventLine(s.name);
    ReadDataLine(s.name, s.value);
    CutTwoLines(l1, l2, k);
    WithoutBlankLineNothing(EMPTY, Frame(s)[..k]);
  }

  lemma FrameOfLines(s: Signal)
    ensures Frame(s) == ("event: " + s.name) + "\n" + (("data: " + Wrap(s.name, s.value)) + "\n" + "\n")
  {
    FrameSpelled(s, "");
    assert "" + "\n" + "" == "\n";
    assert Frame(s) + "" == Frame(s);
  }
}
