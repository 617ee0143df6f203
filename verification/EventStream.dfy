/** The listener's event-stream reader (internal/sselistener/listener.go:171-220)
    as a function of the text received, with the loop that computes it. */
module EventStream {
  import opened Envelope

  datatype Event = Event(name: string, data: string)

  /** The event under construction. */
  datatype Block = Block(name: string, data: string)

  const EMPTY := Block("", "")

  /** Why reading stopped: end of input, a line over the scanner's limit, or the
      select noticing cancellation or the idle timer between two lines. */
  datatype Ending = EndOfInput | LineTooLong | Interrupted

  const MAX_TOKEN: nat := 65536

  /** The bytes of a character in UTF-8. */
  function Utf8Width(c: char): (r: nat)
    ensures 1 <= r <= 4
  {
    if c < '\U{0080}' then 1 else if c < '\U{0800}' then 2 else if c < '\U{10000}' then 3 else 4
  }

  /** What UTF-8 can encode in w bytes: 7 bits in one, else 5 for each and one
      more (RFC 3629, section 3). */
  function Capacity(w: nat): int {
    if w == 1 then 128 else if w == 2 then 2 * 32 * 32 else if w == 3 then 2 * 32 * 32 * 32 else 2 * 32 * 32 * 32 * 32
  }

  lemma FewestBytes(c: char)
    ensures c as int < Capacity(Utf8Width(c))
    ensures Utf8Width(c) > 1 ==> c as int >= Capacity(Utf8Width(c) - 1)
  {}

  function Utf8Length(s: string): (r: nat)
    ensures r >= |s|
  {
    if s == [] then 0 else Utf8Length(s[..|s| - 1]) + Utf8Width(s[|s| - 1])
  }

  /** The first line of the text, up to its newline or the end. */
  function LineEnd(text: string): (n: nat)
    ensures n <= |text|
    ensures forall i :: 0 <= i < n ==> text[i] != '\n'
    ensures n < |text| ==> text[n] == '\n'
  {
    if text == [] || text[0] == '\n' then 0 else 1 + LineEnd(text[1..])
  }

  function FirstLine(text: string): string {
    text[..LineEnd(text)]
  }

  function AfterFirstLine(text: string): (r: string)
    ensures text != [] ==> |r| < |text|
  {
    var n := LineEnd(text);
    if n < |text| then text[n + 1..] else ""
  }

  /** bufio.Scanner gives up when a line and its newline do not fit its buffer. */
  predicate TooLong(line: string) {
    Utf8Length(line) >= MAX_TOKEN
  }

  /** bufio.ScanLines drops one carriage return from the end of a line. */
  function DropCR(line: string): string {
    if line != [] && line[|line| - 1] == '\r' then line[..|line| - 1] else line
  }

  function ReadLine(b: Block, line: string): Block {
    if line == "" then EMPTY
    else if "event:" <= line then b.(name := TrimSpace(line[|"event:"|..]))
    else if "data:" <= line then b.(data := b.data + TrimSpace(line[|"data:"|..]))
    else b
  }

  function Dispatched(b: Block, line: string): seq<Event> {
    if line == "" && b.name != "" then [Event(b.name, b.data)] else []
  }

  /** The events dispatched from the text when block b is under construction, and
      the block left when the text is used up. */
  function Events(b: Block, text: string): seq<Event>
    decreases |text|
  {
    if text == [] || TooLong(FirstLine(text)) then []
    else
      var line := DropCR(FirstLine(text));
      Dispatched(b, line) + Events(ReadLine(b, line), AfterFirstLine(text))
  }

  function Final(b: Block, text: string): Block
    decreases |text|
  {
    if text == [] || TooLong(FirstLine(text)) then b
    else Final(ReadLine(b, DropCR(FirstLine(text))), AfterFirstLine(text))
  }

  /** No line of the text is over the limit. */
  predicate AllFit(text: string)
    decreases |text|
  {
    text == [] || (!TooLong(FirstLine(text)) && AllFit(AfterFirstLine(text)))
  }

  lemma OneLine(b: Block, text: string)
    requires text != [] && !TooLong(FirstLine(text))
    ensures
      var line := DropCR(FirstLine(text));
      && Events(b, text) == Dispatched(b, line) + Events(ReadLine(b, line), AfterFirstLine(text))
      && Final(b, text) == Final(ReadLine(b, line), AfterFirstLine(text))
    ensures AllFit(text) <==> AllFit(AfterFirstLine(text))
  {}

  /** What is still to come of the text: the rest, read on from block b. */
  ghost predicate Pending(text: string, events: seq<Event>, b: Block, rest: string) {
    && Events(EMPTY, text) == events + Events(b, rest)
    && (AllFit(text) <==> AllFit(rest))
  }

  lemma PendingStep(text: string, events: seq<Event>, b: Block, rest: string)
    requires Pending(text, events, b, rest) && rest != [] && !TooLong(FirstLine(rest))
    ensures
      var line := DropCR(FirstLine(rest));
      Pending(text, events + Dispatched(b, line), ReadLine(b, line), AfterFirstLine(rest))
  {
    var line := DropCR(FirstLine(rest));
    OneLine(b, rest);
    Regroup(events, Dispatched(b, line), Events(ReadLine(b, line), AfterFirstLine(rest)));
  }

  lemma PendingEnd(text: string, events: seq<Event>, b: Block, rest: string)
    requires Pending(text, events, b, rest) && (rest == [] || TooLong(FirstLine(rest)))
    ensures events == Events(EMPTY, text)
    ensures rest == [] <==> AllFit(text)
  {}

  /** readLoop, interrupted after `patience` lines if the input lasts longer. */
  method ReadLoop(text: string, patience: nat) returns (events: seq<Event>, ending: Ending)
    ensures events <= Events(EMPTY, text)
    ensures ending != Interrupted ==> events == Events(EMPTY, text)
    ensures ending != Interrupted ==> (ending == EndOfInput <==> AllFit(text))
    ensures |text| < patience ==> ending != Interrupted
  {
    var name, data := "", "";
    var rest := text;
    var left := patience;
    events := [];
    while true
      invariant Pending(text, events, Block(name, data), rest)
      invariant |text| < patience ==> |rest| < left
      decreases left
    {
      if left == 0 {
        ending := Interrupted;
        return;
      }
      left := left - 1;
      if rest == [] {
        PendingEnd(text, events, Block(name, data), rest);
        ending := EndOfInput;
        return;
      }
      var token := FirstLine(rest);
      if TooLong(token) {
        PendingEnd(text, events, Block(name, data), rest);
        ending := LineTooLong;
        return;
      }
      PendingStep(text, events, Block(name, data), rest);
      events, name, data := TakeLine(events, name, data, DropCR(token));
      rest := AfterFirstLine(rest);
    }
  }

  /** What readLoop does with one line. */
  method TakeLine(events: seq<Event>, name: string, data: string, line: string)
    returns (events': seq<Event>, name': string, data': string)
    ensures events' == events + Dispatched(Block(name, data), line)
    ensures Block(name', data') == ReadLine(Block(name, data), line)
  {
    events', name', data' := events, name, data;
    if line == "" {
      if name != "" {
        events' := events + [Event(name, data)];
      }
      name', data' := "", "";
    } else if "event:" <= line {
      name' := TrimSpace(line[|"event:"|..]);
    } else if "data:" <= line {
      data' := data + TrimSpace(line[|"data:"|..]);
    }
  }

  /** f applied to every element, the results joined. */
  function FlatMap<T, U>(f: T -> seq<U>, xs: seq<T>): seq<U> {
    if xs == [] then [] else FlatMap(f, xs[..|xs| - 1]) + f(xs[|xs| - 1])
  }

  lemma FlatMapOneMore<T, U>(f: T -> seq<U>, xs: seq<T>, x: T)
    ensures FlatMap(f, xs + [x]) == FlatMap(f, xs) + f(x)
  {
    assert (xs + [x])[..|xs|] == xs;
  }

  /** Functions that agree element by element give the same join. */
  lemma {:induction false} FlatMapAgrees<T, U, V>(f: T -> seq<V>, xs: seq<T>, g: U -> seq<V>, ys: seq<U>)
    requires |xs| == |ys| && forall i :: 0 <= i < |xs| ==> f(xs[i]) == g(ys[i])
    ensures FlatMap(f, xs) == FlatMap(g, ys)
  {
    if xs != [] {
      FlatMapAgrees(f, xs[..|xs| - 1], g, ys[..|ys| - 1]);
    }
  }

  lemma {:induction false} FlatMapJoined<T, U>(f: T -> seq<U>, a: seq<T>, b: seq<T>)
    ensures FlatMap(f, a + b) == FlatMap(f, a) + FlatMap(f, b)
  {
    if b == [] {
      assert a + b == a;
    } else {
      var last := |b| - 1;
      assert (a + b)[..|a + b| - 1] == a + b[..last];
      FlatMapJoined(f, a, b[..last]);
      Regroup(FlatMap(f, a), FlatMap(f, b[..last]), f(b[last]));
    }
  }

  lemma Regroup<T>(a: seq<T>, b: seq<T>, c: seq<T>)
    ensures a + (b + c) == (a + b) + c
  {}

  // ---- Resynchronisation --------------------------------------------------------

  /** The text is empty or ends its last line. */
  predicate AtLineStart(text: string) {
    text != [] ==> text[|text| - 1] == '\n'
  }

  lemma FirstLineOfJoined(p: string, r: string)
    requires p != [] && AtLineStart(p)
    ensures FirstLine(p + r) == FirstLine(p)
    ensures AfterFirstLine(p + r) == AfterFirstLine(p) + r
    ensures AtLineStart(AfterFirstLine(p))
  {
    LineEndOfJoined(p, r);
    var n := LineEnd(p);
    assert (p + r)[..n] == p[..n];
    assert (p + r)[n + 1..] == p[n + 1..] + r;
  }

  lemma {:induction false} LineEndOfJoined(p: string, r: string)
    requires p != [] && AtLineStart(p)
    ensures LineEnd(p + r) == LineEnd(p) < |p|
  {
    if p[0] != '\n' {
      assert (p + r)[1..] == p[1..] + r;
      LineEndOfJoined(p[1..], r);
    }
  }

  /** Whole lines can be read in two portions. */
  lemma {:induction false} EventsOfJoined(b: Block, p: string, r: string)
    requires AtLineStart(p)
    ensures AllFit(p) ==> Events(b, p + r) == Events(b, p) + Events(Final(b, p), r)
    ensures AllFit(p) ==> Final(b, p + r) == Final(Final(b, p), r)
    ensures AllFit(p) ==> (AllFit(p + r) <==> AllFit(r))
    ensures !AllFit(p) ==> Events(b, p + r) == Events(b, p)
    decreases |p|
  {
    if p == [] {
      assert p + r == r;
    } else {
      FirstLineOfJoined(p, r);
      if !TooLong(FirstLine(p)) {
        var line := DropCR(FirstLine(p));
        var next, rest := ReadLine(b, line), AfterFirstLine(p);
        OneLine(b, p);
        OneLine(b, p + r);
        EventsOfJoined(next, rest, r);
        Regroup(Dispatched(b, line), Events(next, rest), Events(Final(next, rest), r));
      }
    }
  }

  /** The text ends with a blank line, whatever its line endings. */
  ghost predicate EndsBlank(p: string) {
    exists q, blank :: p == q + blank && AtLineStart(q) && (blank == "\n" || blank == "\r\n")
  }

  lemma BlankLine(b: Block, blank: string)
    requires blank == "\n" || blank == "\r\n"
    ensures Final(b, blank) == EMPTY && AllFit(blank)
    ensures Events(b, blank) == if b.name == "" then [] else [Event(b.name, b.data)]
  {
    if blank == "\n" {
      assert LineEnd("\n") == 0;
      assert FirstLine(blank) == "" && AfterFirstLine(blank) == "";
    } else {
      assert "\r\n"[1..] == "\n" && LineEnd("\n") == 0;
      assert LineEnd("\r\n") == 1;
      assert FirstLine(blank) == "\r" && DropCR("\r") == "" && AfterFirstLine(blank) == "";
      assert "\r"[..0] == "";
      assert Utf8Length("\r") == 1;
    }
  }

  /** After a blank line the reader has forgotten everything: what follows is read
      as if the connection had just begun. */
  lemma Resynchronised(p: string, r: string)
    requires AllFit(p) && EndsBlank(p)
    ensures Final(EMPTY, p) == EMPTY
    ensures Events(EMPTY, p + r) == Events(EMPTY, p) + Events(EMPTY, r)
  {
    var q, blank :| p == q + blank && AtLineStart(q) && (blank == "\n" || blank == "\r\n");
    EventsOfJoined(EMPTY, q, blank);
    if AllFit(q) {
      BlankLine(Final(EMPTY, q), blank);
    }
    assert AllFit(q) by { FitPrefix(q, blank); }
    EventsOfJoined(EMPTY, p, r);
  }

  lemma {:induction false} FitPrefix(p: string, r: string)
    requires AtLineStart(p) && AllFit(p + r)
    ensures AllFit(p)
    decreases |p|
  {
    if p != [] {
      FirstLineOfJoined(p, r);
      FitPrefix(AfterFirstLine(p), r);
    }
  }

  // ---- Lines that mean nothing --------------------------------------------------

  /** A comment, id, retry or malformed line. */
  predicate IsNoise(line: string) {
    && '\n' !in line && !TooLong(line)
    && DropCR(line) != "" && !("event:" <= DropCR(line)) && !("data:" <= DropCR(line))
  }

  lemma {:induction false} LineEndOfLine(line: string, rest: string)
    requires '\n' !in line
    ensures LineEnd(line + "\n" + rest) == |line|
  {
    if line != [] {
      assert (line + "\n" + rest)[1..] == line[1..] + "\n" + rest;
      LineEndOfLine(line[1..], rest);
    }
  }

  lemma ReadOneLine(line: string, rest: string)
    requires '\n' !in line
    ensures FirstLine(line + "\n" + rest) == line && AfterFirstLine(line + "\n" + rest) == rest
  {
    LineEndOfLine(line, rest);
  }

  /** A line of 65536 bytes or more ends the reading right there; any shorter one
      is read. */
  lemma LineLimit(b: Block, p: string, line: string, r: string)
    requires AtLineStart(p) && AllFit(p) && '\n' !in line
    ensures
      var text, before := p + (line + "\n" + r), Final(b, p);
      if Utf8Length(line) >= 65536 then
        Events(b, text) == Events(b, p) && !AllFit(text)
      else
        && Events(b, text) ==
           Events(b, p) + (Dispatched(before, DropCR(line)) + Events(ReadLine(before, DropCR(line)), r))
        && (AllFit(text) <==> AllFit(r))
  {
    var rest := line + "\n" + r;
    EventsOfJoined(b, p, rest);
    ReadOneLine(line, r);
    if Utf8Length(line) < 65536 {
      OneLine(Final(b, p), rest);
    } else {
      assert Events(b, p) + [] == Events(b, p);
    }
  }

  lemma NoiseLine(b: Block, line: string, r: string)
    requires IsNoise(line)
    ensures Events(b, line + "\n" + r) == Events(b, r)
  {
    ReadOneLine(line, r);
    OneLine(b, line + "\n" + r);
  }

  /** Such a line, put in before any line of any stream, changes nothing. */
  lemma NoiseIsSkipped(b: Block, p: string, line: string, r: string)
    requires AtLineStart(p) && IsNoise(line)
    ensures Events(b, p + (line + "\n" + r)) == Events(b, p + r)
  {
    EventsOfJoined(b, p, line + "\n" + r);
    EventsOfJoined(b, p, r);
    NoiseLine(Final(b, p), line, r);
  }
}
