/** What wrappedValue makes of any text at all
    (internal/sselistener/listener.go:285-305), in terms of the grammar alone: of
    an object in any spelling its last data member, and of everything else the
    trimmed text. */
module Unwrapping {
  import opened Envelope
  import opened EventStream
  import opened Frames
  import opened Grammar
  import opened Json
  import opened Listener
  import opened Wrappers

  /** The code points with Unicode's White_Space property. */
  predicate WhiteSpace(n: int) {
    || 9 <= n <= 13 || n == 32 || n == 133 || n == 160 || n == 5760 || 8192 <= n <= 8202
    || n == 8232 || n == 8233 || n == 8239 || n == 8287 || n == 12288
  }

  lemma SpaceIsWhiteSpace(c: char)
    ensures IsSpace(c) <==> WhiteSpace(c as int)
  {}

  predicate AllSpace(s: string) {
    forall i :: 0 <= i < |s| ==> WhiteSpace(s[i] as int)
  }

  lemma {:induction false} TrimmedLeft(p: string, s: string)
    requires AllSpace(p)
    ensures TrimSpace(p + s) == TrimSpace(s)
  {
    if p == "" {
      assert p + s == s;
    } else {
      assert (p + s)[1..] == p[1..] + s;
      SpaceIsWhiteSpace(p[0]);
      TrimmedLeft(p[1..], s);
    }
  }

  lemma {:induction false} TrimmedRight(s: string, q: string)
    requires AllSpace(q) && Trimmed(s) && s != ""
    ensures TrimSpace(s + q) == s
  {
    if q == "" {
      assert s + q == s;
      TrimmedStays(s);
    } else {
      var n := |q| - 1;
      assert (s + q)[..|s + q| - 1] == s + q[..n];
      SpaceIsWhiteSpace(q[n]);
      TrimmedRight(s, q[..n]);
    }
  }

  /** Spaces at either end do not matter, and what is trimmed is all there is. */
  lemma TrimExact(p: string, s: string, q: string)
    requires AllSpace(p) && AllSpace(q) && Trimmed(s) && s != ""
    ensures TrimSpace(p + s + q) == s
  {
    assert p + s + q == p + (s + q);
    TrimmedLeft(p, s + q);
    TrimmedRight(s, q);
  }

  lemma {:induction false} TrimSpaceTrims(s: string)
    ensures Trimmed(TrimSpace(s))
    decreases |s|
  {
    if s != "" && IsSpace(s[0]) {
      TrimSpaceTrims(s[1..]);
    } else if s != "" && IsSpace(s[|s| - 1]) {
      TrimSpaceTrims(s[..|s| - 1]);
    }
  }

  // ---- The data member, by the grammar ------------------------------------------

  predicate NamesData(key: string) {
    && |key| == 4 && (key[0] == 'd' || key[0] == 'D') && (key[1] == 'a' || key[1] == 'A')
    && (key[2] == 't' || key[2] == 'T') && (key[3] == 'a' || key[3] == 'A')
  }

  /** The value of the last data field, if there is one. */
  function LastData(x: Fields): Option<Node>
    requires GoodFields(x)
  {
    match x
    case LastField(f, _) => OwnData(f)
    case ThenField(f, _, _, more) => if LastData(more).Some? then LastData(more) else OwnData(f)
  }

  function OwnData(f: Field): Option<Node>
    requires GoodField(f)
  {
    if NamesData(TextOf(f.key)) then Some(f.v) else None
  }

  /** A value as a string: the text of a string, nothing for null, and any other
      value as it is spelled. */
  function Plainly(v: Node): string
    requires Good(v)
  {
    match v
    case Quoted(units) => TextOf(units)
    case _ => if v == Word("null") then "" else Spell(v)
  }

  predicate IsObject(x: Node) {
    Good(x) && (x.EmptyObject? || x.Record?)
  }

  lemma LastDataIsGood(x: Fields)
    requires GoodFields(x) && LastData(x).Some?
    ensures Good(LastData(x).value)
  {}

  /** What an object unwraps to. */
  function DataOf(x: Node): string
    requires IsObject(x)
  {
    if x.EmptyObject? || LastData(x.fields).None? then ""
    else
      LastDataIsGood(x.fields);
      Plainly(LastData(x.fields).value)
  }

  predicate HasData(ms: seq<Member>) {
    ms != [] && (IsDataKey(ms[0].key) || HasData(ms[1..]))
  }

  lemma {:induction false} DataInFront(m: Member, ms: seq<Member>)
    ensures DataMember([m] + ms) == if HasData(ms) then DataMember(ms) else if IsDataKey(m.key) then m.raw else ""
    decreases |ms|
  {
    if ms == [] {
      assert [m] + ms == [m] && [m][..0] == [];
    } else {
      var n := |ms| - 1;
      assert ([m] + ms)[..|[m] + ms| - 1] == [m] + ms[..n];
      DataInFront(m, ms[..n]);
      HasDataLast(ms);
    }
  }

  lemma {:induction false} HasDataLast(ms: seq<Member>)
    requires ms != []
    ensures HasData(ms) <==> HasData(ms[..|ms| - 1]) || IsDataKey(ms[|ms| - 1].key)
  {
    if |ms| > 1 {
      HasDataLast(ms[1..]);
      assert ms[1..][..|ms| - 2] == ms[..|ms| - 1][1..];
    }
  }

  lemma {:induction false} MemberOfLastData(x: Fields)
    requires GoodFields(x)
    ensures HasData(MembersOf(x)) <==> LastData(x).Some?
    ensures DataMember(MembersOf(x)) == if LastData(x).Some? then Spell(LastData(x).value) else ""
  {
    match x
    case LastField(f, _) =>
      MemberInFront(f, [], None);
      assert [AsMember(f)] + [] == [AsMember(f)];
    case ThenField(f, _, _, more) =>
      MemberOfLastData(more);
      MemberInFront(f, MembersOf(more), LastData(more));
  }

  lemma MemberInFront(f: Field, ms: seq<Member>, d: Option<Node>)
    requires GoodField(f) && (HasData(ms) <==> d.Some?)
    requires DataMember(ms) == if d.Some? then Spell(d.value) else ""
    ensures
      var all, d' := [AsMember(f)] + ms, if d.Some? then d else OwnData(f);
      && (HasData(all) <==> d'.Some?)
      && DataMember(all) == if d'.Some? then Spell(d'.value) else ""
  {
    DataInFront(AsMember(f), ms);
    assert ([AsMember(f)] + ms)[1..] == ms;
  }

  lemma AsStringPlainly(v: Node)
    requires Good(v)
    ensures AsString(Spell(v)) == Plainly(v)
  {
    match v
    case Quoted(units) =>
      StringRead(units, "");
      assert SpellText(units) + "\"" + "" == SpellText(units) + "\"";
      assert Spell(v)[1..] == SpellText(units) + "\"";
    case Numeral(n) => NumberStarts(n);
    case Word(_) =>
    case EmptyArray(_) => assert Spell(v)[0] == '[';
    case Array(_, _) => assert Spell(v)[0] == '[';
    case EmptyObject(_) => assert Spell(v)[0] == '{';
    case Record(_, _) => assert Spell(v)[0] == '{';
  }

  // ---- Any text at all -------------------------------------------------------------

  lemma ObjectIsTrimmed(x: Node)
    requires IsObject(x)
    ensures Spell(x) != "" && Spell(x)[0] == '{' && Trimmed(Spell(x))
  {
    if x.Record? {
      FieldsEnd(x.fields);
    }
  }

  lemma {:induction false} FieldsEnd(x: Fields)
    ensures SpellFields(x) != "" && SpellFields(x)[|SpellFields(x)| - 1] == '}'
  {
    if x.ThenField? {
      FieldsEnd(x.more);
    }
  }

  /** An object nested at most 10000 deep, in any spelling and between any spaces,
      unwraps to its last data member. */
  lemma UnwrapsObjects(p: string, x: Node, q: string)
    requires IsObject(x) && Height(x) <= 10000 && AllSpace(p) && AllSpace(q)
    ensures WrappedValue(p + Spell(x) + q) == DataOf(x)
  {
    ObjectIsTrimmed(x);
    TrimExact(p, Spell(x), q);
    ObjectRead(x, "", MAX_DEPTH);
    assert Spell(x) + "" == Spell(x);
    if x.EmptyObject? {
      assert DataMember([]) == "";
    } else {
      MemberOfLastData(x.fields);
      if LastData(x.fields).Some? {
        LastDataIsGood(x.fields);
        AsStringPlainly(LastData(x.fields).value);
      }
    }
  }

  /** The text is an object between spaces. */
  ghost predicate SpellsObject(s: string) {
    exists x :: IsObject(x) && Height(x) <= 10000 && Spell(x) == s
  }

  /** Any other text is only trimmed. */
  lemma OthersPass(data: string)
    requires !SpellsObject(TrimSpace(data))
    ensures WrappedValue(data) == TrimSpace(data)
  {
    var s := TrimSpace(data);
    if s != "" && s[0] == '{' && Object(s, MAX_DEPTH).Some? {
      var x := ObjectParsed(s, MAX_DEPTH);
      var rest := Object(s, MAX_DEPTH).value.1;
      TrimSpaceTrims(data);
      if SkipBlanks(rest) == "" {
        NoBlanksLeft(s, Spell(x), rest);
      }
    }
  }

  lemma NoBlanksLeft(s: string, t: string, rest: string)
    requires s == t + rest && Trimmed(s) && SkipBlanks(rest) == ""
    ensures s == t
  {
    if rest != "" {
      EndsWithSpace(rest);
    }
  }

  lemma EndsWithSpace(s: string)
    requires s != "" && SkipBlanks(s) == ""
    ensures IsSpace(s[|s| - 1])
  {
    var b := BlanksParsed(s);
    assert s == b + "" == b;
  }

  lemma NakedValue(p: string, v: string, q: string)
    requires AllSpace(p) && AllSpace(q) && v != "" && Trimmed(v) && v[0] != '{'
    ensures WrappedValue(p + v + q) == v
  {
    TrimExact(p, v, q);
  }

  // ---- Values that are escaped -------------------------------------------------------

  function HexLetter(n: int): (c: char)
    requires 0 <= n < 16
    ensures IsHexDigit(c) && DigitOf(c) == n
  {
    if n < 10 then (n + 48) as char else (n + 87) as char
  }

  /** \u00xx */
  function ControlCode(c: char): (h: string)
    requires c < ' '
    ensures IsHex(h) && CodeOf(h) == c as int
  {
    if c as int < 16 then ['0', '0', '0', HexLetter(c as int)] else ['0', '0', '1', HexLetter(c as int - 16)]
  }

  /** A character as RFC 8259, section 7, has it: quotes, backslashes and control
      characters are escaped. */
  function UnitFor(c: char): (u: Unit)
    ensures GoodUnit(u) && Means(u) == c && !(u.Hex? && IsHigh(u.digits))
  {
    if c == '"' || c == '\\' then Short(c) else if c < ' ' then Hex(ControlCode(c)) else Raw(c)
  }

  function Escaped(v: string): (units: seq<Unit>)
    ensures GoodText(units) && TextOf(units) == v
  {
    if v == "" then []
    else
      var units := [UnitFor(v[0])] + Escaped(v[1..]);
      assert units[1..] == Escaped(v[1..]);
      units
  }

  /** An envelope in its compact spelling, with its values escaped. */
  function Compact(name: string, value: string): Node {
    Record("", ThenField(
      Field(Escaped("type"), "", "", Quoted(Escaped(name))), "", "",
      LastField(Field(Escaped("data"), "", "", Quoted(Escaped(value))), "")))
  }

  lemma CompactIsObject(name: string, value: string)
    ensures var x := Compact(name, value); IsObject(x) && Height(x) == 1 && DataOf(x) == value
  {
    var x := Compact(name, value);
    assert GoodField(x.fields.f) && GoodField(x.fields.more.f);
    LastOfTwo(x.fields.f, x.fields.more.f);
  }

  lemma LastOfTwo(first: Field, second: Field)
    requires GoodField(first) && GoodField(second) && first.v.Quoted? && second.v.Quoted?
    requires TextOf(second.key) == "data"
    ensures
      var x := ThenField(first, "", "", LastField(second, ""));
      GoodFields(x) && FieldsHeight(x) == 0 && LastData(x) == Some(second.v)
  {
    var more := LastField(second, "");
    LastOfOne(second);
  }

  lemma LastOfOne(f: Field)
    requires GoodField(f) && f.v.Quoted? && TextOf(f.key) == "data"
    ensures var x := LastField(f, ""); GoodFields(x) && FieldsHeight(x) == 0 && LastData(x) == OwnData(f) == Some(f.v)
  {
    assert NamesData("data");
  }

  /** Escaped, every value comes back. */
  lemma EscapedComesBack(name: string, value: string)
    ensures IsObject(Compact(name, value)) && WrappedValue(Spell(Compact(name, value))) == value
  {
    var x := Compact(name, value);
    CompactIsObject(name, value);
    assert "" + Spell(x) + "" == Spell(x);
    UnwrapsObjects("", x, "");
  }

  // ---- What the mock prints ------------------------------------------------------------

  /** The characters themselves, for what needs no escapes. */
  function Unescaped(v: string): (units: seq<Unit>)
    requires Plain(v)
    ensures GoodText(units) && TextOf(units) == v && SpellText(units) == v
  {
    if v == "" then []
    else
      var units := [Raw(v[0])] + Unescaped(v[1..]);
      assert units[1..] == Unescaped(v[1..]);
      units
  }

  function PrintedObject(name: string, value: string): Node
    requires Plain(name) && Plain(value)
  {
    Record(" ", ThenField(
      Field(Unescaped("type"), "", "", Quoted(Unescaped(name))), "", " ",
      LastField(Field(Unescaped("data"), "", "", Quoted(Unescaped(value))), " ")))
  }

  /** With plain name and value the mock prints an object of two members, the type
      and the data. */
  lemma WrapIsObject(name: string, value: string)
    requires Plain(name) && Plain(value)
    ensures
      var x := PrintedObject(name, value);
      IsObject(x) && MembersOf(x.fields) ==
        [Member("type", "\"" + name + "\""), Member("data", "\"" + value + "\"")]
    ensures Spell(PrintedObject(name, value)) == Wrap(name, value)
  {
    var x := PrintedObject(name, value);
    var first, second := x.fields.f, x.fields.more.f;
    PrintedField(first, "type", name);
    PrintedField(second, "data", value);
    TwoFields(first, second);
    WrapSpelled(name, value);
    TailPrinted(value);
  }

  lemma TwoFields(first: Field, second: Field)
    requires GoodField(first) && GoodField(second)
    ensures
      var x := ThenField(first, "", " ", LastField(second, " "));
      && GoodFields(x) && MembersOf(x) == [AsMember(first), AsMember(second)]
      && Spell(Record(" ", x)) == "{ " + (SpellField(first) + (", " + (SpellField(second) + " }")))
  {
    var x := ThenField(first, "", " ", LastField(second, " "));
    assert GoodFields(x.more) && MembersOf(x.more) == [AsMember(second)];
    assert SpellFields(x.more) == SpellField(second) + (" " + "}");
    assert SpellFields(x) == SpellField(first) + ("" + ("," + (" " + SpellFields(x.more))));
    BlanksBetween(SpellField(first), SpellField(second));
  }

  lemma BlanksBetween(first: string, second: string)
    ensures "{" + (" " + (first + ("" + ("," + (" " + (second + (" " + "}"))))))) ==
      "{ " + (first + (", " + (second + " }")))
  {
    var more := second + " }";
    assert " " + "}" == " }";
    assert "" + ("," + (" " + more)) == ", " + more;
    assert "{" + (" " + (first + (", " + more))) == "{ " + (first + (", " + more));
  }

  lemma PrintedField(f: Field, key: string, value: string)
    requires Plain(key) && Plain(value) && f == Field(Unescaped(key), "", "", Quoted(Unescaped(value)))
    ensures GoodField(f) && SpellField(f) == Printed(key, value)
    ensures AsMember(f) == Member(key, "\"" + value + "\"")
  {
    QuotedPlainly(value);
    assert SpellField(f) == "\"" + (SpellText(f.key) + ("\"" + (f.b + (":" + (f.b1 + Spell(f.v))))));
    ColonBetween(key, Spell(f.v));
    PrintedInParts(key, value);
  }

  lemma QuotedPlainly(value: string)
    requires Plain(value)
    ensures var v := Quoted(Unescaped(value)); Good(v) && Spell(v) == "\"" + value + "\""
  {
    assert "\"" + (value + "\"") == "\"" + value + "\"";
  }

  lemma PrintedInParts(key: string, value: string)
    ensures "\"" + key + "\":" + ("\"" + value + "\"") == Printed(key, value)
  {
    assert "\":" + "\"" == "\":\"";
  }

  lemma ColonBetween(key: string, v: string)
    ensures "\"" + (key + ("\"" + ("" + (":" + ("" + v))))) == "\"" + key + "\":" + v
  {
    assert "\"" + ("" + (":" + ("" + v))) == "\":" + v;
  }

  // ---- From the line to the command ----------------------------------------------

  /** The value an event's data stands for: the last data member of an object in
      any spelling, or the trimmed text itself. */
  ghost predicate Conveys(data: string, value: string) {
    || (exists p, x, q ::
         && AllSpace(p) && IsObject(x) && Height(x) <= 10000 && AllSpace(q)
         && data == p + Spell(x) + q && DataOf(x) == value)
    || (!SpellsObject(TrimSpace(data)) && TrimSpace(data) == value)
  }

  lemma ConveyedIsUnwrapped(data: string, value: string)
    requires Conveys(data, value)
    ensures WrappedValue(data) == value
  {
    if p, x, q :|
      AllSpace(p) && IsObject(x) && Height(x) <= 10000 && AllSpace(q) && data == p + Spell(x) + q && DataOf(x) == value
    {
      UnwrapsObjects(p, x, q);
    } else {
      OthersPass(data);
    }
  }

  /** The command for an event of this name and value. */
  function CommandFor(name: string, value: string): seq<Command> {
    if name == "TagValid" then [Play("")]
    else if name == "playback" && value == "stopped" then [Pause]
    else if name == "knock" && value == "forward" then [SkipNext]
    else if name == "knock" && value == "backward" then [SkipPrev]
    else []
  }

  /** Whatever the spelling, an event's value alone decides its command. */
  lemma ValueDecides(name: string, data: string, value: string)
    requires Conveys(data, value)
    ensures Dispatch(Event(name, data)) == CommandFor(name, value)
  {
    ConveyedIsUnwrapped(data, value);
  }

  lemma OneEventFirst(e: Event, rest: seq<Event>)
    ensures DispatchAll([e] + rest) == Dispatch(e) + DispatchAll(rest)
  {
    FlatMapJoined(Dispatch, [e], rest);
    assert [e][..0] == [];
  }

  /** And so on the wire, whatever follows the frame. */
  lemma AnySpellingObeyed(name: string, data: string, value: string, r: string)
    requires name != "" && Trimmed(name) && data != "" && Trimmed(data) && '\n' !in name && '\n' !in data
    requires !TooLong("event: " + name) && !TooLong("data: " + data) && Conveys(data, value)
    ensures Commands("event: " + name + "\ndata: " + data + "\n\n" + r) == CommandFor(name, value) + Commands(r)
  {
    TextFrameRead(name, data, r);
    OneEventFirst(Event(name, data), Events(EMPTY, r));
    ValueDecides(name, data, value);
  }
}
