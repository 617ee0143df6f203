/** The envelope a Teddycloud event wraps its value in, and its unwrapping: the
    printer of the mock (cmd/mock-teddycloud/main.go:69-72) against wrappedValue
    of the listener (internal/sselistener/listener.go:282-305). */
module Envelope {
  import opened Json
  import opened Wrappers

  /** unicode.IsSpace */
  predicate IsSpace(c: char) {
    || '\t' <= c <= '\r' || c == ' '
    || c in {'\U{0085}', '\U{00A0}', '\U{1680}', '\U{2028}', '\U{2029}', '\U{202F}', '\U{205F}', '\U{3000}'}
    || '\U{2000}' <= c <= '\U{200A}'
  }

  /** strings.TrimSpace */
  function TrimSpace(s: string): string {
    if s != [] && IsSpace(s[0]) then TrimSpace(s[1..])
    else if s != [] && IsSpace(s[|s| - 1]) then TrimSpace(s[..|s| - 1])
    else s
  }

  /** No space at either end. */
  predicate Trimmed(s: string) {
    s != [] ==> !IsSpace(s[0]) && !IsSpace(s[|s| - 1])
  }

  function Lower(c: char): char {
    if 'A' <= c <= 'Z' then (c as int + 32) as char else c
  }

  /** A key names the field `data` in any ASCII case. */
  predicate IsDataKey(key: string) {
    |key| == 4 && Lower(key[0]) == 'd' && Lower(key[1]) == 'a' && Lower(key[2]) == 't' && Lower(key[3]) == 'a'
  }

  /** The raw value of the last data member, empty when there is none. */
  function DataMember(ms: seq<Member>): string {
    if ms == [] then ""
    else if IsDataKey(ms[|ms| - 1].key) then ms[|ms| - 1].raw
    else DataMember(ms[..|ms| - 1])
  }

  /** A raw value as a string: literals are decoded, null leaves the zero value,
      anything else stays as written. */
  function AsString(raw: string): string {
    if raw == "null" then ""
    else if raw != [] && raw[0] == '"' then
      match StringRest(raw[1..])
      case Some((text, after)) => if after == [] then text else raw
      case None => raw
    else raw
  }

  function WrappedValue(data: string): string {
    var s := TrimSpace(data);
    if s == [] || s[0] != '{' then s
    else
      match Object(s, MAX_DEPTH)
      case None => s
      case Some((ms, rest)) => if SkipBlanks(rest) != [] then s else AsString(DataMember(ms))
  }

  /** The data line's value as the mock prints it, nothing escaped. */
  function Wrap(name: string, value: string): string {
    "{ \"type\":\"" + name + "\", \"data\":\"" + value + "\" }"
  }

  /** A character a JSON string holds as itself. */
  predicate IsPlain(c: char) {
    c >= ' ' && c != '"' && c != '\\'
  }

  predicate Plain(s: string) {
    forall i :: 0 <= i < |s| ==> IsPlain(s[i])
  }

  // ---- Reading back a plain string ------------------------------------------

  lemma {:induction false} StringRestOfPlain(p: string, after: string)
    requires Plain(p)
    ensures StringRest(p + "\"" + after) == Some((p, after))
  {
    var s := p + "\"" + after;
    if p == [] {
      assert s[1..] == after;
    } else {
      StringRestOfPlain(p[1..], after);
      assert s[1..] == p[1..] + "\"" + after;
      assert [p[0]] + p[1..] == p;
    }
  }

  /** A member as the mock prints it. */
  function Printed(key: string, value: string): string {
    "\"" + key + "\":\"" + value + "\""
  }

  lemma KeyOf(s: string, key: string, value: string)
    requires s != [] && s[0] == '"' && StringRest(s[1..]) == Some((key, ":" + value))
    requires value != [] && !IsBlank(value[0])
    ensures Key(s) == Some((key, value))
  {
    assert (":" + value)[1..] == value;
  }

  /** A member whose value is a string literal. */
  lemma LiteralMember(key: string, text: string, depth: nat)
    ensures Keyed(key, "\"" + text, depth) ==
      var r := StringRest(text);
      if r.None? then None
      else Continue(Member(key, ("\"" + text)[..|text| + 1 - |r.value.1|]), r.value.1, depth)
  {
    assert ("\"" + text)[1..] == text;
  }

  /** Reading a member whose key is plain; its value may be anything that starts
      with a quote. */
  lemma MembersAfterKey(key: string, text: string, depth: nat)
    requires Plain(key)
    ensures
      Members("\"" + key + "\":\"" + text, depth) ==
        var r := StringRest(text);
        if r.None? then None
        else Continue(Member(key, ("\"" + text)[..|text| + 1 - |r.value.1|]), r.value.1, depth)
  {
    var value := "\"" + text;
    KeySpelled(key, text);
    StringRestOfPlain(key, ":" + value);
    KeyOf("\"" + key + "\":\"" + text, key, value);
    LiteralMember(key, text, depth);
  }

  lemma KeySpelled(key: string, text: string)
    ensures
      var s := "\"" + key + "\":\"" + text;
      s[0] == '"' && s[1..] == key + "\"" + (":" + ("\"" + text))
  {}

  /** A plain value is read back as printed. */
  lemma MembersAfterPlain(key: string, value: string, after: string, depth: nat)
    requires Plain(key) && Plain(value)
    ensures Members(Printed(key, value) + after, depth) == Continue(Member(key, "\"" + value + "\""), after, depth)
  {
    var text := value + "\"" + after;
    assert Printed(key, value) + after == "\"" + key + "\":\"" + text;
    MembersAfterKey(key, text, depth);
    StringRestOfPlain(value, after);
    assert ("\"" + text)[..|text| + 1 - |after|] == "\"" + value + "\"";
  }

  /** What follows the type member in an envelope. */
  function Tail(value: string): string {
    "\"" + "data" + "\":\"" + (value + "\"" + " }")
  }

  lemma TailPrinted(value: string)
    ensures Tail(value) == Printed("data", value) + " }"
  {
    assert "\"" + "data" + "\":\"" == "\"data\":\"";
  }

  lemma WrapSpelled(name: string, value: string)
    ensures Wrap(name, value) == "{ " + (Printed("type", name) + (", " + Tail(value)))
  {
    assert "{ " + Printed("type", name) == "{ \"type\":\"" + name + "\"";
    assert "\"" + ", " + "\"data\":\"" == "\", \"data\":\"";
  }

  lemma ObjectOfEnvelope(name: string, value: string)
    requires Plain(name)
    ensures Object(Wrap(name, value), MAX_DEPTH) ==
      Continue(Member("type", "\"" + name + "\""), ", " + Tail(value), MAX_DEPTH - 1)
  {
    var t := Printed("type", name) + (", " + Tail(value));
    WrapSpelled(name, value);
    BracedObject(t);
    MembersAfterPlain("type", name, ", " + Tail(value), MAX_DEPTH - 1);
  }

  lemma BracedObject(t: string)
    requires t != [] && t[0] == '"'
    ensures Object("{ " + t, MAX_DEPTH) == Members(t, MAX_DEPTH - 1)
  {
    assert ("{ " + t)[1..] == " " + t;
    SkipOneBlank(t);
    ObjectOf("{ " + t, MAX_DEPTH, t);
  }

  lemma SkipOneBlank(t: string)
    requires t != [] && !IsBlank(t[0])
    ensures SkipBlanks(" " + t) == t
  {
    assert (" " + t)[1..] == t;
    assert SkipBlanks(t) == t;
  }

  lemma ObjectOf(s: string, depth: nat, t: string)
    requires s != [] && s[0] == '{' && SkipBlanks(s[1..]) == t && t != [] && t[0] != '}' && depth > 0
    ensures Object(s, depth) == Members(t, depth - 1)
  {}

  lemma SecondMember(m: Member, value: string, depth: nat)
    ensures Continue(m, ", " + Tail(value), depth) ==
      match Members(Tail(value), depth)
      case None => None
      case Some((ms, rest)) => Some(([m] + ms, rest))
  {
    var after := ", " + Tail(value);
    assert after[1..] == " " + Tail(value);
    assert (" " + Tail(value))[1..] == Tail(value);
    assert SkipBlanks(Tail(value)) == Tail(value);
  }

  lemma TrimmedStays(s: string)
    requires Trimmed(s)
    ensures TrimSpace(s) == s
  {}

  lemma WrapIsTrimmed(name: string, value: string)
    ensures Trimmed(Wrap(name, value)) && TrimSpace(Wrap(name, value)) == Wrap(name, value)
    ensures |Wrap(name, value)| > |value| + 2 && Wrap(name, value)[0] == '{'
  {
    TrimmedStays(Wrap(name, value));
  }

  lemma ObjectOfPlain(name: string, value: string)
    requires Plain(name) && Plain(value)
    ensures Object(Wrap(name, value), MAX_DEPTH) ==
      Some(([Member("type", "\"" + name + "\""), Member("data", "\"" + value + "\"")], ""))
  {
    var typeMember, dataMember := Member("type", "\"" + name + "\""), Member("data", "\"" + value + "\"");
    ObjectOfEnvelope(name, value);
    SecondMember(typeMember, value, MAX_DEPTH - 1);
    assert Tail(value) == Printed("data", value) + " }" by { TailPrinted(value); }
    MembersAfterPlain("data", value, " }", MAX_DEPTH - 1);
    LastMember(dataMember, MAX_DEPTH - 1);
    assert [typeMember] + [dataMember] == [typeMember, dataMember];
  }

  lemma LastMember(m: Member, depth: nat)
    ensures Continue(m, " }", depth) == Some(([m], ""))
  {
    assert " " + "}" == " }";
    SkipOneBlank("}");
    assert "}"[1..] == "";
  }

  /** What an envelope unwraps to, by the members it is read as. */
  lemma UnwrapMembers(name: string, value: string, ms: seq<Member>)
    requires Object(Wrap(name, value), MAX_DEPTH) == Some((ms, ""))
    ensures WrappedValue(Wrap(name, value)) == AsString(DataMember(ms))
  {
    WrapIsTrimmed(name, value);
  }

  lemma DataSecond(m: Member, raw: string)
    ensures DataMember([m, Member("data", raw)]) == raw
  {
    assert IsDataKey("data");
  }

  /** A wrapped plain value is unwrapped to itself. */
  lemma UnwrapPlain(name: string, value: string)
    requires Plain(name) && Plain(value)
    ensures WrappedValue(Wrap(name, value)) == value
  {
    var typeMember, raw := Member("type", "\"" + name + "\""), "\"" + value + "\"";
    ObjectOfPlain(name, value);
    UnwrapMembers(name, value, [typeMember, Member("data", raw)]);
    DataSecond(typeMember, raw);
    DecodeLiteral(value);
  }

  lemma LiteralDecoded(literal: string, text: string)
    requires StringRest(literal) == Some((text, ""))
    ensures AsString("\"" + literal) == text
  {
    assert ("\"" + literal)[1..] == literal;
  }

  lemma DecodeLiteral(value: string)
    requires Plain(value)
    ensures AsString("\"" + value + "\"") == value
  {
    StringRestOfPlain(value, "");
    assert value + "\"" + "" == value + "\"";
    LiteralDecoded(value + "\"", value);
    assert "\"" + (value + "\"") == "\"" + value + "\"";
  }

  // ---- Why nothing else survives ------------------------------------------------

  /** A literal printed around v without escaping cannot be read past its closing
      quote, and gives back all of v only if v is plain. */
  lemma {:induction false} CutShort(v: string, tail: string)
    requires StringRest(tail) == None
    ensures
      match StringRest(v + "\"" + tail)
      case None => true
      case Some((text, after)) =>
        && |after| >= |tail| && (|text| < |v| || Plain(v))
        && (|after| == |tail| ==> after == tail)
    decreases |v|
  {
    var s := v + "\"" + tail;
    if v == [] {
      assert s[1..] == tail;
    } else if s[0] >= ' ' && s[0] != '"' && s[0] != '\\' {
      assert s[1..] == v[1..] + "\"" + tail;
      CutShort(v[1..], tail);
    } else if s[0] == '\\' && Escape(s).Some? {
      var rest := Escape(s).value.1;
      EscapeStaysInside(v, tail);
      if rest != tail {
        CutShort(v[|s| - |rest|..], tail);
      }
    }
  }

  /** An escape at the head of v ends inside v, or swallows the quote behind it. */
  lemma EscapeStaysInside(v: string, tail: string)
    requires v != [] && v[0] == '\\' && Escape(v + "\"" + tail).Some?
    ensures
      var s := v + "\"" + tail;
      var rest := Escape(s).value.1;
      || rest == tail
      || (2 <= |s| - |rest| <= |v| && rest == v[|s| - |rest|..] + "\"" + tail)
  {
    var s := v + "\"" + tail;
    assert s[|v|] == '"';
    if |v| == 1 {
      assert s[2..] == tail;
    } else {
      assert s[2..] == v[2..] + "\"" + tail;
      if v[1] == 'u' {
        assert CodeUnit(s).Some? ==> |v| >= 6;
        assert |v| >= 6 ==> s[6..] == v[6..] + "\"" + tail;
        assert |v| >= 6 && CodeUnit(s[6..]).Some? ==> |v| >= 12 by {
          if 6 <= |v| < 12 { assert s[6..][|v| - 6] == '"'; }
        }
        assert |v| >= 12 ==> s[12..] == v[12..] + "\"" + tail;
      }
    }
  }

  /** A literal that was read is read again, alone, to the same text. */
  lemma {:induction false} LiteralAlone(s: string)
    requires StringRest(s).Some?
    ensures
      var (text, after) := StringRest(s).value;
      StringRest(s[..|s| - |after|]) == Some((text, ""))
    decreases |s|
  {
    var (text, after) := StringRest(s).value;
    var n := |s| - |after|;
    if s[0] == '"' {
      assert s[..1][1..] == "";
    } else if s[0] == '\\' {
      var (c, rest) := Escape(s).value;
      LiteralAlone(rest);
      EndsWithQuote(s);
      EscapedAlone(s, c, rest, StringRest(rest).value.0, n);
    } else {
      LiteralAlone(s[1..]);
      assert s[..n][1..] == s[1..][..n - 1];
    }
  }

  /** The case of a literal that begins with an escape. */
  lemma EscapedAlone(s: string, c: char, rest: string, text: string, n: nat)
    requires s != [] && s[0] == '\\' && Escape(s) == Some((c, rest))
    requires |s| - |rest| < n <= |s| && s[n - 1] == '"'
    requires StringRest(rest[..|rest| - (|s| - n)]) == Some((text, ""))
    ensures StringRest(s[..n]) == Some(([c] + text, ""))
  {
    EscapeAlone(s, n);
    StringRestEscaped(s[..n], c, rest[..|rest| - (|s| - n)], text);
  }

  lemma StringRestEscaped(s: string, c: char, rest: string, text: string)
    requires s != [] && s[0] == '\\' && Escape(s) == Some((c, rest)) && StringRest(rest) == Some((text, ""))
    ensures StringRest(s) == Some(([c] + text, ""))
  {}

  lemma {:induction false} EndsWithQuote(s: string)
    requires StringRest(s).Some?
    ensures s[|s| - |StringRest(s).value.1| - 1] == '"'
    decreases |s|
  {
    if s[0] == '\\' {
      var rest := Escape(s).value.1;
      EscapeTail(s);
      EndsWithQuote(rest);
    } else if s[0] != '"' {
      EndsWithQuote(s[1..]);
    }
  }

  lemma EscapeTail(s: string)
    requires s != [] && s[0] == '\\' && Escape(s).Some?
    ensures Escape(s).value.1 == s[|s| - |Escape(s).value.1|..]
  {}

  lemma EscapeAlone(s: string, n: nat)
    requires s != [] && s[0] == '\\' && Escape(s).Some?
    requires |s| - |Escape(s).value.1| < n <= |s| && s[n - 1] == '"'
    ensures
      var (c, rest) := Escape(s).value;
      Escape(s[..n]) == Some((c, rest[..|rest| - (|s| - n)]))
  {
    var rest := Escape(s).value.1;
    assert s[..n][2..] == s[2..][..n - 2];
    if s[1] == 'u' {
      assert n > 6;
      assert CodeUnit(s[..n]) == CodeUnit(s);
      assert s[..n][6..] == s[6..][..n - 6];
      if n < 12 {
        assert s[6..][n - 7] == '"';
      } else {
        assert CodeUnit(s[..n][6..]) == CodeUnit(s[6..]);
        assert s[..n][12..] == s[12..][..n - 12];
      }
    }
  }

  /** Member values are shorter than the text they were read from. */
  lemma {:induction false} RawsAreShort(s: string, depth: nat)
    requires Members(s, depth).Some?
    ensures forall i :: 0 <= i < |Members(s, depth).value.0| ==> |Members(s, depth).value.0[i].raw| + 4 <= |s|
    decreases |s|
  {
    var (key, value) := Key(s).value;
    assert Members(s, depth) == Keyed(key, value, depth);
    var after := Value(value, depth).value;
    LaterRawsAreShort(Member(key, value[..|value| - |after|]), after, depth);
  }

  lemma {:induction false} LaterRawsAreShort(m: Member, after: string, depth: nat)
    requires Continue(m, after, depth).Some?
    ensures
      var ms := Continue(m, after, depth).value.0;
      ms != [] && ms[0] == m && forall i :: 1 <= i < |ms| ==> |ms[i].raw| + 5 <= |after|
    decreases |after|
  {
    var t := SkipBlanks(after);
    if t[0] == ',' {
      assert Continue(m, after, depth) == More(m, t[1..], depth);
      RawsAreShort(SkipBlanks(t[1..]), depth);
    }
  }

  lemma AsStringIsShort(raw: string)
    ensures |AsString(raw)| <= |raw|
  {}

  /** The text read as the data member's value, printed before `after`. */
  function PrintedData(value: string, after: string): Member
    requires |after| <= |value| + 3
  {
    var text := value + "\"" + " }";
    Member("data", ("\"" + text)[..|text| + 1 - |after|])
  }

  /** A literal read out of an unescaped print of v never decodes to v, unless v
      is plain. */
  lemma FirstLiteralDiffers(v: string)
    requires !Plain(v) && StringRest(v + "\"" + " }").Some?
    ensures AsString(PrintedData(v, StringRest(v + "\"" + " }").value.1).raw) != v
  {
    NoLiteralLeft();
    CutShort(v, " }");
    PrintedDataDecoded(v);
  }

  lemma NoLiteralLeft()
    ensures StringRest(" }") == None
  {
    assert " }"[1..] == "}" && "}"[1..] == "";
  }

  lemma PrintedDataDecoded(v: string)
    requires StringRest(v + "\"" + " }").Some?
    ensures AsString(PrintedData(v, StringRest(v + "\"" + " }").value.1).raw) == StringRest(v + "\"" + " }").value.0
  {
    var text := v + "\"" + " }";
    var (decoded, after) := StringRest(text).value;
    var literal := text[..|text| - |after|];
    LiteralAlone(text);
    LiteralDecoded(literal, decoded);
    assert PrintedData(v, after).raw == "\"" + literal;
  }

  /** What is read after the type: whatever the printed value turns out to be,
      then more. */
  lemma ValueAndMore(typeMember: Member, value: string, depth: nat, ms: seq<Member>, rest: string)
    requires Continue(typeMember, ", " + Tail(value), depth) == Some((ms, rest))
    ensures StringRest(value + "\"" + " }").Some?
    ensures
      var after := StringRest(value + "\"" + " }").value.1;
      var more := Continue(PrintedData(value, after), after, depth);
      more.Some? && ms == [typeMember] + more.value.0
  {
    SecondMember(typeMember, value, depth);
    MembersAfterKey("data", value + "\"" + " }", depth);
  }

  /** If it is not plain, the data member decodes to something else. */
  lemma DataDiffers(name: string, value: string, ms: seq<Member>, rest: string)
    requires Plain(name) && !Plain(value)
    requires Object(Wrap(name, value), MAX_DEPTH) == Some((ms, rest))
    ensures AsString(DataMember(ms)) != value
  {
    var depth := MAX_DEPTH - 1;
    ObjectOfEnvelope(name, value);
    ValueAndMore(Member("type", "\"" + name + "\""), value, depth, ms, rest);
    var after := StringRest(value + "\"" + " }").value.1;
    var dataMember := PrintedData(value, after);
    FirstLiteralDiffers(value);
    LaterRawsAreShort(dataMember, after, depth);
    DataAmong(ms[0], Continue(dataMember, after, depth).value.0, dataMember);
    AsStringIsShort(DataMember(ms));
  }

  /** The data member is the first printed one or a later one. */
  lemma {:induction false} DataAmong(first: Member, more: seq<Member>, dataMember: Member)
    requires more != [] && more[0] == dataMember && IsDataKey(dataMember.key)
    ensures
      var raw := DataMember([first] + more);
      raw == dataMember.raw || exists i :: 1 <= i < |more| && raw == more[i].raw
    decreases |more|
  {
    var ms := [first] + more;
    var last := |more| - 1;
    assert ms[|ms| - 1] == more[last];
    if !IsDataKey(more[last].key) {
      assert ms[..|ms| - 1] == [first] + more[..last];
      DataAmong(first, more[..last], dataMember);
    }
  }

  /** The listener recovers a value from the mock's envelope exactly when the
      value has no quote, backslash or control character, since the mock escapes
      nothing. */
  lemma UnwrapExactly(name: string, value: string)
    requires Plain(name)
    ensures WrappedValue(Wrap(name, value)) == value <==> Plain(value)
  {
    if Plain(value) {
      UnwrapPlain(name, value);
    } else {
      var s := Wrap(name, value);
      WrapIsTrimmed(name, value);
      match Object(s, MAX_DEPTH)
      case None =>
      case Some((ms, rest)) => DataDiffers(name, value, ms, rest);
    }
  }
}
