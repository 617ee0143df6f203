/** The grammar of JSON texts (RFC 8259, sections 2 to 7) as syntax trees that
    remember how everything is spelled, and the proof that module Json reads
    exactly these texts: every tree, printed, is read back, and everything that is
    read was printed from some tree. */
module Grammar {
  import opened Json
  import opened Wrappers

  // ---- Strings ----------------------------------------------------------------

  /** One character of a string literal: as itself, as a two-character escape, by
      its code, or as a surrogate pair. */
  datatype Unit =
    | Raw(c: char)
    | Short(letter: char)
    | Hex(digits: string)
    | Pair(high: string, low: string)

  predicate IsHexDigit(c: char) {
    '0' <= c <= '9' || 'a' <= c <= 'f' || 'A' <= c <= 'F'
  }

  predicate IsHex(h: string) {
    |h| == 4 && IsHexDigit(h[0]) && IsHexDigit(h[1]) && IsHexDigit(h[2]) && IsHexDigit(h[3])
  }

  function DigitOf(c: char): (r: int)
    requires IsHexDigit(c)
    ensures 0 <= r < 16
  {
    if c <= '9' then c as int - 48 else if c <= 'F' then c as int - 55 else c as int - 87
  }

  function CodeOf(h: string): (r: int)
    requires IsHex(h)
    ensures 0 <= r < 65536
  {
    4096 * DigitOf(h[0]) + 256 * DigitOf(h[1]) + 16 * DigitOf(h[2]) + DigitOf(h[3])
  }

  predicate IsHigh(h: string) {
    IsHex(h) && 0xD800 <= CodeOf(h) < 0xDC00
  }

  predicate IsLow(h: string) {
    IsHex(h) && 0xDC00 <= CodeOf(h) < 0xE000
  }

  /** The character a two-character escape stands for. */
  function ShortOf(letter: char): Option<char> {
    match letter
    case '"' => Some('\"')
    case '\\' => Some('\\')
    case '/' => Some('/')
    case 'b' => Some('\U{0008}')
    case 'f' => Some('\U{000C}')
    case 'n' => Some('\U{000A}')
    case 'r' => Some('\U{000D}')
    case 't' => Some('\U{0009}')
    case _ => None
  }

  predicate GoodUnit(u: Unit) {
    match u
    case Raw(c) => c >= ' ' && c != '"' && c != '\\'
    case Short(letter) => ShortOf(letter).Some?
    case Hex(digits) => IsHex(digits)
    case Pair(high, low) => IsHigh(high) && IsLow(low)
  }

  /** A high and a low surrogate beside each other are a pair. */
  predicate GoodText(units: seq<Unit>) {
    units == [] || (
      && GoodUnit(units[0]) && GoodText(units[1..])
      && (|units| > 1 ==> !Splits(units[0], units[1])))
  }

  predicate Splits(u: Unit, v: Unit) {
    u.Hex? && IsHigh(u.digits) && v.Hex? && IsLow(v.digits)
  }

  /** A surrogate without its counterpart is read as U+FFFD. */
  function Means(u: Unit): char
    requires GoodUnit(u)
  {
    match u
    case Raw(c) => c
    case Short(letter) => ShortOf(letter).value
    case Hex(digits) => if IsHigh(digits) || IsLow(digits) then '\U{FFFD}' else CodeOf(digits) as char
    case Pair(high, low) => (0x10000 + (CodeOf(high) - 0xD800) * 1024 + (CodeOf(low) - 0xDC00)) as char
  }

  function Spelled(u: Unit): string {
    match u
    case Raw(c) => [c]
    case Short(letter) => ['\\', letter]
    case Hex(digits) => "\\u" + digits
    case Pair(high, low) => "\\u" + high + ("\\u" + low)
  }

  function SpellText(units: seq<Unit>): string {
    if units == [] then "" else Spelled(units[0]) + SpellText(units[1..])
  }

  function TextOf(units: seq<Unit>): string
    requires GoodText(units)
  {
    if units == [] then "" else [Means(units[0])] + TextOf(units[1..])
  }

  lemma DigitRead(c: char)
    requires IsHexDigit(c)
    ensures HexDigit(c) == Some(DigitOf(c) as nat)
  {}

  lemma CodeRead(h: string, after: string)
    requires IsHex(h)
    ensures CodeUnit("\\u" + h + after) == Some(CodeOf(h))
  {
    var s := "\\u" + h + after;
    assert s[2] == h[0] && s[3] == h[1] && s[4] == h[2] && s[5] == h[3];
    DigitRead(h[0]);
    DigitRead(h[1]);
    DigitRead(h[2]);
    DigitRead(h[3]);
  }

  lemma CodeParsed(s: string)
    requires CodeUnit(s).Some?
    ensures IsHex(s[2..6]) && CodeUnit(s) == Some(CodeOf(s[2..6])) && s == "\\u" + s[2..6] + s[6..]
  {
    assert HexDigit(s[2]).Some? && HexDigit(s[3]).Some? && HexDigit(s[4]).Some? && HexDigit(s[5]).Some?;
    DigitRead(s[2]);
    DigitRead(s[3]);
    DigitRead(s[4]);
    DigitRead(s[5]);
  }

  /** The code of a low surrogate comes next. */
  predicate LowNext(s: string) {
    CodeUnit(s).Some? && 0xDC00 <= CodeUnit(s).value < 0xE000
  }

  lemma HexRead(h: string, after: string)
    requires IsHex(h) && (IsHigh(h) ==> !LowNext(after))
    ensures Escape("\\u" + h + after) == Some((Means(Hex(h)), after))
  {
    var s := "\\u" + h + after;
    CodeRead(h, after);
    assert s[6..] == after;
  }

  lemma PairRead(high: string, low: string, after: string)
    requires IsHigh(high) && IsLow(low)
    ensures Escape("\\u" + high + ("\\u" + low) + after) == Some((Means(Pair(high, low)), after))
  {
    var s, rest := "\\u" + high + ("\\u" + low) + after, "\\u" + low + after;
    assert s == "\\u" + high + rest;
    CodeRead(high, rest);
    CodeRead(low, after);
    assert s[6..] == rest && s[12..] == after;
  }

  lemma ShortRead(letter: char, after: string)
    requires ShortOf(letter).Some?
    ensures Escape(['\\', letter] + after) == Some((ShortOf(letter).value, after))
  {
    assert (['\\', letter] + after)[2..] == after;
  }

  lemma UnitRead(u: Unit, after: string)
    requires GoodUnit(u) && !u.Raw? && (u.Hex? && IsHigh(u.digits) ==> !LowNext(after))
    ensures Spelled(u) != "" && Spelled(u)[0] == '\\' && Escape(Spelled(u) + after) == Some((Means(u), after))
  {
    match u
    case Short(letter) => ShortRead(letter, after);
    case Hex(digits) => HexRead(digits, after);
    case Pair(high, low) => PairRead(high, low, after);
    case Raw(_) =>
  }

  lemma LowAfterPair(high: string, low: string, rest: string)
    requires IsHigh(high)
    ensures !LowNext("\\u" + high + ("\\u" + low) + rest)
  {
    Joined("\\u" + high, "\\u" + low, rest);
    CodeRead(high, "\\u" + low + rest);
  }

  lemma LowAfterShort(letter: char, rest: string)
    requires ShortOf(letter).Some?
    ensures !LowNext(['\\', letter] + rest)
  {
    assert (['\\', letter] + rest)[1] == letter;
  }

  /** Where a low surrogate's code at the head of a text comes from. */
  lemma LowIsHex(u: Unit, rest: string)
    requires GoodUnit(u) && LowNext(Spelled(u) + rest)
    ensures u.Hex? && IsLow(u.digits)
  {
    match u
    case Hex(digits) => CodeRead(digits, rest);
    case Pair(high, low) => LowAfterPair(high, low, rest);
    case Short(letter) => LowAfterShort(letter, rest);
    case Raw(_) =>
  }

  lemma LowIsSpelled(units: seq<Unit>, after: string)
    requires GoodText(units) && LowNext(SpellText(units) + "\"" + after)
    ensures units != [] && units[0].Hex? && IsLow(units[0].digits)
  {
    if units != [] {
      TextSpelled(units, after);
      LowIsHex(units[0], SpellText(units[1..]) + "\"" + after);
    }
  }

  lemma TextSpelled(units: seq<Unit>, after: string)
    requires units != []
    ensures SpellText(units) + "\"" + after == Spelled(units[0]) + (SpellText(units[1..]) + "\"" + after)
  {}

  /** A printed string is read back, whatever its spelling and whatever follows. */
  lemma {:induction false} StringRead(units: seq<Unit>, after: string)
    requires GoodText(units)
    ensures StringRest(SpellText(units) + "\"" + after) == Some((TextOf(units), after))
  {
    var s := SpellText(units) + "\"" + after;
    if units == [] {
      assert s[1..] == after;
    } else {
      var u, rest := units[0], SpellText(units[1..]) + "\"" + after;
      StringRead(units[1..], after);
      TextSpelled(units, after);
      if u.Raw? {
        assert s[1..] == rest;
      } else {
        if u.Hex? && IsHigh(u.digits) && LowNext(rest) {
          LowIsSpelled(units[1..], after);
          assert false;
        }
        UnitRead(u, rest);
        assert s[0] == '\\';
      }
    }
  }

  /** An escape that was read was printed from a unit. */
  lemma EscapeParsed(s: string) returns (u: Unit)
    requires s != [] && s[0] == '\\' && Escape(s).Some?
    ensures GoodUnit(u) && !u.Raw? && s == Spelled(u) + Escape(s).value.1 && Means(u) == Escape(s).value.0
    ensures u.Hex? && IsHigh(u.digits) ==> !LowNext(Escape(s).value.1)
  {
    if s[1] == 'u' {
      u := CodedParsed(s);
    } else {
      u := Short(s[1]);
      assert s == [s[0], s[1]] + s[2..];
    }
  }

  lemma CodedParsed(s: string) returns (u: Unit)
    requires |s| >= 2 && s[0] == '\\' && s[1] == 'u' && Escape(s).Some?
    ensures GoodUnit(u) && !u.Raw? && s == Spelled(u) + Escape(s).value.1 && Means(u) == Escape(s).value.0
    ensures u.Hex? && IsHigh(u.digits) ==> !LowNext(Escape(s).value.1)
  {
    CodeParsed(s);
    u := Hex(s[2..6]);
    var rest := s[6..];
    if IsHigh(s[2..6]) && LowNext(rest) {
      CodeParsed(rest);
      u := Pair(s[2..6], rest[2..6]);
      assert rest[6..] == s[12..];
      PairRead(s[2..6], rest[2..6], s[12..]);
      assert s == "\\u" + s[2..6] + ("\\u" + rest[2..6]) + s[12..];
    } else {
      HexRead(s[2..6], rest);
    }
  }

  /** Every string that is read was printed from good units. */
  lemma {:induction false} StringParsed(s: string) returns (units: seq<Unit>)
    requires StringRest(s).Some?
    ensures GoodText(units) && TextOf(units) == StringRest(s).value.0
    ensures s == SpellText(units) + "\"" + StringRest(s).value.1
    decreases |s|
  {
    var after := StringRest(s).value.1;
    if s[0] == '"' {
      units := [];
      assert s == "\"" + s[1..];
    } else if s[0] == '\\' {
      var u := EscapeParsed(s);
      var rest := Escape(s).value.1;
      var more := StringParsed(rest);
      units := Prefixed(u, more, rest, after);
    } else {
      var more := StringParsed(s[1..]);
      units := Prefixed(Raw(s[0]), more, s[1..], after);
      assert s == [s[0]] + s[1..];
    }
  }

  lemma Prefixed(u: Unit, more: seq<Unit>, rest: string, after: string) returns (units: seq<Unit>)
    requires GoodUnit(u) && GoodText(more) && rest == SpellText(more) + "\"" + after
    requires u.Hex? && IsHigh(u.digits) ==> !LowNext(rest)
    ensures units == [u] + more && GoodText(units) && TextOf(units) == [Means(u)] + TextOf(more)
    ensures SpellText(units) + "\"" + after == Spelled(u) + rest
  {
    units := [u] + more;
    assert units[1..] == more;
    TextSpelled(units, after);
    if more != [] {
      TextSpelled(more, after);
      NotSplit(u, more[0], SpellText(more[1..]) + "\"" + after);
    }
  }

  lemma NotSplit(u: Unit, v: Unit, rest: string)
    requires u.Hex? && IsHigh(u.digits) ==> !LowNext(Spelled(v) + rest)
    ensures !Splits(u, v)
  {
    if Splits(u, v) {
      CodeRead(v.digits, rest);
    }
  }

  // ---- Numbers ----------------------------------------------------------------

  predicate AllDigits(s: string) {
    forall i :: 0 <= i < |s| ==> '0' <= s[i] <= '9'
  }

  /** "0", or digits of which the first is not 0. */
  predicate IsWhole(w: string) {
    w == "0" || (w != "" && AllDigits(w) && w[0] != '0')
  }

  predicate IsFraction(f: string) {
    f == "" || (|f| > 1 && f[0] == '.' && AllDigits(f[1..]))
  }

  predicate IsExponent(e: string) {
    e == "" || (
      && |e| > 1 && (e[0] == 'e' || e[0] == 'E')
      && (AllDigits(e[1..]) || (|e| > 2 && (e[1] == '+' || e[1] == '-') && AllDigits(e[2..]))))
  }

  datatype Num = Num(sign: string, whole: string, fraction: string, exponent: string)

  predicate GoodNum(n: Num) {
    (n.sign == "" || n.sign == "-") && IsWhole(n.whole) && IsFraction(n.fraction) && IsExponent(n.exponent)
  }

  function SpellNum(n: Num): string {
    n.sign + (n.whole + (n.fraction + n.exponent))
  }

  /** What follows cannot belong to the number before it. */
  predicate Stops(s: string) {
    s == "" || !(IsDigit(s[0]) || s[0] == '.' || s[0] == 'e' || s[0] == 'E' || s[0] == '+' || s[0] == '-')
  }

  predicate NoDigit(s: string) {
    s == "" || !IsDigit(s[0])
  }

  lemma {:induction false} DigitsSkipped(d: string, after: string)
    requires AllDigits(d) && NoDigit(after)
    ensures SkipDigits(d + after) == after
  {
    if d == "" {
      assert d + after == after;
    } else {
      assert (d + after)[1..] == d[1..] + after;
      DigitsSkipped(d[1..], after);
    }
  }

  lemma DigitsRead(d: string, after: string)
    requires d != "" && AllDigits(d) && NoDigit(after)
    ensures Digits(d + after) == Some(after)
  {
    assert (d + after)[1..] == d[1..] + after;
    DigitsSkipped(d[1..], after);
  }

  lemma ExponentRead(e: string, after: string)
    requires IsExponent(e) && Stops(after)
    ensures Exponent(e + after) == Some(after)
  {
    var s := e + after;
    if e == "" {
      assert s == after;
    } else if AllDigits(e[1..]) {
      assert s[1..] == e[1..] + after && s[1] == e[1];
      DigitsRead(e[1..], after);
    } else {
      assert s[2..] == e[2..] + after && s[1] == e[1];
      DigitsRead(e[2..], after);
    }
  }

  lemma FractionRead(f: string, e: string, after: string)
    requires IsFraction(f) && IsExponent(e) && Stops(after)
    ensures Fraction(f + (e + after)) == Some(e + after)
  {
    var s := f + (e + after);
    if f == "" {
      assert s == e + after;
    } else {
      assert s[1..] == f[1..] + (e + after);
      DigitsRead(f[1..], e + after);
    }
  }

  lemma WholeRead(w: string, rest: string)
    requires IsWhole(w) && NoDigit(rest)
    ensures
      var t := w + rest;
      t != "" && t[0] != '-' && (if t[0] == '0' then Some(t[1..]) else Digits(t)) == Some(rest)
  {
    if w == "0" {
      assert (w + rest)[1..] == rest;
    } else {
      DigitsRead(w, rest);
    }
  }

  lemma NumberRead(n: Num, after: string)
    requires GoodNum(n) && Stops(after)
    ensures Number(SpellNum(n) + after) == Some(after)
    ensures SpellNum(n) != "" && (SpellNum(n)[0] == '-' || IsDigit(SpellNum(n)[0]))
  {
    var rest := n.fraction + (n.exponent + after);
    Regrouped(n.sign, n.whole, n.fraction, n.exponent, after);
    WholeRead(n.whole, rest);
    FractionRead(n.fraction, n.exponent, after);
    ExponentRead(n.exponent, after);
    Unsigned(n.sign, n.whole + rest);
    NumberInParts(SpellNum(n) + after, n.whole + rest, rest, n.exponent + after, after);
    NumberStarts(n);
  }

  lemma NumberInParts(s: string, t: string, w: string, f: string, after: string)
    requires s != "" && t == (if s[0] == '-' then s[1..] else s)
    requires t != "" && (if t[0] == '0' then Some(t[1..]) else Digits(t)) == Some(w)
    requires Fraction(w) == Some(f) && Exponent(f) == Some(after)
    ensures Number(s) == Some(after)
  {}

  lemma NumberStarts(n: Num)
    requires GoodNum(n)
    ensures SpellNum(n) != "" && (SpellNum(n)[0] == '-' || IsDigit(SpellNum(n)[0]))
  {}

  lemma Unsigned(sign: string, t: string)
    requires (sign == "" || sign == "-") && t != "" && t[0] != '-'
    ensures var s := sign + t; (if s[0] == '-' then s[1..] else s) == t
  {
    if sign == "" {
      assert sign + t == t;
    } else {
      assert (sign + t)[1..] == t;
    }
  }

  lemma {:induction false} DigitsParsed(s: string) returns (d: string)
    ensures AllDigits(d) && s == d + SkipDigits(s)
  {
    if s != "" && IsDigit(s[0]) {
      var more := DigitsParsed(s[1..]);
      d := [s[0]] + more;
      assert s == [s[0]] + s[1..];
    } else {
      d := "";
      assert s == "" + s;
    }
  }

  lemma SomeDigitsParsed(s: string) returns (d: string)
    requires Digits(s).Some?
    ensures d != "" && AllDigits(d) && s == d + Digits(s).value && d[0] == s[0]
  {
    var more := DigitsParsed(s[1..]);
    d := [s[0]] + more;
    HeadAndTail(s);
    OneMoreDigit(s[0], more);
  }

  lemma OneMoreDigit(c: char, d: string)
    requires IsDigit(c) && AllDigits(d)
    ensures AllDigits([c] + d)
  {}

  lemma ExponentParsed(s: string) returns (e: string)
    requires Exponent(s).Some?
    ensures IsExponent(e) && s == e + Exponent(s).value
  {
    if s != [] && (s[0] == 'e' || s[0] == 'E') {
      if |s| > 1 && (s[1] == '+' || s[1] == '-') {
        var d := SomeDigitsParsed(s[2..]);
        e := [s[0], s[1]] + d;
        assert e[2..] == d && s == [s[0], s[1]] + s[2..];
      } else {
        var d := SomeDigitsParsed(s[1..]);
        e := [s[0]] + d;
        assert e[1..] == d && s == [s[0]] + s[1..];
      }
    } else {
      e := "";
      assert s == "" + s;
    }
  }

  lemma FractionParsed(s: string) returns (f: string)
    requires Fraction(s).Some?
    ensures IsFraction(f) && s == f + Fraction(s).value
  {
    if s != [] && s[0] == '.' {
      var d := SomeDigitsParsed(s[1..]);
      f := [s[0]] + d;
      assert f[1..] == d && s == [s[0]] + s[1..];
    } else {
      f := "";
      assert s == "" + s;
    }
  }

  lemma WholeParsed(t: string, rest: string) returns (w: string)
    requires (if t != [] && t[0] == '0' then Some(t[1..]) else Digits(t)) == Some(rest)
    ensures IsWhole(w) && t == w + rest
  {
    if t != [] && t[0] == '0' {
      w := "0";
      assert t == [t[0]] + t[1..];
    } else {
      w := SomeDigitsParsed(t);
    }
  }

  lemma NumberParsed(s: string) returns (n: Num)
    requires Number(s).Some?
    ensures GoodNum(n) && s == SpellNum(n) + Number(s).value
  {
    var sign := if s != [] && s[0] == '-' then "-" else "";
    var t := if s != [] && s[0] == '-' then s[1..] else s;
    assert s == sign + t;
    var afterWhole := (if t != [] && t[0] == '0' then Some(t[1..]) else Digits(t)).value;
    var w := WholeParsed(t, afterWhole);
    var f := FractionParsed(afterWhole);
    var e := ExponentParsed(Fraction(afterWhole).value);
    n := Num(sign, w, f, e);
    Regrouped(sign, w, f, e, Number(s).value);
  }

  lemma Regrouped(a: string, b: string, c: string, d: string, e: string)
    ensures a + (b + (c + d)) + e == a + (b + (c + (d + e)))
  {}

  // ---- Values -----------------------------------------------------------------

  /** A value as it is spelled; a b is blanks. */
  datatype Node =
    | Quoted(units: seq<Unit>)
    | Numeral(n: Num)
    | Word(word: string)
    | EmptyArray(b: string)
    | Array(b: string, elems: Elems)
    | EmptyObject(b: string)
    | Record(b: string, fields: Fields)

  /** Up to and including the closing bracket. */
  datatype Elems = LastElem(v: Node, b: string) | ThenElem(v: Node, b: string, b1: string, more: Elems)

  /** Up to and including the closing brace. */
  datatype Fields = LastField(f: Field, b: string) | ThenField(f: Field, b: string, b1: string, more: Fields)

  datatype Field = Field(key: seq<Unit>, b: string, b1: string, v: Node)

  predicate Blanks(b: string) {
    forall i :: 0 <= i < |b| ==> b[i] == ' ' || b[i] == '\t' || b[i] == '\n' || b[i] == '\r'
  }

  predicate Good(x: Node) {
    match x
    case Quoted(units) => GoodText(units)
    case Numeral(n) => GoodNum(n)
    case Word(w) => w == "true" || w == "false" || w == "null"
    case EmptyArray(b) => Blanks(b)
    case Array(b, elems) => Blanks(b) && GoodElems(elems)
    case EmptyObject(b) => Blanks(b)
    case Record(b, fields) => Blanks(b) && GoodFields(fields)
  }

  predicate GoodElems(x: Elems) {
    && Good(x.v) && Blanks(x.b)
    && (x.ThenElem? ==> Blanks(x.b1) && GoodElems(x.more))
  }

  predicate GoodField(f: Field) {
    GoodText(f.key) && Blanks(f.b) && Blanks(f.b1) && Good(f.v)
  }

  predicate GoodFields(x: Fields) {
    && GoodField(x.f) && Blanks(x.b)
    && (x.ThenField? ==> Blanks(x.b1) && GoodFields(x.more))
  }

  function Spell(x: Node): string {
    match x
    case Quoted(units) => "\"" + (SpellText(units) + "\"")
    case Numeral(n) => SpellNum(n)
    case Word(w) => w
    case EmptyArray(b) => "[" + (b + "]")
    case Array(b, elems) => "[" + (b + SpellElems(elems))
    case EmptyObject(b) => "{" + (b + "}")
    case Record(b, fields) => "{" + (b + SpellFields(fields))
  }

  function SpellElems(x: Elems): string {
    match x
    case LastElem(v, b) => Spell(v) + (b + "]")
    case ThenElem(v, b, b1, more) => Spell(v) + (b + ("," + (b1 + SpellElems(more))))
  }

  function SpellField(f: Field): string {
    "\"" + (SpellText(f.key) + ("\"" + (f.b + (":" + (f.b1 + Spell(f.v))))))
  }

  function SpellFields(x: Fields): string {
    match x
    case LastField(f, b) => SpellField(f) + (b + "}")
    case ThenField(f, b, b1, more) => SpellField(f) + (b + ("," + (b1 + SpellFields(more))))
  }

  function Max(a: nat, b: nat): nat {
    if a < b then b else a
  }

  /** How deeply arrays and objects are nested. */
  function Height(x: Node): nat {
    match x
    case EmptyArray(_) => 1
    case Array(_, elems) => 1 + ElemsHeight(elems)
    case EmptyObject(_) => 1
    case Record(_, fields) => 1 + FieldsHeight(fields)
    case _ => 0
  }

  function ElemsHeight(x: Elems): nat {
    match x
    case LastElem(v, _) => Height(v)
    case ThenElem(v, _, _, more) => Max(Height(v), ElemsHeight(more))
  }

  function FieldsHeight(x: Fields): nat {
    match x
    case LastField(f, _) => Height(f.v)
    case ThenField(f, _, _, more) => Max(Height(f.v), FieldsHeight(more))
  }

  /** A field as the reader hands it back. */
  function AsMember(f: Field): Member
    requires GoodField(f)
  {
    Member(TextOf(f.key), Spell(f.v))
  }

  function MembersOf(x: Fields): seq<Member>
    requires GoodFields(x)
  {
    match x
    case LastField(f, _) => [AsMember(f)]
    case ThenField(f, _, _, more) => [AsMember(f)] + MembersOf(more)
  }

  // ---- What is printed is read ---------------------------------------------------

  lemma {:induction false} BlanksSkipped(b: string, t: string)
    requires Blanks(b) && (t == "" || !IsBlank(t[0]))
    ensures SkipBlanks(b + t) == t
  {
    if b == "" {
      assert b + t == t;
    } else {
      assert (b + t)[1..] == b[1..] + t;
      BlanksSkipped(b[1..], t);
    }
  }

  lemma BlanksParsed(s: string) returns (b: string)
    ensures Blanks(b) && s == b + SkipBlanks(s)
  {
    if s != "" && IsBlank(s[0]) {
      var more := BlanksParsed(s[1..]);
      b := [s[0]] + more;
      assert s == [s[0]] + s[1..];
    } else {
      b := "";
      assert s == "" + s;
    }
  }

  /** A value, and the text after it, by its first character. */
  lemma {:induction false} ValueRead(x: Node, after: string, depth: nat)
    requires Good(x) && Height(x) <= depth && Stops(after)
    ensures Value(Spell(x) + after, depth) == Some(after)
    ensures Spell(x) != "" && !IsBlank(Spell(x)[0]) && Spell(x)[0] != ']' && Spell(x)[0] != '}'
    decreases x, 1
  {
    match x
    case Quoted(units) => QuotedRead(units, after, depth);
    case Numeral(n) => NumeralRead(n, after, depth);
    case Word(w) => WordRead(w, after, depth);
    case EmptyArray(b) => EmptyArrayRead(b, after, depth);
    case Array(b, elems) =>
      ElemsRead(elems, after, depth - 1);
      ArrayRead(b, SpellElems(elems), after, depth);
    case EmptyObject(b) =>
      ObjectRead(x, after, depth);
      ObjectIsValue(Spell(x), after, depth);
    case Record(b, fields) =>
      ObjectRead(x, after, depth);
      ObjectIsValue(Spell(x), after, depth);
  }

  /** An object, with its members in order. */
  lemma {:induction false} ObjectRead(x: Node, after: string, depth: nat)
    requires Good(x) && Height(x) <= depth && (x.EmptyObject? || x.Record?)
    ensures Object(Spell(x) + after, depth) == Some((if x.EmptyObject? then [] else MembersOf(x.fields), after))
    ensures Spell(x)[0] == '{'
    decreases x, 0
  {
    if x.EmptyObject? {
      EmptyObjectRead(x.b, after, depth);
    } else {
      RecordIsRead(x.b, x.fields, after, depth);
    }
  }

  lemma {:induction false} RecordIsRead(b: string, fields: Fields, after: string, depth: nat)
    requires Blanks(b) && GoodFields(fields) && FieldsHeight(fields) < depth
    ensures Object("{" + (b + SpellFields(fields)) + after, depth) == Some((MembersOf(fields), after))
    decreases fields, 1
  {
    FieldsRead(fields, after, depth - 1);
    RecordRead(b, SpellFields(fields), after, depth);
  }

  lemma QuotedRead(units: seq<Unit>, after: string, depth: nat)
    requires GoodText(units)
    ensures Value("\"" + (SpellText(units) + "\"") + after, depth) == Some(after)
  {
    var s := "\"" + (SpellText(units) + "\"") + after;
    assert s[1..] == SpellText(units) + "\"" + after;
    StringRead(units, after);
  }

  lemma NumeralRead(n: Num, after: string, depth: nat)
    requires GoodNum(n) && Stops(after)
    ensures Value(SpellNum(n) + after, depth) == Some(after)
    ensures SpellNum(n) != "" && (SpellNum(n)[0] == '-' || IsDigit(SpellNum(n)[0]))
  {
    NumberRead(n, after);
    NumberIsValue(SpellNum(n) + after, depth);
  }

  lemma NumberIsValue(s: string, depth: nat)
    requires s != "" && (s[0] == '-' || IsDigit(s[0]))
    ensures Value(s, depth) == Number(s)
  {}

  lemma WordRead(w: string, after: string, depth: nat)
    requires w == "true" || w == "false" || w == "null"
    ensures Value(w + after, depth) == Some(after)
  {
    assert (w + after)[..|w|] == w && (w + after)[|w|..] == after;
  }

  lemma EmptyArrayRead(b: string, after: string, depth: nat)
    requires Blanks(b) && depth > 0
    ensures Value("[" + (b + "]") + after, depth) == Some(after)
  {
    var s := "[" + (b + "]") + after;
    assert s[1..] == b + ("]" + after);
    BlanksSkipped(b, "]" + after);
    assert ("]" + after)[1..] == after;
  }

  lemma ArrayRead(b: string, elems: string, after: string, depth: nat)
    requires Blanks(b) && depth > 0 && elems != "" && !IsBlank(elems[0]) && elems[0] != ']'
    requires Elements(elems + after, depth - 1) == Some(after)
    ensures Value("[" + (b + elems) + after, depth) == Some(after)
  {
    var s := "[" + (b + elems) + after;
    assert s[1..] == b + (elems + after);
    BlanksSkipped(b, elems + after);
  }

  lemma EmptyObjectRead(b: string, after: string, depth: nat)
    requires Blanks(b) && depth > 0
    ensures Object("{" + (b + "}") + after, depth) == Some(([], after))
  {
    var s := "{" + (b + "}") + after;
    assert s[1..] == b + ("}" + after);
    BlanksSkipped(b, "}" + after);
    assert ("}" + after)[1..] == after;
  }

  lemma RecordRead(b: string, fields: string, after: string, depth: nat)
    requires Blanks(b) && depth > 0 && fields != "" && !IsBlank(fields[0]) && fields[0] != '}'
    ensures Object("{" + (b + fields) + after, depth) == Members(fields + after, depth - 1)
  {
    var s := "{" + (b + fields) + after;
    assert s[1..] == b + (fields + after);
    BlanksSkipped(b, fields + after);
  }

  lemma ObjectIsValue(s: string, after: string, depth: nat)
    requires s != "" && s[0] == '{' && Object(s + after, depth).Some? && Object(s + after, depth).value.1 == after
    ensures Value(s + after, depth) == Some(after)
  {}

  lemma {:induction false} ElemsRead(x: Elems, after: string, depth: nat)
    requires GoodElems(x) && ElemsHeight(x) <= depth
    ensures Elements(SpellElems(x) + after, depth) == Some(after)
    ensures SpellElems(x) != "" && !IsBlank(SpellElems(x)[0]) && SpellElems(x)[0] != ']'
    decreases x, 0
  {
    match x
    case LastElem(v, b) =>
      var rest := b + ("]" + after);
      assert SpellElems(x) + after == Spell(v) + rest;
      BlankStops(b, "]" + after);
      ValueRead(v, rest, depth);
      BlanksSkipped(b, "]" + after);
      assert ("]" + after)[1..] == after;
    case ThenElem(v, b, b1, more) =>
      var tail := SpellElems(more) + after;
      var rest := b + ("," + (b1 + tail));
      assert SpellElems(x) + after == Spell(v) + rest;
      BlankStops(b, "," + (b1 + tail));
      ValueRead(v, rest, depth);
      ElemsRead(more, after, depth);
      BlanksSkipped(b, "," + (b1 + tail));
      assert ("," + (b1 + tail))[1..] == b1 + tail;
      BlanksSkipped(b1, tail);
  }

  /** Blanks and punctuation end a number. */
  lemma BlankStops(b: string, t: string)
    requires Blanks(b) && t != "" && t[0] in {',', ']', '}'}
    ensures Stops(b + t)
  {
    if b != "" {
      assert (b + t)[0] == b[0];
    }
  }

  /** A key, its colon and the value after it. */
  lemma KeyRead(f: Field, after: string)
    requires GoodField(f) && Spell(f.v) != "" && !IsBlank(Spell(f.v)[0])
    ensures Key(SpellField(f) + after) == Some((TextOf(f.key), Spell(f.v) + after))
  {
    var value := Spell(f.v) + after;
    var colon := f.b + (":" + (f.b1 + value));
    FieldSpelled(f, after);
    StringRead(f.key, colon);
    ColonRead(SpellField(f) + after, TextOf(f.key), f.b, f.b1, value);
  }

  lemma FieldSpelled(f: Field, after: string)
    ensures
      var s := SpellField(f) + after;
      s[0] == '"' && s[1..] == SpellText(f.key) + "\"" + (f.b + (":" + (f.b1 + (Spell(f.v) + after))))
  {
    PartsJoined(SpellText(f.key), f.b, f.b1, Spell(f.v), after);
  }

  lemma PartsJoined(key: string, b: string, b1: string, v: string, after: string)
    ensures
      var s := "\"" + (key + ("\"" + (b + (":" + (b1 + v))))) + after;
      s[0] == '"' && s[1..] == key + "\"" + (b + (":" + (b1 + (v + after))))
  {
    var rest := key + ("\"" + (b + (":" + (b1 + v)))) + after;
    assert "\"" + (key + ("\"" + (b + (":" + (b1 + v))))) + after == "\"" + rest;
    assert ("\"" + rest)[1..] == rest;
  }

  lemma ColonRead(s: string, key: string, b: string, b1: string, value: string)
    requires s != "" && s[0] == '"' && StringRest(s[1..]) == Some((key, b + (":" + (b1 + value))))
    requires Blanks(b) && Blanks(b1) && value != "" && !IsBlank(value[0])
    ensures Key(s) == Some((key, value))
  {
    BlanksSkipped(b, ":" + (b1 + value));
    assert (":" + (b1 + value))[1..] == b1 + value;
    BlanksSkipped(b1, value);
  }

  lemma FieldRead(f: Field, after: string, depth: nat)
    requires GoodField(f) && Height(f.v) <= depth && Stops(after)
    ensures Members(SpellField(f) + after, depth) == Continue(AsMember(f), after, depth)
    decreases f, 2
  {
    ValueRead(f.v, after, depth);
    KeyRead(f, after);
    var value := Spell(f.v) + after;
    assert value[..|value| - |after|] == Spell(f.v);
  }

  lemma LastRead(m: Member, b: string, after: string, depth: nat)
    requires Blanks(b)
    ensures Continue(m, b + ("}" + after), depth) == Some(([m], after))
  {
    BlanksSkipped(b, "}" + after);
    assert ("}" + after)[1..] == after;
  }

  lemma ThenRead(m: Member, b: string, b1: string, tail: string, depth: nat, ms: seq<Member>, after: string)
    requires Blanks(b) && Blanks(b1) && tail != "" && !IsBlank(tail[0]) && Members(tail, depth) == Some((ms, after))
    ensures Continue(m, b + ("," + (b1 + tail)), depth) == Some(([m] + ms, after))
  {
    BlanksSkipped(b, "," + (b1 + tail));
    assert ("," + (b1 + tail))[1..] == b1 + tail;
    BlanksSkipped(b1, tail);
  }

  lemma Lastly(f: string, b: string, after: string)
    ensures f + (b + "}") + after == f + (b + ("}" + after))
  {}

  lemma {:induction false} FieldsRead(x: Fields, after: string, depth: nat)
    requires GoodFields(x) && FieldsHeight(x) <= depth
    ensures Members(SpellFields(x) + after, depth) == Some((MembersOf(x), after))
    ensures SpellFields(x) != "" && SpellFields(x)[0] == '"'
    decreases x, 0
  {
    match x
    case LastField(f, b) =>
      var rest := b + ("}" + after);
      Lastly(SpellField(f), b, after);
      BlankStops(b, "}" + after);
      FieldRead(f, rest, depth);
      LastRead(AsMember(f), b, after, depth);
    case ThenField(f, b, b1, more) =>
      var tail := SpellFields(more) + after;
      var rest := b + ("," + (b1 + tail));
      Chained(SpellField(f), b, b1, SpellFields(more), after);
      BlankStops(b, "," + (b1 + tail));
      FieldRead(f, rest, depth);
      FieldsRead(more, after, depth);
      ThenRead(AsMember(f), b, b1, tail, depth, MembersOf(more), after);
  }

  // ---- What is read was printed --------------------------------------------------

  lemma {:induction false} ValueParsed(s: string, depth: nat) returns (x: Node)
    requires Value(s, depth).Some?
    ensures Good(x) && Height(x) <= depth && s == Spell(x) + Value(s, depth).value
    ensures s[0] == '{' <==> x.EmptyObject? || x.Record?
    decreases |s|, 1
  {
    if s[0] == '{' {
      x := ObjectParsed(s, depth);
    } else if s[0] == '[' {
      x := ArrayParsed(s, depth);
    } else if s[0] == '"' {
      var units := StringParsed(s[1..]);
      x := Quoted(units);
      QuotedSpelled(s, units, StringRest(s[1..]).value.1);
    } else if s[0] == 't' || s[0] == 'f' || s[0] == 'n' {
      x := WordParsed(s, depth);
    } else {
      var n := NumberParsed(s);
      x := Numeral(n);
      SignedSpelled(n, Number(s).value);
    }
  }

  lemma QuotedSpelled(s: string, units: seq<Unit>, after: string)
    requires s != "" && s[0] == '"' && s[1..] == SpellText(units) + "\"" + after
    ensures s == "\"" + (SpellText(units) + "\"") + after
  {
    assert s == [s[0]] + s[1..];
  }

  lemma SignedSpelled(n: Num, after: string)
    requires GoodNum(n)
    ensures (SpellNum(n) + after)[0] != '{'
  {}

  lemma WordParsed(s: string, depth: nat) returns (x: Node)
    requires s != "" && (s[0] == 't' || s[0] == 'f' || s[0] == 'n') && Value(s, depth).Some?
    ensures Good(x) && Height(x) <= depth && s == Spell(x) + Value(s, depth).value && x.Word?
  {
    x := Word(if s[0] == 't' then "true" else if s[0] == 'f' then "false" else "null");
  }

  lemma {:induction false} ArrayParsed(s: string, depth: nat) returns (x: Node)
    requires s != "" && s[0] == '[' && Value(s, depth).Some?
    ensures Good(x) && Height(x) <= depth && s == Spell(x) + Value(s, depth).value && (x.EmptyArray? || x.Array?)
    decreases |s|, 0
  {
    var t, rest := SkipBlanks(s[1..]), Value(s, depth).value;
    var b := BlanksParsed(s[1..]);
    assert s == "[" + (b + t);
    if t != [] && t[0] == ']' {
      x := EmptyArray(b);
      assert t == "]" + t[1..];
    } else {
      var elems := ElemsParsed(t, depth - 1);
      x := Array(b, elems);
      Regrouped("[", b, SpellElems(elems), "", rest);
      assert s == "[" + (b + SpellElems(elems)) + rest;
    }
  }

  lemma {:induction false} ElemsParsed(s: string, depth: nat) returns (x: Elems)
    requires Elements(s, depth).Some?
    ensures GoodElems(x) && ElemsHeight(x) <= depth && s == SpellElems(x) + Elements(s, depth).value
    decreases |s|, 2
  {
    var after, rest := Value(s, depth).value, Elements(s, depth).value;
    var v := ValueParsed(s, depth);
    var b := BlanksParsed(after);
    var t := SkipBlanks(after);
    assert t == [t[0]] + t[1..];
    if t[0] == ']' {
      x := LastElem(v, b);
      assert s == Spell(v) + (b + "]") + rest;
    } else {
      var b1 := BlanksParsed(t[1..]);
      var more := ElemsParsed(SkipBlanks(t[1..]), depth);
      x := ThenElem(v, b, b1, more);
      Chained(Spell(v), b, b1, SpellElems(more), rest);
    }
  }

  lemma Chained(v: string, b: string, b1: string, more: string, rest: string)
    ensures v + (b + ("," + (b1 + (more + rest)))) == v + (b + ("," + (b1 + more))) + rest
  {}

  /** An object that is read was printed from a tree with these members. */
  lemma {:induction false} ObjectParsed(s: string, depth: nat) returns (x: Node)
    requires s != "" && s[0] == '{' && Object(s, depth).Some?
    ensures Good(x) && Height(x) <= depth && s == Spell(x) + Object(s, depth).value.1
    ensures x.EmptyObject? || x.Record?
    ensures Object(s, depth).value.0 == if x.EmptyObject? then [] else MembersOf(x.fields)
    decreases |s|, 0
  {
    var t, rest := SkipBlanks(s[1..]), Object(s, depth).value.1;
    var b := BlanksParsed(s[1..]);
    HeadAndTail(s);
    if t != [] && t[0] == '}' {
      x := EmptyObject(b);
      HeadAndTail(t);
      Braced(b, "}", rest);
    } else {
      var fields := FieldsParsed(t, depth - 1);
      x := Record(b, fields);
      Braced(b, SpellFields(fields), rest);
    }
  }

  lemma Braced(b: string, t: string, rest: string)
    ensures "{" + (b + (t + rest)) == "{" + (b + t) + rest
  {}

  lemma KeyParsed(s: string) returns (key: seq<Unit>, b: string, b1: string)
    requires Key(s).Some?
    ensures GoodText(key) && TextOf(key) == Key(s).value.0 && Blanks(b) && Blanks(b1)
    ensures s == "\"" + (SpellText(key) + ("\"" + (b + (":" + (b1 + Key(s).value.1)))))
  {
    key := StringParsed(s[1..]);
    var afterKey := StringRest(s[1..]).value.1;
    b := BlanksParsed(afterKey);
    var colon := SkipBlanks(afterKey);
    b1 := BlanksParsed(colon[1..]);
    QuotedThen(s, SpellText(key), afterKey);
    HeadAndTail(colon);
  }

  lemma QuotedThen(s: string, text: string, after: string)
    requires s != "" && s[0] == '"' && s[1..] == text + "\"" + after
    ensures s == "\"" + (text + ("\"" + after))
  {
    HeadAndTail(s);
  }

  lemma HeadAndTail(s: string)
    requires s != ""
    ensures s == [s[0]] + s[1..]
  {}

  lemma {:induction false} FieldsParsed(s: string, depth: nat) returns (x: Fields)
    requires Members(s, depth).Some?
    ensures GoodFields(x) && FieldsHeight(x) <= depth && MembersOf(x) == Members(s, depth).value.0
    ensures s == SpellFields(x) + Members(s, depth).value.1
    decreases |s|, 2
  {
    var key, b0, b1 := KeyParsed(s);
    var value := Key(s).value.1;
    var v := ValueParsed(value, depth);
    var after := Value(value, depth).value;
    var f := Field(key, b0, b1, v);
    assert value[..|value| - |after|] == Spell(v);
    assert Members(s, depth) == Continue(AsMember(f), after, depth);
    x := RestParsed(f, after, depth);
    FieldSpelledOut(s, f, after);
    assert s == SpellField(f) + after;
    RestSpelled(f, x, after, Members(s, depth).value.1);
  }

  lemma FieldSpelledOut(s: string, f: Field, after: string)
    requires s == "\"" + (SpellText(f.key) + ("\"" + (f.b + (":" + (f.b1 + (Spell(f.v) + after))))))
    ensures s == SpellField(f) + after
  {}

  /** What follows the first field, given that field. */
  function RestOf(x: Fields): string {
    match x
    case LastField(_, b) => b + "}"
    case ThenField(_, b, b1, more) => b + ("," + (b1 + SpellFields(more)))
  }

  lemma RestSpelled(f: Field, x: Fields, after: string, rest: string)
    requires x.f == f && after == RestOf(x) + rest
    ensures SpellField(f) + after == SpellFields(x) + rest
  {
    FirstAndRest(x);
    Joined(SpellField(f), RestOf(x), rest);
  }

  lemma FirstAndRest(x: Fields)
    ensures SpellFields(x) == SpellField(x.f) + RestOf(x)
  {}

  lemma Joined(a: string, b: string, c: string)
    ensures a + (b + c) == a + b + c
  {}

  lemma {:induction false} RestParsed(f: Field, after: string, depth: nat) returns (x: Fields)
    requires GoodField(f) && Height(f.v) <= depth && Continue(AsMember(f), after, depth).Some?
    ensures GoodFields(x) && FieldsHeight(x) <= depth && x.f == f
    ensures MembersOf(x) == Continue(AsMember(f), after, depth).value.0
    ensures after == RestOf(x) + Continue(AsMember(f), after, depth).value.1
    decreases |after|, 3
  {
    var rest := Continue(AsMember(f), after, depth).value.1;
    var b := BlanksParsed(after);
    var t := SkipBlanks(after);
    assert t == [t[0]] + t[1..];
    if t[0] == '}' {
      x := LastField(f, b);
      Joined(b, "}", rest);
    } else {
      var b1 := BlanksParsed(t[1..]);
      var more := FieldsParsed(SkipBlanks(t[1..]), depth);
      x := ThenField(f, b, b1, more);
      ChainedOn(b, b1, SpellFields(more), rest);
    }
  }

  lemma ChainedOn(b: string, b1: string, more: string, rest: string)
    ensures b + ("," + (b1 + (more + rest))) == b + ("," + (b1 + more)) + rest
  {}
}
