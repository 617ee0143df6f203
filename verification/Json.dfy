/** The part of Go's encoding/json that wrappedValue relies on
    (internal/sselistener/listener.go:285-305): the grammar of RFC 8259, sections
    2 to 7, as a recogniser that hands back an object's members, and the decoding
    of string literals. Text is a sequence of Unicode scalar values; every parser
    takes the text still to be read and returns what is left of it. */
module Json {
  import opened Wrappers

  // ---- Characters -----------------------------------------------------------

  predicate IsBlank(c: char) {
    c == ' ' || c == '\t' || c == '\n' || c == '\r'
  }

  function SkipBlanks(s: string): (r: string)
    ensures |r| <= |s| && (r != [] ==> !IsBlank(r[0]))
  {
    if s != [] && IsBlank(s[0]) then SkipBlanks(s[1..]) else s
  }

  predicate IsDigit(c: char) {
    '0' <= c <= '9'
  }

  function HexDigit(c: char): (r: Option<nat>)
    ensures r.Some? ==> r.value < 16
  {
    if IsDigit(c) then Some((c - '0') as nat)
    else if 'a' <= c <= 'f' then Some((c - 'a') as nat + 10)
    else if 'A' <= c <= 'F' then Some((c - 'A') as nat + 10)
    else None
  }

  /** The code unit of a \uXXXX escape at the head of s. */
  function CodeUnit(s: string): (r: Option<nat>)
    ensures r.Some? ==> r.value < 0x1_0000 && |s| >= 6 && s[0] == '\\' && s[1] == 'u'
  {
    if |s| < 6 || s[0] != '\\' || s[1] != 'u' then None
    else
      match (HexDigit(s[2]), HexDigit(s[3]), HexDigit(s[4]), HexDigit(s[5]))
      case (Some(a), Some(b), Some(c), Some(d)) => Some(((a * 16 + b) * 16 + c) * 16 + d)
      case _ => None
  }

  predicate IsSurrogate(u: nat) {
    0xD800 <= u < 0xE000
  }

  const REPLACEMENT := '\U{FFFD}'

  /** The escape at the head of s: its character and what follows. A surrogate
      pair is one character; a lone surrogate becomes U+FFFD. */
  function Escape(s: string): (r: Option<(char, string)>)
    requires s != [] && s[0] == '\\'
    ensures r.Some? ==> |r.value.1| <= |s| - 2
  {
    if |s| < 2 then None
    else
      match s[1]
      case '"' => Some(('"', s[2..]))
      case '\\' => Some(('\\', s[2..]))
      case '/' => Some(('/', s[2..]))
      case 'b' => Some(('\U{0008}', s[2..]))
      case 'f' => Some(('\U{000C}', s[2..]))
      case 'n' => Some(('\n', s[2..]))
      case 'r' => Some(('\r', s[2..]))
      case 't' => Some(('\t', s[2..]))
      case 'u' =>
        (match CodeUnit(s)
         case None => None
         case Some(u) =>
           if !IsSurrogate(u) then Some((u as char, s[6..]))
           else
             match CodeUnit(s[6..])
             case Some(v) =>
               if u < 0xDC00 && 0xDC00 <= v < 0xE000 then
                 Some(((0x1_0000 + (u - 0xD800) * 0x400 + (v - 0xDC00)) as char, s[12..]))
               else
                 Some((REPLACEMENT, s[6..]))
             case None => Some((REPLACEMENT, s[6..])))
      case _ => None
  }

  /** The rest of a string literal whose opening quote has been read: its
      decoded text, and what follows the closing quote. */
  function StringRest(s: string): (r: Option<(string, string)>)
    ensures r.Some? ==> |r.value.0| + |r.value.1| + 1 <= |s|
    decreases |s|
  {
    if s == [] || s[0] < ' ' then None
    else if s[0] == '"' then Some(("", s[1..]))
    else if s[0] == '\\' then
      match Escape(s)
      case None => None
      case Some((c, rest)) =>
        match StringRest(rest)
        case None => None
        case Some((text, after)) => Some(([c] + text, after))
    else
      match StringRest(s[1..])
      case None => None
      case Some((text, after)) => Some(([s[0]] + text, after))
  }

  // ---- Numbers and literals -----------------------------------------------

  function SkipDigits(s: string): (r: string)
    ensures |r| <= |s|
  {
    if s != [] && IsDigit(s[0]) then SkipDigits(s[1..]) else s
  }

  /** One or more digits. */
  function Digits(s: string): (r: Option<string>)
    ensures r.Some? ==> |r.value| < |s|
  {
    if s != [] && IsDigit(s[0]) then Some(SkipDigits(s[1..])) else None
  }

  function Fraction(s: string): (r: Option<string>)
    ensures r.Some? ==> |r.value| <= |s|
  {
    if s != [] && s[0] == '.' then Digits(s[1..]) else Some(s)
  }

  function Exponent(s: string): (r: Option<string>)
    ensures r.Some? ==> |r.value| <= |s|
  {
    if s != [] && (s[0] == 'e' || s[0] == 'E') then
      if |s| > 1 && (s[1] == '+' || s[1] == '-') then Digits(s[2..]) else Digits(s[1..])
    else
      Some(s)
  }

  function Number(s: string): (r: Option<string>)
    ensures r.Some? ==> |r.value| < |s|
  {
    var t := if s != [] && s[0] == '-' then s[1..] else s;
    match (if t != [] && t[0] == '0' then Some(t[1..]) else Digits(t))
    case None => None
    case Some(whole) =>
      match Fraction(whole)
      case None => None
      case Some(rest) => Exponent(rest)
  }

  function Literal(word: string, s: string): (r: Option<string>)
    requires word != []
    ensures r.Some? ==> |r.value| < |s|
  {
    if word <= s then Some(s[|word|..]) else None
  }

  // ---- Values ---------------------------------------------------------------

  /** An object member: its decoded key and its value as written. */
  datatype Member = Member(key: string, raw: string)

  const MAX_DEPTH: nat := 10000

  /** Reads one value and returns what follows it. */
  function Value(s: string, depth: nat): (r: Option<string>)
    ensures r.Some? ==> |r.value| < |s|
    decreases |s|, 1
  {
    if s == [] then None
    else if s[0] == '{' then
      match Object(s, depth)
      case None => None
      case Some((_, rest)) => Some(rest)
    else if s[0] == '[' then
      if depth == 0 then None
      else
        var t := SkipBlanks(s[1..]);
        if t != [] && t[0] == ']' then Some(t[1..]) else Elements(t, depth - 1)
    else if s[0] == '"' then
      match StringRest(s[1..])
      case None => None
      case Some((_, rest)) => Some(rest)
    else if s[0] == 't' then Literal("true", s)
    else if s[0] == 'f' then Literal("false", s)
    else if s[0] == 'n' then Literal("null", s)
    else Number(s)
  }

  /** The elements of a non-empty array, up to and including its bracket. */
  function Elements(s: string, depth: nat): (r: Option<string>)
    ensures r.Some? ==> |r.value| < |s|
    decreases |s|, 2
  {
    match Value(s, depth)
    case None => None
    case Some(after) =>
      var t := SkipBlanks(after);
      if t != [] && t[0] == ']' then Some(t[1..])
      else if t != [] && t[0] == ',' then Elements(SkipBlanks(t[1..]), depth)
      else None
  }

  /** An object: its members in order, and what follows it. */
  function Object(s: string, depth: nat): (r: Option<(seq<Member>, string)>)
    requires s != [] && s[0] == '{'
    ensures r.Some? ==> |r.value.1| < |s|
    decreases |s|, 0
  {
    if depth == 0 then None
    else
      var t := SkipBlanks(s[1..]);
      if t != [] && t[0] == '}' then Some(([], t[1..])) else Members(t, depth - 1)
  }

  /** A member's key, and the text from its value on. */
  function Key(s: string): (r: Option<(string, string)>)
    ensures r.Some? ==> |r.value.1| < |s|
  {
    if s == [] || s[0] != '"' then None
    else
      match StringRest(s[1..])
      case None => None
      case Some((key, afterKey)) =>
        var colon := SkipBlanks(afterKey);
        if colon == [] || colon[0] != ':' then None else Some((key, SkipBlanks(colon[1..])))
  }

  /** The members of a non-empty object, up to and including its brace. */
  function Members(s: string, depth: nat): (r: Option<(seq<Member>, string)>)
    ensures r.Some? ==> |r.value.1| < |s|
    decreases |s|, 2
  {
    match Key(s)
    case None => None
    case Some((key, value)) => Keyed(key, value, depth)
  }

  /** The member list whose first member's value comes next. */
  function Keyed(key: string, value: string, depth: nat): (r: Option<(seq<Member>, string)>)
    ensures r.Some? ==> |r.value.1| < |value|
    decreases |value|, 4
  {
    match Value(value, depth)
    case None => None
    case Some(after) => Continue(Member(key, value[..|value| - |after|]), after, depth)
  }

  /** The member list whose first member's value ended before `after`. */
  function Continue(m: Member, after: string, depth: nat): (r: Option<(seq<Member>, string)>)
    ensures r.Some? ==> |r.value.1| < |after|
    decreases |after|, 3
  {
    var t := SkipBlanks(after);
    if t != [] && t[0] == '}' then Some(([m], t[1..]))
    else if t != [] && t[0] == ',' then More(m, t[1..], depth)
    else None
  }

  /** The member list that goes on after a comma. */
  function More(m: Member, s: string, depth: nat): (r: Option<(seq<Member>, string)>)
    ensures r.Some? ==> |r.value.1| < |s|
    decreases |s|, 3
  {
    match Members(SkipBlanks(s), depth)
    case None => None
    case Some((ms, rest)) => Some(([m] + ms, rest))
  }
}
