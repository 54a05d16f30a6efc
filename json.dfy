/**
 * JSON values and their text form.
 *
 * The app stores records with `JSON.stringify` and reads them back with
 * `JSON.parse` (the signed-in user under SecureStore, the food library under
 * AsyncStorage, the product handed from the scanner to the result screen, and
 * every server reply). This module gives both directions a concrete
 * definition over a subset of JSON: numbers are integers without a leading
 * zero, strings escape characters as `JSON.stringify` does (the quote, the
 * backslash and every character below U+0020), and there is no white space
 * between tokens. `Serialize` always produces that subset, and `Parse` reads
 * it back exactly (`ParseSerialize`), which is the property the source relies
 * on whenever it persists a value and loads it on the next launch.
 */
module Json {
  import opened Wrappers

  datatype Json =
    | JNull
    | JBool(b: bool)
    | JNum(n: int)
    | JStr(s: string)
    | JArr(items: seq<Json>)
    | JObj(members: seq<Member>)

  /** One `"key":value` pair of an object, in source order. */
  datatype Member = Member(key: string, value: Json)

  /** A parsed prefix and the unread remainder of the text. */
  datatype Parsed<T> = Parsed(value: T, rest: string)

  // ---------------------------------------------------------------------
  // Decimal digits
  // ---------------------------------------------------------------------

  predicate IsDigit(c: char) {
    '0' <= c <= '9'
  }

  function DigitChar(d: nat): (c: char)
    requires d < 10
    ensures IsDigit(c)
  {
    ['0', '1', '2', '3', '4', '5', '6', '7', '8', '9'][d]
  }

  function DigitValue(c: char): (d: nat)
    requires IsDigit(c)
    ensures d < 10
  {
    (c as int) - ('0' as int)
  }

  predicate AllDigits(s: string) {
    forall i :: 0 <= i < |s| ==> IsDigit(s[i])
  }

  /** Decimal text of a natural number, most significant digit first, no leading zeros. */
  function NatText(n: nat): (t: string)
    ensures |t| > 0 && AllDigits(t)
  {
    if n < 10 then [DigitChar(n)] else NatText(n / 10) + [DigitChar(n % 10)]
  }

  /** Decimal text of an integer, as JavaScript's `String(n)` writes an integral number. */
  function IntText(n: int): (t: string)
    ensures |t| > 0
  {
    if n < 0 then "-" + NatText(-n) else NatText(n)
  }

  /** The value of a run of decimal digits. */
  function DigitsValue(d: string): nat
    requires AllDigits(d)
  {
    if d == [] then 0 else DigitsValue(d[..|d| - 1]) * 10 + DigitValue(d[|d| - 1])
  }

  /** Length of the longest prefix of `s` made of digits. */
  function DigitRun(s: string): (k: nat)
    ensures k <= |s| && AllDigits(s[..k])
    ensures k < |s| ==> !IsDigit(s[k])
  {
    if s == [] || !IsDigit(s[0]) then 0
    else
      var k := 1 + DigitRun(s[1..]);
      assert s[..k] == [s[0]] + s[1..][..k - 1];
      k
  }

  lemma {:induction false} DigitCharValue(d: nat)
    requires d < 10
    ensures DigitValue(DigitChar(d)) == d
  {
  }

  /** Reading back the decimal text of `n` gives `n`. */
  lemma {:induction false} NatTextValue(n: nat)
    ensures DigitsValue(NatText(n)) == n
  {
    DigitCharValue(n % 10);
    if n >= 10 {
      var t := NatText(n);
      assert t[..|t| - 1] == NatText(n / 10);
      NatTextValue(n / 10);
    }
  }

  /** The decimal text of a number has no leading zero; only 0 itself is written `0`. */
  lemma {:induction false} NatTextLeading(n: nat)
    ensures |NatText(n)| == 1 || NatText(n)[0] != '0'
    ensures n > 0 ==> NatText(n)[0] != '0'
  {
    if n >= 10 {
      NatTextLeading(n / 10);
      assert NatText(n)[0] == NatText(n / 10)[0];
    }
  }

  /** A digit run followed by a non-digit is read exactly to its end. */
  lemma {:induction false} DigitRunOf(d: string, rest: string)
    requires AllDigits(d)
    requires rest == [] || !IsDigit(rest[0])
    ensures DigitRun(d + rest) == |d|
  {
    if d != [] {
      assert (d + rest)[1..] == d[1..] + rest;
      DigitRunOf(d[1..], rest);
    }
  }

  // ---------------------------------------------------------------------
  // Serialization
  // ---------------------------------------------------------------------

  /** The lower-case hexadecimal digit of `d`, as `JSON.stringify` writes `\u` escapes. */
  function HexDigit(d: nat): char
    requires d < 16
  {
    "0123456789abcdef"[d]
  }

  /** The value of a hexadecimal digit of either case, or `None` for any other character. */
  function HexValue(c: char): (r: Option<nat>)
    ensures r.Some? ==> r.value < 16
  {
    if '0' <= c <= '9' then Some(c as int - '0' as int)
    else if 'a' <= c <= 'f' then Some(c as int - 'a' as int + 10)
    else if 'A' <= c <= 'F' then Some(c as int - 'A' as int + 10)
    else None
  }

  /**
   * How `JSON.stringify` writes one character inside a string literal: `"`
   * and `\` get a backslash, the control characters with a short escape use
   * it, the other characters below U+0020 become `\u00XX`, and every other
   * character stands for itself.
   */
  function EscapeChar(c: char): string {
    if c == '"' || c == '\\' then ['\\', c]
    else if c == '\U{8}' then "\\b"
    else if c == '\U{C}' then "\\f"
    else if c == '\n' then "\\n"
    else if c == '\r' then "\\r"
    else if c == '\t' then "\\t"
    else if c < ' ' then "\\u00" + [HexDigit(c as int / 16), HexDigit(c as int % 16)]
    else [c]
  }

  /** The escaped body of a string literal. */
  function Escape(s: string): string {
    if s == [] then "" else EscapeChar(s[0]) + Escape(s[1..])
  }

  function Quote(s: string): string {
    "\"" + Escape(s) + "\""
  }

  /** Text of a value, as `JSON.stringify` writes it for this subset. */
  function Serialize(v: Json): (t: string)
    decreases v
    ensures |t| > 0
    ensures t[0] == '"' <==> v.JStr?
    ensures t[0] == '[' <==> v.JArr?
    ensures t[0] == '{' <==> v.JObj?
    ensures t[0] != ']' && t[0] != '}'
  {
    match v
    case JNull => "null"
    case JBool(b) => if b then "true" else "false"
    case JNum(n) =>
      assert IsDigit(NatText(if n < 0 then -n else n)[0]);
      IntText(n)
    case JStr(s) => Quote(s)
    case JArr(items) => "[" + SerializeItems(items) + "]"
    case JObj(ms) => "{" + SerializeMembers(ms) + "}"
  }

  function SerializeItems(items: seq<Json>): string
    decreases items
  {
    if items == [] then ""
    else if |items| == 1 then Serialize(items[0])
    else Serialize(items[0]) + "," + SerializeItems(items[1..])
  }

  function SerializeMembers(ms: seq<Member>): string
    decreases ms
  {
    if ms == [] then ""
    else
      var m := ms[0];
      var head := Quote(m.key) + ":" + Serialize(m.value);
      if |ms| == 1 then head else head + "," + SerializeMembers(ms[1..])
  }

  // ---------------------------------------------------------------------
  // Parsing
  // ---------------------------------------------------------------------

  /** `JSON.parse`: the whole text must be one value; `None` is the SyntaxError. */
  function Parse(text: string): (r: Option<Json>)
    ensures text == [] ==> r.None?
    ensures r.Some? ==> ParseValue(text) == Some(Parsed(r.value, []))
  {
    match ParseValue(text)
    case Some(p) => if p.rest == [] then Some(p.value) else None
    case None => None
  }

  function ParseWord(s: string, word: string, v: Json): (r: Option<Parsed<Json>>)
    requires |word| > 0
    ensures r.Some? ==> |r.value.rest| < |s|
  {
    if |word| <= |s| && s[..|word|] == word then Some(Parsed(v, s[|word|..])) else None
  }

  /** An optional minus sign followed by `0` or by digits that do not start with `0`. */
  function ParseNumber(s: string): (r: Option<Parsed<Json>>)
    ensures r.Some? ==> |r.value.rest| < |s|
  {
    var negative := s != [] && s[0] == '-';
    var t := if negative then s[1..] else s;
    var k := DigitRun(t);
    if k == 0 || (k > 1 && t[0] == '0') then None
    else
      var n: int := DigitsValue(t[..k]);
      Some(Parsed(JNum(if negative then -n else n), t[k..]))
  }

  /** Four hexadecimal digits read as one code unit. */
  function HexQuad(q: string): (r: Option<nat>)
    requires |q| == 4
    ensures r.Some? ==> r.value < 0x1_0000
  {
    match (HexValue(q[0]), HexValue(q[1]), HexValue(q[2]), HexValue(q[3]))
    case (Some(a), Some(b), Some(c), Some(d)) => Some(((a * 16 + b) * 16 + c) * 16 + d)
    case _ => None
  }

  /**
   * The character an escape stands for, read after its backslash, and how
   * many characters the escape takes after the backslash.
   */
  function Unescape(t: string): (r: Option<(char, nat)>)
    ensures r.Some? ==> 1 <= r.value.1 <= |t|
  {
    if t == [] then None
    else if t[0] == '"' || t[0] == '\\' || t[0] == '/' then Some((t[0], 1))
    else if t[0] == 'b' then Some(('\U{8}', 1))
    else if t[0] == 'f' then Some(('\U{C}', 1))
    else if t[0] == 'n' then Some(('\n', 1))
    else if t[0] == 'r' then Some(('\r', 1))
    else if t[0] == 't' then Some(('\t', 1))
    else if t[0] == 'u' && |t| >= 5 then
      match HexQuad(t[1..5])
      case Some(v) => if v < 0xD800 || 0xDFFF < v then Some((v as char, 5)) else None
      case None => None
    else None
  }

  /**
   * The body of a string literal, after its opening quote, up to and
   * including the closing quote. A raw character below U+0020 is an error.
   */
  function ParseString(s: string): (r: Option<Parsed<string>>)
    ensures r.Some? ==> |r.value.rest| < |s|
    decreases |s|
  {
    if s == [] then None
    else if s[0] == '"' then Some(Parsed("", s[1..]))
    else if s[0] < ' ' then None
    else if s[0] == '\\' then
      match Unescape(s[1..])
      case None => None
      case Some(e) =>
        match ParseString(s[1 + e.1..])
        case Some(p) => Some(Parsed([e.0] + p.value, p.rest))
        case None => None
    else
      match ParseString(s[1..])
      case Some(p) => Some(Parsed([s[0]] + p.value, p.rest))
      case None => None
  }

  function ParseValue(s: string): (r: Option<Parsed<Json>>)
    decreases |s|, 0
    ensures r.Some? ==> |r.value.rest| < |s|
  {
    if s == [] then None
    else if s[0] == 'n' then ParseWord(s, "null", JNull)
    else if s[0] == 't' then ParseWord(s, "true", JBool(true))
    else if s[0] == 'f' then ParseWord(s, "false", JBool(false))
    else if s[0] == '"' then
      match ParseString(s[1..])
      case Some(p) => Some(Parsed(JStr(p.value), p.rest))
      case None => None
    else if s[0] == '[' then ParseArray(s[1..])
    else if s[0] == '{' then ParseObject(s[1..])
    else ParseNumber(s)
  }

  /** The items of an array, after its opening bracket. */
  function ParseArray(s: string): (r: Option<Parsed<Json>>)
    decreases |s|, 2
    ensures r.Some? ==> |r.value.rest| < |s|
  {
    if s != [] && s[0] == ']' then Some(Parsed(JArr([]), s[1..]))
    else
      match ParseItems(s)
      case Some(p) => Some(Parsed(JArr(p.value), p.rest))
      case None => None
  }

  /** One or more comma-separated values and the closing bracket. */
  function ParseItems(s: string): (r: Option<Parsed<seq<Json>>>)
    decreases |s|, 1
    ensures r.Some? ==> |r.value.rest| < |s|
  {
    match ParseValue(s)
    case None => None
    case Some(p) =>
      if p.rest != [] && p.rest[0] == ',' then
        match ParseItems(p.rest[1..])
        case Some(q) => Some(Parsed([p.value] + q.value, q.rest))
        case None => None
      else if p.rest != [] && p.rest[0] == ']' then Some(Parsed([p.value], p.rest[1..]))
      else None
  }

  /** The members of an object, after its opening brace. */
  function ParseObject(s: string): (r: Option<Parsed<Json>>)
    decreases |s|, 2
    ensures r.Some? ==> |r.value.rest| < |s|
  {
    if s != [] && s[0] == '}' then Some(Parsed(JObj([]), s[1..]))
    else
      match ParseMembers(s)
      case Some(p) => Some(Parsed(JObj(p.value), p.rest))
      case None => None
  }

  /** One or more comma-separated `"key":value` pairs and the closing brace. */
  function ParseMembers(s: string): (r: Option<Parsed<seq<Member>>>)
    decreases |s|, 1
    ensures r.Some? ==> |r.value.rest| < |s|
  {
    if s == [] || s[0] != '"' then None
    else
      match ParseString(s[1..])
      case None => None
      case Some(k) =>
        if k.rest == [] || k.rest[0] != ':' then None
        else
          match ParseValue(k.rest[1..])
          case None => None
          case Some(p) =>
            if p.rest != [] && p.rest[0] == ',' then
              match ParseMembers(p.rest[1..])
              case Some(q) => Some(Parsed([Member(k.value, p.value)] + q.value, q.rest))
              case None => None
            else if p.rest != [] && p.rest[0] == '}' then
              Some(Parsed([Member(k.value, p.value)], p.rest[1..]))
            else None
  }

  // ---------------------------------------------------------------------
  // Round trip
  // ---------------------------------------------------------------------

  /** What may follow a value without being read as part of it. */
  predicate Delimited(rest: string) {
    rest == [] || !IsDigit(rest[0])
  }

  lemma {:induction false} ParseEscape(s: string, rest: string)
    ensures ParseString(Escape(s) + "\"" + rest) == Some(Parsed(s, rest))
  {
    var u := Escape(s) + "\"" + rest;
    if s == [] {
      assert u[0] == '"' && u[1..] == rest by {
        assert u == "\"" + rest;
      }
    } else {
      var c := s[0];
      var tail := Escape(s[1..]) + "\"" + rest;
      ParseEscape(s[1..], rest);
      assert [c] + s[1..] == s;
      assert u == EscapeChar(c) + tail;
      if c == '"' || c == '\\' || c < ' ' {
        EscapedStep(c, tail, s[1..], rest);
      } else {
        PlainStep(c, tail, s[1..], rest);
      }
    }
  }

  /** An escape written for a character stands for that character. */
  lemma EscapedStep(c: char, tail: string, body: string, rest: string)
    requires c == '"' || c == '\\' || c < ' '
    requires ParseString(tail) == Some(Parsed(body, rest))
    ensures ParseString(EscapeChar(c) + tail) == Some(Parsed([c] + body, rest))
  {
    UnescapeOf(c, tail);
    ReadEscape(EscapeChar(c), c, tail, body, rest);
  }

  /** A backslash escape that reads as `c`, followed by the rest of a literal. */
  lemma ReadEscape(e: string, c: char, tail: string, body: string, rest: string)
    requires |e| >= 2 && e[0] == '\\' && Unescape(e[1..] + tail) == Some((c, |e| - 1))
    requires ParseString(tail) == Some(Parsed(body, rest))
    ensures ParseString(e + tail) == Some(Parsed([c] + body, rest))
  {
    var u := e + tail;
    assert u[0] == '\\' && u[1..] == e[1..] + tail;
    assert u[1 + (|e| - 1)..] == tail;
  }

  /** Reading back the escape of a character, after its backslash, gives the character and the escape's length. */
  lemma UnescapeOf(c: char, tail: string)
    requires c == '"' || c == '\\' || c < ' '
    ensures |EscapeChar(c)| >= 2 && EscapeChar(c)[0] == '\\'
    ensures Unescape(EscapeChar(c)[1..] + tail) == Some((c, |EscapeChar(c)| - 1))
  {
    var e := EscapeChar(c);
    var t := e[1..] + tail;
    if c == '"' || c == '\\' || c == '\U{8}' || c == '\U{C}' || c == '\n' || c == '\r' || c == '\t' {
      assert t[0] == e[1];
    } else {
      var hi, lo := c as int / 16, c as int % 16;
      assert e == "\\u00" + [HexDigit(hi), HexDigit(lo)];
      assert t[0] == 'u' && t[1..5] == ['0', '0', HexDigit(hi), HexDigit(lo)];
      HexDigitValue(hi);
      HexDigitValue(lo);
      assert HexQuad(t[1..5]) == Some(c as int);
    }
  }

  /** A hexadecimal digit written for `d` reads back as `d`. */
  lemma HexDigitValue(d: nat)
    requires d < 16
    ensures HexValue(HexDigit(d)) == Some(d)
  {
  }

  /** Any other character stands for itself. */
  lemma PlainStep(c: char, tail: string, body: string, rest: string)
    requires ' ' <= c && c != '"' && c != '\\'
    requires ParseString(tail) == Some(Parsed(body, rest))
    ensures ParseString(EscapeChar(c) + tail) == Some(Parsed([c] + body, rest))
  {
    assert EscapeChar(c) == [c];
    assert ([c] + tail)[1..] == tail;
  }

  lemma {:induction false} ParseQuote(s: string, rest: string)
    ensures ParseValue(Quote(s) + rest) == Some(Parsed(JStr(s), rest))
  {
    var t := Quote(s) + rest;
    assert t[1..] == Escape(s) + "\"" + rest;
    ParseEscape(s, rest);
  }

  /** Text starting with a minus sign or a digit is read as a number. */
  lemma ParseValueNumber(s: string)
    requires s != [] && (s[0] == '-' || IsDigit(s[0]))
    ensures ParseValue(s) == ParseNumber(s)
  {
    assert s[0] !in {'n', 't', 'f', '"', '[', '{'};
  }

  /** An optionally negated run of digits followed by a non-digit is read as its value. */
  lemma {:induction false} ParseDigits(d: string, rest: string, negative: bool)
    requires d != [] && AllDigits(d) && (|d| == 1 || d[0] != '0') && Delimited(rest)
    ensures ParseNumber((if negative then "-" else "") + d + rest)
         == Some(Parsed(JNum(if negative then -(DigitsValue(d) as int) else DigitsValue(d)), rest))
  {
    var s := (if negative then "-" else "") + d + rest;
    var t := d + rest;
    assert (if negative then s[1..] else s) == t;
    assert s[0] == (if negative then '-' else d[0]) && t[0] == d[0];
    DigitRunOf(d, rest);
    assert t[..|d|] == d && t[|d|..] == rest;
  }

  lemma {:induction false} ParseIntText(n: int, rest: string)
    requires Delimited(rest)
    ensures ParseValue(IntText(n) + rest) == Some(Parsed(JNum(n), rest))
  {
    var m: nat := if n < 0 then -n else n;
    var d := NatText(m);
    var s := (if n < 0 then "-" else "") + d + rest;
    assert IntText(n) + rest == s;
    assert ParseNumber(s) == Some(Parsed(JNum(n), rest)) by {
      NatTextValue(m);
      NatTextLeading(m);
      ParseDigits(d, rest, n < 0);
    }
    assert ParseValue(s) == ParseNumber(s) by {
      assert s[0] == (if n < 0 then '-' else d[0]);
      ParseValueNumber(s);
    }
  }

  lemma ParseWordOf(word: string, v: Json, rest: string)
    requires |word| > 0
    ensures ParseWord(word + rest, word, v) == Some(Parsed(v, rest))
  {
    assert (word + rest)[..|word|] == word;
    assert (word + rest)[|word|..] == rest;
  }

  /** Parsing the text of `v`, whatever delimited text follows it, gives back `v` and that text. */
  lemma {:induction false} ParseSerialize(v: Json, rest: string)
    requires Delimited(rest)
    ensures ParseValue(Serialize(v) + rest) == Some(Parsed(v, rest))
    decreases v, 1
  {
    match v
    case JNull =>
      ParseWordOf("null", JNull, rest);
    case JBool(b) =>
      if b { ParseWordOf("true", v, rest); } else { ParseWordOf("false", v, rest); }
    case JNum(n) =>
      ParseIntText(n, rest);
    case JStr(s) =>
      ParseQuote(s, rest);
    case JArr(items) =>
      ParseSerializeArray(items, rest);
    case JObj(ms) =>
      ParseSerializeObject(ms, rest);
  }

  lemma {:induction false} ParseSerializeArray(items: seq<Json>, rest: string)
    requires Delimited(rest)
    ensures ParseValue(Serialize(JArr(items)) + rest) == Some(Parsed(JArr(items), rest))
    decreases items, 2
  {
    var t := Serialize(JArr(items)) + rest;
    var inner := SerializeItems(items) + "]" + rest;
    assert t[0] == '[' && t[1..] == inner by {
      assert t == "[" + inner;
    }
    if items == [] {
      assert inner[0] == ']' && inner[1..] == rest by {
        assert inner == "]" + rest;
      }
    } else {
      assert ParseArray(inner) == Some(Parsed(JArr(items), rest)) by {
        ParseSerializeItems(items, rest);
        assert inner[0] != ']' by {
          ItemsStart(items);
        }
        ArrayStep(inner, items, rest);
      }
    }
  }

  /** The text of a non-empty list of items starts as the text of its first item. */
  lemma ItemsStart(items: seq<Json>)
    requires items != []
    ensures SerializeItems(items)[0] == Serialize(items[0])[0]
  {
  }

  lemma ArrayStep(inner: string, items: seq<Json>, rest: string)
    requires inner != [] && inner[0] != ']'
    requires ParseItems(inner) == Some(Parsed(items, rest))
    ensures ParseArray(inner) == Some(Parsed(JArr(items), rest))
  {
  }

  lemma {:induction false} ParseSerializeObject(ms: seq<Member>, rest: string)
    requires Delimited(rest)
    ensures ParseValue(Serialize(JObj(ms)) + rest) == Some(Parsed(JObj(ms), rest))
    decreases ms, 2
  {
    var t := Serialize(JObj(ms)) + rest;
    var inner := SerializeMembers(ms) + "}" + rest;
    assert t[0] == '{' && t[1..] == inner by {
      assert t == "{" + inner;
    }
    if ms == [] {
      assert inner[0] == '}' && inner[1..] == rest by {
        assert inner == "}" + rest;
      }
    } else {
      assert ParseObject(inner) == Some(Parsed(JObj(ms), rest)) by {
        ParseSerializeMembers(ms, rest);
        assert inner[0] == '"';
        ObjectStep(inner, ms, rest);
      }
    }
  }

  lemma ObjectStep(inner: string, ms: seq<Member>, rest: string)
    requires inner != [] && inner[0] != '}'
    requires ParseMembers(inner) == Some(Parsed(ms, rest))
    ensures ParseObject(inner) == Some(Parsed(JObj(ms), rest))
  {
  }

  lemma ItemsLast(s: string, v: Json, rest: string)
    requires ParseValue(s) == Some(Parsed(v, "]" + rest))
    ensures ParseItems(s) == Some(Parsed([v], rest))
  {
    assert ("]" + rest)[1..] == rest;
  }

  lemma ItemsMore(s: string, v: Json, more: string, vs: seq<Json>, rest: string)
    requires ParseValue(s) == Some(Parsed(v, "," + more))
    requires ParseItems(more) == Some(Parsed(vs, rest))
    ensures ParseItems(s) == Some(Parsed([v] + vs, rest))
  {
    assert ("," + more)[1..] == more;
  }

  lemma {:induction false} ParseSerializeItems(items: seq<Json>, rest: string)
    requires items != []
    ensures ParseItems(SerializeItems(items) + "]" + rest) == Some(Parsed(items, rest))
    decreases items, 0
  {
    var head := items[0];
    var s := SerializeItems(items) + "]" + rest;
    if |items| == 1 {
      ItemsTextOne(items, rest);
      ParseSerialize(head, "]" + rest);
      ItemsLast(s, head, rest);
    } else {
      var more := SerializeItems(items[1..]) + "]" + rest;
      ItemsTextMany(items, rest);
      ParseSerialize(head, "," + more);
      ParseSerializeItems(items[1..], rest);
      ItemsMore(s, head, more, items[1..], rest);
    }
  }

  lemma ItemsTextOne(items: seq<Json>, rest: string)
    requires |items| == 1
    ensures SerializeItems(items) + "]" + rest == Serialize(items[0]) + ("]" + rest)
    ensures [items[0]] == items
  {
    var a := Serialize(items[0]);
    assert SerializeItems(items) == a;
    assert a + "]" + rest == a + ("]" + rest);
  }

  lemma ItemsTextMany(items: seq<Json>, rest: string)
    requires |items| > 1
    ensures SerializeItems(items) + "]" + rest
         == Serialize(items[0]) + ("," + (SerializeItems(items[1..]) + "]" + rest))
    ensures [items[0]] + items[1..] == items
  {
    var a, b := Serialize(items[0]), SerializeItems(items[1..]);
    assert SerializeItems(items) == a + "," + b;
    Assoc4(a, ",", b, "]", rest);
  }

  lemma MembersStep(s: string, key: string, valueText: string, v: Json, after: string)
    requires s != [] && s[0] == '"'
    requires ParseString(s[1..]) == Some(Parsed(key, ":" + valueText))
    requires ParseValue(valueText) == Some(Parsed(v, after))
    ensures after != [] && after[0] == '}' ==>
      ParseMembers(s) == Some(Parsed([Member(key, v)], after[1..]))
    ensures after != [] && after[0] == ',' ==>
      ParseMembers(s) == match ParseMembers(after[1..])
                         case Some(q) => Some(Parsed([Member(key, v)] + q.value, q.rest))
                         case None => None
  {
    assert (":" + valueText)[1..] == valueText;
  }

  lemma {:induction false} ParseSerializeMembers(ms: seq<Member>, rest: string)
    requires ms != []
    ensures ParseMembers(SerializeMembers(ms) + "}" + rest) == Some(Parsed(ms, rest))
    decreases ms, 0
  {
    var m := ms[0];
    var tail := SerializeMembers(ms[1..]) + "}" + rest;
    var after := if |ms| == 1 then "}" + rest else "," + tail;
    var valueText := Serialize(m.value) + after;
    var s := SerializeMembers(ms) + "}" + rest;
    MembersText(ms, rest, after);
    ParseEscape(m.key, ":" + valueText);
    ParseSerialize(m.value, after);
    MembersStep(s, m.key, valueText, m.value, after);
    if |ms| > 1 {
      ParseSerializeMembers(ms[1..], rest);
    }
  }

  lemma MembersText(ms: seq<Member>, rest: string, after: string)
    requires ms != []
    requires after == if |ms| == 1 then "}" + rest else "," + (SerializeMembers(ms[1..]) + "}" + rest)
    ensures var s := SerializeMembers(ms) + "}" + rest;
      s[0] == '"' && s[1..] == Escape(ms[0].key) + "\"" + (":" + (Serialize(ms[0].value) + after))
    ensures after[1..] == if |ms| == 1 then rest else SerializeMembers(ms[1..]) + "}" + rest
    ensures after[0] == if |ms| == 1 then '}' else ','
    ensures [ms[0]] + ms[1..] == ms && (|ms| == 1 ==> [ms[0]] == ms)
  {
    var m := ms[0];
    var k, v := Escape(m.key), Serialize(m.value);
    var head := Quote(m.key) + ":" + v;
    MembersSplit(ms, rest, after);
    QuotedHead(m.key, v, after);
    SplitFirst('"', k + "\"" + (":" + (v + after)), head + after);
  }

  lemma MembersSplit(ms: seq<Member>, rest: string, after: string)
    requires ms != []
    requires after == if |ms| == 1 then "}" + rest else "," + (SerializeMembers(ms[1..]) + "}" + rest)
    ensures SerializeMembers(ms) + "}" + rest == Quote(ms[0].key) + ":" + Serialize(ms[0].value) + after
  {
    var head := Quote(ms[0].key) + ":" + Serialize(ms[0].value);
    if |ms| == 1 {
      assert SerializeMembers(ms) == head;
      Assoc3(head, "}", rest);
    } else {
      var more := SerializeMembers(ms[1..]);
      assert SerializeMembers(ms) == head + "," + more;
      Assoc4(head, ",", more, "}", rest);
    }
  }

  lemma QuotedHead(key: string, v: string, after: string)
    ensures Quote(key) + ":" + v + after == "\"" + (Escape(key) + "\"" + (":" + (v + after)))
  {
    Regroup(['"'], Escape(key), ['"'], [':'], v, after);
  }

  // Sequence helpers. They have no counterpart in the app: each states one
  // regrouping or splitting of concatenated text, so that the round-trip
  // proofs above need not search for it.

  lemma Assoc3(a: string, b: string, c: string)
    ensures a + b + c == a + (b + c)
  {
  }

  lemma Assoc4(a: string, b: string, c: string, d: string, e: string)
    ensures a + b + c + d + e == a + (b + (c + d + e))
  {
  }

  lemma Regroup(a: string, b: string, c: string, d: string, e: string, f: string)
    ensures a + b + c + d + e + f == a + (b + c + (d + (e + f)))
  {
  }

  lemma SplitFirst(c: char, tail: string, s: string)
    requires s == [c] + tail
    ensures s[0] == c && s[1..] == tail
  {
  }

  /** `JSON.stringify` escapes a quote and a line break with a backslash. */
  lemma StringifyEscapesShort()
    ensures Serialize(JStr("a\"\n")) == "\"a\\\"\\n\""
  {
    assert Escape("a\"\n") == "a" + Escape("\"\n");
    assert Escape("\"\n") == "\\\"" + Escape("\n");
  }

  /** `JSON.stringify` writes the other control characters as lower-case `\u00XX`. */
  lemma StringifyEscapesControl()
    ensures Serialize(JStr("\U{1F}")) == "\"\\u001f\""
  {
    assert EscapeChar('\U{1F}') == "\\u001f";
  }

  /** A number with a leading zero is a SyntaxError for `JSON.parse`. */
  lemma ParseRejectsLeadingZero()
    ensures Parse("01") == None && Parse("-01") == None
  {
    assert DigitRun("01") == 2;
    assert DigitRun("-01"[1..]) == 2;
  }

  /** A raw line break inside a string literal is a SyntaxError for `JSON.parse`. */
  lemma ParseRejectsRawControl()
    ensures Parse("\"a\nb\"") == None
  {
    assert ParseString("a\nb\"") == None by {
      assert "a\nb\""[1..] == "\nb\"";
    }
  }

  /** `JSON.parse` reads a `\u` escape and the escaped solidus. */
  lemma ParseReadsEscapes()
    ensures Parse("\"\\u0041\\/\"") == Some(JStr("A/"))
  {
    var s := "\\u0041\\/\"";
    assert s[1..][1..5] == "0041";
    assert HexQuad("0041") == Some(0x41);
    assert Unescape(s[1..]) == Some(('A', 5));
    var u := s[6..];
    assert u == "\\/\"" && u[1..] == "/\"" && u[2..] == "\"";
    assert Unescape(u[1..]) == Some(('/', 1));
    assert ParseString(u[2..]) == Some(Parsed("", []));
    assert u[0] == '\\' && u[1 + 1..] == u[2..];
    assert ['/'] + "" == "/";
    assert ParseString(u) == Some(Parsed("/", []));
    assert s[0] == '\\' && s[1 + 5..] == u;
    assert ['A'] + "/" == "A/";
    assert ParseString(s) == Some(Parsed("A/", []));
  }

  /** `JSON.parse(JSON.stringify(v))` gives back `v`. */
  lemma RoundTrip(v: Json)
    ensures Parse(Serialize(v)) == Some(v)
  {
    ParseSerialize(v, "");
    assert Serialize(v) + "" == Serialize(v);
  }

  // ---------------------------------------------------------------------
  // Property access
  // ---------------------------------------------------------------------

  /** The value of `key` among an object's members; as in `JSON.parse`, the last duplicate wins. */
  function Lookup(ms: seq<Member>, key: string): Option<Json> {
    if ms == [] then None
    else if ms[|ms| - 1].key == key then Some(ms[|ms| - 1].value)
    else Lookup(ms[..|ms| - 1], key)
  }

  /** An optional property as `JSON.stringify` writes it: left out when `undefined`. */
  function OptMember(key: string, v: Option<Json>): seq<Member> {
    if v.Some? then [Member(key, v.value)] else []
  }

  /** An optional member under another key does not change what `key` looks up to. */
  lemma OptMemberSkip(ms: seq<Member>, name: string, v: Option<Json>, key: string)
    requires name != key
    ensures Lookup(ms + OptMember(name, v), key) == Lookup(ms, key)
  {
    LookupSkip(ms, OptMember(name, v), key);
  }

  /** A key no member carries looks up to nothing. */
  lemma LookupAbsent(ms: seq<Member>, key: string)
    requires forall i :: 0 <= i < |ms| ==> ms[i].key != key
    ensures Lookup(ms, key) == None
  {
    LookupSkip([], ms, key);
    assert [] + ms == ms;
  }

  /** A member put last is what its key looks up to. */
  lemma LookupOwn(ms: seq<Member>, m: Member)
    ensures Lookup(ms + [m], m.key) == Some(m.value)
  {
    assert (ms + [m])[|ms + [m]| - 1] == m;
  }

  /** Members that do not carry `key` do not change what `key` looks up to. */
  lemma {:induction false} LookupSkip(ms: seq<Member>, more: seq<Member>, key: string)
    requires forall i :: 0 <= i < |more| ==> more[i].key != key
    ensures Lookup(ms + more, key) == Lookup(ms, key)
    decreases |more|
  {
    if more == [] {
      assert ms + more == ms;
    } else {
      var all := ms + more;
      assert all[|all| - 1] == more[|more| - 1];
      assert all[..|all| - 1] == ms + more[..|more| - 1];
      assert Lookup(all, key) == Lookup(all[..|all| - 1], key);
      LookupSkip(ms, more[..|more| - 1], key);
    }
  }

  /** The first member is what its key looks up to when no later member repeats the key. */
  lemma LookupFirst(m: Member, rest: seq<Member>)
    requires forall i :: 0 <= i < |rest| ==> rest[i].key != m.key
    ensures Lookup([m] + rest, m.key) == Some(m.value)
  {
    LookupSkip([m], rest, m.key);
  }

  /** Each of two members under different keys is what its key looks up to. */
  lemma LookupPair(a: Member, b: Member)
    requires a.key != b.key
    ensures Lookup([a, b], a.key) == Some(a.value) && Lookup([a, b], b.key) == Some(b.value)
  {
    assert [a, b][..1] == [a];
  }

  /** A member is what its key looks up to when no later member repeats the key. */
  lemma {:induction false} LookupAt(ms: seq<Member>, j: nat)
    requires j < |ms|
    requires forall i :: j < i < |ms| ==> ms[i].key != ms[j].key
    ensures Lookup(ms, ms[j].key) == Some(ms[j].value)
    decreases |ms|
  {
    if j < |ms| - 1 {
      var init := ms[..|ms| - 1];
      assert init[j] == ms[j];
      assert forall i :: j < i < |init| ==> init[i] == ms[i];
      LookupAt(init, j);
    }
  }
}
