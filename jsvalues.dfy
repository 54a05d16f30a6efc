/**
 * The JavaScript coercions the screens apply to values read from JSON:
 * truthiness (`if (x)`, `x || y`), property access (`p.id`, which throws on
 * `null`), `Number(x)`, `String(x)` and `String.prototype.trim`.
 * A value that may be `undefined` is an `Option<Json>`; `None` is `undefined`.
 */
module JsValues {
  import opened Wrappers
  import opened Json

  // ---------------------------------------------------------------------
  // Truthiness
  // ---------------------------------------------------------------------

  /** JavaScript truthiness: `undefined`, `null`, `false`, `0` and `""` are falsy. */
  predicate Truthy(v: Option<Json>) {
    match v
    case None => false
    case Some(JNull) => false
    case Some(JBool(b)) => b
    case Some(JNum(n)) => n != 0
    case Some(JStr(s)) => s != ""
    case Some(_) => true
  }

  /** `a || b`. */
  function Or(a: Option<Json>, b: Option<Json>): Option<Json> {
    if Truthy(a) then a else b
  }

  /** `a || b` where the fallback is a plain value. */
  function OrElse(a: Option<Json>, b: Json): Json {
    if Truthy(a) then a.value else b
  }

  // ---------------------------------------------------------------------
  // Property access
  // ---------------------------------------------------------------------

  /** The outcome of reading `obj.key`: a value (maybe `undefined`), or a TypeError. */
  datatype Read = Read(value: Option<Json>) | TypeError

  /**
   * `obj.key`: reading a property of `undefined` or `null` throws; any other
   * non-object has none of the properties the app reads, so it gives `undefined`.
   */
  function Prop(obj: Option<Json>, key: string): Read {
    match obj
    case None => TypeError
    case Some(JNull) => TypeError
    case Some(JObj(ms)) => Read(Lookup(ms, key))
    case Some(_) => Read(None)
  }

  /** `p.key` of an element that is not `null`. */
  function Field(p: Json, key: string): Option<Json>
    requires p != JNull
  {
    Prop(Some(p), key).value
  }

  /** `v == null`: true of both `undefined` and `null`. */
  predicate IsNullish(v: Option<Json>) {
    v == None || v == Some(JNull)
  }

  /** `a ?? b`. */
  function Coalesce(a: Option<Json>, b: Json): Json {
    if IsNullish(a) then b else a.value
  }

  // ---------------------------------------------------------------------
  // Strings
  // ---------------------------------------------------------------------

  /** The characters `String.prototype.trim` strips: white space and line terminators. */
  predicate IsJsSpace(c: char) {
    c == ' ' || c == '\t' || c == '\n' || c == '\r' || c == '\U{0B}' || c == '\U{0C}'
    || c == '\U{A0}' || c == '\U{1680}' || ('\U{2000}' <= c <= '\U{200A}')
    || c == '\U{2028}' || c == '\U{2029}' || c == '\U{202F}' || c == '\U{205F}'
    || c == '\U{3000}' || c == '\U{FEFF}'
  }

  predicate AllSpace(s: string) {
    forall i :: 0 <= i < |s| ==> IsJsSpace(s[i])
  }

  lemma AllSpaceJoin(a: string, b: string)
    requires AllSpace(a) && AllSpace(b)
    ensures AllSpace(a + b)
  {
    forall i | 0 <= i < |a + b|
      ensures IsJsSpace((a + b)[i])
    {
      if i < |a| {
        assert (a + b)[i] == a[i];
      } else {
        assert (a + b)[i] == b[i - |a|];
      }
    }
  }

  /** `s.trimStart()`: drops the leading white space. */
  function TrimStart(s: string): (r: string)
    ensures |r| <= |s|
    ensures r != [] ==> !IsJsSpace(r[0])
  {
    if s != [] && IsJsSpace(s[0]) then TrimStart(s[1..]) else s
  }

  /** What `TrimStart` keeps is the end of `s`. */
  lemma {:induction false} TrimStartIsSuffix(s: string)
    ensures TrimStart(s) == s[|s| - |TrimStart(s)|..]
  {
    if s != [] && IsJsSpace(s[0]) {
      TrimStartIsSuffix(s[1..]);
      assert s[1..][|s| - 1 - |TrimStart(s)|..] == s[|s| - |TrimStart(s)|..];
    }
  }

  /** What `TrimStart` drops is white space. */
  lemma {:induction false} TrimStartDropsSpace(s: string)
    ensures AllSpace(s[..|s| - |TrimStart(s)|])
  {
    if s != [] && IsJsSpace(s[0]) {
      var r := TrimStart(s[1..]);
      TrimStartDropsSpace(s[1..]);
      assert s[..|s| - |r|] == [s[0]] + s[1..][..|s| - 1 - |r|];
      AllSpaceJoin([s[0]], s[1..][..|s| - 1 - |r|]);
    }
  }

  /** `s.trimEnd()`: drops the trailing white space. */
  function TrimEnd(s: string): (r: string)
    ensures |r| <= |s|
    ensures r != [] ==> !IsJsSpace(r[|r| - 1])
  {
    if s != [] && IsJsSpace(s[|s| - 1]) then TrimEnd(s[..|s| - 1]) else s
  }

  /** What `TrimEnd` keeps is the start of `s`. */
  lemma {:induction false} TrimEndIsPrefix(s: string)
    ensures TrimEnd(s) == s[..|TrimEnd(s)|]
  {
    if s != [] && IsJsSpace(s[|s| - 1]) {
      TrimEndIsPrefix(s[..|s| - 1]);
      assert s[..|s| - 1][..|TrimEnd(s)|] == s[..|TrimEnd(s)|];
    }
  }

  /** What `TrimEnd` drops is white space. */
  lemma {:induction false} TrimEndDropsSpace(s: string)
    ensures AllSpace(s[|TrimEnd(s)|..])
  {
    if s != [] && IsJsSpace(s[|s| - 1]) {
      var r := TrimEnd(s[..|s| - 1]);
      TrimEndDropsSpace(s[..|s| - 1]);
      assert s[|r|..] == s[..|s| - 1][|r|..] + [s[|s| - 1]];
      AllSpaceJoin(s[..|s| - 1][|r|..], [s[|s| - 1]]);
    }
  }

  /** `s.trim()`. */
  function Trim(s: string): string {
    TrimEnd(TrimStart(s))
  }

  /**
   * `s.trim()` is empty exactly when `s` is all white space, which is how
   * every "please write something" guard in the app reads.
   */
  lemma TrimIsEmptyIff(s: string)
    ensures Trim(s) == [] <==> AllSpace(s)
  {
    var a := TrimStart(s);
    var i := |s| - |a|;
    TrimStartDropsSpace(s);
    TrimStartIsSuffix(s);
    TrimEndDropsSpace(a);
    if TrimEnd(a) == [] {
      assert AllSpace(a[0..]) && a[0..] == a;
      assert a == [];
      forall k | 0 <= k < |s| ensures IsJsSpace(s[k]) {
        assert s[..i][k] == s[k];
      }
    }
  }

  /** `s.trim()` neither starts nor ends with white space. */
  lemma TrimHasNoSpaceEdges(s: string)
    ensures Trim(s) != [] ==> !IsJsSpace(Trim(s)[0]) && !IsJsSpace(Trim(s)[|Trim(s)| - 1])
  {
    var a := TrimStart(s);
    var b := TrimEnd(a);
    assert Trim(s) == b;
    if b != [] {
      assert b[0] == a[0] by {
        TrimEndIsPrefix(a);
      }
    }
  }

  /** `s.trim()` is a contiguous slice of `s`. */
  lemma TrimIsSlice(s: string)
    ensures exists i, j :: 0 <= i <= j <= |s| && Trim(s) == s[i..j]
  {
    var a := TrimStart(s);
    var b := TrimEnd(a);
    var i := |s| - |a|;
    assert Trim(s) == b;
    TrimStartIsSuffix(s);
    TrimEndIsPrefix(a);
    assert a == s[i..] && b == a[..|b|];
    assert b == s[i..i + |b|];
  }

  /** `String(v)` of a JSON value. */
  function ToJsString(v: Json): string
    decreases v, 1
  {
    match v
    case JNull => "null"
    case JBool(b) => if b then "true" else "false"
    case JNum(n) => IntText(n)
    case JStr(s) => s
    case JArr(items) => JoinItems(items)
    case JObj(_) => "[object Object]"
  }

  /** `items.join(",")`: `null` elements become empty. */
  function JoinItems(items: seq<Json>): string
    decreases items, 0
  {
    if items == [] then ""
    else
      var first := if items[0] == JNull then "" else ToJsString(items[0]);
      if |items| == 1 then first else first + "," + JoinItems(items[1..])
  }

  /** `String(v ?? fallback)` for a string fallback. */
  function StringOr(v: Option<Json>, fallback: string): (s: string)
    ensures IsNullish(v) ==> s == fallback
    ensures v.Some? && v.value.JStr? ==> s == v.value.s
  {
    ToJsString(Coalesce(v, JStr(fallback)))
  }

  // ---------------------------------------------------------------------
  // Numbers
  // ---------------------------------------------------------------------

  /** A JavaScript number as the app uses it: an integer or `NaN`. */
  datatype Number = Num(value: int) | NaN

  /** `a === b` on numbers: `NaN` equals nothing, not even itself. */
  predicate StrictEq(a: Number, b: Number) {
    a.Num? && b.Num? && a.value == b.value
  }

  /**
   * `Number(s)` of a string: surrounding white space is ignored, the empty
   * string is 0, an optionally signed run of decimal digits is its value and
   * anything else is `NaN`.
   */
  function StringToNumber(s: string): Number {
    var t := Trim(s);
    if t == [] then Num(0) else SignedDigits(t)
  }

  /** `Number` of a text with no surrounding white space and at least one character. */
  function SignedDigits(t: string): Number
    requires t != []
  {
    var negative := t[0] == '-';
    var digits := if t[0] == '-' || t[0] == '+' then t[1..] else t;
    if digits != [] && AllDigits(digits) then
      var n: int := DigitsValue(digits);
      Num(if negative then -n else n)
    else NaN
  }

  /** `Number(v)`. */
  function ToNumber(v: Option<Json>): Number {
    match v
    case None => NaN
    case Some(JNull) => Num(0)
    case Some(JBool(b)) => Num(if b then 1 else 0)
    case Some(JNum(n)) => Num(n)
    case Some(JStr(s)) => StringToNumber(s)
    case Some(JArr(items)) => StringToNumber(JoinItems(items))
    case Some(JObj(_)) => NaN
  }

  /** An object converts through its text `"[object Object]"`, which is not a number. */
  lemma ObjectIsNaN(ms: seq<Member>)
    ensures ToNumber(Some(JObj(ms))) == StringToNumber(ToJsString(JObj(ms)))
  {
    var s := ToJsString(JObj(ms));
    assert !IsJsSpace(s[0]) && !IsJsSpace(s[|s| - 1]);
    TrimOfUnpadded(s);
  }

  /** `Number(v) || 0`: `NaN` and 0 both give 0. */
  function NumberOrZero(v: Option<Json>): int {
    match ToNumber(v)
    case Num(n) => n
    case NaN => 0
  }

  /** `Number(v) || null`. */
  function NumberOrNull(n: Number): Json {
    match n
    case Num(k) => if k != 0 then JNum(k) else JNull
    case NaN => JNull
  }

  lemma DigitIsNotSpace(c: char)
    requires IsDigit(c)
    ensures !IsJsSpace(c)
  {
  }

  /** A text that neither starts nor ends with white space is its own trim. */
  lemma TrimOfUnpadded(t: string)
    requires t != [] && !IsJsSpace(t[0]) && !IsJsSpace(t[|t| - 1])
    ensures Trim(t) == t
  {
    assert TrimStart(t) == t;
    assert TrimEnd(t) == t;
  }

  /** `Number` of a text that neither starts nor ends with white space reads its sign and digits. */
  lemma StringToNumberOfUnpadded(t: string)
    requires t != [] && !IsJsSpace(t[0]) && !IsJsSpace(t[|t| - 1])
    ensures StringToNumber(t) == SignedDigits(t)
  {
    TrimOfUnpadded(t);
  }

  /** An optionally negative run of digits reads as its value. */
  lemma SignedDigitsOf(t: string, d: string, negative: bool)
    requires d != [] && AllDigits(d) && t == (if negative then "-" else "") + d
    ensures var v: int := DigitsValue(d); SignedDigits(t) == Num(if negative then -v else v)
  {
    if negative {
      assert t[1..] == d;
    } else {
      assert t == d;
      assert IsDigit(t[0]) && t[0] != '-' && t[0] != '+';
    }
  }

  /** `Number` of an optionally negative run of digits is its value. */
  lemma StringToNumberOfSigned(t: string, d: string, negative: bool)
    requires d != [] && AllDigits(d) && t == (if negative then "-" else "") + d
    ensures var v: int := DigitsValue(d); StringToNumber(t) == Num(if negative then -v else v)
  {
    SignedDigitsOf(t, d, negative);
    assert t[0] == (if negative then '-' else d[0]) && t[|t| - 1] == d[|d| - 1];
    DigitIsNotSpace(d[|d| - 1]);
    DigitIsNotSpace(d[0]);
    StringToNumberOfUnpadded(t);
  }

  /** Reading back the text `String(n)` writes for an integer gives `n`. */
  lemma {:induction false} StringToNumberOfIntText(n: int)
    ensures StringToNumber(IntText(n)) == Num(n)
  {
    var m: nat := if n < 0 then -n else n;
    assert IntText(n) == (if n < 0 then "-" else "") + NatText(m);
    NatTextValue(m);
    StringToNumberOfSigned(IntText(n), NatText(m), n < 0);
  }

  // ---------------------------------------------------------------------
  // Route parameters
  // ---------------------------------------------------------------------

  /** A route parameter as the router hands it over: missing, one string, or repeated. */
  datatype RouteParam = Absent | Single(s: string) | Multiple(ss: seq<string>)

  /** `String(param)`: `undefined` for a missing one, the values joined by commas for a repeated one. */
  function ParamText(p: RouteParam): string {
    match p
    case Absent => "undefined"
    case Single(s) => s
    case Multiple(ss) => JoinStrings(ss)
  }

  /** `ss.join(",")`. */
  function JoinStrings(ss: seq<string>): string {
    if ss == [] then "" else if |ss| == 1 then ss[0] else ss[0] + "," + JoinStrings(ss[1..])
  }
}
