/**
 * JSON values as the controller sees them after `JSON.parse`, the parser
 * itself, JavaScript property access and truthiness on those values, and
 * the string conversion `String(value)`.
 */
module Json {
  import opened Wrappers
  import opened JsText

  /** 10^n. */
  function Pow10(n: nat): (r: nat)
    ensures r >= 1
  {
    if n == 0 then 1 else 10 * Pow10(n - 1)
  }

  /** A finite number mantissa × 10^exponent. */
  datatype Decimal = Decimal(mantissa: int, exponent: int)

  /** The unique way of writing a number: no trailing zero digit in the mantissa, and 0 as 0 × 10^0. */
  predicate Canonical(d: Decimal) {
    if d.mantissa == 0 then d.exponent == 0 else d.mantissa % 10 != 0
  }

  /** A JavaScript number in canonical form, so that equal numbers are equal values. */
  type Number = d: Decimal | Canonical(d) witness Decimal(0, 0)

  /** The number a decimal denotes. */
  ghost function RealValue(d: Decimal): real {
    if d.exponent >= 0 then (d.mantissa * Pow10(d.exponent)) as real
    else d.mantissa as real / Pow10(-d.exponent) as real
  }

  lemma {:induction false} ShiftValue(q: int, e: int)
    ensures RealValue(Decimal(10 * q, e)) == RealValue(Decimal(q, e + 1))
  {
    if e >= 0 {
      assert Pow10(e + 1) == 10 * Pow10(e);
      assert 10 * q * Pow10(e) == q * Pow10(e + 1);
    } else if e == -1 {
      assert Pow10(1) == 10;
    } else {
      var p := Pow10(-e - 1);
      assert Pow10(-e) == 10 * p;
      assert (10 * q) as real / (10 * p) as real == q as real / p as real;
    }
  }

  /** Canonical form of mantissa × 10^exponent, denoting the same number. */
  function Normalize(m: int, e: int): (r: Number)
    ensures RealValue(r) == RealValue(Decimal(m, e))
    decreases if m < 0 then -m else m
  {
    if m == 0 then
      assert RealValue(Decimal(m, e)) == 0.0;
      Decimal(0, 0)
    else if m % 10 == 0 then
      var q := m / 10;
      assert m == 10 * q;
      ShiftValue(q, e);
      Normalize(q, e + 1)
    else Decimal(m, e)
  }

  /** The integer `n` as a number. */
  function Int(n: int): (r: Number)
    ensures RealValue(r) == n as real
  {
    Normalize(n, 0)
  }

  datatype Json =
    | JNull
    | JBool(b: bool)
    | JNum(n: Number)
    | JStr(s: string)
    | JArr(items: seq<Json>)
    | JObj(members: seq<Member>)

  /** One `"key": value` pair of an object, in the order of the text. */
  datatype Member = Member(key: string, value: Json)

  /** Whether an object has an own property `key`. */
  predicate HasKey(ms: seq<Member>, key: string) {
    exists k :: 0 <= k < |ms| && ms[k].key == key
  }

  /** The value of the last member with this key: a repeated key in `JSON.parse` input keeps its last value. */
  function LastValue(ms: seq<Member>, key: string): (r: Option<Json>)
    ensures r.Some? <==> HasKey(ms, key)
    ensures r.Some? ==> exists k :: 0 <= k < |ms| && ms[k] == Member(key, r.value) &&
                          forall l :: k < l < |ms| ==> ms[l].key != key
  {
    if ms == [] then None
    else if ms[|ms| - 1].key == key then Some(ms[|ms| - 1].value)
    else
      var init := ms[..|ms| - 1];
      assert forall k :: 0 <= k < |init| ==> init[k] == ms[k];
      LastValue(init, key)
  }

  /**
   * `v.key` (or `v?.key`) on a value produced by `JSON.parse`: only objects have the
   * named properties the controller asks for; `None` is `undefined`.
   */
  function Get(v: Option<Json>, key: string): Option<Json> {
    if v.Some? && v.value.JObj? then LastValue(v.value.members, key) else None
  }

  /** `v?.[0]`: the first element of an array, the first character of a string, or an object's property "0". */
  function First(v: Option<Json>): Option<Json> {
    if v.None? then None
    else match v.value
      case JArr(items) => if items == [] then None else Some(items[0])
      case JStr(s) => if s == [] then None else Some(JStr([s[0]]))
      case JObj(ms) => LastValue(ms, "0")
      case _ => None
  }

  /** JavaScript truthiness; `None` is `undefined`. */
  predicate Truthy(v: Option<Json>) {
    v.Some? &&
    match v.value
      case JNull => false
      case JBool(b) => b
      case JNum(n) => n.mantissa != 0
      case JStr(s) => s != []
      case _ => true
  }

  /** `a || b`. */
  function Or(a: Option<Json>, b: Json): (r: Json)
    ensures Truthy(a) ==> Some(r) == a
    ensures !Truthy(a) ==> r == b
  {
    if Truthy(a) then a.value else b
  }

  // ---------------------------------------------------------------------------
  // JSON.parse
  // ---------------------------------------------------------------------------

  /** The outcome of parsing a prefix: a value and the input left over, or the input left where parsing stopped. */
  datatype Step<T> = Done(value: T, rest: string) | Stuck(at: string)

  /** The four white-space characters of the JSON grammar. */
  predicate IsJsonSpace(c: char) { c == ' ' || c == '\t' || c == '\n' || c == '\r' }

  function SkipJsonSpace(s: string): (r: string)
    ensures |r| <= |s| && r == s[|s| - |r|..]
    ensures r == [] || !IsJsonSpace(r[0])
  {
    if s != [] && IsJsonSpace(s[0]) then SkipJsonSpace(s[1..]) else s
  }

  predicate StartsWith(s: string, p: string) { |p| <= |s| && s[..|p|] == p }

  /** A value starting at the very first character of `s`. */
  function ParseValue(s: string): (r: Step<Json>)
    ensures r.Done? ==> |r.rest| < |s|
    ensures r.Stuck? ==> |r.at| <= |s|
    decreases |s|, 1
  {
    if s == [] then Stuck(s)
    else if s[0] == '{' then ParseObject(s[1..])
    else if s[0] == '[' then ParseArray(s[1..])
    else if s[0] == '"' then
      match ParseString(s[1..])
      case Done(t, rest) => Done(JStr(t), rest)
      case Stuck(at) => Stuck(at)
    else if s[0] == '-' || IsDigit(s[0]) then ParseNumber(s)
    else if s[0] == 't' then ParseLiteral(s, "true", JBool(true))
    else if s[0] == 'f' then ParseLiteral(s, "false", JBool(false))
    else if s[0] == 'n' then ParseLiteral(s, "null", JNull)
    else Stuck(s)
  }

  /**
   * A literal whose first letter is at the front of `s`: either the whole word,
   * or V8's stop at the first character that differs from it (the end of the text
   * when `s` is a proper prefix of the word).
   */
  function ParseLiteral(s: string, word: string, v: Json): (r: Step<Json>)
    requires |s| >= 1 && |word| >= 1
    ensures r.Done? ==> StartsWith(s, word) && r.rest == s[|word|..]
    ensures r.Stuck? ==> !StartsWith(s, word) && r.at == s[Mismatch(s, word, 1)..]
  {
    if StartsWith(s, word) then Done(v, s[|word|..]) else Stuck(s[Mismatch(s, word, 1)..])
  }

  /** The first index from `i` on where `s` ends, leaves `word` or differs from it. */
  function Mismatch(s: string, word: string, i: nat): (k: nat)
    requires i <= |s|
    ensures i <= k <= |s|
    ensures i < k ==> k <= |word|
    ensures forall j :: i <= j < k ==> s[j] == word[j]
    ensures k == |s| || k >= |word| || s[k] != word[k]
    decreases |s| - i
  {
    if i < |s| && i < |word| && s[i] == word[i] then Mismatch(s, word, i + 1) else i
  }

  /** A value with the white space around it. */
  function ParseElement(s: string): (r: Step<Json>)
    ensures r.Done? ==> |r.rest| < |s|
    ensures r.Stuck? ==> |r.at| <= |s|
    decreases |s|, 2
  {
    match ParseValue(SkipJsonSpace(s))
    case Done(v, rest) => Done(v, SkipJsonSpace(rest))
    case Stuck(at) => Stuck(at)
  }

  /** What follows an opening `[`. */
  function ParseArray(s: string): (r: Step<Json>)
    ensures r.Done? ==> |r.rest| < |s|
    ensures r.Stuck? ==> |r.at| <= |s|
    decreases |s|, 4
  {
    var t := SkipJsonSpace(s);
    if t != [] && t[0] == ']' then Done(JArr([]), t[1..])
    else
      match ParseItems(s)
      case Done(items, rest) => Done(JArr(items), rest)
      case Stuck(at) => Stuck(at)
  }

  /** Elements separated by commas, up to and including the closing `]`. */
  function ParseItems(s: string): (r: Step<seq<Json>>)
    ensures r.Done? ==> |r.rest| < |s|
    ensures r.Stuck? ==> |r.at| <= |s|
    decreases |s|, 3
  {
    match ParseElement(s)
    case Stuck(at) => Stuck(at)
    case Done(v, rest) =>
      if rest != [] && rest[0] == ']' then Done([v], rest[1..])
      else if rest != [] && rest[0] == ',' then
        match ParseItems(rest[1..])
        case Done(vs, rest2) => Done([v] + vs, rest2)
        case Stuck(at) => Stuck(at)
      else Stuck(rest)
  }

  /** What follows an opening `{`. */
  function ParseObject(s: string): (r: Step<Json>)
    ensures r.Done? ==> |r.rest| < |s|
    ensures r.Stuck? ==> |r.at| <= |s|
    decreases |s|, 4
  {
    var t := SkipJsonSpace(s);
    if t != [] && t[0] == '}' then Done(JObj([]), t[1..])
    else
      match ParseMembers(s)
      case Done(ms, rest) => Done(JObj(ms), rest)
      case Stuck(at) => Stuck(at)
  }

  /** `"key": element` pairs separated by commas, up to and including the closing `}`. */
  function ParseMembers(s: string): (r: Step<seq<Member>>)
    ensures r.Done? ==> |r.rest| < |s|
    ensures r.Stuck? ==> |r.at| <= |s|
    decreases |s|, 3
  {
    var t := SkipJsonSpace(s);
    if t == [] || t[0] != '"' then Stuck(t)
    else
      match ParseString(t[1..])
      case Stuck(at) => Stuck(at)
      case Done(key, rest) =>
        var u := SkipJsonSpace(rest);
        if u == [] || u[0] != ':' then Stuck(u)
        else ParseMemberValue(key, u[1..])
  }

  /** What follows the colon of a member: its value, then `}` or a comma and the next members. */
  function ParseMemberValue(key: string, s: string): (r: Step<seq<Member>>)
    ensures r.Done? ==> |r.rest| < |s|
    ensures r.Stuck? ==> |r.at| <= |s|
    decreases |s|, 3
  {
    match ParseElement(s)
    case Stuck(at) => Stuck(at)
    case Done(v, rest) =>
      if rest != [] && rest[0] == '}' then Done([Member(key, v)], rest[1..])
      else if rest != [] && rest[0] == ',' then
        match ParseMembers(rest[1..])
        case Done(ms, rest2) => Done([Member(key, v)] + ms, rest2)
        case Stuck(at) => Stuck(at)
      else Stuck(rest)
  }

  /** The characters of a string literal after its opening quote, up to and including the closing quote. */
  function ParseString(s: string): (r: Step<string>)
    ensures r.Done? ==> |r.rest| < |s|
    ensures r.Stuck? ==> |r.at| <= |s|
    decreases |s|
  {
    if s == [] then Stuck(s)
    else if s[0] == '"' then Done([], s[1..])
    else if s[0] == '\\' then
      match ParseEscape(s[1..])
      case Stuck(at) => Stuck(at)
      case Done(c, rest) =>
        match ParseString(rest)
        case Done(t, rest2) => Done(c + t, rest2)
        case Stuck(at) => Stuck(at)
    else if s[0] < ' ' then Stuck(s)
    else
      match ParseString(s[1..])
      case Done(t, rest) => Done([s[0]] + t, rest)
      case Stuck(at) => Stuck(at)
  }

  /** Four hexadecimal digits at the start of `s`. */
  function Hex4(s: string): (r: Option<nat>)
    ensures r.Some? ==> |s| >= 4 && r.value < 0x1_0000
  {
    if |s| >= 4 && IsHexDigit(s[0]) && IsHexDigit(s[1]) && IsHexDigit(s[2]) && IsHexDigit(s[3]) then
      Some(((DigitValue(s[0]) * 16 + DigitValue(s[1])) * 16 + DigitValue(s[2])) * 16 + DigitValue(s[3]))
    else None
  }

  /** The character for a UTF-16 code unit that is not a surrogate; a lone surrogate becomes U+FFFD. */
  function CodeUnitChar(u: nat): char
    requires u < 0x1_0000
  {
    if 0xD800 <= u < 0xE000 then '\U{FFFD}' else u as char
  }

  /** The escape after a backslash in a string literal. */
  function ParseEscape(s: string): (r: Step<string>)
    ensures r.Done? ==> |r.rest| < |s|
    ensures r.Stuck? ==> |r.at| <= |s|
  {
    if s == [] then Stuck(s)
    else if s[0] == '"' then Done("\"", s[1..])
    else if s[0] == '\\' then Done("\\", s[1..])
    else if s[0] == '/' then Done("/", s[1..])
    else if s[0] == 'b' then Done("\U{0008}", s[1..])
    else if s[0] == 'f' then Done("\U{000C}", s[1..])
    else if s[0] == 'n' then Done("\n", s[1..])
    else if s[0] == 'r' then Done("\r", s[1..])
    else if s[0] == 't' then Done("\t", s[1..])
    else if s[0] == 'u' then
      match Hex4(s[1..])
      case None => Stuck(s[RunEnd(s, 1, IsHexDigit)..])
      case Some(hi) =>
        var rest := s[5..];
        if 0xD800 <= hi < 0xDC00 && |rest| >= 2 && rest[0] == '\\' && rest[1] == 'u'
           && Hex4(rest[2..]).Some? && 0xDC00 <= Hex4(rest[2..]).value < 0xE000 then
          var lo := Hex4(rest[2..]).value;
          Done([(0x1_0000 + (hi - 0xD800) * 0x400 + (lo - 0xDC00)) as char], rest[6..])
        else Done([CodeUnitChar(hi)], rest)
    else Stuck(s)
  }

  /**
   * A number: `-? (0 | [1-9][0-9]*) (. [0-9]+)? ([eE] [+-]? [0-9]+)?`, read exactly
   * (no rounding to binary64).
   */
  function ParseNumber(s: string): (r: Step<Json>)
    requires s != []
    ensures r.Done? ==> |r.rest| < |s|
    ensures r.Stuck? ==> |r.at| <= |s|
  {
    var negative := s[0] == '-';
    var t := if negative then s[1..] else s;
    if t == [] || !IsDigit(t[0]) then Stuck(t)
    else
      var intEnd := if t[0] == '0' then 1 else RunEnd(t, 0, IsDigit);
      ParseFraction(negative, t[..intEnd], t[intEnd..])
  }

  /** The optional `.digits` part of a number. */
  function ParseFraction(negative: bool, intDigits: string, u: string): (r: Step<Json>)
    requires AllDigits(intDigits)
    ensures r.Done? ==> |r.rest| <= |u|
    ensures r.Stuck? ==> |r.at| <= |u|
  {
    if u != [] && u[0] == '.' then
      var fracEnd := RunEnd(u, 1, IsDigit);
      if fracEnd == 1 then Stuck(u[1..])
      else ParseExponent(negative, intDigits, u[1..fracEnd], u[fracEnd..])
    else ParseExponent(negative, intDigits, [], u)
  }

  /** The optional `e±digits` part of a number. */
  function ParseExponent(negative: bool, intDigits: string, fracDigits: string, v: string): (r: Step<Json>)
    requires AllDigits(intDigits) && AllDigits(fracDigits)
    ensures r.Done? ==> |r.rest| <= |v|
    ensures r.Stuck? ==> |r.at| <= |v|
  {
    if v != [] && (v[0] == 'e' || v[0] == 'E') then
      var signLen := if |v| > 1 && (v[1] == '+' || v[1] == '-') then 1 else 0;
      var expEnd := RunEnd(v, 1 + signLen, IsDigit);
      if expEnd == 1 + signLen then Stuck(v[1 + signLen..])
      else
        var magnitude: int := DigitsValue(v[1 + signLen..expEnd], 10);
        var exp := if signLen == 1 && v[1] == '-' then -magnitude else magnitude;
        Done(JNum(MakeNumber(negative, intDigits, fracDigits, exp)), v[expEnd..])
    else Done(JNum(MakeNumber(negative, intDigits, fracDigits, 0)), v)
  }

  /** The number with these sign, integer digits, fraction digits and exponent. */
  function MakeNumber(negative: bool, intDigits: string, fracDigits: string, exp: int): Number
    requires AllDigits(intDigits) && AllDigits(fracDigits)
  {
    var magnitude: int := DigitsValue(intDigits + fracDigits, 10);
    Normalize(if negative then -magnitude else magnitude, exp - |fracDigits|)
  }

  /**
   * `JSON.parse(s)`: one element and nothing after it; a failure carries the
   * error message (in the wording of V8 before version 10.5).
   */
  function Parse(s: string): Result<Json, string> {
    match ParseElement(s)
    case Done(v, rest) => if rest == [] then Ok(v) else Err(Unexpected(s, rest))
    case Stuck(at) => Err(Unexpected(s, at))
  }

  const EndOfInput := "Unexpected end of JSON input"
  const TokenPrefix := "Unexpected token "
  const NumberToken := "Unexpected number"
  const StringToken := "Unexpected string"
  const PositionInfix := " in JSON at position "

  /**
   * V8's message for parsing `s` stopped with `at` left: the end of the input,
   * a number or a string where none may stand, or any other character by name,
   * with its position.
   */
  function Unexpected(s: string, at: string): (r: string)
    requires |at| <= |s|
    ensures at == [] ==> r == EndOfInput
    ensures at != [] && at[0] == '"' ==> r == StringToken + PositionInfix + NatToString(|s| - |at|)
    ensures at != [] && (at[0] == '-' || IsDigit(at[0])) ==> r == NumberToken + PositionInfix + NatToString(|s| - |at|)
    ensures at != [] && at[0] != '"' && at[0] != '-' && !IsDigit(at[0]) ==>
              r == TokenPrefix + [at[0]] + PositionInfix + NatToString(|s| - |at|)
  {
    if at == [] then EndOfInput
    else
      var position := PositionInfix + NatToString(|s| - |at|);
      if at[0] == '"' then StringToken + position
      else if at[0] == '-' || IsDigit(at[0]) then NumberToken + position
      else TokenPrefix + [at[0]] + position
  }

  lemma {:induction false} MismatchOfPrefix(s: string, word: string, i: nat)
    requires i <= |s| <= |word| && s == word[..|s|]
    ensures Mismatch(s, word, i) == |s|
    decreases |s| - i
  {
    if i < |s| {
      assert s[i] == word[i];
      MismatchOfPrefix(s, word, i + 1);
    }
  }

  /** A literal cut short is reported as the end of the input, not as its first letter. */
  lemma {:induction false} TruncatedTrue(s: string)
    requires 0 < |s| < 4 && s == "true"[..|s|]
    ensures Parse(s) == Err(EndOfInput)
  {
    assert s[0] == "true"[0];
    LiteralCutShort(s, "true", JBool(true));
    TrueAtFront(s);
    assert SkipJsonSpace(s) == s;
  }

  lemma {:induction false} TrueAtFront(s: string)
    requires s != [] && s[0] == 't'
    ensures ParseValue(s) == ParseLiteral(s, "true", JBool(true))
  {
  }

  lemma {:induction false} LiteralCutShort(s: string, word: string, v: Json)
    requires 0 < |s| < |word| && s == word[..|s|]
    ensures ParseLiteral(s, word, v) == Stuck([])
  {
    MismatchOfPrefix(s, word, 1);
    assert s[|s|..] == [];
  }

  /** A second number after a complete value is named as a number, at its position. */
  lemma {:induction false} SecondNumber(s: string)
    requires s == "1 2"
    ensures Parse(s) == Err(NumberToken + PositionInfix + "2")
  {
    SecondNumberElement(s);
    assert |s| - |"2"| == 2;
    assert NatToString(2) == "2";
  }

  lemma {:induction false} SecondNumberElement(s: string)
    requires s == "1 2"
    ensures ParseElement(s) == Done(JNum(Int(1)), "2")
  {
    SecondNumberRest(s);
    var rest := s[1..];
    assert s[0] == '1' && rest[0] == ' ' && rest[1..] == "2";
    OneSpaceAfter(s, JNum(Int(1)), rest);
  }

  /** A value at the front, then one space and a non-space: the element ends before that character. */
  lemma {:induction false} OneSpaceAfter(s: string, v: Json, rest: string)
    requires s != [] && !IsJsonSpace(s[0]) && ParseValue(s) == Done(v, rest)
    requires |rest| >= 2 && IsJsonSpace(rest[0]) && !IsJsonSpace(rest[1])
    ensures ParseElement(s) == Done(v, rest[1..])
  {
    NoLeadingSpace(s);
    NoLeadingSpace(rest[1..]);
  }

  lemma {:induction false} NoLeadingSpace(t: string)
    requires t != [] && !IsJsonSpace(t[0])
    ensures SkipJsonSpace(t) == t
  {
  }

  lemma {:induction false} SecondNumberRest(s: string)
    requires s == "1 2"
    ensures ParseValue(s) == Done(JNum(Int(1)), " 2")
  {
    assert IsDigit(s[0]) && !IsDigit(s[1]);
    assert RunEnd(s, 0, IsDigit) == 1;
    assert s[..1] == "1" && s[1..] == " 2";
    assert DigitsValue("1", 10) == 1;
    assert Normalize(1, 0) == Int(1);
  }

  // ---------------------------------------------------------------------------
  // String(value)
  // ---------------------------------------------------------------------------

  /**
   * ECMAScript's Number::toString for a finite number: plain digits while the
   * decimal point is at most 21 places in, `0.000ddd` down to six leading zeros,
   * and exponent notation `d.ddde±n` otherwise.
   */
  function NumberToString(n: Number): string {
    if n.mantissa == 0 then "0"
    else if n.mantissa < 0 then "-" + PositiveToString(-n.mantissa, n.exponent)
    else PositiveToString(n.mantissa, n.exponent)
  }

  function PositiveToString(m: nat, e: int): (r: string)
    requires m > 0
    ensures r != [] && IsDigit(r[0])
  {
    var digits := NatToString(m);
    var k := |digits|;
    var point := e + k;
    if k <= point <= 21 then digits + Repeat('0', point - k)
    else if 0 < point <= 21 then digits[..point] + "." + digits[point..]
    else if -6 < point <= 0 then "0." + Repeat('0', -point) + digits
    else
      var exponent := if point - 1 >= 0 then "+" + NatToString(point - 1) else "-" + NatToString(1 - point);
      if k == 1 then digits + "e" + exponent else digits[..1] + "." + digits[1..] + "e" + exponent
  }

  const CannotConvert := "Cannot convert object to primitive value"

  /**
   * `String(v)`: arrays are joined with commas (null elements as empty text);
   * an object is "[object Object]", unless it has its own `toString` property,
   * which (never being callable in parsed JSON) makes the conversion throw a TypeError.
   */
  const ObjectText := "[object Object]"
  const ToStringKey := "toString"

  function ToJsString(v: Json): (r: Result<string, string>)
    ensures v.JObj? ==> r == if HasKey(v.members, ToStringKey) then Err(CannotConvert) else Ok(ObjectText)
    ensures v.JStr? ==> r == Ok(v.s)
    decreases v, 1
  {
    match v
    case JNull => Ok("null")
    case JBool(b) => Ok(if b then "true" else "false")
    case JNum(n) => Ok(NumberToString(n))
    case JStr(s) => Ok(s)
    case JArr(items) => JoinItems(v, 0, ",")
    case JObj(ms) => if HasKey(ms, ToStringKey) then Err(CannotConvert) else Ok(ObjectText)
  }

  /** `Array.prototype.join(sep)` on the elements of `v` from index `i` on. */
  function JoinItems(v: Json, i: nat, sep: string): Result<string, string>
    requires v.JArr? && i <= |v.items|
    decreases v, 0, |v.items| - i
  {
    if i == |v.items| then Ok("")
    else
      var x := v.items[i];
      var piece := if x.JNull? then Ok("") else ToJsString(x);
      match piece
      case Err(e) => Err(e)
      case Ok(p) =>
        if i + 1 == |v.items| then Ok(p)
        else
          match JoinItems(v, i + 1, sep)
          case Err(e) => Err(e)
          case Ok(tail) => Ok(p + sep + tail)
  }
}
