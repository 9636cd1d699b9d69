/**
 * String helpers with JavaScript's behaviour: `String.prototype.split` and
 * `Array.prototype.join` with a one-character separator, `startsWith`, and
 * the decimal rendering of integers used in template strings.
 */
module Text {

  predicate StartsWith(s: string, prefix: string) {
    |prefix| <= |s| && s[..|prefix|] == prefix
  }

  /** `s.split(sep)`: the pieces between occurrences of `sep`; never empty. */
  function Split(s: string, sep: char): (parts: seq<string>)
    ensures |parts| >= 1
    ensures forall i :: 0 <= i < |parts| ==> sep !in parts[i]
  {
    if s == [] then [""]
    else if s[0] == sep then [""] + Split(s[1..], sep)
    else
      var rest := Split(s[1..], sep);
      [[s[0]] + rest[0]] + rest[1..]
  }

  /** `parts.join(sep)`. */
  function Join(parts: seq<string>, sep: char): string {
    if |parts| == 0 then ""
    else if |parts| == 1 then parts[0]
    else parts[0] + [sep] + Join(parts[1..], sep)
  }

  /** Joining a piece in front of at least one more adds the piece and a separator. */
  lemma JoinFront(p: string, rest: seq<string>, sep: char)
    requires |rest| >= 1
    ensures Join([p] + rest, sep) == p + [sep] + Join(rest, sep)
  {
    assert ([p] + rest)[1..] == rest;
  }

  /** Prefixing a character to the first piece prefixes it to the join. */
  lemma JoinPrefixFirst(c: char, parts: seq<string>, sep: char)
    requires |parts| >= 1
    ensures Join([[c] + parts[0]] + parts[1..], sep) == [c] + Join(parts, sep)
  {
    if |parts| > 1 {
      JoinFront([c] + parts[0], parts[1..], sep);
      JoinFront(parts[0], parts[1..], sep);
      assert [parts[0]] + parts[1..] == parts;
    }
  }

  /** Joining the pieces of a split gives the string back. */
  lemma {:induction false} JoinSplit(s: string, sep: char)
    ensures Join(Split(s, sep), sep) == s
  {
    if s == [] {
    } else if s[0] == sep {
      var rest := Split(s[1..], sep);
      JoinSplit(s[1..], sep);
      JoinFront("", rest, sep);
      assert s == [sep] + s[1..];
    } else {
      var rest := Split(s[1..], sep);
      JoinSplit(s[1..], sep);
      JoinPrefixFirst(s[0], rest, sep);
      assert s == [s[0]] + s[1..];
    }
  }

  /** Splitting a join gives the pieces back, when no piece holds the separator. */
  lemma {:induction false} SplitJoin(parts: seq<string>, sep: char)
    requires |parts| >= 1
    requires forall i :: 0 <= i < |parts| ==> sep !in parts[i]
    ensures Split(Join(parts, sep), sep) == parts
  {
    if |parts| == 1 {
      SplitPiece(parts[0], sep);
    } else {
      SplitJoin(parts[1..], sep);
      SplitAfterPiece(parts[0], sep, Join(parts[1..], sep));
    }
  }

  lemma {:induction false} SplitPiece(p: string, sep: char)
    requires sep !in p
    ensures Split(p, sep) == [p]
  {
    if p != [] {
      SplitPiece(p[1..], sep);
      assert p == [p[0]] + p[1..];
    }
  }

  lemma {:induction false} SplitAfterPiece(p: string, sep: char, tail: string)
    requires sep !in p
    ensures Split(p + [sep] + tail, sep) == [p] + Split(tail, sep)
  {
    if p == [] {
      assert p + [sep] + tail == [sep] + tail;
      assert ([sep] + tail)[1..] == tail;
    } else {
      SplitAfterPiece(p[1..], sep, tail);
      var s := p + [sep] + tail;
      assert s[0] == p[0];
      assert s[1..] == p[1..] + [sep] + tail;
      assert [p[0]] + p[1..] == p;
    }
  }

  predicate IsDigit(c: char) {
    '0' <= c <= '9'
  }

  predicate AllDigits(s: string) {
    forall i :: 0 <= i < |s| ==> IsDigit(s[i])
  }

  function DigitChar(d: nat): (c: char)
    requires d < 10
    ensures IsDigit(c)
  {
    (('0' as int) + d) as char
  }

  function DigitValue(c: char): (d: nat)
    requires IsDigit(c)
    ensures d < 10
  {
    (c as int) - ('0' as int)
  }

  /** The value of a string of decimal digits (the empty string reads as 0). */
  function DigitsValue(s: string): nat
    requires AllDigits(s)
  {
    if s == [] then 0 else DigitsValue(s[..|s| - 1]) * 10 + DigitValue(s[|s| - 1])
  }

  /** Decimal rendering of a natural number, as `${n}` prints it. */
  function NatToString(n: nat): (s: string)
    ensures |s| >= 1 && AllDigits(s)
  {
    if n < 10 then [DigitChar(n)] else NatToString(n / 10) + [DigitChar(n % 10)]
  }

  /** Decimal rendering of an integer, with a leading '-' when negative. */
  function IntToString(n: int): string {
    if n < 0 then "-" + NatToString(-n) else NatToString(n)
  }

  lemma {:induction false} NatToStringValue(n: nat)
    ensures DigitsValue(NatToString(n)) == n
  {
    var s := NatToString(n);
    if n >= 10 {
      NatToStringValue(n / 10);
      assert s[..|s| - 1] == NatToString(n / 10);
      assert DigitValue(s[|s| - 1]) == n % 10;
    }
  }
}

/**
 * JavaScript values as they reach the handlers: JSON request bodies, query
 * strings, and the numbers that `Number(x)` and unary `+x` make of them.
 * Only integers are modelled (see README, Left out).
 */
module Values {
  import opened Wrappers
  import opened Text

  /** A JavaScript number: an integer or NaN. */
  datatype JsNumber = Num(n: int) | NaN

  /** JavaScript truthiness of a number: neither 0 nor NaN. */
  predicate NumTruthy(x: JsNumber) {
    x.Num? && x.n != 0
  }

  /** `a * b`; NaN is contagious. */
  function Mul(a: JsNumber, b: JsNumber): (r: JsNumber)
    ensures r.Num? <==> a.Num? && b.Num?
  {
    if a.Num? && b.Num? then Num(a.n * b.n) else NaN
  }

  /** A JSON value in a request body. Arrays and objects are one opaque case. */
  datatype Json = JNull | JBool(b: bool) | JNum(n: int) | JStr(s: string) | JComposite

  /** A JSON object body: its keys and values. */
  type Body = map<string, Json>

  /** A parsed query string: `req.query`. */
  type Query = map<string, string>

  /** JavaScript truthiness of a JSON value. */
  predicate Truthy(v: Json) {
    match v
    case JNull => false
    case JBool(b) => b
    case JNum(n) => n != 0
    case JStr(s) => s != ""
    case JComposite => true
  }

  /** `body.key` taken as a truth value; an absent key is `undefined`, which is falsy. */
  predicate FieldTruthy(body: Body, key: string) {
    key in body && Truthy(body[key])
  }

  /** `req.query.key`: absent is `undefined`. */
  function Param(query: Query, key: string): (p: Option<string>)
    ensures p.Some? <==> key in query
    ensures p.Some? ==> p.value == query[key]
  {
    if key in query then Some(query[key]) else None
  }

  /** The string in `body.key` once validation has established it is one. */
  function StringIn(body: Body, key: string): string {
    if key in body && body[key].JStr? then body[key].s else ""
  }

  /** `query.key` taken as a truth value: present and not the empty string. */
  predicate ParamTruthy(p: Option<string>) {
    p.Some? && p.value != ""
  }

  /**
   * `Number(s)` for a string: the empty string is 0, an optionally negated
   * run of decimal digits is its value, anything else is NaN.
   */
  function StringToNumber(s: string): JsNumber {
    if s == "" then Num(0)
    else if AllDigits(s) then Num(DigitsValue(s))
    else if s[0] == '-' && |s| > 1 && AllDigits(s[1..]) then Num(0 - DigitsValue(s[1..]) as int)
    else NaN
  }

  /** `Number(req.query.x)`: an absent parameter is `undefined`, which is NaN. */
  function ParamToNumber(p: Option<string>): JsNumber {
    if p.None? then NaN else StringToNumber(p.value)
  }

  /** `+v` for a JSON value. */
  function JsonToNumber(v: Json): JsNumber {
    match v
    case JNull => Num(0)
    case JBool(b) => if b then Num(1) else Num(0)
    case JNum(n) => Num(n)
    case JStr(s) => StringToNumber(s)
    case JComposite => NaN
  }

  /** Reading back an integer printed in decimal gives the integer. */
  lemma StringToNumberOfIntToString(n: int)
    ensures StringToNumber(IntToString(n)) == Num(n)
  {
    if n < 0 {
      var s := IntToString(n);
      assert s[1..] == NatToString(-n);
      assert !IsDigit(s[0]);
      NatToStringValue(-n);
    } else {
      NatToStringValue(n);
    }
  }
}
