/**
 * The part of Jackson's tree model the services navigate. A JSON document is a
 * `Json` value; a `Node` is what `path(..)` returns, where `None` is Jackson's
 * MissingNode. Numbers are integers (the services never read a fractional one).
 */
module JsonTree {
  import opened Common
  import opened Text

  datatype Json =
    | JNull
    | JBool(b: bool)
    | JNum(n: int)
    | JStr(s: string)
    | JArr(items: seq<Json>)
    | JObj(fields: map<string, Json>)

  type Node = Option<Json>

  /** `node.path(key)`: only an object has fields; anything else gives a missing node. */
  function Path(n: Node, key: string): (r: Node)
    ensures r.Some? ==> n.Some? && n.value.JObj? && key in n.value.fields && r.value == n.value.fields[key]
  {
    if n.Some? && n.value.JObj? && key in n.value.fields then Some(n.value.fields[key]) else None
  }

  /** `node.get(0)`: the first element of a non-empty array, Java `null` for anything else. */
  function First(n: Node): (r: Option<Json>)
    ensures r.Some? <==> n.Some? && n.value.JArr? && n.value.items != []
  {
    if n.Some? && n.value.JArr? && n.value.items != [] then Some(n.value.items[0]) else None
  }

  /** `node.asText()`: missing and container nodes give "", JSON null gives "null". */
  function AsText(n: Node): string
  {
    match n
    case None => ""
    case Some(JNull) => "null"
    case Some(JBool(b)) => if b then "true" else "false"
    case Some(JNum(k)) => IntToString(k)
    case Some(JStr(s)) => s
    case Some(JArr(_)) => ""
    case Some(JObj(_)) => ""
  }

  /** `node.asText(null)`: missing nodes and JSON null give Java `null`. */
  function AsTextOrNull(n: Node): (r: Option<string>)
    ensures r.None? <==> n.None? || n.value.JNull?
    ensures r.Some? ==> r.value == AsText(n)
  {
    if n.None? || n.value.JNull? then None else Some(AsText(n))
  }

  /** `node.asBoolean(false)`. */
  predicate AsBoolean(n: Node)
  {
    match n
    case Some(JBool(b)) => b
    case Some(JNum(k)) => k != 0
    case Some(JStr(s)) => Trim(s) == "true"
    case _ => false
  }

  const TwoTo32: int := 0x1_0000_0000
  const IntMin: int := -0x8000_0000
  const IntMax: int := 0x7FFF_FFFF

  /** A Java `(int)` narrowing: the low 32 bits read as two's complement. */
  function ToInt32(k: int): (r: int)
    ensures IntMin <= r <= IntMax
    ensures IntMin <= k <= IntMax ==> r == k
  {
    (k - IntMin) % TwoTo32 + IntMin
  }

  /** `node.asInt()`: numbers narrowed to 32 bits, booleans as 1/0, text read by `ParseAsInt`, anything else 0. */
  function AsInt(n: Node): int
  {
    match n
    case Some(JNum(k)) => ToInt32(k)
    case Some(JBool(b)) => if b then 1 else 0
    case Some(JStr(s)) => ParseAsInt(s)
    case _ => 0
  }

  // ---------------------------------------------------------------------------
  // Reading a number out of text

  /** `s` without a leading sign character. */
  function Unsigned(s: string): (r: string)
    ensures |r| <= |s|
  {
    if s != [] && (s[0] == '-' || s[0] == '+') then s[1..] else s
  }

  /** `Integer.parseInt`: an optional sign and at least one digit, within `int`; anything else throws (`None`). */
  function ParseInt(s: string): (r: Option<int>)
    ensures r.Some? ==> IntMin <= r.value <= IntMax
  {
    var d := Unsigned(s);
    if d == [] || !AllDigits(d) then None
    else
      var value: int := DigitsValue(d);
      var v := if s[0] == '-' then -value else value;
      if IntMin <= v <= IntMax then Some(v) else None
  }

  /** The text before the first '.'. */
  function WholePart(s: string): (r: string)
    ensures |r| <= |s|
  {
    if s == [] || s[0] == '.' then [] else [s[0]] + WholePart(s[1..])
  }

  /** The text after the first '.', empty when there is none. */
  function FractionPart(s: string): (r: string)
    ensures |r| <= |s|
  {
    if s == [] then [] else if s[0] == '.' then s[1..] else FractionPart(s[1..])
  }

  /**
   * The plain decimals among the texts `Double.parseDouble` accepts: an optional sign,
   * digits, and optionally a point followed by digits, with at least one digit in all.
   */
  predicate IsPlainDecimal(s: string)
  {
    IsUnsignedDecimal(Unsigned(s))
  }

  /** Digits, and optionally a point followed by digits, with at least one digit in all. */
  predicate IsUnsignedDecimal(body: string)
  {
    AllDigits(WholePart(body)) && AllDigits(FractionPart(body)) && |WholePart(body)| + |FractionPart(body)| > 0
  }

  /** The value of the digits before the point. */
  function WholeValue(body: string): nat
    requires IsUnsignedDecimal(body)
  {
    DigitsValue(WholePart(body))
  }

  /** Java's `(int)` cast of a double that holds an integer: values beyond `int` saturate. */
  function Saturate(v: int): (r: int)
    ensures IntMin <= r <= IntMax
    ensures IntMin <= v <= IntMax ==> r == v
    ensures v < IntMin ==> r == IntMin
    ensures IntMax < v ==> r == IntMax
  {
    if v < IntMin then IntMin else if IntMax < v then IntMax else v
  }

  /** `(int) Double.parseDouble(s)` of a plain decimal: the fraction dropped (toward zero), then saturated. */
  function TruncatedDecimal(s: string): int
    requires IsPlainDecimal(s)
  {
    var whole: int := WholeValue(Unsigned(s));
    Saturate(if s[0] == '-' then -whole else whole)
  }

  /**
   * The number in `u`, where `checked` is `u` after a leading '-': `Integer.parseInt(u)`
   * when `checked` is all digits (0 when that throws), otherwise `Double.parseDouble(u)`
   * cast to `int` (0 when that throws).
   */
  function ReadNumber(u: string, checked: string): (r: int)
    ensures IntMin <= r <= IntMax
  {
    if AllDigits(checked) then
      match ParseInt(u)
      case Some(v) => v
      case None => 0
    else if IsPlainDecimal(u) then TruncatedDecimal(u)
    else 0
  }

  /**
   * Jackson's `NumberInput.parseAsInt(s, 0)`, which `asInt()` applies to a text node: the
   * text is trimmed and a leading '+' removed, then read by `ReadNumber`.
   */
  function ParseAsInt(s: string): (r: int)
    ensures IntMin <= r <= IntMax
  {
    var t := Trim(s);
    if t == [] then 0
    else if t[0] == '+' then ReadNumber(t[1..], t[1..])
    else if t[0] == '-' then ReadNumber(t, t[1..])
    else ReadNumber(t, t)
  }

  /** A trimmed text without a sign is read whole. */
  lemma ParseAsIntPlain(t: string)
    requires IsTrimmed(t) && t != [] && t[0] != '+' && t[0] != '-'
    ensures ParseAsInt(t) == ReadNumber(t, t)
  {
  }

  /** A trimmed text starting with '-' is read whole, with the digit check after the sign. */
  lemma ParseAsIntMinus(t: string)
    requires IsTrimmed(t) && t != [] && t[0] == '-'
    ensures ParseAsInt(t) == ReadNumber(t, t[1..])
  {
  }

  /** Surrounding white space is ignored. */
  lemma ParseAsIntTrims(s: string)
    ensures ParseAsInt(s) == ParseAsInt(Trim(s))
  {
  }

  /** What `asText()` prints for an `int` reads back as that `int`. */
  lemma ParseAsIntOfPrinted(k: int)
    requires IntMin <= k <= IntMax
    ensures ParseAsInt(IntToString(k)) == k
  {
    var m: nat := if k < 0 then -k else k;
    var d := NatToString(m);
    NatToStringValue(m);
    var t := IntToString(k);
    assert t[|t| - 1] == d[|d| - 1];
    if k < 0 {
      assert t[1..] == d && Unsigned(t) == d;
      ParseAsIntMinus(t);
    } else {
      assert Unsigned(t) == d;
      ParseAsIntPlain(t);
    }
  }

  /** A leading '+' is dropped: it changes nothing about the number read. */
  lemma PlusSignIgnored(s: string)
    requires IsTrimmed(s) && s != [] && s[0] != '+' && s[0] != '-'
    ensures ParseAsInt("+" + s) == ParseAsInt(s)
  {
    var t := "+" + s;
    assert IsTrimmed(t) && t[1..] == s;
  }

  lemma {:induction false} PartsAroundPoint(w: string, f: string)
    requires AllDigits(w)
    ensures WholePart(w + "." + f) == w
    ensures FractionPart(w + "." + f) == f
  {
    if w != [] {
      assert (w + "." + f)[1..] == w[1..] + "." + f;
      PartsAroundPoint(w[1..], f);
    }
  }

  /** "w.f" is a trimmed, unsigned decimal whose whole part is `w`, and not a digit string. */
  lemma PointedDecimal(w: string, f: string)
    requires AllDigits(w) && AllDigits(f) && w != [] && f != []
    ensures var p := w + "." + f;
      && IsTrimmed(p) && p[0] != '+' && p[0] != '-' && Unsigned(p) == p
      && !AllDigits(p)
      && IsUnsignedDecimal(p) && WholeValue(p) == DigitsValue(w)
  {
    var p := w + "." + f;
    PartsAroundPoint(w, f);
    assert p[|w|] == '.';
    assert p[0] == w[0] && p[|p| - 1] == f[|f| - 1];
  }

  /** A decimal fraction is cut off: "12.9" reads as 12. */
  lemma FractionDropped(w: string, f: string)
    requires AllDigits(w) && AllDigits(f) && w != [] && f != []
    requires DigitsValue(w) <= IntMax
    ensures ParseAsInt(w + "." + f) == DigitsValue(w)
  {
    PointedDecimal(w, f);
    ParseAsIntPlain(w + "." + f);
  }

  /** A minus sign before an unsigned decimal that is not a digit string negates the number read. */
  lemma NegatedDecimal(p: string)
    requires IsTrimmed(p) && p != [] && p[0] != '+' && p[0] != '-' && Unsigned(p) == p
    requires !AllDigits(p) && IsUnsignedDecimal(p)
    ensures ParseAsInt("-" + p) == Saturate(-(WholeValue(p) as int))
  {
    var n := "-" + p;
    assert n[1..] == p && n[|n| - 1] == p[|p| - 1];
    assert Unsigned(n) == p;
    ParseAsIntMinus(n);
  }

  /** A negative decimal is cut off toward zero: "-12.9" reads as -12. */
  lemma NegativeFractionDropped(w: string, f: string)
    requires AllDigits(w) && AllDigits(f) && w != [] && f != []
    requires DigitsValue(w) <= IntMax
    ensures ParseAsInt("-" + (w + "." + f)) == -(DigitsValue(w) as int)
  {
    PointedDecimal(w, f);
    NegatedDecimal(w + "." + f);
  }

  /**
   * Digits beyond `int` make `Integer.parseInt` throw and read as 0, while the same
   * digits with a fraction go through the double and saturate.
   */
  lemma TooLargeDigits(w: string, f: string)
    requires AllDigits(w) && AllDigits(f) && w != [] && f != []
    requires IntMax < DigitsValue(w)
    ensures ParseAsInt(w) == 0
    ensures ParseAsInt(w + "." + f) == IntMax
  {
    PointedDecimal(w, f);
    ParseAsIntPlain(w + "." + f);
    assert IsTrimmed(w) && Unsigned(w) == w;
    ParseAsIntPlain(w);
  }

  lemma SingleDigit(c: char)
    requires IsDigit(c)
    ensures DigitsValue([c]) == DigitValue(c)
    ensures IsTrimmed([c]) && Unsigned([c]) == [c]
  {
    assert [c][..0] == [];
  }

  /** A digit after a minus sign reads negated: "-3" is -3. */
  lemma MinusDigit(c: char)
    requires IsDigit(c)
    ensures ParseAsInt(['-', c]) == -(DigitValue(c) as int)
  {
    var minus := ['-', c];
    SingleDigit(c);
    assert minus[1..] == [c] && Unsigned(minus) == [c];
    ParseAsIntMinus(minus);
  }

  /** A digit after a plus sign reads as itself: "+7" is 7. */
  lemma PlusDigit(c: char)
    requires IsDigit(c)
    ensures ParseAsInt(['+', c]) == DigitValue(c)
  {
    SingleDigit(c);
    ParseAsIntPlain([c]);
    assert ['+', c] == "+" + [c];
    PlusSignIgnored([c]);
  }

  /** OAuth2 user attributes: the user-info JSON object of the identity provider. */
  type Attributes = map<string, Json>

  /** `oauthUser.getAttribute(key)` read as a String; absent or non-text attributes give `null`. */
  function StringAttribute(attrs: Attributes, key: string): (r: Option<string>)
    ensures r.Some? <==> key in attrs && attrs[key].JStr?
  {
    if key in attrs && attrs[key].JStr? then Some(attrs[key].s) else None
  }
}
