/**
 * Colombian-peso amounts as text: the server's `format_cop` template filter,
 * the browser's `formatCOP` and `parseCOP`, and the two rounding rules they
 * use (Python's `round`, half to even, and JavaScript's `Math.round`, half
 * up). Amounts are reals; the result of rounding is a whole number of pesos.
 */
module CopFormat {
  import opened Text
  import opened Common

  /** Python's built-in `round` on a number: nearest integer, ties to the even one. */
  function RoundHalfEven(x: real): (r: int)
    ensures x - 1.0 / 2.0 <= r as real <= x + 1.0 / 2.0
    ensures (r as real - x == 1.0 / 2.0 || x - r as real == 1.0 / 2.0) ==> r % 2 == 0
  {
    var f := x.Floor;
    var d := x - f as real;
    if d < 1.0 / 2.0 then f
    else if d > 1.0 / 2.0 then f + 1
    else if f % 2 == 0 then f
    else f + 1
  }

  /** JavaScript's `Math.round`: nearest integer, ties towards +infinity. */
  function JsRound(x: real): (r: int)
    ensures x - 1.0 / 2.0 < r as real <= x + 1.0 / 2.0
  {
    (x + 1.0 / 2.0).Floor
  }

  lemma RoundsFixIntegers(n: int)
    ensures RoundHalfEven(n as real) == n
    ensures JsRound(n as real) == n
  {
  }

  /** Digits grouped in threes from the right, separated by '.'. */
  function Group(s: string): (r: string)
    ensures |s| >= 1 ==> |r| == |s| + (|s| - 1) / 3
    decreases |s|
  {
    if |s| <= 3 then s else Group(s[..|s| - 3]) + "." + s[|s| - 3..]
  }

  /** A whole number with its digits grouped, the sign in front: `f"{n:,}".replace(',', '.')`. */
  function GroupedInt(n: int): (r: string)
  {
    (if n < 0 then "-" else "") + Group(NatToString(if n < 0 then -n else n))
  }

  /** What `float(value)` does with the filter's argument. */
  datatype FloatArg =
    | NoneArg            // the value is None
    | Converts(x: real)  // float(value) succeeds with x
    | Fails              // float(value) raises

  /** `format_cop` in app.py: "$" and the rounded amount grouped with '.', "$0" when there is none. */
  function FormatCop(value: FloatArg): (r: string)
    ensures |r| >= 2 && r[0] == '$'
    ensures value.NoneArg? || value.Fails? ==> r == "$0"
    ensures value.Converts? ==> r == "$" + GroupedInt(RoundHalfEven(value.x))
  {
    match value
    case NoneArg => "$0"
    case Fails => "$0"
    case Converts(x) => "$" + GroupedInt(RoundHalfEven(x))
  }

  /** `formatCOP` in utils.js; `amount` is None when it is falsy (0, NaN, null, undefined, ""). */
  function ClientFormatCop(amount: Option<real>): (r: string)
    ensures |r| >= 2 && r[0] == '$'
    ensures amount.None? ==> r == "$0"
  {
    "$" + GroupedInt(JsRound(if amount.Some? then amount.value else 0.0))
  }

  /** The longest run of decimal digits at the front of `s`. */
  function LeadingDigits(s: string): (r: string)
    ensures |r| <= |s| && r == s[..|r|]
    ensures forall i :: 0 <= i < |r| ==> IsDigit(r[i])
    ensures |r| < |s| ==> !IsDigit(s[|r|])
  {
    if s != [] && IsDigit(s[0]) then [s[0]] + LeadingDigits(s[1..]) else []
  }

  /**
   * JavaScript's `parseFloat` on text that holds no decimal point: leading
   * whitespace, an optional sign and the longest digit run; None is NaN.
   */
  function ParseLeadingInt(s: string): (r: Option<int>)
    ensures r.None? <==> LeadingDigits(Unsigned(TrimStart(s))) == []
  {
    var t := TrimStart(s);
    var digits := LeadingDigits(Unsigned(t));
    if digits == [] then None
    else if t[0] == '-' then Some(0 - DigitsValue(digits) as int)
    else Some(DigitsValue(digits))
  }

  /** The text after an optional leading sign. */
  function Unsigned(t: string): (r: string)
    ensures |r| <= |t|
  {
    if t != [] && (t[0] == '-' || t[0] == '+') then t[1..] else t
  }

  /** The characters `parseCOP` strips before parsing. */
  const Separators: set<char> := {'$', '.', ','}

  /** What `parseCOP` receives. */
  datatype JsArg = JsNumber(x: real) | JsString(s: string)

  /** `parseCOP` in utils.js. */
  function ParseCop(v: JsArg): (r: int)
    ensures v.JsNumber? ==> r == JsRound(v.x)
    ensures v.JsString? && ParseLeadingInt(Without(v.s, Separators)).None? ==> r == 0
  {
    match v
    case JsNumber(x) => JsRound(x)
    case JsString(s) =>
      match ParseLeadingInt(Without(s, Separators))
      case None => 0
      case Some(n) => JsRound(n as real)
  }

  /** No separator or sign survives in the grouping of a digit string other than '.'. */
  lemma {:induction false} GroupDropsOnlyDots(s: string)
    requires forall i :: 0 <= i < |s| ==> IsDigit(s[i])
    ensures Without(Group(s), Separators) == s
    decreases |s|
  {
    if |s| <= 3 {
      assert Group(s) == s;
      DigitsAreNotSeparators(s);
      WithoutNoneDropped(s, Separators);
    } else {
      var head, tail := s[..|s| - 3], s[|s| - 3..];
      GroupDropsOnlyDots(head);
      GroupDropsStep(head, tail);
      assert head + tail == s;
    }
  }

  lemma GroupDropsStep(head: string, tail: string)
    requires |head| >= 1 && |tail| == 3 && forall i :: 0 <= i < |tail| ==> IsDigit(tail[i])
    requires Without(Group(head), Separators) == head
    ensures Without(Group(head + tail), Separators) == head + tail
  {
    GroupAppend(head, tail);
    DropDotBetween(Group(head), head, tail);
  }

  /** Three more digits at the end add a '.' and those digits to the grouping. */
  lemma GroupAppend(head: string, tail: string)
    requires |head| >= 1 && |tail| == 3
    ensures Group(head + tail) == Group(head) + ("." + tail)
  {
    var s := head + tail;
    assert s[..|s| - 3] == head && s[|s| - 3..] == tail;
    assert (Group(head) + ".") + tail == Group(head) + ("." + tail);
  }

  /** Whatever text was before, a '.' and then digits contribute just the digits. */
  lemma DropDotBetween(g: string, head: string, tail: string)
    requires Without(g, Separators) == head
    requires forall i :: 0 <= i < |tail| ==> IsDigit(tail[i])
    ensures Without(g + ("." + tail), Separators) == head + tail
  {
    WithoutAppend(g, "." + tail, Separators);
    DotThenDigits(tail);
  }

  /** A '.' in front of digits is the only character dropped. */
  lemma DotThenDigits(tail: string)
    requires forall i :: 0 <= i < |tail| ==> IsDigit(tail[i])
    ensures Without("." + tail, Separators) == tail
  {
    var t := "." + tail;
    assert t[0] in Separators && t[1..] == tail;
    DigitsAreNotSeparators(tail);
    WithoutNoneDropped(tail, Separators);
  }

  lemma DigitsAreNotSeparators(s: string)
    requires forall i :: 0 <= i < |s| ==> IsDigit(s[i])
    ensures forall i :: 0 <= i < |s| ==> s[i] !in Separators
  {
  }

  /**
   * The grouping places a '.' exactly at every fourth character counted from
   * the right, so the leading group holds one to three digits and every later
   * group exactly three.
   */
  lemma GroupShape(s: string, j: nat)
    requires |s| >= 1 && forall i :: 0 <= i < |s| ==> IsDigit(s[i])
    requires j < |Group(s)|
    ensures Group(s)[|Group(s)| - 1 - j] == '.' <==> j % 4 == 3
  {
    GroupDots(s, j);
    FourthIsMod(j);
  }

  /** Every fourth position counted from zero at the right: 3, 7, 11, ... */
  predicate Fourth(j: nat) {
    if j < 4 then j == 3 else Fourth(j - 4)
  }

  lemma {:induction false} FourthIsMod(j: nat)
    ensures Fourth(j) <==> j % 4 == 3
  {
    if j >= 4 {
      FourthIsMod(j - 4);
    }
  }

  lemma {:induction false} GroupDots(s: string, j: nat)
    requires |s| >= 1 && forall i :: 0 <= i < |s| ==> IsDigit(s[i])
    requires j < |Group(s)|
    ensures Group(s)[|Group(s)| - 1 - j] == '.' <==> Fourth(j)
    decreases |s|
  {
    if |s| <= 3 {
      GroupShort(s, j);
    } else if j >= 4 {
      GroupBack(s, j);
      GroupDots(s[..|s| - 3], j - 4);
    } else {
      GroupTail(s, j);
    }
  }

  /** The grouping starts with a digit, never with a '.'. */
  lemma {:induction false} GroupFirst(s: string)
    requires |s| >= 1 && forall i :: 0 <= i < |s| ==> IsDigit(s[i])
    ensures IsDigit(Group(s)[0])
    decreases |s|
  {
    if |s| <= 3 {
      GroupShort(s, 0);
    } else {
      GroupFirst(s[..|s| - 3]);
      GroupStep(s);
    }
  }

  lemma GroupShort(s: string, j: nat)
    requires 1 <= |s| <= 3 && forall i :: 0 <= i < |s| ==> IsDigit(s[i])
    requires j < |Group(s)|
    ensures Group(s)[|Group(s)| - 1 - j] != '.' && IsDigit(Group(s)[0]) && j < 3
  {
    assert Group(s) == s;
    assert IsDigit(s[|s| - 1 - j]) && IsDigit(s[0]);
  }

  /** Below the fourth character from the right lie the last three digits, then the '.'. */
  lemma GroupTail(s: string, j: nat)
    requires |s| > 3 && forall i :: 0 <= i < |s| ==> IsDigit(s[i])
    requires j < 4
    ensures Group(s)[|Group(s)| - 1 - j] == '.' <==> j == 3
  {
    var g, t := Group(s[..|s| - 3]), Group(s);
    GroupStep(s);
    if j == 3 {
      assert |t| - 1 - j == |g|;
    } else {
      assert IsDigit(t[|t| - 1 - j]);
    }
  }

  /** From the fourth character from the right on, the grouping is that of the digits in front. */
  lemma GroupBack(s: string, j: nat)
    requires |s| > 3 && forall i :: 0 <= i < |s| ==> IsDigit(s[i])
    requires 4 <= j < |Group(s)|
    ensures var g := Group(s[..|s| - 3]);
      j - 4 < |g| && Group(s)[|Group(s)| - 1 - j] == g[|g| - 1 - (j - 4)]
  {
    GroupStep(s);
  }

  lemma GroupUnfold(s: string)
    requires |s| > 3
    ensures Group(s) == (Group(s[..|s| - 3]) + ".") + s[|s| - 3..]
  {
  }

  /** One step of the grouping: the digits in front grouped, then a '.', then the last three digits. */
  lemma GroupStep(s: string)
    requires |s| > 3 && forall i :: 0 <= i < |s| ==> IsDigit(s[i])
    ensures var g, t := Group(s[..|s| - 3]), Group(s);
      && |t| == |g| + 4 && t[|g|] == '.'
      && (forall k :: |g| < k < |t| ==> IsDigit(t[k]))
      && (forall k :: 0 <= k < |g| ==> t[k] == g[k])
  {
    var head, tail := s[..|s| - 3], s[|s| - 3..];
    var g := Group(head);
    var dotTail := "." + tail;
    assert Group(s) == g + dotTail;
    assert forall k :: 1 <= k < 4 ==> dotTail[k] == s[|s| - 4 + k];
  }

  /** Reading a signed digit string with `parseFloat` gives its value. */
  lemma ParseSignedDigits(n: int)
    ensures ParseLeadingInt((if n < 0 then "-" else "") + NatToString(if n < 0 then -n else n)) == Some(n)
  {
    var m: nat := if n < 0 then -n else n;
    var d := NatToString(m);
    DigitsValueOfNatToString(m);
    if n < 0 {
      ParseNegativeDigits(d);
    } else {
      assert "" + d == d;
      ParseDigits(d);
    }
  }

  lemma ParseDigits(d: string)
    requires d != [] && forall i :: 0 <= i < |d| ==> IsDigit(d[i])
    ensures ParseLeadingInt(d) == Some(DigitsValue(d))
  {
    var c := d[0];
    assert IsDigit(c);
    NoSignNoSpace(d);
    LeadingDigitsOfDigits(d);
  }

  lemma ParseNegativeDigits(d: string)
    requires d != [] && forall i :: 0 <= i < |d| ==> IsDigit(d[i])
    ensures ParseLeadingInt("-" + d) == Some(0 - DigitsValue(d))
  {
    var t := "-" + d;
    assert t[0] == '-' && t[1..] == d;
    NegativeNoSpace(t);
    LeadingDigitsOfDigits(d);
  }

  /** Text that starts with a digit is read as it is. */
  lemma NoSignNoSpace(t: string)
    requires t != [] && IsDigit(t[0])
    ensures TrimStart(t) == t && Unsigned(t) == t
  {
    var c := t[0];
    assert '0' <= c <= '9';
    assert !IsSpace(c) && c != '-' && c != '+';
  }

  /** Text that starts with '-' is trimmed to itself and read without its sign. */
  lemma NegativeNoSpace(t: string)
    requires t != [] && t[0] == '-'
    ensures TrimStart(t) == t && Unsigned(t) == t[1..]
  {
  }

  lemma {:induction false} LeadingDigitsOfDigits(d: string)
    requires forall i :: 0 <= i < |d| ==> IsDigit(d[i])
    ensures LeadingDigits(d) == d
    decreases |d|
  {
    if d != [] {
      LeadingDigitsOfDigits(d[1..]);
    }
  }

  /**
   * Round trip: the browser reads back exactly the whole number the server
   * printed, for every integer, negative ones included.
   */
  lemma RoundTrip(n: int)
    ensures ParseCop(JsString(FormatCop(Converts(n as real)))) == n
  {
    RoundsFixIntegers(n);
    var sign := if n < 0 then "-" else "";
    var d := NatToString(if n < 0 then -n else n);
    var out := FormatCop(Converts(n as real));
    assert out == "$" + (sign + Group(d));
    GroupDropsOnlyDots(d);
    assert Without(out, Separators) == Without(sign + Group(d), Separators);
    WithoutAppend(sign, Group(d), Separators);
    assert Without(sign, Separators) == sign;
    assert Without(out, Separators) == sign + d;
    ParseSignedDigits(n);
    RoundsFixIntegers(n);
  }

  /**
   * Every '$', '.' and ',' is discarded before the digits are read, so a
   * decimal comma is not understood: "$1.234,56" reads as 123456.
   */
  lemma {:induction false} SeparatorsAreIgnored(s: string)
    requires forall i :: 0 <= i < |s| ==> IsDigit(s[i]) || s[i] in Separators
    requires Without(s, Separators) != []
    ensures forall i :: 0 <= i < |Without(s, Separators)| ==> IsDigit(Without(s, Separators)[i])
    ensures ParseCop(JsString(s)) == DigitsValue(Without(s, Separators))
  {
    var d := Without(s, Separators);
    OnlyDigitsRemain(s);
    assert TrimStart(d) == d;
    assert Unsigned(d) == d;
    LeadingDigitsOfDigits(d);
  }

  lemma {:induction false} OnlyDigitsRemain(s: string)
    requires forall i :: 0 <= i < |s| ==> IsDigit(s[i]) || s[i] in Separators
    ensures forall i :: 0 <= i < |Without(s, Separators)| ==> IsDigit(Without(s, Separators)[i])
    decreases |s|
  {
    if s != [] {
      OnlyDigitsRemain(s[1..]);
    }
  }

  /** Server and browser format a whole amount alike; on a half they round differently. */
  lemma FormattersAgreeOnWholePesos(n: int)
    ensures ClientFormatCop(Some(n as real)) == FormatCop(Converts(n as real))
    ensures FormatCop(Converts(5.0 / 2.0)) == "$2" && ClientFormatCop(Some(5.0 / 2.0)) == "$3"
  {
    RoundsFixIntegers(n);
    assert RoundHalfEven(5.0 / 2.0) == 2;
    assert JsRound(5.0 / 2.0) == 3;
  }
}
