/** Values that may be missing: a JavaScript `undefined`/`null` or a Redis nil reply. */
module Options {

  datatype Option<+T> = None | Some(value: T) {

    /** The value, or `default` when there is none. */
    function GetOr(default: T): T {
      match this
      case Some(v) => v
      case None => default
    }
  }
}

/**
 * The slice of JavaScript number semantics the API relies on. Every number the
 * pool stores is a non-negative integer, so a number is either such an integer
 * or NaN (what `parseInt` returns on text without leading digits).
 */
module JsNumber {

  datatype Num = Val(n: nat) | NaN

  /** JavaScript truthiness of a number: 0 and NaN are falsy. */
  predicate Truthy(x: Num) {
    x.Val? && x.n != 0
  }

  /** `x || 0` on a number. */
  function OrZero(x: Num): (r: nat)
    ensures Truthy(x) <==> r != 0
    ensures x.Val? ==> r == x.n
  {
    if Truthy(x) then x.n else 0
  }

  /** `a + b`: NaN is absorbing. */
  function Add(a: Num, b: Num): (r: Num)
    ensures r.Val? <==> a.Val? && b.Val?
    ensures r.Val? ==> r.n == a.n + b.n
  {
    match (a, b)
    case (Val(x), Val(y)) => Val(x + y)
    case _ => NaN
  }

  /**
   * `Math.round(v / w)` for naturals: the nearest integer to v/w, halves
   * rounded up, characterised as 2wr <= 2v + w < 2w(r + 1).
   */
  function RoundDiv(v: nat, w: nat): (r: nat)
    requires w > 0
    ensures 2 * w * r <= 2 * v + w < 2 * w * (r + 1)
  {
    var r := (2 * v + w) / (2 * w);
    assert 2 * v + w == 2 * w * r + (2 * v + w) % (2 * w);
    r
  }

  /** The rounding bound determines the result: no other natural satisfies it. */
  lemma RoundDivUnique(v: nat, w: nat, r: nat)
    requires w > 0
    requires 2 * w * r <= 2 * v + w < 2 * w * (r + 1)
    ensures r == RoundDiv(v, w)
  {
    var q := RoundDiv(v, w);
    MulMonotone(2 * w, r + 1, q);
    MulMonotone(2 * w, q + 1, r);
  }

  lemma MulMonotone(c: nat, a: nat, b: nat)
    ensures a <= b ==> c * a <= c * b
  {
    if a <= b {
      assert c * b == c * a + c * (b - a);
    }
  }

  /** A rate exactly divisible by the window is returned unrounded. */
  lemma RoundDivExact(q: nat, w: nat)
    requires w > 0
    ensures RoundDiv(q * w, w) == q
  {
    RoundDivUnique(q * w, w, q);
  }

  /** `Math.round(x / w)` on a number; NaN stays NaN. */
  function Round(x: Num, w: nat): (r: Num)
    requires w > 0
    ensures r.Val? <==> x.Val?
    ensures x.Val? ==> r.n == RoundDiv(x.n, w)
  {
    match x
    case Val(v) => Val(RoundDiv(v, w))
    case NaN => NaN
  }

  predicate IsDigit(c: char) {
    '0' <= c <= '9'
  }

  predicate AllDigits(s: string) {
    forall i :: 0 <= i < |s| ==> IsDigit(s[i])
  }

  function DigitValue(c: char): nat
    requires IsDigit(c)
  {
    c as nat - '0' as nat
  }

  function DigitChar(d: nat): (c: char)
    requires d < 10
    ensures IsDigit(c) && DigitValue(c) == d
  {
    ('0' as nat + d) as char
  }

  /** The value of a decimal numeral, most significant digit first. */
  function DigitsValue(s: string): nat
    requires AllDigits(s)
  {
    if |s| == 0 then 0 else DigitsValue(s[..|s| - 1]) * 10 + DigitValue(s[|s| - 1])
  }

  /** The longest prefix of `s` made of decimal digits. */
  function LeadingDigits(s: string): (p: string)
    ensures p <= s && AllDigits(p)
    ensures |p| < |s| ==> !IsDigit(s[|p|])
  {
    if |s| == 0 || !IsDigit(s[0]) then "" else [s[0]] + LeadingDigits(s[1..])
  }

  /**
   * `parseInt(s)` for text the pool writes: the value of the leading run of
   * decimal digits, NaN when there is none.
   */
  function ParseInt(s: string): (r: Num)
    ensures r.Val? <==> |s| > 0 && IsDigit(s[0])
  {
    var p := LeadingDigits(s);
    if |p| == 0 then NaN else Val(DigitsValue(p))
  }

  /** `String(n)` for a natural. */
  function DecimalText(n: nat): (s: string)
    ensures |s| > 0 && AllDigits(s)
  {
    if n < 10 then [DigitChar(n)] else DecimalText(n / 10) + [DigitChar(n % 10)]
  }

  lemma {:induction false} DecimalTextValue(n: nat)
    ensures DigitsValue(DecimalText(n)) == n
  {
    if n >= 10 {
      var s := DecimalText(n);
      assert s[..|s| - 1] == DecimalText(n / 10);
      DecimalTextValue(n / 10);
    }
  }

  lemma {:induction false} LeadingDigitsOfDigits(s: string, rest: string)
    requires AllDigits(s)
    requires |rest| > 0 ==> !IsDigit(rest[0])
    ensures LeadingDigits(s + rest) == s
  {
    if |s| > 0 {
      assert (s + rest)[1..] == s[1..] + rest;
      LeadingDigitsOfDigits(s[1..], rest);
    } else {
      assert s + rest == rest;
    }
  }

  /** parseInt reads back what String wrote, whatever non-digit text follows. */
  lemma ParseIntDecimalText(n: nat, rest: string)
    requires |rest| > 0 ==> !IsDigit(rest[0])
    ensures ParseInt(DecimalText(n) + rest) == Val(n)
  {
    LeadingDigitsOfDigits(DecimalText(n), rest);
    DecimalTextValue(n);
  }
}

/** The JavaScript string operations the API uses, on `seq<char>`. */
module JsString {
  import opened Options

  /** `s.indexOf(c)`: the first position of `c`, or -1. */
  function IndexOf(s: string, c: char): (i: int)
    ensures -1 <= i < |s|
    ensures 0 <= i ==> s[i] == c && c !in s[..i]
    ensures i < 0 <==> c !in s
  {
    if |s| == 0 then -1
    else if s[0] == c then 0
    else
      var j := IndexOf(s[1..], c);
      if j < 0 then -1
      else
        assert s[1..][..j] == s[1..j + 1];
        j + 1
  }

  /** `parts.join(c)`: an empty list joins to the empty string. */
  function Join(parts: seq<string>, c: char): string
  {
    if |parts| == 0 then ""
    else if |parts| == 1 then parts[0]
    else parts[0] + [c] + Join(parts[1..], c)
  }

  /** `s.split(c)`: never empty, no part contains `c`, and joining restores `s`. */
  function Split(s: string, c: char): (parts: seq<string>)
    ensures |parts| >= 1
    ensures forall i :: 0 <= i < |parts| ==> c !in parts[i]
    ensures Join(parts, c) == s
    decreases |s|
  {
    var i := IndexOf(s, c);
    if i < 0 then [s]
    else
      var rest := Split(s[i + 1..], c);
      var parts := [s[..i]] + rest;
      assert parts[1..] == rest;
      assert s == s[..i] + [c] + s[i + 1..];
      parts
  }

  lemma {:induction false} IndexOfAfterFree(a: string, c: char, b: string)
    requires c !in a
    ensures IndexOf(a + [c] + b, c) == |a|
  {
    if |a| > 0 {
      assert (a + [c] + b)[1..] == a[1..] + [c] + b;
      IndexOfAfterFree(a[1..], c, b);
    }
  }

  /** Splitting a join of separator-free parts gives the parts back. */
  lemma {:induction false} SplitJoin(parts: seq<string>, c: char)
    requires |parts| >= 1
    requires forall i :: 0 <= i < |parts| ==> c !in parts[i]
    ensures Split(Join(parts, c), c) == parts
  {
    if |parts| == 1 {
    } else {
      var s := Join(parts, c);
      var tail := Join(parts[1..], c);
      assert s == parts[0] + [c] + tail;
      IndexOfAfterFree(parts[0], c, tail);
      assert s[..|parts[0]|] == parts[0];
      assert s[|parts[0]| + 1..] == tail;
      SplitJoin(parts[1..], c);
    }
  }

  /** `parts[i]`, undefined past the end. */
  function Field(parts: seq<string>, i: nat): (r: Option<string>)
    ensures r.Some? <==> i < |parts|
    ensures r.Some? ==> r.value == parts[i]
  {
    if i < |parts| then Some(parts[i]) else None
  }

  /** A JavaScript string used as a condition: only the empty string is falsy. */
  predicate TruthyText(s: Option<string>) {
    s.Some? && s.value != ""
  }

  /** The characters `String.prototype.trim` strips (WhiteSpace and LineTerminator). */
  predicate IsSpace(c: char) {
    || c == ' ' || c == '\t' || c == '\n' || c == '\r'
    || c == '\U{000B}' || c == '\U{000C}' || c == '\U{00A0}' || c == '\U{FEFF}'
    || c == '\U{1680}' || ('\U{2000}' <= c <= '\U{200A}')
    || c == '\U{2028}' || c == '\U{2029}' || c == '\U{202F}' || c == '\U{205F}' || c == '\U{3000}'
  }

  function TrimStart(s: string): (r: string)
    ensures |r| <= |s| && r == s[|s| - |r|..]
    ensures forall i :: 0 <= i < |s| - |r| ==> IsSpace(s[i])
    ensures |r| > 0 ==> !IsSpace(r[0])
  {
    if |s| > 0 && IsSpace(s[0]) then TrimStart(s[1..]) else s
  }

  function TrimEnd(s: string): (r: string)
    ensures |r| <= |s| && r == s[..|r|]
    ensures forall i :: |r| <= i < |s| ==> IsSpace(s[i])
    ensures |r| > 0 ==> !IsSpace(r[|r| - 1])
  {
    if |s| > 0 && IsSpace(s[|s| - 1]) then TrimEnd(s[..|s| - 1]) else s
  }

  /** `s.trim()`: the slice of `s` between its leading and its trailing white space. */
  function Trim(s: string): (r: string)
    ensures |r| <= |TrimStart(s)| && r == TrimStart(s)[..|r|]
    ensures forall k :: |r| <= k < |TrimStart(s)| ==> IsSpace(TrimStart(s)[k])
    ensures |r| > 0 ==> !IsSpace(r[0]) && !IsSpace(r[|r| - 1])
  {
    var t := TrimStart(s);
    var r := TrimEnd(t);
    r
  }

  /** `s.substring(from)` with JavaScript's clamping of the index. */
  function SubstringFrom(s: string, from: int): (r: string)
    ensures from <= 0 ==> r == s
    ensures 0 <= from <= |s| ==> r == s[from..]
    ensures from >= |s| ==> r == ""
  {
    if from <= 0 then s else if from >= |s| then "" else s[from..]
  }

  /** `s.substring(0, to)` with JavaScript's clamping of the index. */
  function SubstringTo(s: string, to: int): (r: string)
    ensures to <= 0 ==> r == ""
    ensures 0 <= to <= |s| ==> r == s[..to]
    ensures to >= |s| ==> r == s
  {
    if to <= 0 then "" else if to >= |s| then s else s[..to]
  }
}
