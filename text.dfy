/** The string operations behind JavaScript template literals and
    `toLowerCase`, restricted to what the client and the routes use. */
module Text {

  predicate IsDigit(c: char)
  {
    '0' <= c <= '9'
  }

  function DigitChar(d: int): (c: char)
    requires 0 <= d < 10
    ensures IsDigit(c)
  {
    (48 + d) as char
  }

  function DigitValue(c: char): (v: int)
    requires IsDigit(c)
    ensures 0 <= v < 10
  {
    c as int - 48
  }

  /** The decimal digits of `n`, without leading zeros. */
  function NatToString(n: nat): (s: string)
    ensures |s| > 0
    ensures forall k :: 0 <= k < |s| ==> IsDigit(s[k])
    decreases n
  {
    if n < 10 then [DigitChar(n)] else NatToString(n / 10) + [DigitChar(n % 10)]
  }

  /** Reads a string of decimal digits back as a number. */
  function ParseNat(s: string): nat
    requires forall k :: 0 <= k < |s| ==> IsDigit(s[k])
  {
    if s == [] then 0 else ParseNat(s[..|s| - 1]) * 10 + DigitValue(s[|s| - 1])
  }

  /** Reading the decimal rendering of a number gives the number back. */
  lemma {:induction false} ParseNatToString(n: nat)
    ensures ParseNat(NatToString(n)) == n
    decreases n
  {
    if n >= 10 {
      var s := NatToString(n);
      assert s[..|s| - 1] == NatToString(n / 10);
      ParseNatToString(n / 10);
    }
  }

  /** `${n}` for an integer n: a minus sign for negative numbers, then the digits. */
  function IntToString(n: int): string
  {
    if n < 0 then "-" + NatToString(-n) else NatToString(n)
  }

  /** The rendering starts with a minus sign exactly for negative numbers. */
  lemma IntToStringSign(n: int)
    ensures |IntToString(n)| > 0
    ensures IntToString(n)[0] == '-' <==> n < 0
    ensures n < 0 ==> IntToString(n)[1..] == NatToString(-n)
  {
    if n >= 0 {
      assert IsDigit(NatToString(n)[0]);
    }
  }

  /** Distinct numbers have distinct decimal renderings. */
  lemma IntToStringInjective(a: int, b: int)
    requires IntToString(a) == IntToString(b)
    ensures a == b
  {
    IntToStringSign(a);
    IntToStringSign(b);
    if a < 0 {
      ParseNatToString(-a);
      ParseNatToString(-b);
    } else {
      ParseNatToString(a);
      ParseNatToString(b);
    }
  }

  function ToLowerChar(c: char): char
  {
    if 'A' <= c <= 'Z' then (c as int + 32) as char else c
  }

  /** `toLowerCase` on ASCII letters; every other character is kept. */
  function ToLowerAscii(s: string): (r: string)
    ensures |r| == |s|
    ensures forall k :: 0 <= k < |s| ==> r[k] == ToLowerChar(s[k])
  {
    if s == [] then [] else [ToLowerChar(s[0])] + ToLowerAscii(s[1..])
  }

  /** The position of the last occurrence of `c` in `w`, or -1. */
  function LastIndexOf(w: string, c: char): int
  {
    if w == [] then -1
    else if w[|w| - 1] == c then |w| - 1
    else LastIndexOf(w[..|w| - 1], c)
  }

  lemma {:induction false} LastIndexAfterTail(x: string, y: string, c: char)
    requires c !in y
    ensures LastIndexOf(x + [c] + y, c) == |x|
    decreases |y|
  {
    var w := x + [c] + y;
    if y != [] {
      assert y[|y| - 1] in y;
      assert w[..|w| - 1] == x + [c] + y[..|y| - 1];
      LastIndexAfterTail(x, y[..|y| - 1], c);
    }
  }

  /** When a separator occurs in neither tail, two strings that end in
      "separator, tail" split the same way. */
  lemma SplitAtLast(x: string, y: string, x2: string, y2: string, c: char)
    requires c !in y && c !in y2
    requires x + [c] + y == x2 + [c] + y2
    ensures x == x2 && y == y2
  {
    var w := x + [c] + y;
    LastIndexAfterTail(x, y, c);
    LastIndexAfterTail(x2, y2, c);
    assert |x| == |x2|;
    assert x == w[..|x|] == x2;
    assert y == w[|x| + 1..] == y2;
  }

  /** The position of the first occurrence of `c` in `w`, or -1. */
  function FirstIndexOf(w: string, c: char): int
  {
    if w == [] then -1
    else if w[0] == c then 0
    else
      var k := FirstIndexOf(w[1..], c);
      if k < 0 then -1 else k + 1
  }

  lemma {:induction false} FirstIndexBeforeHead(x: string, y: string, c: char)
    requires c !in x
    ensures FirstIndexOf(x + [c] + y, c) == |x|
    decreases |x|
  {
    var w := x + [c] + y;
    if x != [] {
      assert x[0] in x;
      assert w[1..] == x[1..] + [c] + y;
      FirstIndexBeforeHead(x[1..], y, c);
    }
  }

  /** When a separator occurs in neither head, two strings that begin with
      "head, separator" split the same way. */
  lemma SplitAtFirst(x: string, y: string, x2: string, y2: string, c: char)
    requires c !in x && c !in x2
    requires x + [c] + y == x2 + [c] + y2
    ensures x == x2 && y == y2
  {
    var w := x + [c] + y;
    FirstIndexBeforeHead(x, y, c);
    FirstIndexBeforeHead(x2, y2, c);
    assert |x| == |x2|;
    assert x == w[..|x|] == x2;
    assert y == w[|x| + 1..] == y2;
  }
}
