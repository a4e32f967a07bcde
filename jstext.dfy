/**
 * The few JavaScript string operations the page builder relies on:
 * `String.prototype.trim`, `String.prototype.lastIndexOf`,
 * `String.prototype.substring` with one argument, and the conversion of an
 * integer to its decimal text inside a template literal.
 */
module JsText {

  /** The WhiteSpace and LineTerminator code points of ECMAScript, which `trim` strips. */
  predicate IsJsSpace(c: char) {
    || c == '\t' || c == '\n' || c == '\U{000B}' || c == '\U{000C}' || c == '\r'
    || c == ' ' || c == '\U{00A0}' || c == '\U{1680}'
    || ('\U{2000}' <= c <= '\U{200A}')
    || c == '\U{2028}' || c == '\U{2029}' || c == '\U{202F}' || c == '\U{205F}'
    || c == '\U{3000}' || c == '\U{FEFF}'
  }

  /** `s` with its leading white space removed. */
  function TrimStart(s: string): string {
    if s != [] && IsJsSpace(s[0]) then TrimStart(s[1..]) else s
  }

  /** What `TrimStart` removes is white space, and what it keeps does not start with white space. */
  lemma {:induction false} TrimStartSpec(s: string)
    ensures var r := TrimStart(s);
      && |r| <= |s| && r == s[|s| - |r|..]
      && (r == [] || !IsJsSpace(r[0]))
      && forall k :: 0 <= k < |s| - |r| ==> IsJsSpace(s[k])
  {
    if s != [] && IsJsSpace(s[0]) {
      TrimStartSpec(s[1..]);
      var r := TrimStart(s);
      forall k | 0 <= k < |s| - |r|
        ensures IsJsSpace(s[k])
      {
        if k > 0 {
          assert s[k] == s[1..][k - 1];
        }
      }
    }
  }

  /** `s` with its trailing white space removed. */
  function TrimEnd(s: string): string {
    if s != [] && IsJsSpace(s[|s| - 1]) then TrimEnd(s[..|s| - 1]) else s
  }

  /** What `TrimEnd` removes is white space, and what it keeps does not end with white space. */
  lemma {:induction false} TrimEndSpec(s: string)
    ensures var r := TrimEnd(s);
      && |r| <= |s| && r == s[..|r|]
      && (r == [] || !IsJsSpace(r[|r| - 1]))
      && forall k :: |r| <= k < |s| ==> IsJsSpace(s[k])
  {
    if s != [] && IsJsSpace(s[|s| - 1]) {
      TrimEndSpec(s[..|s| - 1]);
      var r := TrimEnd(s);
      forall k | |r| <= k < |s|
        ensures IsJsSpace(s[k])
      {
        if k < |s| - 1 {
          assert s[k] == s[..|s| - 1][k];
        }
      }
    }
  }

  /**
   * `r` is `s` less `i` characters of white space at the front and some
   * white space at the back.
   */
  predicate TrimmedAt(s: string, r: string, i: int) {
    && 0 <= i <= |s| - |r|
    && r == s[i..i + |r|]
    && (forall k :: 0 <= k < i ==> IsJsSpace(s[k]))
    && (forall k :: i + |r| <= k < |s| ==> IsJsSpace(s[k]))
  }

  /** `String.prototype.trim`: white space removed from both ends. */
  function Trim(s: string): string {
    TrimEnd(TrimStart(s))
  }

  /**
   * The trimmed text neither starts nor ends with white space, and it is
   * what remains of `s` once white space is cut from both ends.
   */
  lemma TrimSpec(s: string)
    ensures var r := Trim(s);
      && (r == [] || (!IsJsSpace(r[0]) && !IsJsSpace(r[|r| - 1])))
      && exists i :: TrimmedAt(s, r, i)
  {
    var t := TrimStart(s);
    var r := TrimEnd(t);
    TrimStartSpec(s);
    TrimEndSpec(t);
    TrimmedAtWitness(s, t, r);
  }

  lemma TrimmedAtWitness(s: string, t: string, r: string)
    requires |t| <= |s| && t == s[|s| - |t|..]
    requires forall k :: 0 <= k < |s| - |t| ==> IsJsSpace(s[k])
    requires |r| <= |t| && r == t[..|r|]
    requires forall k :: |r| <= k < |t| ==> IsJsSpace(t[k])
    ensures TrimmedAt(s, r, |s| - |t|)
  {
    var i := |s| - |t|;
    forall k | i + |r| <= k < |s|
      ensures IsJsSpace(s[k])
    {
      assert s[k] == t[k - i];
    }
  }

  /** A string that neither starts nor ends with white space. */
  predicate Tidy(s: string) {
    s == [] || (!IsJsSpace(s[0]) && !IsJsSpace(s[|s| - 1]))
  }

  /** Trimming a tidy string changes nothing, and trimming twice is trimming once. */
  lemma TrimTidy(s: string)
    ensures Tidy(s) <==> Trim(s) == s
    ensures Trim(Trim(s)) == Trim(s)
  {
    TrimSpec(s);
    var r := Trim(s);
    if Tidy(r) {
      assert TrimStart(r) == r;
      assert TrimEnd(r) == r;
    }
  }

  /** A tidy string joined to an empty one by the single space loses the space. */
  lemma TrimJoin(a: string, b: string)
    requires Tidy(a) && Tidy(b)
    ensures a == [] && b == [] ==> Trim(a + " " + b) == ""
    ensures a != [] && b == [] ==> Trim(a + " " + b) == a
    ensures a == [] && b != [] ==> Trim(a + " " + b) == b
    ensures a != [] && b != [] ==> Trim(a + " " + b) == a + " " + b
  {
    var s := a + " " + b;
    if a == [] && b != [] {
      assert s[1..] == b;
      assert TrimStart(s) == TrimStart(b);
    } else if a != [] && b == [] {
      assert s[..|s| - 1] == a;
      assert TrimEnd(s) == TrimEnd(a);
    }
  }

  /**
   * `s.lastIndexOf(c)`: the position of the last occurrence of `c`, or -1
   * when `c` does not occur.
   */
  function LastIndexOf(s: string, c: char): int {
    if s == [] then -1
    else if s[|s| - 1] == c then |s| - 1
    else LastIndexOf(s[..|s| - 1], c)
  }

  /** The index found holds `c` and no later one does; -1 means `c` does not occur at all. */
  lemma {:induction false} LastIndexOfSpec(s: string, c: char)
    ensures var r := LastIndexOf(s, c);
      && -1 <= r < |s|
      && (r >= 0 ==> s[r] == c)
      && forall k :: r < k < |s| ==> s[k] != c
  {
    if s != [] && s[|s| - 1] != c {
      var p := s[..|s| - 1];
      LastIndexOfSpec(p, c);
      forall k | LastIndexOf(s, c) < k < |s| - 1
        ensures s[k] != c
      {
        assert s[k] == p[k];
      }
    }
  }

  /** `s.substring(start)`: the start is clamped into `[0, |s|]` first. */
  function Substring(s: string, start: int): (r: string)
    ensures start <= 0 ==> r == s
    ensures 0 <= start <= |s| ==> r == s[start..]
    ensures |s| <= start ==> r == ""
  {
    var from := if start < 0 then 0 else if start > |s| then |s| else start;
    s[from..]
  }

  predicate IsDigit(c: char) {
    '0' <= c <= '9'
  }

  function DigitChar(d: nat): (c: char)
    requires d < 10
    ensures IsDigit(c) && c as int - '0' as int == d
  {
    "0123456789"[d]
  }

  /** The decimal text of a natural number, without leading zeros. */
  function NatToString(n: nat): (r: string)
    ensures r != [] && AllDigits(r)
    ensures |r| > 1 ==> r[0] != '0'
    decreases n
  {
    if n < 10 then [DigitChar(n)] else NatToString(n / 10) + [DigitChar(n % 10)]
  }

  /** The number a string of decimal digits denotes. */
  predicate AllDigits(s: string) {
    forall k :: 0 <= k < |s| ==> IsDigit(s[k])
  }

  function DecimalValue(s: string): nat
    requires AllDigits(s)
  {
    if s == [] then 0
    else
      var last := s[|s| - 1];
      assert IsDigit(last);
      DecimalValue(s[..|s| - 1]) * 10 + (last as int - '0' as int)
  }

  lemma {:induction false} NatToStringRoundTrip(n: nat)
    ensures DecimalValue(NatToString(n)) == n
    decreases n
  {
    if n >= 10 {
      var s := NatToString(n);
      assert s[..|s| - 1] == NatToString(n / 10);
      NatToStringRoundTrip(n / 10);
    }
  }

  /**
   * `${i}` for an integer `i` of magnitude below 10^21, where JavaScript
   * prints every digit: a minus sign, then the digits of its magnitude.
   */
  function IntToString(i: int): string {
    if i < 0 then "-" + NatToString(-i) else NatToString(i)
  }

  /** Reads back the text `IntToString` writes. */
  function IntValue(s: string): int
    requires s != [] && s[0] == '-' ==> AllDigits(s[1..])
    requires s == [] || s[0] != '-' ==> AllDigits(s)
  {
    if s != [] && s[0] == '-' then -(DecimalValue(s[1..]) as int) else DecimalValue(s)
  }

  /** The text starts with a minus sign exactly for a negative number, and reads back as it. */
  lemma IntToStringRoundTrip(i: int)
    ensures var s := IntToString(i); s != [] && (i < 0 <==> s[0] == '-') && IntValue(s) == i
  {
    if i < 0 {
      NegativeRoundTrip(-i);
    } else {
      var d := NatToString(i);
      assert IsDigit(d[0]);
      NatToStringRoundTrip(i);
    }
  }

  lemma NegativeRoundTrip(n: nat)
    requires n > 0
    ensures var s := "-" + NatToString(n); s[1..] == NatToString(n) && IntValue(s) == -(n as int)
  {
    var d := NatToString(n);
    var s := "-" + d;
    assert s[1..] == d;
    NatToStringRoundTrip(n);
  }

}
