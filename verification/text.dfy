/** String helpers the client code relies on: `String.prototype.trim` and the
    decimal rendering of a number inside a template literal. */
module Text {

  /** The characters `String.prototype.trim` strips: ECMAScript WhiteSpace
      (tab, vertical tab, form feed, space, no-break space, byte-order mark and
      the Unicode space separators) and LineTerminator (LF, CR, LS, PS). */
  predicate IsSpace(c: char)
  {
    || c == '\t' || c == '\n' || c == '\U{000B}' || c == '\U{000C}' || c == '\r'
    || c == ' ' || c == '\U{00A0}' || c == '\U{1680}'
    || ('\U{2000}' <= c <= '\U{200A}')
    || c == '\U{2028}' || c == '\U{2029}' || c == '\U{202F}' || c == '\U{205F}'
    || c == '\U{3000}' || c == '\U{FEFF}'
  }

  predicate AllSpace(s: string)
  {
    forall k :: 0 <= k < |s| ==> IsSpace(s[k])
  }

  /** Number of whitespace characters at the start of `s`. */
  function LeadLen(s: string): (n: nat)
    ensures n <= |s|
    ensures forall k :: 0 <= k < n ==> IsSpace(s[k])
    ensures n < |s| ==> !IsSpace(s[n])
  {
    if s == [] || !IsSpace(s[0]) then 0 else 1 + LeadLen(s[1..])
  }

  /** Number of whitespace characters at the end of `s`. */
  function TrailLen(s: string): (n: nat)
    ensures n <= |s|
    ensures forall k :: |s| - n <= k < |s| ==> IsSpace(s[k])
    ensures n < |s| ==> !IsSpace(s[|s| - 1 - n])
  {
    if s == [] || !IsSpace(s[|s| - 1]) then 0 else 1 + TrailLen(s[..|s| - 1])
  }

  /** `s.trim()`: the infix of `s` left after removing leading and trailing
      whitespace. */
  function Trim(s: string): (r: string)
    ensures |r| <= |s|
    ensures LeadLen(s) + |r| <= |s| && r == s[LeadLen(s)..LeadLen(s) + |r|]
    ensures forall k :: LeadLen(s) + |r| <= k < |s| ==> IsSpace(s[k])
    ensures r == [] <==> AllSpace(s)
    ensures r != [] ==> !IsSpace(r[0]) && !IsSpace(r[|r| - 1])
  {
    var a := LeadLen(s);
    var rest := s[a..];
    var r := rest[..|rest| - TrailLen(rest)];
    assert forall k :: a + |r| <= k < |s| ==> s[k] == rest[k - a];
    r
  }

  /** A string with no whitespace at either end is its own trim. */
  lemma TrimOfTrimmed(s: string)
    requires s == [] || (!IsSpace(s[0]) && !IsSpace(s[|s| - 1]))
    ensures Trim(s) == s
  {
    if s != [] {
      assert LeadLen(s) == 0;
      assert TrailLen(s) == 0;
    }
  }

  /** Trimming twice is trimming once. */
  lemma TrimIdempotent(s: string)
    ensures Trim(Trim(s)) == Trim(s)
  {
    TrimOfTrimmed(Trim(s));
  }

  /** Whitespace added around a string is removed again by trim. */
  lemma TrimPadded(pre: string, s: string, post: string)
    requires AllSpace(pre) && AllSpace(post)
    requires s != [] && !IsSpace(s[0]) && !IsSpace(s[|s| - 1])
    ensures Trim(pre + s + post) == s
  {
    var t := pre + s + post;
    LeadOfPadded(pre, s + post);
    assert t == pre + (s + post);
    assert LeadLen(t) == |pre|;
    var rest := t[|pre|..];
    assert rest == s + post;
    TrailOfPadded(s, post);
    assert TrailLen(rest) == |post|;
    assert rest[..|rest| - |post|] == s;
  }

  lemma {:induction false} LeadOfPadded(pre: string, s: string)
    requires AllSpace(pre)
    requires s != [] && !IsSpace(s[0])
    ensures LeadLen(pre + s) == |pre|
    decreases |pre|
  {
    if pre == [] {
      assert pre + s == s;
    } else {
      assert (pre + s)[1..] == pre[1..] + s;
      LeadOfPadded(pre[1..], s);
    }
  }

  lemma {:induction false} TrailOfPadded(s: string, post: string)
    requires AllSpace(post)
    requires s != [] && !IsSpace(s[|s| - 1])
    ensures TrailLen(s + post) == |post|
    decreases |post|
  {
    if post == [] {
      assert s + post == s;
    } else {
      var t := s + post;
      assert t[..|t| - 1] == s + post[..|post| - 1];
      TrailOfPadded(s, post[..|post| - 1]);
    }
  }

  /** The decimal digits of a non-negative integer, as `${n}` renders it. */
  function NatToDecimal(n: nat): (r: string)
    ensures r != []
    ensures forall k :: 0 <= k < |r| ==> '0' <= r[k] <= '9'
    ensures |r| > 1 ==> r[0] != '0'
  {
    if n < 10 then [Digit(n)] else NatToDecimal(n / 10) + [Digit(n % 10)]
  }

  function Digit(d: nat): (c: char)
    requires d < 10
    ensures '0' <= c <= '9'
    ensures c as int == '0' as int + d
  {
    ['0', '1', '2', '3', '4', '5', '6', '7', '8', '9'][d]
  }

  /** The value of a string of decimal digits: the inverse of `NatToDecimal`. */
  function DecimalValue(s: string): nat
    requires forall k :: 0 <= k < |s| ==> '0' <= s[k] <= '9'
  {
    if s == [] then 0 else 10 * DecimalValue(s[..|s| - 1]) + (s[|s| - 1] as int - '0' as int)
  }

  lemma {:induction false} DecimalRoundTrip(n: nat)
    ensures DecimalValue(NatToDecimal(n)) == n
  {
    if n >= 10 {
      var r := NatToDecimal(n);
      assert r[..|r| - 1] == NatToDecimal(n / 10);
      DecimalRoundTrip(n / 10);
    }
  }
}
