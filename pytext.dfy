/** The few Python string builtins the providers rely on: `str.strip()`,
    `str.join()` and `str(int)`. */
module PyText {
  import opened Wrappers

  /** Python's `str.isspace()` for one character (the Unicode whitespace set
      that `str.strip()` removes). */
  predicate IsSpace(c: char) {
    c == ' ' || c == '\t' || c == '\n' || c == '\r' || c == '\U{B}' || c == '\U{C}'
    || ('\U{1C}' <= c <= '\U{1F}') || c == '\U{85}' || c == '\U{A0}' || c == '\U{1680}'
    || ('\U{2000}' <= c <= '\U{200A}') || c == '\U{2028}' || c == '\U{2029}'
    || c == '\U{202F}' || c == '\U{205F}' || c == '\U{3000}'
  }

  /** How many leading elements of `s` satisfy `p`. */
  function LeadLen<T>(s: seq<T>, p: T -> bool): (n: nat)
    ensures n <= |s|
    ensures forall i :: 0 <= i < n ==> p(s[i])
    ensures n < |s| ==> !p(s[n])
  {
    if s != [] && p(s[0]) then
      var m := LeadLen(s[1..], p);
      assert forall i :: 1 <= i < 1 + m ==> s[i] == s[1..][i - 1];
      1 + m
    else 0
  }

  /** The length of `s` once its trailing elements that satisfy `p` are dropped. */
  function KeptLen<T>(s: seq<T>, p: T -> bool): (n: nat)
    ensures n <= |s|
    ensures forall i :: n <= i < |s| ==> p(s[i])
    ensures n > 0 ==> !p(s[n - 1])
  {
    if s != [] && p(s[|s| - 1]) then KeptLen(s[..|s| - 1], p) else |s|
  }

  /** Python's `s.strip()`: the longest infix of `s` that neither starts nor
      ends with whitespace; it is empty exactly when `s` is all whitespace. */
  function Strip(s: string): (r: string)
    ensures |r| <= |s|
    ensures r == [] || (!IsSpace(r[0]) && !IsSpace(r[|r| - 1]))
    ensures r == [] <==> forall i :: 0 <= i < |s| ==> IsSpace(s[i])
    ensures exists a, b :: 0 <= a <= b <= |s| && r == s[a..b] &&
              (forall i :: 0 <= i < a ==> IsSpace(s[i])) && (forall i :: b <= i < |s| ==> IsSpace(s[i]))
  {
    TrimSpan(s, IsSpace);
    var a := LeadLen(s, IsSpace);
    s[a..a + KeptLen(s[a..], IsSpace)]
  }

  /** A text with no whitespace at either end strips to itself. */
  lemma StripUnchanged(s: string)
    requires s == [] || (!IsSpace(s[0]) && !IsSpace(s[|s| - 1]))
    ensures Strip(s) == s
  {
    assert LeadLen(s, IsSpace) == 0;
    assert s[0..] == s;
    assert KeptLen(s, IsSpace) == |s|;
  }

  /** The span left once the leading and trailing elements satisfying `p` are
      dropped: only matching elements lie outside it, its ends do not match,
      and it is empty exactly when every element matches. */
  lemma {:induction false} TrimSpan<T>(s: seq<T>, p: T -> bool)
    ensures var a := LeadLen(s, p);
            var b := a + KeptLen(s[a..], p);
            a <= b <= |s| &&
            (forall i :: 0 <= i < a ==> p(s[i])) && (forall i :: b <= i < |s| ==> p(s[i])) &&
            (a < b ==> !p(s[a]) && !p(s[b - 1])) &&
            (a == b <==> forall i :: 0 <= i < |s| ==> p(s[i]))
  {
    var a := LeadLen(s, p);
    var u := s[a..];
    var k := KeptLen(u, p);
    forall i | a + k <= i < |s| ensures p(s[i]) {
      assert s[i] == u[i - a];
    }
    if a < |s| {
      assert u[0] == s[a];
      assert k > 0;
      assert s[a + k - 1] == u[k - 1];
    }
  }

  /** Joining two parts puts the separator between them. */
  lemma JoinTwo(sep: string, a: string, b: string)
    ensures Join(sep, [a, b]) == a + sep + b
  {
    JoinAppend(sep, [a], b);
    assert [a] + [b] == [a, b];
  }

  /** Python's `sep.join(parts)`. */
  function Join(sep: string, parts: seq<string>): (r: string)
    ensures r == [] <==> (forall i :: 0 <= i < |parts| ==> parts[i] == []) && (|parts| <= 1 || sep == [])
    decreases |parts|
  {
    if parts == [] then ""
    else if |parts| == 1 then parts[0]
    else Join(sep, parts[..|parts| - 1]) + sep + parts[|parts| - 1]
  }

  /** Appending a part appends the separator and the part. */
  lemma JoinAppend(sep: string, parts: seq<string>, p: string)
    requires parts != []
    ensures Join(sep, parts + [p]) == Join(sep, parts) + sep + p
  {
    assert (parts + [p])[..|parts|] == parts;
  }

  /** Joining three parts puts the separator between each neighbouring pair. */
  lemma JoinThree(sep: string, a: string, b: string, c: string)
    ensures Join(sep, [a, b, c]) == a + sep + b + sep + c
  {
    JoinAppend(sep, [a], b);
    assert [a] + [b] == [a, b];
    JoinAppend(sep, [a, b], c);
    assert [a, b] + [c] == [a, b, c];
  }

  predicate IsDigit(c: char) {
    '0' <= c <= '9'
  }

  predicate AllDigits(s: string) {
    forall i :: 0 <= i < |s| ==> IsDigit(s[i])
  }

  function DigitChar(d: nat): (c: char)
    requires d < 10
    ensures IsDigit(c) && c as int - '0' as int == d
  {
    (d + '0' as int) as char
  }

  /** Python's `str(n)` for a non-negative integer. */
  function NatToString(n: nat): (r: string)
    ensures r != [] && AllDigits(r)
  {
    if n < 10 then [DigitChar(n)] else NatToString(n / 10) + [DigitChar(n % 10)]
  }

  /** Python's `str(i)` for any integer. */
  function IntToString(i: int): (r: string)
    ensures r != [] && (i >= 0 <==> IsDigit(r[0]))
    ensures forall k :: 0 <= k < |r| ==> IsDigit(r[k]) || r[k] == '-'
  {
    if i < 0 then "-" + NatToString(-i) else NatToString(i)
  }

  /** The value of a decimal numeral: the reading `int(s)` gives it. */
  function DigitsValue(s: string): nat
    requires AllDigits(s)
  {
    if s == [] then 0 else DigitsValue(s[..|s| - 1]) * 10 + (s[|s| - 1] as int - '0' as int)
  }

  /** Python's `int(s)` for an optional minus sign followed by digits. */
  function ParseInt(s: string): Option<int> {
    if |s| > 1 && s[0] == '-' && AllDigits(s[1..]) then
      var magnitude: int := DigitsValue(s[1..]);
      Some(-magnitude)
    else if s != [] && AllDigits(s) then Some(DigitsValue(s))
    else None
  }

  lemma {:induction false} NatToStringValue(n: nat)
    ensures DigitsValue(NatToString(n)) == n
  {
    if n >= 10 {
      NatToStringValue(n / 10);
      var s := NatToString(n);
      assert s[..|s| - 1] == NatToString(n / 10);
    }
  }

  /** `str` on integers is undone by `int`. */
  lemma IntToStringRoundTrip(i: int)
    ensures ParseInt(IntToString(i)) == Some(i)
  {
    if i < 0 {
      NatToStringValue(-i);
      assert IntToString(i)[1..] == NatToString(-i);
    } else {
      NatToStringValue(i);
    }
  }
}
