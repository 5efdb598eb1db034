/**
 * String helpers shared by the client and the server: JavaScript's
 * `String.prototype.trim`, Python's `", ".join(...)` and the decimal
 * rendering of a whole number (JavaScript's `Number.prototype.toString`
 * on the non-negative integer returned by `Date.now()`).
 */
module Text {

  /** The characters ECMAScript's `trim` removes: WhiteSpace and LineTerminator. */
  predicate IsSpace(c: char) {
    c in {'\t', '\n', '\U{000B}', '\U{000C}', '\r', ' ', '\U{00A0}', '\U{1680}',
          '\U{2000}', '\U{2001}', '\U{2002}', '\U{2003}', '\U{2004}', '\U{2005}',
          '\U{2006}', '\U{2007}', '\U{2008}', '\U{2009}', '\U{200A}',
          '\U{2028}', '\U{2029}', '\U{202F}', '\U{205F}', '\U{3000}', '\U{FEFF}'}
  }

  /** Every character of `s` is white space (so `s.trim()` is the empty, falsy string). */
  predicate IsBlank(s: string) {
    forall k :: 0 <= k < |s| ==> IsSpace(s[k])
  }

  /** Number of white-space characters at the front of `s`. */
  function LeadingSpaces(s: string): (n: nat)
    ensures n <= |s|
    ensures forall k :: 0 <= k < n ==> IsSpace(s[k])
    ensures n < |s| ==> !IsSpace(s[n])
  {
    if s != [] && IsSpace(s[0]) then 1 + LeadingSpaces(s[1..]) else 0
  }

  /** Number of white-space characters at the back of `s`. */
  function TrailingSpaces(s: string): (n: nat)
    ensures n <= |s|
    ensures forall k :: |s| - n <= k < |s| ==> IsSpace(s[k])
    ensures n < |s| ==> !IsSpace(s[|s| - n - 1])
  {
    if s != [] && IsSpace(s[|s| - 1]) then 1 + TrailingSpaces(s[..|s| - 1]) else 0
  }

  /** `r` sits at offset `i` of `s` and everything of `s` around it is white space. */
  predicate Padded(s: string, i: nat, r: string) {
    && i + |r| <= |s|
    && s[i..i + |r|] == r
    && (forall k :: 0 <= k < i ==> IsSpace(s[k]))
    && (forall k :: i + |r| <= k < |s| ==> IsSpace(s[k]))
  }

  /** JavaScript's `s.trim()`. */
  function Trim(s: string): (r: string)
    ensures Padded(s, LeadingSpaces(s), r)
    ensures r != [] ==> !IsSpace(r[0]) && !IsSpace(r[|r| - 1])
    ensures r == [] <==> IsBlank(s)
  {
    var rest := s[LeadingSpaces(s)..];
    rest[..|rest| - TrailingSpaces(rest)]
  }

  /** Trimming twice is trimming once. */
  lemma TrimIdempotent(s: string)
    ensures Trim(Trim(s)) == Trim(s)
  {
    var r := Trim(s);
    if r != [] {
      assert LeadingSpaces(r) == 0;
      assert TrailingSpaces(r) == 0;
    }
  }

  /** A string with no white space at either end is its own trim. */
  lemma TrimOfTrimmed(s: string)
    requires s != [] ==> !IsSpace(s[0]) && !IsSpace(s[|s| - 1])
    ensures Trim(s) == s
  {
    if s != [] {
      assert LeadingSpaces(s) == 0;
      assert TrailingSpaces(s) == 0;
    }
  }

  /** Python's `sep.join(parts)`. */
  function Join(parts: seq<string>, sep: string): string
  {
    if |parts| == 0 then ""
    else if |parts| == 1 then parts[0]
    else parts[0] + sep + Join(parts[1..], sep)
  }

  /** Joining no parts gives the empty string. */
  lemma JoinEmpty(sep: string)
    ensures Join([], sep) == ""
  {
  }

  /** Where part `k` starts inside `Join(parts, sep)`. */
  function Offset(parts: seq<string>, sep: string, k: nat): nat
    requires k <= |parts|
  {
    if k == 0 then 0 else |parts[0]| + |sep| + Offset(parts[1..], sep, k - 1)
  }

  /** Part `k + 1` starts after part `k` and one separator. */
  lemma {:induction false} OffsetStep(parts: seq<string>, sep: string, k: nat)
    requires k < |parts|
    ensures Offset(parts, sep, k + 1) == Offset(parts, sep, k) + |parts[k]| + |sep|
  {
    if k > 0 {
      OffsetStep(parts[1..], sep, k - 1);
    }
  }

  /** A slice past a prefix is the matching slice of what follows it. */
  lemma SliceAfter(front: string, back: string, i: nat, j: nat)
    requires i <= j <= |back|
    ensures (front + back)[|front| + i..|front| + j] == back[i..j]
  {
    var s := front + back;
    assert forall t :: 0 <= t < j - i ==> s[|front| + i..|front| + j][t] == back[i..j][t];
  }

  /** A slice inside a prefix is the same slice of the prefix. */
  lemma SliceBefore(front: string, back: string, i: nat, j: nat)
    requires i <= j <= |front|
    ensures (front + back)[i..j] == front[i..j]
  {
    var s := front + back;
    assert forall t :: 0 <= t < j - i ==> s[i..j][t] == front[i..j][t];
  }

  /** Part `k` of `Join(parts, sep)` occupies `[Offset(k), Offset(k) + |parts[k]|)`. */
  lemma {:induction false} JoinPart(parts: seq<string>, sep: string, k: nat)
    requires k < |parts|
    ensures Offset(parts, sep, k) + |parts[k]| <= |Join(parts, sep)|
    ensures Join(parts, sep)[Offset(parts, sep, k)..Offset(parts, sep, k) + |parts[k]|] == parts[k]
  {
    if k == 0 {
      if |parts| > 1 {
        var head := parts[0] + sep;
        SliceBefore(head, Join(parts[1..], sep), 0, |parts[0]|);
        assert head[0..|parts[0]|] == parts[0];
      }
    } else {
      var rest := parts[1..];
      var head := parts[0] + sep;
      JoinPart(rest, sep, k - 1);
      assert Join(parts, sep) == head + Join(rest, sep);
      assert Offset(parts, sep, k) == |head| + Offset(rest, sep, k - 1);
      SliceAfter(head, Join(rest, sep), Offset(rest, sep, k - 1), Offset(rest, sep, k - 1) + |rest[k - 1]|);
    }
  }

  /** Between part `k` and part `k + 1` of `Join(parts, sep)` stands the separator. */
  lemma {:induction false} JoinSeparator(parts: seq<string>, sep: string, k: nat)
    requires k + 1 < |parts|
    ensures Offset(parts, sep, k) + |parts[k]| + |sep| <= |Join(parts, sep)|
    ensures Join(parts, sep)[Offset(parts, sep, k) + |parts[k]|..Offset(parts, sep, k) + |parts[k]| + |sep|] == sep
  {
    var rest := parts[1..];
    var head := parts[0] + sep;
    assert Join(parts, sep) == head + Join(rest, sep);
    if k == 0 {
      SliceAfter(parts[0], sep, 0, |sep|);
      SliceBefore(head, Join(rest, sep), |parts[0]|, |head|);
    } else {
      JoinSeparator(rest, sep, k - 1);
      var at := Offset(rest, sep, k - 1) + |rest[k - 1]|;
      assert Offset(parts, sep, k) + |parts[k]| == |head| + at;
      SliceAfter(head, Join(rest, sep), at, at + |sep|);
    }
  }

  /** The last part ends `Join(parts, sep)`. */
  lemma {:induction false} JoinEnd(parts: seq<string>, sep: string)
    requires |parts| > 0
    ensures Offset(parts, sep, |parts| - 1) + |parts[|parts| - 1]| == |Join(parts, sep)|
  {
    var n := |parts|;
    if n > 1 {
      var rest := parts[1..];
      JoinEnd(rest, sep);
      assert |Join(parts, sep)| == |parts[0]| + |sep| + |Join(rest, sep)|;
      assert Offset(parts, sep, n - 1) == |parts[0]| + |sep| + Offset(rest, sep, n - 2);
      assert parts[n - 1] == rest[n - 2];
    }
  }

  /** Decimal digit `d` as a character. */
  function Digit(d: nat): char
    requires d < 10
  {
    "0123456789"[d]
  }

  predicate IsDigits(s: string) {
    forall k :: 0 <= k < |s| ==> '0' <= s[k] <= '9'
  }

  /** The decimal spelling of `n`, without leading zeros. */
  function Decimal(n: nat): (r: string)
    ensures r != [] && IsDigits(r)
    ensures |r| > 1 ==> r[0] != '0'
    decreases n
  {
    if n < 10 then [Digit(n)] else Decimal(n / 10) + [Digit(n % 10)]
  }

  /** The number a string of decimal digits denotes. */
  function DecimalValue(s: string): nat
    requires IsDigits(s)
  {
    if s == [] then 0
    else 10 * DecimalValue(s[..|s| - 1]) + (s[|s| - 1] as int - '0' as int)
  }

  /** Reading back a decimal spelling gives the number. */
  lemma {:induction false} DecimalRoundTrip(n: nat)
    ensures DecimalValue(Decimal(n)) == n
    decreases n
  {
    if n >= 10 {
      DecimalRoundTrip(n / 10);
      var s := Decimal(n);
      assert s[..|s| - 1] == Decimal(n / 10);
    }
  }

  /** Distinct numbers have distinct decimal spellings. */
  lemma DecimalInjective(m: nat, n: nat)
    ensures Decimal(m) == Decimal(n) ==> m == n
  {
    DecimalRoundTrip(m);
    DecimalRoundTrip(n);
  }
}
