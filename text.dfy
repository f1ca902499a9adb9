/** The JavaScript string built-ins the pipeline relies on: the whitespace
    class shared by `\s` and `String.prototype.trim`, `trim` itself, ASCII
    case mapping, `substring`, string comparison with `<`, and
    `Number.prototype.toString(radix)` for integers. A `char` stands for one
    UTF-16 code unit. */
module Text {

  /** ECMAScript WhiteSpace or LineTerminator: exactly the characters `\s`
      matches and `trim` removes. */
  predicate IsWhiteSpace(c: char)
  {
    c == '\t' || c == '\n' || c == '\U{0B}' || c == '\U{0C}' || c == '\r' ||
    c == ' ' || c == '\U{A0}' || c == '\U{1680}' ||
    ('\U{2000}' <= c <= '\U{200A}') ||
    c == '\U{2028}' || c == '\U{2029}' || c == '\U{202F}' || c == '\U{205F}' ||
    c == '\U{3000}' || c == '\U{FEFF}'
  }

  /** `\d` without the `u` flag. */
  predicate IsAsciiDigit(c: char)
  {
    '0' <= c <= '9'
  }

  predicate IsAsciiLetter(c: char)
  {
    'a' <= c <= 'z' || 'A' <= c <= 'Z'
  }

  /** Case folding of a case-insensitive regular expression without the `u`
      flag, restricted to what matters here: only ASCII letters fold onto
      ASCII letters. */
  function AsciiLower(c: char): char
  {
    if 'A' <= c <= 'Z' then (c as int + 32) as char else c
  }

  function AsciiUpper(c: char): char
  {
    if 'a' <= c <= 'z' then (c as int - 32) as char else c
  }

  /** `toUpperCase` on the ASCII range; other characters are kept. */
  function ToUpper(s: string): (r: string)
    ensures |r| == |s|
    ensures forall i :: 0 <= i < |s| ==> r[i] == AsciiUpper(s[i])
  {
    if s == [] then [] else [AsciiUpper(s[0])] + ToUpper(s[1..])
  }

  lemma {:induction false} ToUpperAppend(a: string, b: string)
    ensures ToUpper(a + b) == ToUpper(a) + ToUpper(b)
  {
    var l, r := ToUpper(a + b), ToUpper(a) + ToUpper(b);
    assert |l| == |r|;
    forall i | 0 <= i < |l| ensures l[i] == r[i] {
      if i < |a| { assert (a + b)[i] == a[i]; } else { assert (a + b)[i] == b[i - |a|]; }
    }
  }

  /** Number of whitespace characters at the start of `s`. */
  function LeadingSpace(s: string): (n: nat)
    ensures n <= |s|
    ensures forall k :: 0 <= k < n ==> IsWhiteSpace(s[k])
    ensures n < |s| ==> !IsWhiteSpace(s[n])
  {
    if s == [] || !IsWhiteSpace(s[0]) then 0 else 1 + LeadingSpace(s[1..])
  }

  /** Number of whitespace characters at the end of `s`. */
  function TrailingSpace(s: string): (n: nat)
    ensures n <= |s|
    ensures forall k :: |s| - n <= k < |s| ==> IsWhiteSpace(s[k])
    ensures n < |s| ==> !IsWhiteSpace(s[|s| - 1 - n])
  {
    if s == [] || !IsWhiteSpace(s[|s| - 1]) then 0 else 1 + TrailingSpace(s[..|s| - 1])
  }

  predicate NoEdgeSpace(r: string)
  {
    r == [] || (!IsWhiteSpace(r[0]) && !IsWhiteSpace(r[|r| - 1]))
  }

  /** `String.prototype.trim`: `s` without its leading and trailing
      whitespace. The result is the slice of `s` that starts at the first
      non-whitespace character, it has no whitespace at either end, and every
      character left out is whitespace; it is empty exactly when `s` is blank. */
  function Trim(s: string): (r: string)
    ensures NoEdgeSpace(r)
    ensures LeadingSpace(s) + |r| <= |s| && r == s[LeadingSpace(s)..LeadingSpace(s) + |r|]
    ensures forall k :: 0 <= k < |s| && !(LeadingSpace(s) <= k < LeadingSpace(s) + |r|) ==> IsWhiteSpace(s[k])
    ensures r == [] <==> forall k :: 0 <= k < |s| ==> IsWhiteSpace(s[k])
  {
    var a := LeadingSpace(s);
    if a == |s| then []
    else
      var b := |s| - TrailingSpace(s);
      assert !IsWhiteSpace(s[a]);
      s[a..b]
  }

  /** Text without whitespace at either end is its own trim. */
  lemma TrimUnchanged(s: string)
    requires NoEdgeSpace(s)
    ensures Trim(s) == s
  {
    if s != [] {
      assert LeadingSpace(s) == 0 && TrailingSpace(s) == 0;
    }
  }

  /** Length of the longest run of characters satisfying `p` that starts at `i`. */
  function RunLength(s: string, i: nat, p: char -> bool): (n: nat)
    requires i <= |s|
    ensures i + n <= |s|
    ensures forall k :: i <= k < i + n ==> p(s[k])
    ensures i + n < |s| ==> !p(s[i + n])
    decreases |s| - i
  {
    if i < |s| && p(s[i]) then 1 + RunLength(s, i + 1, p) else 0
  }

  /** A run reaches the end of a string whose remaining characters all satisfy `p`. */
  lemma {:induction false} RunLengthToEnd(s: string, i: nat, p: char -> bool)
    requires i <= |s|
    requires forall m :: i <= m < |s| ==> p(s[m])
    ensures RunLength(s, i, p) == |s| - i
    decreases |s| - i
  {
    if i < |s| {
      RunLengthToEnd(s, i + 1, p);
    }
  }

  /** A run in `x + y` starting inside `y` is a run of `y`. */
  lemma {:induction false} RunLengthShift(x: string, y: string, k: nat, p: char -> bool)
    requires k <= |y|
    ensures RunLength(x + y, |x| + k, p) == RunLength(y, k, p)
    decreases |y| - k
  {
    if k < |y| {
      assert (x + y)[|x| + k] == y[k];
      if p(y[k]) { RunLengthShift(x, y, k + 1, p); }
    }
  }

  /** Strict string order of `<` on strings: a proper prefix is smaller,
      otherwise the first differing code unit decides. */
  predicate LexLess(a: string, b: string)
  {
    if a == [] then b != []
    else if b == [] then false
    else if a[0] == b[0] then LexLess(a[1..], b[1..])
    else a[0] < b[0]
  }

  lemma {:induction false} LexLessIrreflexive(a: string)
    ensures !LexLess(a, a)
  {
    if a != [] { LexLessIrreflexive(a[1..]); }
  }

  /** On equal-length prefixes, a comparison of `x + u` with `y + v` is
      decided by the prefixes unless they are equal. */
  lemma {:induction false} LexLessAppend(x: string, u: string, y: string, v: string)
    requires |x| == |y|
    ensures LexLess(x + u, y + v) <==> LexLess(x, y) || (x == y && LexLess(u, v))
  {
    if x == [] {
      assert x + u == u && y + v == v;
    } else {
      assert (x + u)[0] == x[0] && (y + v)[0] == y[0];
      assert (x + u)[1..] == x[1..] + u && (y + v)[1..] == y[1..] + v;
      LexLessAppend(x[1..], u, y[1..], v);
      if x[0] == y[0] {
        assert x == y <==> x[1..] == y[1..] by {
          if x[1..] == y[1..] { assert x == [x[0]] + x[1..] && y == [y[0]] + y[1..]; }
        }
      }
    }
  }

  /** `String.prototype.substring(start, end)`: both ends are clamped to
      the string and swapped when out of order. */
  function Substring(s: string, start: int, end: int): (r: string)
  {
    var a := if start < 0 then 0 else if start > |s| then |s| else start;
    var b := if end < 0 then 0 else if end > |s| then |s| else end;
    if a <= b then s[a..b] else s[b..a]
  }

  /** The digit characters of `Number.prototype.toString(radix)`. */
  function DigitChar(d: nat): (c: char)
    requires d < 36
    ensures DigitValue(c) == d
    ensures ('0' <= c <= '9') || ('a' <= c <= 'z')
  {
    if d < 10 then ('0' as int + d) as char else ('a' as int + d - 10) as char
  }

  /** The value of a digit character in either case; 36 for a non-digit. */
  function DigitValue(c: char): nat
  {
    if '0' <= c <= '9' then c as int - '0' as int
    else if 'a' <= c <= 'z' then c as int - 'a' as int + 10
    else if 'A' <= c <= 'Z' then c as int - 'A' as int + 10
    else 36
  }

  /** `Number.prototype.toString(radix)` on a non-negative integer: the
      digits most significant first, lower-case letters, no leading zero
      unless the number is zero. */
  function ToRadix(n: nat, radix: nat): (r: string)
    requires 2 <= radix <= 36
    ensures |r| >= 1
    ensures r[0] == '0' ==> n == 0
    ensures forall i :: 0 <= i < |r| ==> DigitValue(r[i]) < radix && (('0' <= r[i] <= '9') || ('a' <= r[i] <= 'z'))
    decreases n
  {
    if n < radix then [DigitChar(n)]
    else
      DivMod(n, radix);
      ToRadix(n / radix, radix) + [DigitChar(n % radix)]
  }

  lemma DivMod(n: nat, radix: nat)
    requires 2 <= radix
    ensures n == radix * (n / radix) + n % radix && 0 <= n % radix < radix
    ensures n >= radix ==> 1 <= n / radix < n
  {
    MulSign(radix, n / radix);
  }

  lemma MulSign(a: nat, q: int)
    requires a >= 2
    ensures q <= 0 ==> a * q <= 0
    ensures q >= 1 ==> a * q >= 2 * q
  {
    if q >= 1 {
      assert a * q == 2 * q + (a - 2) * q;
    }
  }

  /** The number a string of digits denotes (most significant first). */
  function FromRadix(s: string, radix: nat): nat
  {
    if s == [] then 0 else FromRadix(s[..|s| - 1], radix) * radix + DigitValue(s[|s| - 1])
  }

  /** Reading the digits back gives the number: `toString(radix)` loses nothing. */
  lemma {:induction false} FromToRadix(n: nat, radix: nat)
    requires 2 <= radix <= 36
    ensures FromRadix(ToRadix(n, radix), radix) == n
    decreases n
  {
    if n >= radix {
      var r := ToRadix(n, radix);
      var q, m := n / radix, n % radix;
      DivMod(n, radix);
      assert r == ToRadix(q, radix) + [DigitChar(m)];
      assert r[..|r| - 1] == ToRadix(q, radix);
      assert DigitValue(r[|r| - 1]) == m;
      FromToRadix(q, radix);
      assert FromRadix(r, radix) == q * radix + m;
    }
  }

  /** `Number.prototype.toString(radix)` on an integer. */
  function NumberToString(x: int, radix: nat): string
    requires 2 <= radix <= 36
  {
    if x < 0 then "-" + ToRadix(-x, radix) else ToRadix(x, radix)
  }
}
