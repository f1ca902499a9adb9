/** The anonymous report identifier (app/utils/validation.ts, lines 98-102):
    the clock in base 36 followed by up to six characters of a random
    number's base-36 expansion, all upper-cased. The clock and the random
    number's text are parameters. */
module AnonymousId {
  import opened Text

  /** `Math.random().toString(36)`: "0" for zero, otherwise "0." followed by
      lower-case base-36 digits. */
  predicate RandomText(t: string)
  {
    t == "0" ||
    (|t| >= 2 && t[0] == '0' && t[1] == '.' &&
     forall k :: 2 <= k < |t| ==> ('0' <= t[k] <= '9') || ('a' <= t[k] <= 'z'))
  }

  /** A character of an identifier: an ASCII digit or an upper-case ASCII letter. */
  predicate IsIdChar(c: char)
  {
    ('0' <= c <= '9') || ('A' <= c <= 'Z')
  }

  /** The part of the identifier that encodes the clock. */
  function TimestampPart(ts: nat): string
  {
    ToUpper(ToRadix(ts, 36))
  }

  /** `generateAnonymousId`, with `Date.now()` as `ts` and the text of
      `Math.random()` in base 36 as `randomText`. The identifier is the
      upper-cased clock in base 36 followed by at most six characters taken
      from the random text after its "0."; every character is a digit or an
      upper-case letter. */
  function GenerateAnonymousId(ts: nat, randomText: string): (id: string)
    requires RandomText(randomText)
    ensures var suffix := Substring(randomText, 2, 8);
      |suffix| <= 6 && id == TimestampPart(ts) + ToUpper(suffix)
    ensures forall k :: 0 <= k < |id| ==> IsIdChar(id[k])
  {
    var suffix := Substring(randomText, 2, 8);
    ToUpperAppend(ToRadix(ts, 36), suffix);
    ToUpper(ToRadix(ts, 36) + suffix)
  }

  /** The clock can be read back from the identifier. */
  lemma TimestampReadBack(ts: nat, randomText: string)
    requires RandomText(randomText)
    ensures var id := GenerateAnonymousId(ts, randomText);
      |TimestampPart(ts)| <= |id| && FromRadix(id[..|TimestampPart(ts)|], 36) == ts
  {
    var id := GenerateAnonymousId(ts, randomText);
    assert id[..|TimestampPart(ts)|] == TimestampPart(ts);
    FromRadixToUpper(ToRadix(ts, 36));
    FromToRadix(ts, 36);
  }

  lemma {:induction false} FromRadixToUpper(s: string)
    ensures FromRadix(ToUpper(s), 36) == FromRadix(s, 36)
  {
    if s != [] {
      var n := |s|;
      assert ToUpper(s)[..n - 1] == ToUpper(s[..n - 1]);
      FromRadixToUpper(s[..n - 1]);
    }
  }

  // ---------------------------------------------------------------------------
  // String order of identifiers.

  function Pow(b: nat, e: nat): (p: nat)
    ensures b >= 1 ==> p >= 1
  {
    if e == 0 then 1 else b * Pow(b, e - 1)
  }

  /** Upper-case base-36 digits: the characters `TimestampPart` is made of. */
  predicate UpperDigits(s: string)
  {
    forall k :: 0 <= k < |s| ==> IsIdChar(s[k])
  }

  lemma TimestampPartDigits(ts: nat)
    ensures UpperDigits(TimestampPart(ts))
  {
  }

  /** A number written with `n` digits is below `36^n`. */
  lemma {:induction false} FromRadixBound(s: string)
    requires UpperDigits(s)
    ensures FromRadix(s, 36) < Pow(36, |s|)
  {
    if s != [] {
      var n := |s|;
      var f := FromRadix(s[..n - 1], 36);
      FromRadixBound(s[..n - 1]);
      assert DigitValue(s[n - 1]) < 36;
      assert f <= Pow(36, n - 1) - 1;
      assert f * 36 <= (Pow(36, n - 1) - 1) * 36;
    }
  }

  /** The leading digit carries weight `36^(n-1)`. */
  lemma {:induction false} FromRadixFront(s: string)
    requires |s| >= 1
    ensures FromRadix(s, 36) == DigitValue(s[0]) * Pow(36, |s| - 1) + FromRadix(s[1..], 36)
  {
    var n := |s|;
    if n >= 2 {
      var init := s[..n - 1];
      FromRadixFront(init);
      assert init[0] == s[0];
      assert s[1..][..n - 2] == init[1..];
      assert s[1..][n - 2] == s[n - 1];
      var a, p, t := DigitValue(s[0]), Pow(36, n - 2), FromRadix(init[1..], 36);
      ShiftDigit(a, p, t, 36);
    } else {
      assert s[..0] == [];
    }
  }

  lemma ShiftDigit(a: nat, p: nat, t: nat, b: nat)
    ensures (a * p + t) * b == a * (p * b) + t * b
  {
  }

  /** Between digit characters of the same case, character order is digit-value order. */
  lemma DigitCharOrder(c: char, d: char)
    requires IsIdChar(c) && IsIdChar(d)
    ensures c < d <==> DigitValue(c) < DigitValue(d)
    ensures c == d <==> DigitValue(c) == DigitValue(d)
  {
  }

  /** A smaller leading digit makes a smaller number whatever follows. */
  lemma LeadingDigitDecides(a: nat, b: nat, p: nat, fa: nat, fb: nat)
    requires a < b && fa < p
    ensures a * p + fa < b * p + fb
  {
    var c: nat := b - a - 1;
    calc {
      b * p;
      (a + 1 + c) * p;
      a * p + p + c * p;
    }
    assert c * p >= 0;
  }

  /** For equal-length upper-case digit strings, string order is numeric order. */
  lemma {:induction false} StringOrderIsNumericOrder(x: string, y: string)
    requires |x| == |y| && UpperDigits(x) && UpperDigits(y)
    ensures LexLess(x, y) <==> FromRadix(x, 36) < FromRadix(y, 36)
  {
    if x != [] {
      FromRadixFront(x);
      FromRadixFront(y);
      DigitCharOrder(x[0], y[0]);
      var p := Pow(36, |x| - 1);
      var a, b := DigitValue(x[0]), DigitValue(y[0]);
      if x[0] == y[0] {
        StringOrderIsNumericOrder(x[1..], y[1..]);
      } else {
        FromRadixBound(x[1..]);
        FromRadixBound(y[1..]);
        if a < b {
          LeadingDigitDecides(a, b, p, FromRadix(x[1..], 36), FromRadix(y[1..], 36));
        } else {
          LeadingDigitDecides(b, a, p, FromRadix(y[1..], 36), FromRadix(x[1..], 36));
        }
      }
    }
  }

  /** Clock parts of equal length compare as strings as the clocks compare as numbers. */
  lemma TimestampOrder(t1: nat, t2: nat)
    requires |TimestampPart(t1)| == |TimestampPart(t2)|
    ensures LexLess(TimestampPart(t1), TimestampPart(t2)) <==> t1 < t2
  {
    StringOrderIsNumericOrder(TimestampPart(t1), TimestampPart(t2));
    FromRadixToUpper(ToRadix(t1, 36));
    FromRadixToUpper(ToRadix(t2, 36));
    FromToRadix(t1, 36);
    FromToRadix(t2, 36);
  }

  /** Identifiers whose clock parts have the same length sort by their
      clocks; only equal clocks leave the order to the random suffix. */
  lemma IdOrderFollowsClock(t1: nat, r1: string, t2: nat, r2: string)
    requires RandomText(r1) && RandomText(r2)
    requires |TimestampPart(t1)| == |TimestampPart(t2)|
    ensures t1 < t2 ==> LexLess(GenerateAnonymousId(t1, r1), GenerateAnonymousId(t2, r2))
    ensures t2 < t1 ==> LexLess(GenerateAnonymousId(t2, r2), GenerateAnonymousId(t1, r1))
  {
    var x, y := TimestampPart(t1), TimestampPart(t2);
    var u, v := ToUpper(Substring(r1, 2, 8)), ToUpper(Substring(r2, 2, 8));
    TimestampOrder(t1, t2);
    TimestampOrder(t2, t1);
    LexLessAppend(x, u, y, v);
    LexLessAppend(y, v, x, u);
  }
}
