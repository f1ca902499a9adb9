/** The PII sanitiser (app/utils/validation.ts, lines 51-95). Each of the
    four regular expressions of `sanitizeText` is modelled as a matcher that,
    at a position of the string, returns the length of the match that the
    regular-expression engine would find there (0 for none); a global
    `replace` is then a left-to-right scan that replaces each match by a
    placeholder and resumes after it. */
module Sanitizer {
  import opened Types
  import opened Text

  const UrlToken := "[URL_REMOVIDA]"
  const EmailToken := "[EMAIL_REMOVIDO]"
  const PhoneToken := "[TELEFONE_REMOVIDO]"
  const CpfToken := "[CPF_REMOVIDO]"

  // ---------------------------------------------------------------------------
  // Global replace.

  /** `s.replace(re, token)` from position `i` on, where `matchAt(s, k)` is
      the length of the match of `re` at `k`. Where nothing matches, the
      scan copies the input. */
  function ReplaceFrom(s: string, i: nat, matchAt: (string, nat) -> nat, token: string): string
    requires i <= |s|
    decreases |s| - i
  {
    if i == |s| then []
    else
      var n := matchAt(s, i);
      if 0 < n && i + n <= |s| then token + ReplaceFrom(s, i + n, matchAt, token)
      else [s[i]] + ReplaceFrom(s, i + 1, matchAt, token)
  }

  function ReplaceAll(s: string, matchAt: (string, nat) -> nat, token: string): string
  {
    ReplaceFrom(s, 0, matchAt, token)
  }

  /** Positions `i..j` where nothing matches are copied as they are. */
  lemma {:induction false} ReplaceSkip(s: string, i: nat, j: nat, matchAt: (string, nat) -> nat, token: string)
    requires i <= j <= |s|
    requires forall k :: i <= k < j ==> matchAt(s, k) == 0
    ensures ReplaceFrom(s, i, matchAt, token) == s[i..j] + ReplaceFrom(s, j, matchAt, token)
    decreases j - i
  {
    if i < j {
      assert matchAt(s, i) == 0;
      assert ReplaceFrom(s, i, matchAt, token) == [s[i]] + ReplaceFrom(s, i + 1, matchAt, token);
      ReplaceSkip(s, i + 1, j, matchAt, token);
      assert s[i..j] == [s[i]] + s[i + 1..j];
    }
  }

  /** A match covering the whole input leaves just the placeholder. */
  lemma WholeMatchReplaced(s: string, matchAt: (string, nat) -> nat, token: string)
    requires |s| > 0 && matchAt(s, 0) == |s|
    ensures ReplaceAll(s, matchAt, token) == token
  {
    assert ReplaceAll(s, matchAt, token) == token + ReplaceFrom(s, |s|, matchAt, token);
  }

  /** Where the pattern matches nowhere, `replace` returns its input. */
  lemma ReplaceNothing(s: string, matchAt: (string, nat) -> nat, token: string)
    requires forall k :: 0 <= k < |s| ==> matchAt(s, k) == 0
    ensures ReplaceAll(s, matchAt, token) == s
  {
    ReplaceSkip(s, 0, |s|, matchAt, token);
  }

  // ---------------------------------------------------------------------------
  // The four patterns.

  /** `w` occurs at `i` when ASCII letters are compared without case, as a
      case-insensitive pattern without the unicode flag compares them. */
  predicate LowerAt(s: string, i: nat, w: string)
  {
    i + |w| <= |s| && forall k :: 0 <= k < |w| ==> AsciiLower(s[i + k]) == w[k]
  }

  predicate NotWhiteSpace(c: char)
  {
    !IsWhiteSpace(c)
  }

  /** `/https?:\/\/[^\s]+/gi`: "http", an optional "s", "://" and the
      longest non-empty run of non-whitespace characters. */
  function UrlMatch(s: string, i: nat): nat
  {
    if !LowerAt(s, i, "http") then 0
    else
      var j := if LowerAt(s, i + 4, "s") then i + 5 else i + 4;
      if !(j + 3 <= |s| && s[j..j + 3] == "://") then 0
      else
        var n := RunLength(s, j + 3, NotWhiteSpace);
        if n == 0 then 0 else j + 3 + n - i
  }

  predicate IsLocalChar(c: char)
  {
    IsAsciiLetter(c) || IsAsciiDigit(c) || c == '.' || c == '_' || c == '%' || c == '+' || c == '-'
  }

  predicate IsDomainChar(c: char)
  {
    IsAsciiLetter(c) || IsAsciiDigit(c) || c == '.' || c == '-'
  }

  /** A dot at `p` followed by at least two ASCII letters. */
  predicate TopLevelAt(s: string, p: nat)
  {
    p < |s| && s[p] == '.' && RunLength(s, p + 1, IsAsciiLetter) >= 2
  }

  /** The backtracking of the greedy domain part: the longest domain length
      `m <= k`, at least 1, after which a top-level suffix follows; 0 if none. */
  function DomainSplit(s: string, j: nat, k: nat): (m: nat)
    requires j + k <= |s|
    ensures m <= k
    ensures m > 0 ==> TopLevelAt(s, j + m)
    ensures forall p :: j + m < p <= j + k ==> !TopLevelAt(s, p)
  {
    if k == 0 then 0 else if TopLevelAt(s, j + k) then k else DomainSplit(s, j, k - 1)
  }

  /** `/[a-zA-Z0-9._%+-]+@[a-zA-Z0-9.-]+\.[a-zA-Z]{2,}/gi`. The local part
      is the longest run before an '@' (an '@' is not a local-part
      character, so a shorter run never meets one); the domain part backs
      off from its longest run to the last dot that a run of two or more
      letters follows. */
  function EmailMatch(s: string, i: nat): nat
  {
    if i > |s| then 0
    else
      var a := RunLength(s, i, IsLocalChar);
      if a == 0 || i + a >= |s| || s[i + a] != '@' then 0
      else
        var j := i + a + 1;
        var m := DomainSplit(s, j, RunLength(s, j, IsDomainChar));
        if m == 0 then 0 else j + m + 1 + RunLength(s, j + m + 1, IsAsciiLetter) - i
  }

  /** The character class of the phone pattern: `\d`, `\s`, '-', '+', '(' and ')'. */
  predicate IsPhoneChar(c: char)
  {
    IsAsciiDigit(c) || IsWhiteSpace(c) || c == '-' || c == '+' || c == '(' || c == ')'
  }

  /** `/\(?[\d\s\-\+\(\)]{10,}\)?/g`. Both parentheses belong to the class,
      so a match is exactly a longest run of class characters that is at
      least ten long. */
  function PhoneMatch(s: string, i: nat): nat
  {
    if i > |s| then 0
    else
      var n := RunLength(s, i, IsPhoneChar);
      if n >= 10 then n else 0
  }

  predicate DigitsAt(s: string, p: nat, n: nat)
  {
    p + n <= |s| && forall k :: p <= k < p + n ==> IsAsciiDigit(s[k])
  }

  /** An optional separator: 1 if `c` is at `p`, else 0. */
  function Separator(s: string, p: nat, c: char): nat
  {
    if p < |s| && s[p] == c then 1 else 0
  }

  /** `/\d{3}\.?\d{3}\.?\d{3}-?\d{2}/g`: three groups of three digits with
      optional dots, an optional hyphen and two digits. */
  function CpfMatch(s: string, i: nat): nat
  {
    if !DigitsAt(s, i, 3) then 0
    else
      var p1 := i + 3 + Separator(s, i + 3, '.');
      if !DigitsAt(s, p1, 3) then 0
      else
        var p2 := p1 + 3 + Separator(s, p1 + 3, '.');
        if !DigitsAt(s, p2, 3) then 0
        else
          var p3 := p2 + 3 + Separator(s, p2 + 3, '-');
          if !DigitsAt(s, p3, 2) then 0 else p3 + 2 - i
  }

  // ---------------------------------------------------------------------------
  // sanitizeText.

  /** No run of ten or more phone-class characters: nothing the phone
      pattern would match. */
  predicate NoPhoneNumber(t: string)
  {
    forall k :: 0 <= k < |t| ==> RunLength(t, k, IsPhoneChar) < 10
  }

  /** `sanitizeText`: URLs, then e-mail addresses, then phone numbers, then
      CPF numbers are replaced by placeholders, and the result is trimmed. */
  function SanitizeText(s: string): (r: string)
    ensures NoEdgeSpace(r)
  {
    Trim(RemoveCpfs(RemovePhones(RemoveEmails(RemoveUrls(s)))))
  }

  function RemoveUrls(s: string): string { ReplaceAll(s, UrlMatch, UrlToken) }
  function RemoveEmails(s: string): string { ReplaceAll(s, EmailMatch, EmailToken) }
  function RemovePhones(s: string): string { ReplaceAll(s, PhoneMatch, PhoneToken) }
  function RemoveCpfs(s: string): string { ReplaceAll(s, CpfMatch, CpfToken) }

  /** No phone number survives `sanitizeText`: its result has no run of ten
      or more phone-class characters. */
  lemma SanitizedTextHasNoPhoneNumber(s: string)
    ensures NoPhoneNumber(SanitizeText(s))
  {
    var noPhone := RemovePhones(RemoveEmails(RemoveUrls(s)));
    PhoneScanClears(RemoveEmails(RemoveUrls(s)), 0);
    PlaceholdersArePhoneFree();
    ReplaceKeepsNoPhoneNumber(noPhone, 0, CpfMatch, CpfToken);
    TrimKeepsNoPhoneNumber(RemoveCpfs(noPhone));
  }

  /** A placeholder holds no phone-class character. */
  predicate PhoneFree(t: string)
  {
    forall k :: 0 <= k < |t| ==> !IsPhoneChar(t[k])
  }

  /** After the phone scan from `i`, the output has no phone-like run, and
      its leading run is the input's run at `i` when that run was too short
      to be replaced. */
  lemma {:induction false} PhoneScanClears(s: string, i: nat)
    requires i <= |s|
    ensures var out := ReplaceFrom(s, i, PhoneMatch, PhoneToken);
      var n := RunLength(s, i, IsPhoneChar);
      NoPhoneNumber(out) && RunLength(out, 0, IsPhoneChar) == (if n >= 10 then 0 else n)
    decreases |s| - i
  {
    var n := RunLength(s, i, IsPhoneChar);
    if i < |s| {
      if n >= 10 {
        PhoneScanClears(s, i + n);
        PlaceholdersArePhoneFree();
        TokenKeepsNoPhoneNumber(PhoneToken, ReplaceFrom(s, i + n, PhoneMatch, PhoneToken));
      } else {
        PhoneScanClears(s, i + 1);
        CharKeepsNoPhoneNumber(s[i], ReplaceFrom(s, i + 1, PhoneMatch, PhoneToken));
      }
    }
  }

  /** Replacing matches by a non-empty phone-free placeholder creates no
      phone-like run: every run of the output is at most the run of the
      input it was copied from. */
  lemma {:induction false} ReplaceKeepsNoPhoneNumber(s: string, i: nat, matchAt: (string, nat) -> nat, token: string)
    requires i <= |s| && token != [] && PhoneFree(token)
    requires forall k :: i <= k < |s| ==> RunLength(s, k, IsPhoneChar) < 10
    ensures var out := ReplaceFrom(s, i, matchAt, token);
      NoPhoneNumber(out) && RunLength(out, 0, IsPhoneChar) <= RunLength(s, i, IsPhoneChar)
    decreases |s| - i
  {
    if i < |s| {
      var n := matchAt(s, i);
      if 0 < n && i + n <= |s| {
        ReplaceKeepsNoPhoneNumber(s, i + n, matchAt, token);
        ReplacedStep(s, i, matchAt, token);
      } else {
        ReplaceKeepsNoPhoneNumber(s, i + 1, matchAt, token);
        CopiedStep(s, i, matchAt, token);
      }
    }
  }

  /** The step of `ReplaceKeepsNoPhoneNumber` where a match is replaced. */
  lemma ReplacedStep(s: string, i: nat, matchAt: (string, nat) -> nat, token: string)
    requires i < |s| && token != [] && PhoneFree(token)
    requires 0 < matchAt(s, i) && i + matchAt(s, i) <= |s|
    requires NoPhoneNumber(ReplaceFrom(s, i + matchAt(s, i), matchAt, token))
    ensures var out := ReplaceFrom(s, i, matchAt, token);
      NoPhoneNumber(out) && RunLength(out, 0, IsPhoneChar) == 0
  {
    var rest := ReplaceFrom(s, i + matchAt(s, i), matchAt, token);
    assert ReplaceFrom(s, i, matchAt, token) == token + rest;
    TokenKeepsNoPhoneNumber(token, rest);
  }

  /** The step of `ReplaceKeepsNoPhoneNumber` where a character is copied. */
  lemma CopiedStep(s: string, i: nat, matchAt: (string, nat) -> nat, token: string)
    requires i < |s| && !(0 < matchAt(s, i) && i + matchAt(s, i) <= |s|)
    requires RunLength(s, i, IsPhoneChar) < 10
    requires var rest := ReplaceFrom(s, i + 1, matchAt, token);
      NoPhoneNumber(rest) && RunLength(rest, 0, IsPhoneChar) <= RunLength(s, i + 1, IsPhoneChar)
    ensures var out := ReplaceFrom(s, i, matchAt, token);
      NoPhoneNumber(out) && RunLength(out, 0, IsPhoneChar) <= RunLength(s, i, IsPhoneChar)
  {
    var rest := ReplaceFrom(s, i + 1, matchAt, token);
    assert ReplaceFrom(s, i, matchAt, token) == [s[i]] + rest;
    CharKeepsNoPhoneNumber(s[i], rest);
  }

  /** A non-empty phone-free placeholder in front adds no phone-like run. */
  lemma TokenKeepsNoPhoneNumber(token: string, rest: string)
    requires token != [] && PhoneFree(token) && NoPhoneNumber(rest)
    ensures NoPhoneNumber(token + rest) && RunLength(token + rest, 0, IsPhoneChar) == 0
  {
    var out := token + rest;
    assert out[0] == token[0];
    forall k | 0 <= k < |out| ensures RunLength(out, k, IsPhoneChar) < 10 {
      if k >= |token| {
        RunLengthShift(token, rest, k - |token|, IsPhoneChar);
      } else {
        assert out[k] == token[k];
      }
    }
  }

  /** One character in front extends the leading run by one when it is a
      phone-class character and ends it otherwise. */
  lemma CharKeepsNoPhoneNumber(c: char, rest: string)
    requires NoPhoneNumber(rest) && (IsPhoneChar(c) ==> RunLength(rest, 0, IsPhoneChar) < 9)
    ensures NoPhoneNumber([c] + rest)
    ensures RunLength([c] + rest, 0, IsPhoneChar) == (if IsPhoneChar(c) then 1 + RunLength(rest, 0, IsPhoneChar) else 0)
  {
    var out := [c] + rest;
    assert out[0] == c;
    RunLengthShift([c], rest, 0, IsPhoneChar);
    forall k | 0 <= k < |out| ensures RunLength(out, k, IsPhoneChar) < 10 {
      if k >= 1 { RunLengthShift([c], rest, k - 1, IsPhoneChar); }
    }
  }

  /** A run inside a slice is no longer than the run at the same place in the whole. */
  lemma {:induction false} RunLengthSlice(s: string, a: nat, b: nat, k: nat, p: char -> bool)
    requires a <= b <= |s| && k <= b - a
    ensures RunLength(s[a..b], k, p) <= RunLength(s, a + k, p)
    decreases b - a - k
  {
    if k < b - a && p(s[a + k]) {
      RunLengthSlice(s, a, b, k + 1, p);
    }
  }

  lemma SliceKeepsNoPhoneNumber(s: string, a: nat, b: nat)
    requires a <= b <= |s| && NoPhoneNumber(s)
    ensures NoPhoneNumber(s[a..b])
  {
    forall k | 0 <= k < b - a ensures RunLength(s[a..b], k, IsPhoneChar) < 10 {
      RunLengthSlice(s, a, b, k, IsPhoneChar);
    }
  }

  lemma TrimKeepsNoPhoneNumber(s: string)
    requires NoPhoneNumber(s)
    ensures NoPhoneNumber(Trim(s))
  {
    var t, a := Trim(s), LeadingSpace(s);
    SliceKeepsNoPhoneNumber(s, a, a + |t|);
  }

  // ---------------------------------------------------------------------------
  // What the rules leave alone and what they catch.

  /** Text with no ASCII digit, no '@', no "http" in any case and no
      phone-like run gives no pattern anything to match. */
  predicate PlainText(s: string)
  {
    (forall k :: 0 <= k < |s| ==> !IsAsciiDigit(s[k]) && s[k] != '@' && !LowerAt(s, k, "http")) &&
    NoPhoneNumber(s)
  }

  /** Plain text comes back from `sanitizeText` only trimmed. */
  lemma SanitizePlainText(s: string)
    requires PlainText(s)
    ensures SanitizeText(s) == Trim(s)
  {
    UrlRuleSkips(s);
    LaterRulesSkip(s);
  }

  /** The rules after the URL rule leave plain text alone. */
  lemma LaterRulesSkip(s: string)
    requires PlainText(s)
    ensures RemoveCpfs(RemovePhones(RemoveEmails(s))) == s
  {
    EmailRuleSkips(s);
    ReplaceNothing(s, PhoneMatch, PhoneToken);
    CpfRuleSkips(s);
  }

  lemma UrlRuleSkips(s: string)
    requires forall m :: 0 <= m < |s| ==> !LowerAt(s, m, "http")
    ensures RemoveUrls(s) == s
  {
    ReplaceNothing(s, UrlMatch, UrlToken);
  }

  lemma NoLetterH(s: string)
    requires forall m :: 0 <= m < |s| ==> AsciiLower(s[m]) != "http"[0]
    ensures forall m :: 0 <= m < |s| ==> !LowerAt(s, m, "http")
  {
    forall m | 0 <= m < |s| ensures !LowerAt(s, m, "http") {
      assert AsciiLower(s[m]) != "http"[0];
    }
  }

  lemma EmailRuleSkips(s: string)
    requires forall m :: 0 <= m < |s| ==> s[m] != '@'
    ensures RemoveEmails(s) == s
  {
    forall k | 0 <= k < |s| ensures EmailMatch(s, k) == 0 {
      var a := RunLength(s, k, IsLocalChar);
      if a > 0 && k + a < |s| {
        assert s[k + a] != '@';
      }
    }
    ReplaceNothing(s, EmailMatch, EmailToken);
  }

  lemma CpfRuleSkips(s: string)
    requires forall m :: 0 <= m < |s| ==> !IsAsciiDigit(s[m])
    ensures RemoveCpfs(s) == s
  {
    forall k | 0 <= k < |s| ensures CpfMatch(s, k) == 0 {
      assert !IsAsciiDigit(s[k]);
    }
    ReplaceNothing(s, CpfMatch, CpfToken);
  }

  predicate AllDigits(s: string)
  {
    forall k :: 0 <= k < |s| ==> IsAsciiDigit(s[k])
  }

  /** The characters the placeholders are made of. */
  predicate PlaceholderChar(c: char)
  {
    ('A' <= c <= 'Z' && c != 'H') || c == '_' || c == '[' || c == ']'
  }

  predicate IsPlaceholder(t: string)
  {
    t != [] && forall k :: 0 <= k < |t| ==> PlaceholderChar(t[k])
  }

  /** A placeholder is left alone by every rule: sanitising it returns it. */
  lemma PlaceholderIsFixed(t: string)
    requires IsPlaceholder(t)
    ensures SanitizeText(t) == t
  {
    PlaceholderIsPlain(t);
    SanitizePlainText(t);
    TrimUnchanged(t);
  }

  lemma PlaceholderIsPlain(t: string)
    requires IsPlaceholder(t)
    ensures PlainText(t) && NoEdgeSpace(t)
  {
    forall k | 0 <= k < |t| ensures !IsAsciiDigit(t[k]) && t[k] != '@' && !LowerAt(t, k, "http") && !IsPhoneChar(t[k]) {
      PlaceholderCharIsInert(t[k]);
    }
    PhoneFreeHasNoPhoneNumber(t);
    PlaceholderCharIsInert(t[0]);
    PlaceholderCharIsInert(t[|t| - 1]);
  }

  lemma PlaceholderCharIsInert(c: char)
    requires PlaceholderChar(c)
    ensures !IsAsciiDigit(c) && c != '@' && AsciiLower(c) != "http"[0] && !IsPhoneChar(c) && !IsWhiteSpace(c)
  {
  }

  lemma PhoneFreeHasNoPhoneNumber(t: string)
    requires PhoneFree(t)
    ensures NoPhoneNumber(t)
  {
    forall k | 0 <= k < |t| ensures RunLength(t, k, IsPhoneChar) < 10 {
      assert !IsPhoneChar(t[k]);
    }
  }

  lemma PlaceholdersArePhoneFree()
    ensures PhoneFree(CpfToken) && PhoneFree(PhoneToken)
  {
    assert IsPlaceholder(PhoneToken) && IsPlaceholder(CpfToken);
  }

  lemma PlaceholdersAreFixed()
    ensures SanitizeText(UrlToken) == UrlToken && SanitizeText(EmailToken) == EmailToken
    ensures SanitizeText(PhoneToken) == PhoneToken && SanitizeText(CpfToken) == CpfToken
  {
    assert IsPlaceholder(UrlToken) && IsPlaceholder(EmailToken) && IsPlaceholder(PhoneToken) && IsPlaceholder(CpfToken);
    PlaceholderIsFixed(UrlToken);
    PlaceholderIsFixed(EmailToken);
    PlaceholderIsFixed(PhoneToken);
    PlaceholderIsFixed(CpfToken);
  }

  /** The phone rule runs before the CPF rule: ten or more bare digits,
      an unformatted CPF number included, become the phone placeholder. */
  lemma DigitStringIsPhone(s: string)
    requires |s| >= 10 && AllDigits(s)
    ensures SanitizeText(s) == PhoneToken
  {
    assert forall m :: 0 <= m < |s| ==> IsAsciiDigit(s[m]) && s[m] != '@' && AsciiLower(s[m]) != "http"[0];
    NoLetterH(s);
    UrlRuleSkips(s);
    EmailRuleSkips(s);
    WholePhoneRun(s);
    PlaceholderIsPlain(PhoneToken);
    CpfRuleSkips(PhoneToken);
    TrimUnchanged(PhoneToken);
  }

  lemma WholePhoneRun(s: string)
    requires |s| >= 10 && forall m :: 0 <= m < |s| ==> IsPhoneChar(s[m])
    ensures RemovePhones(s) == PhoneToken
  {
    RunLengthToEnd(s, 0, IsPhoneChar);
    WholeMatchReplaced(s, PhoneMatch, PhoneToken);
  }

  /** A CPF number written with its dots and hyphen becomes the CPF placeholder. */
  lemma FormattedCpfIsRemoved(a: string, b: string, c: string, d: string)
    requires |a| == 3 && |b| == 3 && |c| == 3 && |d| == 2
    requires AllDigits(a) && AllDigits(b) && AllDigits(c) && AllDigits(d)
    ensures SanitizeText(a + "." + b + "." + c + "-" + d) == CpfToken
  {
    var s := a + "." + b + "." + c + "-" + d;
    assert CpfShaped(s) by {
      assert forall k :: 0 <= k < 14 && k != 3 && k != 7 && k != 11 ==> IsAsciiDigit(s[k]);
    }
    EarlierRulesSkipCpf(s);
    assert CpfMatch(s, 0) == 14;
    WholeMatchReplaced(s, CpfMatch, CpfToken);
    TrimUnchanged(CpfToken);
  }

  /** Eleven digits laid out as `ddd.ddd.ddd-dd`. */
  predicate CpfShaped(s: string)
  {
    |s| == 14 && s[3] == '.' && s[7] == '.' && s[11] == '-' &&
    forall k :: 0 <= k < 14 && k != 3 && k != 7 && k != 11 ==> IsAsciiDigit(s[k])
  }

  /** The URL, e-mail and phone rules leave a formatted CPF alone. */
  lemma EarlierRulesSkipCpf(s: string)
    requires CpfShaped(s)
    ensures RemovePhones(RemoveEmails(RemoveUrls(s))) == s
  {
    assert !IsPhoneChar(s[3]) && !IsPhoneChar(s[7]);
    assert forall m :: 0 <= m < |s| ==> s[m] != '@' && AsciiLower(s[m]) != "http"[0];
    forall k | 0 <= k < |s| ensures UrlMatch(s, k) == 0 && EmailMatch(s, k) == 0 && PhoneMatch(s, k) == 0 {
      assert AsciiLower(s[k]) != "http"[0];
    }
    ReplaceNothing(s, UrlMatch, UrlToken);
    ReplaceNothing(s, EmailMatch, EmailToken);
    ReplaceNothing(s, PhoneMatch, PhoneToken);
  }

  /** Sanitising twice is not sanitising once: removing a phone number can
      complete a URL that the earlier URL rule did not match. */
  lemma SanitizeTextNotIdempotent(d: string)
    requires |d| >= 9 && AllDigits(d)
    ensures SanitizeText("http:// " + d) == "http://" + PhoneToken
    ensures SanitizeText(SanitizeText("http:// " + d)) == UrlToken != SanitizeText("http:// " + d)
  {
    SpaceBreaksUrl(d);
    PlaceholderCompletesUrl(PhoneToken);
    assert |UrlToken| < |"http://" + PhoneToken|;
  }

  /** A space after the scheme stops the URL rule; the digits after it,
      with the space, are then a phone number. */
  lemma SpaceBreaksUrl(d: string)
    requires |d| >= 9 && AllDigits(d)
    ensures SanitizeText("http:// " + d) == "http://" + PhoneToken
  {
    FirstRulesSkipBrokenUrl(d);
    PhoneAfterBrokenUrl(d);
    assert IsPlaceholder(PhoneToken);
    SchemeThenPlaceholderIsKept(PhoneToken);
  }

  lemma SchemeThenPlaceholderIsKept(p: string)
    requires IsPlaceholder(p)
    ensures Trim(RemoveCpfs("http://" + p)) == "http://" + p
  {
    var t := "http://" + p;
    forall m | 0 <= m < |t| ensures !IsAsciiDigit(t[m]) {
      if m >= 7 {
        assert t[m] == p[m - 7];
        PlaceholderCharIsInert(p[m - 7]);
      }
    }
    CpfRuleSkips(t);
    assert t[|t| - 1] == p[|p| - 1];
    PlaceholderCharIsInert(p[|p| - 1]);
    TrimUnchanged(t);
  }

  lemma FirstRulesSkipBrokenUrl(d: string)
    requires AllDigits(d)
    ensures RemoveEmails(RemoveUrls("http:// " + d)) == "http:// " + d
  {
    var s := "http:// " + d;
    assert forall m :: 8 <= m < |s| ==> s[m] == d[m - 8];
    assert forall m :: 1 <= m < |s| ==> AsciiLower(s[m]) != "http"[0] && s[m] != '@';
    assert s[0] != '@';
    forall k | 0 <= k < |s| ensures UrlMatch(s, k) == 0 {
      if k == 0 {
        assert !NotWhiteSpace(s[7]);
      } else {
        assert AsciiLower(s[k + 0]) != "http"[0];
      }
    }
    ReplaceNothing(s, UrlMatch, UrlToken);
    EmailRuleSkips(s);
  }

  lemma PhoneAfterBrokenUrl(d: string)
    requires |d| >= 9 && AllDigits(d)
    ensures RemovePhones("http:// " + d) == "http://" + PhoneToken
  {
    var s := "http:// " + d;
    SchemeHasNoPhone(d);
    ReplaceSkip(s, 0, 7, PhoneMatch, PhoneToken);
    DigitTailIsPhone(d);
    assert s[0..7] == "http://";
  }

  /** No phone number starts inside the scheme "http:/". */
  lemma SchemeHasNoPhone(d: string)
    ensures forall k :: 0 <= k < 7 ==> PhoneMatch("http:// " + d, k) == 0
  {
    var s := "http:// " + d;
    assert !IsPhoneChar(s[4]) && !IsPhoneChar(s[5]) && !IsPhoneChar(s[6]);
    forall k | 0 <= k < 7 ensures PhoneMatch(s, k) == 0 {
      if k <= 3 {
        assert RunLength(s, k, IsPhoneChar) <= 4 - k;
      }
    }
  }

  /** The space and the nine or more digits after "http://" are one phone number. */
  lemma DigitTailIsPhone(d: string)
    requires |d| >= 9 && AllDigits(d)
    ensures ReplaceFrom("http:// " + d, 7, PhoneMatch, PhoneToken) == PhoneToken
  {
    var s := "http:// " + d;
    forall m | 7 <= m < |s| ensures IsPhoneChar(s[m]) {
      if m == 7 {
        assert s[m] == ' ';
      } else {
        assert s[m] == d[m - 8] && IsAsciiDigit(d[m - 8]);
      }
    }
    RunLengthToEnd(s, 7, IsPhoneChar);
    assert PhoneMatch(s, 7) == |s| - 7;
    assert ReplaceFrom(s, 7, PhoneMatch, PhoneToken) == PhoneToken + ReplaceFrom(s, |s|, PhoneMatch, PhoneToken);
  }

  /** "http://" followed by a placeholder is a URL. */
  lemma PlaceholderCompletesUrl(p: string)
    requires IsPlaceholder(p)
    ensures SanitizeText("http://" + p) == UrlToken
  {
    var t := "http://" + p;
    SchemeThenPlaceholderMatches(p);
    WholeMatchReplaced(t, UrlMatch, UrlToken);
    assert IsPlaceholder(UrlToken);
    PlaceholderIsPlain(UrlToken);
    LaterRulesSkip(UrlToken);
    TrimUnchanged(UrlToken);
  }

  lemma SchemeThenPlaceholderMatches(p: string)
    requires IsPlaceholder(p)
    ensures UrlMatch("http://" + p, 0) == |"http://" + p|
  {
    var t := "http://" + p;
    assert forall m :: 7 <= m < |t| ==> NotWhiteSpace(t[m]) by {
      forall m | 7 <= m < |t| ensures NotWhiteSpace(t[m]) {
        assert t[m] == p[m - 7];
        PlaceholderCharIsInert(p[m - 7]);
      }
    }
    RunLengthToEnd(t, 7, NotWhiteSpace);
    assert t[0] == 'h' && t[1] == 't' && t[2] == 't' && t[3] == 'p' && t[4] == ':' && t[5] == '/' && t[6] == '/';
    assert AsciiLower(t[4 + 0]) != "s"[0];
    assert LowerAt(t, 0, "http");
    assert t[4..7] == "://";
  }

  // ---------------------------------------------------------------------------
  // sanitizeContact.

  /** The index of the first `c` in `s`, or `|s|`. */
  function IndexOf(s: string, c: char): (i: nat)
    ensures i <= |s|
    ensures i < |s| ==> s[i] == c
    ensures forall k :: 0 <= k < i ==> s[k] != c
  {
    if s == [] then 0 else if s[0] == c then 0 else 1 + IndexOf(s[1..], c)
  }

  /** `s.split('@')[1]` for an `s` holding an '@': the text between the
      first '@' and the next one, or the end. */
  function SecondField(s: string): string
    requires '@' in s
  {
    var after := s[IndexOf(s, '@') + 1..];
    after[..IndexOf(after, '@')]
  }

  /** The ASCII digits of `s`, in order (`s.replace(/\D/g, '')`). */
  function Digits(s: string): (r: string)
    ensures |r| <= |s|
    ensures AllDigits(r)
  {
    if s == [] then [] else (if IsAsciiDigit(s[0]) then [s[0]] else []) + Digits(s[1..])
  }

  /** `/\d{8,}/.test(s)`. */
  predicate HasDigitRun(s: string)
  {
    exists k :: 0 <= k < |s| && RunLength(s, k, IsAsciiDigit) >= 8
  }

  lemma {:induction false} DigitsOfRun(s: string, k: nat)
    requires k <= |s|
    ensures |Digits(s)| >= RunLength(s, k, IsAsciiDigit)
    decreases |s|
  {
    if s != [] {
      if k == 0 {
        if IsAsciiDigit(s[0]) {
          DigitsOfRun(s[1..], 0);
          RunLengthShift([s[0]], s[1..], 0, IsAsciiDigit);
          assert [s[0]] + s[1..] == s;
        }
      } else {
        DigitsOfRun(s[1..], k - 1);
        RunLengthShift([s[0]], s[1..], k - 1, IsAsciiDigit);
        assert [s[0]] + s[1..] == s;
      }
    }
  }

  /** A run of eight digits means at least eight digits overall. */
  lemma DigitRunDigits(s: string)
    requires HasDigitRun(s)
    ensures |Digits(s)| >= 8
  {
    var k :| 0 <= k < |s| && RunLength(s, k, IsAsciiDigit) >= 8;
    DigitsOfRun(s, k);
  }

  lemma {:induction false} DigitsOfDigitString(s: string)
    requires AllDigits(s)
    ensures Digits(s) == s
  {
    if s != [] {
      DigitsOfDigitString(s[1..]);
    }
  }

  /** Three asterisks somewhere in `r`. */
  predicate HasMask(r: string)
  {
    exists k :: 0 <= k && k + 3 <= |r| && r[k] == '*' && r[k + 1] == '*' && r[k + 2] == '*'
  }

  /** `sanitizeContact`: an e-mail keeps only its domain, a phone number only
      its last four digits, anything else longer than four characters its
      first and last two; the result always holds a mask. */
  function SanitizeContact(contact: string): (r: string)
    ensures |r| >= 3 && HasMask(r)
  {
    if '@' in contact then
      var r := "***@" + SecondField(contact);
      assert r[0] == '*' && r[1] == '*' && r[2] == '*';
      r
    else if HasDigitRun(contact) then
      var d := Digits(contact);
      DigitRunDigits(contact);
      var r := "****" + d[|d| - 4..];
      assert r[0] == '*' && r[1] == '*' && r[2] == '*';
      r
    else if |contact| > 4 then
      var r := contact[..2] + "***" + contact[|contact| - 2..];
      assert r[2] == '*' && r[3] == '*' && r[4] == '*';
      r
    else
      var r := "***";
      assert r[0] == '*' && r[1] == '*' && r[2] == '*';
      r
  }

  /** An e-mail contact `u@v...` with no '@' in `u` or `v` masks to "***@v". */
  lemma ContactEmailKeepsDomain(u: string, v: string, w: string)
    requires '@' !in u && '@' !in v && (w == [] || w[0] == '@')
    ensures SanitizeContact(u + "@" + v + w) == "***@" + v
  {
    var s := u + "@" + v + w;
    assert s[|u|] == '@';
    assert forall k :: 0 <= k < |u| ==> s[k] == u[k];
    assert IndexOf(s, '@') == |u|;
    var after := s[|u| + 1..];
    assert after == v + w;
    assert forall k :: 0 <= k < |v| ==> after[k] == v[k];
    assert w != [] ==> after[|v|] == '@';
    assert IndexOf(after, '@') == |v|;
  }

  /** A contact without '@' and with eight digits in a row masks to eight
      characters: four asterisks and the last four of all its digits. */
  lemma ContactPhoneKeepsLastFour(contact: string)
    requires '@' !in contact && HasDigitRun(contact)
    ensures var r := SanitizeContact(contact);
      var d := Digits(contact);
      |d| >= 8 && |r| == 8 && r[..4] == "****" && r[4..] == d[|d| - 4..]
  {
    DigitRunDigits(contact);
  }

  /** Any other contact is cut to its first and last two characters around
      a mask when longer than four characters, and to the mask alone otherwise. */
  lemma ContactOtherMasked(contact: string)
    requires '@' !in contact && !HasDigitRun(contact)
    ensures |contact| > 4 ==> (|SanitizeContact(contact)| == 7 &&
      SanitizeContact(contact) == contact[..2] + "***" + contact[|contact| - 2..])
    ensures |contact| <= 4 ==> SanitizeContact(contact) == "***"
  {
  }

  /** Masking is not idempotent: an eight-digit phone number masks to four
      asterisks and its last four digits, and masking that again cuts it
      to its ends. */
  lemma SanitizeContactNotIdempotent(d: string)
    requires |d| == 8 && AllDigits(d)
    ensures SanitizeContact(d) == "****" + d[4..]
    ensures SanitizeContact(SanitizeContact(d)) == "*****" + d[6..]
  {
    EightDigitsMasked(d);
    var t := "****" + d[4..];
    MaskRemasked(t);
    assert t[..2] + "***" + t[6..] == "*****" + d[6..];
  }

  /** Eight bare digits are a phone number: four asterisks and the last four remain. */
  lemma EightDigitsMasked(d: string)
    requires |d| == 8 && AllDigits(d)
    ensures SanitizeContact(d) == "****" + d[4..]
  {
    assert forall k :: 0 <= k < |d| ==> d[k] != '@';
    RunLengthToEnd(d, 0, IsAsciiDigit);
    DigitsOfDigitString(d);
  }

  /** Four asterisks and four digits have no '@' and no run of eight digits,
      so they are cut to their ends. */
  lemma MaskRemasked(t: string)
    requires |t| == 8 && t[..4] == "****" && AllDigits(t[4..])
    ensures SanitizeContact(t) == t[..2] + "***" + t[6..]
  {
    assert forall k :: 0 <= k < |t| ==> t[k] != '@' by {
      forall k | 0 <= k < |t| ensures t[k] != '@' {
        if k < 4 { assert t[k] == t[..4][k]; } else { assert t[k] == t[4..][k - 4]; }
      }
    }
    forall k | 0 <= k < |t| ensures RunLength(t, k, IsAsciiDigit) < 8 {
      if k < 4 { assert t[k] == t[..4][k]; assert !IsAsciiDigit(t[k]); }
    }
  }

  // ---------------------------------------------------------------------------
  // sanitizeDenuncia.

  /** The three free-text fields have the types the report type gives them. */
  predicate TextFieldsTyped(d: Denuncia)
  {
    Get(d, "descricao").Str? &&
    (Get(d, "contato").Undefined? || Get(d, "contato").Str?) &&
    (Get(d, "local").Undefined? || Get(d, "local").Str?)
  }

  /** `contato` or `local` as the spread writes it: an empty or absent value
      becomes `undefined`, a non-empty one goes through `clean`. */
  function Rewritten(v: Value, clean: string -> string): Value
  {
    if v.Str? && v.s != [] then Str(clean(v.s)) else Undefined
  }

  /** `sanitizeDenuncia`: a copy of the report whose `contato`, `descricao`
      and `local` are rewritten; every other key is copied unchanged. */
  function SanitizeDenuncia(d: Denuncia): (r: Denuncia)
    requires TextFieldsTyped(d)
    ensures forall k :: k != "contato" && k != "descricao" && k != "local" ==>
      (k in r <==> k in d) && (k in d ==> r[k] == d[k])
    ensures "contato" in r && "descricao" in r && "local" in r
    ensures r["descricao"] == Str(SanitizeText(d["descricao"].s))
    ensures r["contato"] == Rewritten(Get(d, "contato"), SanitizeContact)
    ensures r["local"] == Rewritten(Get(d, "local"), SanitizeText)
  {
    d["contato" := Rewritten(Get(d, "contato"), SanitizeContact)]
     ["descricao" := Str(SanitizeText(d["descricao"].s))]
     ["local" := Rewritten(Get(d, "local"), SanitizeText)]
  }

  /** What a sanitised report may still hold: its description and location
      carry no phone-like run, and its contact, when kept, is masked. */
  lemma SanitizedReportIsRedacted(d: Denuncia)
    requires TextFieldsTyped(d)
    ensures var r := SanitizeDenuncia(d);
      r["descricao"].Str? && NoPhoneNumber(r["descricao"].s) &&
      (r["local"].Undefined? || (r["local"].Str? && NoPhoneNumber(r["local"].s))) &&
      (r["contato"].Undefined? || (r["contato"].Str? && HasMask(r["contato"].s)))
  {
    SanitizedTextHasNoPhoneNumber(d["descricao"].s);
    if Get(d, "local").Str? {
      SanitizedTextHasNoPhoneNumber(d["local"].s);
    }
  }
}
