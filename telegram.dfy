/** The operator notification (server/utils/telegram.ts, lines 31-63): a
    fixed sequence of lines built by successive pushes and joined with
    newlines, with the free-text fields escaped for the messaging channel's
    markup. Sending the message, formatting the reception time and the
    locale date of the incident are outside the model: the first is a
    network call, the other two are parameters. */
module Telegram {
  import opened Types
  import opened Text

  // ---------------------------------------------------------------------------
  // escapeMarkdown.

  /** The 19 characters the escape pattern matches. */
  predicate IsReserved(c: char)
  {
    c == '\\' || c == '_' || c == '*' || c == '[' || c == ']' || c == '(' || c == ')' ||
    c == '~' || c == '`' || c == '>' || c == '#' || c == '+' || c == '-' || c == '=' ||
    c == '|' || c == '{' || c == '}' || c == '.' || c == '!'
  }

  function CountReserved(s: string): nat
  {
    if s == [] then 0 else (if IsReserved(s[0]) then 1 else 0) + CountReserved(s[1..])
  }

  /** `escapeMarkdown`: a backslash before every reserved character; the
      output is longer than the input by the number of reserved characters. */
  function EscapeMarkdown(s: string): (r: string)
    ensures |r| == |s| + CountReserved(s)
  {
    if s == [] then []
    else (if IsReserved(s[0]) then ['\\', s[0]] else [s[0]]) + EscapeMarkdown(s[1..])
  }

  /** Drops the backslash in front of each escaped character. */
  function Unescape(r: string): string
  {
    if r == [] then []
    else if r[0] == '\\' && |r| >= 2 then [r[1]] + Unescape(r[2..])
    else [r[0]] + Unescape(r[1..])
  }

  /** Text as escaping leaves it: every reserved character, the backslash
      included, comes as the second half of a backslash pair. */
  predicate Escaped(r: string)
  {
    if r == [] then true
    else if r[0] == '\\' then |r| >= 2 && IsReserved(r[1]) && Escaped(r[2..])
    else !IsReserved(r[0]) && Escaped(r[1..])
  }

  /** Dropping each inserted backslash gives back the input. */
  lemma {:induction false} UnescapeEscape(s: string)
    ensures Unescape(EscapeMarkdown(s)) == s
  {
    if s != [] {
      UnescapeEscape(s[1..]);
      var rest := EscapeMarkdown(s[1..]);
      if IsReserved(s[0]) {
        assert EscapeMarkdown(s) == ['\\', s[0]] + rest;
        assert (['\\', s[0]] + rest)[2..] == rest;
      } else {
        assert EscapeMarkdown(s) == [s[0]] + rest;
        assert ([s[0]] + rest)[1..] == rest;
      }
    }
  }

  /** Escaping yields escaped text, and every escaped text is the escape of
      its unescaping: escaping is a bijection onto escaped text. */
  lemma {:induction false} EscapeIsEscaped(s: string)
    ensures Escaped(EscapeMarkdown(s))
  {
    if s != [] {
      EscapeIsEscaped(s[1..]);
      var rest := EscapeMarkdown(s[1..]);
      if IsReserved(s[0]) {
        assert (['\\', s[0]] + rest)[2..] == rest;
      } else {
        assert ([s[0]] + rest)[1..] == rest;
      }
    }
  }

  lemma {:induction false} EscapedIsEscapeOfUnescape(r: string)
    requires Escaped(r)
    ensures EscapeMarkdown(Unescape(r)) == r
  {
    if r != [] {
      if r[0] == '\\' {
        EscapedIsEscapeOfUnescape(r[2..]);
        assert Unescape(r) == [r[1]] + Unescape(r[2..]);
        assert ([r[1]] + Unescape(r[2..]))[1..] == Unescape(r[2..]);
        assert r == [r[0], r[1]] + r[2..];
      } else {
        EscapedIsEscapeOfUnescape(r[1..]);
        assert ([r[0]] + Unescape(r[1..]))[1..] == Unescape(r[1..]);
        assert r == [r[0]] + r[1..];
      }
    }
  }

  /** Escaping works character by character. */
  lemma {:induction false} EscapeAppend(a: string, b: string)
    ensures EscapeMarkdown(a + b) == EscapeMarkdown(a) + EscapeMarkdown(b)
  {
    if a != [] {
      assert (a + b)[0] == a[0] && (a + b)[1..] == a[1..] + b;
      EscapeAppend(a[1..], b);
    } else {
      assert a + b == b;
    }
  }

  /** Text without reserved characters is left as it is. */
  lemma {:induction false} EscapePlain(s: string)
    requires forall k :: 0 <= k < |s| ==> !IsReserved(s[k])
    ensures EscapeMarkdown(s) == s
  {
    if s != [] {
      EscapePlain(s[1..]);
      assert s == [s[0]] + s[1..];
    }
  }

  // ---------------------------------------------------------------------------
  // buildTelegramText.

  /** The argument of `buildTelegramText`. `None` stands for an absent
      property; `submittedAt` is a time in milliseconds. */
  datatype Payload = Payload(
    id: string,
    tipo: string,
    urgencia: string,
    descricao: string,
    local: Option<string>,
    data: Option<string>,
    testemunhas: Option<bool>,
    evidencias: Option<bool>,
    contato: Option<string>,
    submittedAt: Option<int>)

  /** A string property is truthy when present and non-empty. */
  predicate Truthy(v: Option<string>)
  {
    v.Some? && v.value != []
  }

  const TitleLine := "\U{1F6A8} *Nova Denúncia Anônima*"
  const ReceivedPrefix := "\U{1F552} *Recebida em:* "
  const SeparatorLine := "\U{2500}\U{2500}\U{2500}\U{2500}\U{2500}\U{2500}\U{2500}\U{2500}\U{2500}\U{2500}\U{2500}\U{2500}\U{2500}\U{2500}\U{2500}\U{2500}\U{2500}\U{2500}\U{2500}\U{2500}\U{2500}\U{2500}\U{2500}\U{2500}\U{2500}\U{2500}\U{2500}\U{2500}"
  const IdPrefix := "\U{1F194} *ID:* `"
  const TipoPrefix := "\U{1F3F7}\U{FE0F} *Tipo:* "
  const UrgenciaPrefix := "\U{2757} *Urgência:* "
  const LocalPrefix := "\U{1F4CD} *Local:* "
  const DatePrefix := "\U{1F4C5} *Data do ocorrido:* "
  const DescricaoHeading := "*Descrição:*"
  const DescricaoLimit := 3500

  /** The description as sent: its first 3500 characters and an ellipsis
      when longer, otherwise whole. */
  function ClipDescription(d: string): (r: string)
    ensures |d| > DescricaoLimit ==> r == d[..DescricaoLimit] + "…"
    ensures |d| <= DescricaoLimit ==> r == d
  {
    if |d| > DescricaoLimit then d[..DescricaoLimit] + "…" else d
  }

  /** The six lines that open every message. */
  function HeaderLines(p: Payload, receivedAt: string): seq<string>
  {
    [TitleLine,
     ReceivedPrefix + receivedAt,
     SeparatorLine,
     IdPrefix + EscapeMarkdown(p.id) + "`",
     TipoPrefix + EscapeMarkdown(p.tipo),
     UrgenciaPrefix + EscapeMarkdown(ToUpper(p.urgencia))]
  }

  /** The location and incident-date lines, each only when given and non-empty. */
  function OptionalLines(p: Payload, localeDate: string -> string): seq<string>
  {
    (if Truthy(p.local) then [LocalPrefix + EscapeMarkdown(p.local.value)] else []) +
    (if Truthy(p.data) then [DatePrefix + localeDate(p.data.value)] else [])
  }

  /** A blank line, the description heading and the description. */
  function FooterLines(p: Payload): seq<string>
  {
    ["", DescricaoHeading, EscapeMarkdown(ClipDescription(p.descricao))]
  }

  /** The lines of the message, in push order. */
  function MessageLines(p: Payload, receivedAt: string, localeDate: string -> string): seq<string>
  {
    HeaderLines(p, receivedAt) + OptionalLines(p, localeDate) + FooterLines(p)
  }

  /** `lines.join('\n')`. */
  function JoinLines(lines: seq<string>): string
  {
    if lines == [] then ""
    else if |lines| == 1 then lines[0]
    else lines[0] + "\n" + JoinLines(lines[1..])
  }

  /** The reception time: `submittedAt` when given, else the current time. */
  function ReceivedTime(p: Payload, now: int): int
  {
    if p.submittedAt.Some? then p.submittedAt.value else now
  }

  /** `buildTelegramText`, with the clock as `now` and the two date
      formatters as parameters. */
  method BuildTelegramText(p: Payload, now: int, formatDateTime: int -> string, localeDate: string -> string)
    returns (text: string)
    ensures text == JoinLines(MessageLines(p, formatDateTime(ReceivedTime(p, now)), localeDate))
  {
    var lines: seq<string> := [];
    var receivedAt := formatDateTime(if p.submittedAt.Some? then p.submittedAt.value else now);
    lines := lines + [TitleLine];
    lines := lines + [ReceivedPrefix + receivedAt];
    lines := lines + [SeparatorLine];
    lines := lines + [IdPrefix + EscapeMarkdown(p.id) + "`"];
    lines := lines + [TipoPrefix + EscapeMarkdown(p.tipo)];
    lines := lines + [UrgenciaPrefix + EscapeMarkdown(ToUpper(p.urgencia))];
    assert lines == HeaderLines(p, receivedAt);
    if p.local.Some? && p.local.value != [] {
      lines := lines + [LocalPrefix + EscapeMarkdown(p.local.value)];
    }
    if p.data.Some? && p.data.value != [] {
      lines := lines + [DatePrefix + localeDate(p.data.value)];
    }
    assert lines == HeaderLines(p, receivedAt) + OptionalLines(p, localeDate);
    lines := lines + [""];
    var desc := if |p.descricao| > 3500 then p.descricao[..3500] + "…" else p.descricao;
    lines := lines + [DescricaoHeading];
    lines := lines + [EscapeMarkdown(desc)];
    assert lines == MessageLines(p, receivedAt, localeDate);
    text := JoinLines(lines);
  }

  // ---------------------------------------------------------------------------
  // The shape of the message.

  function OptionalCount(p: Payload): nat
  {
    (if Truthy(p.local) then 1 else 0) + (if Truthy(p.data) then 1 else 0)
  }

  /** Nine fixed lines, one more for each optional line present; the fixed
      lines keep their places, the reception time and the incident date are
      inserted unescaped and every other field escaped. */
  lemma MessageShape(p: Payload, receivedAt: string, localeDate: string -> string)
    ensures var lines := MessageLines(p, receivedAt, localeDate);
      var n := |lines|;
      n == 9 + OptionalCount(p) &&
      lines[0] == TitleLine &&
      lines[1] == ReceivedPrefix + receivedAt &&
      lines[2] == SeparatorLine &&
      lines[3] == IdPrefix + EscapeMarkdown(p.id) + "`" &&
      lines[4] == TipoPrefix + EscapeMarkdown(p.tipo) &&
      lines[5] == UrgenciaPrefix + EscapeMarkdown(ToUpper(p.urgencia)) &&
      (Truthy(p.local) ==> lines[6] == LocalPrefix + EscapeMarkdown(p.local.value)) &&
      (Truthy(p.data) ==> lines[n - 4] == DatePrefix + localeDate(p.data.value)) &&
      lines[n - 3] == "" && lines[n - 2] == DescricaoHeading &&
      lines[n - 1] == EscapeMarkdown(ClipDescription(p.descricao))
  {
  }

  predicate StartsWith(s: string, prefix: string)
  {
    |prefix| <= |s| && s[..|prefix|] == prefix
  }

  /** An escaped text never starts with a character, a space and a bare asterisk. */
  lemma EscapedNeverStartsBare(s: string, e: char)
    requires e != '\\' && !IsReserved(e)
    ensures !StartsWith(EscapeMarkdown(s), [e, ' ', '*'])
  {
    var r := EscapeMarkdown(s);
    if |r| >= 3 && r[0] == e && r[1] == ' ' {
      assert !IsReserved(s[0]);
      var r1 := EscapeMarkdown(s[1..]);
      assert r == [s[0]] + r1;
      assert r1[0] == ' ';
      assert !IsReserved(s[1]);
      var r2 := EscapeMarkdown(s[2..]);
      assert s[1..][1..] == s[2..];
      assert r1 == [s[1]] + r2;
      assert r[2] == r2[0] != '*';
    }
    if |r| >= 3 {
      assert r[..3] == [r[0], r[1], r[2]];
    }
  }

  lemma StartsWithPrefix(s: string, p: string, k: nat)
    requires k <= |p|
    ensures StartsWith(s, p) ==> StartsWith(s, p[..k])
  {
    if |p| <= |s| {
      assert s[..k] == s[..|p|][..k];
    }
  }

  /** Some line starts with the location label exactly when a non-empty
      location was given, and likewise for the incident-date label. */
  lemma OptionalLinesPresence(p: Payload, receivedAt: string, localeDate: string -> string)
    ensures var lines := MessageLines(p, receivedAt, localeDate);
      ((exists i :: 0 <= i < |lines| && StartsWith(lines[i], LocalPrefix)) <==> Truthy(p.local)) &&
      ((exists i :: 0 <= i < |lines| && StartsWith(lines[i], DatePrefix)) <==> Truthy(p.data))
  {
    var lines := MessageLines(p, receivedAt, localeDate);
    MessageShape(p, receivedAt, localeDate);
    if i :| 0 <= i < |lines| && StartsWith(lines[i], LocalPrefix) {
      PrefixedLine(p, receivedAt, localeDate, i, LocalPrefix);
    }
    if i :| 0 <= i < |lines| && StartsWith(lines[i], DatePrefix) {
      PrefixedLine(p, receivedAt, localeDate, i, DatePrefix);
    }
    if Truthy(p.local) { assert StartsWith(lines[6], LocalPrefix); }
    if Truthy(p.data) { assert StartsWith(lines[|lines| - 4], DatePrefix); }
  }

  /** A line that starts with the location or incident-date label is that
      optional line. */
  lemma PrefixedLine(p: Payload, receivedAt: string, localeDate: string -> string, i: nat, prefix: string)
    requires prefix == LocalPrefix || prefix == DatePrefix
    requires i < |MessageLines(p, receivedAt, localeDate)|
    requires StartsWith(MessageLines(p, receivedAt, localeDate)[i], prefix)
    ensures prefix == LocalPrefix ==> Truthy(p.local)
    ensures prefix == DatePrefix ==> Truthy(p.data)
  {
    var lines := MessageLines(p, receivedAt, localeDate);
    var n := |lines|;
    MessageShape(p, receivedAt, localeDate);
    StartsWithPrefix(lines[i], prefix, 1);
    assert lines[i][0] == prefix[0];
    if i == n - 1 {
      EscapedLacksLabel(ClipDescription(p.descricao), prefix);
    }
  }

  /** Escaped text never starts with the location or incident-date label. */
  lemma EscapedLacksLabel(s: string, prefix: string)
    requires prefix == LocalPrefix || prefix == DatePrefix
    ensures !StartsWith(EscapeMarkdown(s), prefix)
  {
    EscapedNeverStartsBare(s, prefix[0]);
    assert prefix[..3] == [prefix[0], ' ', '*'];
    StartsWithPrefix(EscapeMarkdown(s), prefix, 3);
  }

  /** A long description is cut to 3500 characters and an ellipsis before
      it is escaped; a short one is escaped whole. */
  lemma DescriptionLine(p: Payload, receivedAt: string, localeDate: string -> string)
    ensures var lines := MessageLines(p, receivedAt, localeDate);
      lines[|lines| - 1] ==
        if |p.descricao| > DescricaoLimit then EscapeMarkdown(p.descricao[..DescricaoLimit]) + "…"
        else EscapeMarkdown(p.descricao)
  {
    if |p.descricao| > DescricaoLimit {
      EscapeAppend(p.descricao[..DescricaoLimit], "…");
      EscapePlain("…");
    }
  }

  /** Witnesses, evidence and the contact never reach the message. */
  lemma MessageIgnoresPrivateFlags(p: Payload, testemunhas: Option<bool>, evidencias: Option<bool>, contato: Option<string>,
                                   receivedAt: string, localeDate: string -> string)
    ensures MessageLines(p.(testemunhas := testemunhas, evidencias := evidencias, contato := contato), receivedAt, localeDate)
         == MessageLines(p, receivedAt, localeDate)
  {
  }
}
