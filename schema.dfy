/** The report schema and its validator (app/utils/validation.ts, lines
    5-48). The schema library checks every key of the schema in order and
    collects one issue per broken rule; `ValidateDenuncia` then writes the
    issues into a field-to-message map, a later message for the same field
    overwriting an earlier one. */
module Schema {
  import opened Types
  import opened Text

  const TipoOptions: seq<string> := ["porte", "trafico", "ameaca", "disparos", "outros"]
  const UrgenciaOptions: seq<string> := ["baixa", "media", "alta"]

  /** The keys of the schema, in the order the object parser visits them. */
  const SchemaKeys: seq<string> :=
    ["tipo", "descricao", "local", "data", "testemunhas", "evidencias", "contato", "urgencia"]

  const DescricaoMin := 10
  const DescricaoMax := 2000
  const LocalMax := 200
  const ContatoMax := 200

  const TipoRequired := "Selecione o tipo de denúncia"
  const TipoInvalidType := "Tipo de denúncia inválido"
  const UrgenciaRequired := "Selecione o nível de urgência"
  const UrgenciaInvalidType := "Nível de urgência inválido"
  const DescricaoTooShort := "A descrição deve ter pelo menos 10 caracteres"
  const DescricaoTooLong := "A descrição não pode exceder 2000 caracteres"
  const DescricaoBlank := "A descrição é obrigatória"
  const LocalTooLong := "O local não pode exceder 200 caracteres"
  const ContatoTooLong := "O contato não pode exceder 200 caracteres"

  /** One broken rule. `field` is the first element of the issue's path; the
      empty string stands for an issue about the whole body (empty path). */
  datatype Issue = Issue(field: string, message: string)

  // ---------------------------------------------------------------------------
  // The rules, one function per kind of schema entry.

  /** The schema library's default message for a value of the wrong type. */
  function TypeMessage(expected: string, v: Value): string
  {
    if v.Undefined? then "Required" else "Expected " + expected + ", received " + ParsedType(v)
  }

  /** The options of an enumeration as the default message lists them: 'a' | 'b'. */
  function QuotedOptions(options: seq<string>): string
  {
    if options == [] then ""
    else if |options| == 1 then "'" + options[0] + "'"
    else "'" + options[0] + "' | " + QuotedOptions(options[1..])
  }

  /** An enumeration with custom required and invalid-type messages. */
  function EnumIssues(field: string, v: Value, options: seq<string>, required: string, invalidType: string): (r: seq<Issue>)
    ensures forall i :: 0 <= i < |r| ==> r[i].field == field
    ensures r == [] <==> v.Str? && v.s in options
  {
    match v
    case Undefined => [Issue(field, required)]
    case Str(s) =>
      if s in options then []
      else [Issue(field, "Invalid enum value. Expected " + QuotedOptions(options) + ", received '" + s + "'")]
    case _ => [Issue(field, invalidType)]
  }

  /** `descricao`: a string, then min, max and the non-blank refinement, all
      three checked (the refinement also runs after a failed length check). */
  function DescricaoIssues(v: Value): (r: seq<Issue>)
    ensures forall i :: 0 <= i < |r| ==> r[i].field == "descricao"
  {
    if !v.Str? then [Issue("descricao", TypeMessage("string", v))]
    else
      (if |v.s| < DescricaoMin then [Issue("descricao", DescricaoTooShort)] else []) +
      (if |v.s| > DescricaoMax then [Issue("descricao", DescricaoTooLong)] else []) +
      (if |Trim(v.s)| == 0 then [Issue("descricao", DescricaoBlank)] else [])
  }

  /** An optional string with a maximum length. */
  function BoundedTextIssues(field: string, v: Value, max: nat, tooLong: string): (r: seq<Issue>)
    ensures forall i :: 0 <= i < |r| ==> r[i].field == field
  {
    match v
    case Undefined => []
    case Str(s) => if |s| > max then [Issue(field, tooLong)] else []
    case _ => [Issue(field, TypeMessage("string", v))]
  }

  /** An optional value of one primitive type ("string" or "boolean"). */
  function OptionalIssues(field: string, v: Value, expected: string): (r: seq<Issue>)
    ensures forall i :: 0 <= i < |r| ==> r[i].field == field
  {
    var ok := v.Undefined? || (expected == "string" && v.Str?) || (expected == "boolean" && v.Bool?);
    if ok then [] else [Issue(field, TypeMessage(expected, v))]
  }

  /** The issues the rule for `key` raises on the body's fields. */
  function FieldIssues(fields: map<string, Value>, key: string): (r: seq<Issue>)
    ensures forall i :: 0 <= i < |r| ==> r[i].field == key
  {
    var v := Get(fields, key);
    if key == "tipo" then EnumIssues(key, v, TipoOptions, TipoRequired, TipoInvalidType)
    else if key == "descricao" then DescricaoIssues(v)
    else if key == "local" then BoundedTextIssues(key, v, LocalMax, LocalTooLong)
    else if key == "data" then OptionalIssues(key, v, "string")
    else if key == "testemunhas" || key == "evidencias" then OptionalIssues(key, v, "boolean")
    else if key == "contato" then BoundedTextIssues(key, v, ContatoMax, ContatoTooLong)
    else if key == "urgencia" then EnumIssues(key, v, UrgenciaOptions, UrgenciaRequired, UrgenciaInvalidType)
    else []
  }

  function KeyIssues(fields: map<string, Value>, keys: seq<string>): seq<Issue>
  {
    if keys == [] then [] else FieldIssues(fields, keys[0]) + KeyIssues(fields, keys[1..])
  }

  /** Every issue parsing `body` against the schema raises, in order. A body
      that is not an object raises one issue about the whole body. */
  function SchemaIssues(body: Value): seq<Issue>
  {
    match body
    case Obj(fields) => KeyIssues(fields, SchemaKeys)
    case _ => [Issue("", TypeMessage("object", body))]
  }

  // ---------------------------------------------------------------------------
  // What a conforming report is, stated field by field.

  /** The rule for `key`, stated positively. */
  predicate FieldConforms(fields: map<string, Value>, key: string)
  {
    var v := Get(fields, key);
    if key == "tipo" then v.Str? && v.s in TipoOptions
    else if key == "urgencia" then v.Str? && v.s in UrgenciaOptions
    else if key == "descricao" then v.Str? && DescricaoMin <= |v.s| <= DescricaoMax && Trim(v.s) != []
    else if key == "local" then v.Undefined? || (v.Str? && |v.s| <= LocalMax)
    else if key == "contato" then v.Undefined? || (v.Str? && |v.s| <= ContatoMax)
    else if key == "data" then v.Undefined? || v.Str?
    else if key == "testemunhas" || key == "evidencias" then v.Undefined? || v.Bool?
    else true
  }

  /** A body the schema accepts: an object whose `tipo` and `urgencia` are
      members of their enumerations, whose `descricao` is a non-blank string
      of 10 to 2000 characters, whose `local` and `contato`, when present, are
      strings of at most 200 characters, whose `data`, when present, is a
      string and whose `testemunhas` and `evidencias`, when present, are
      booleans. Keys outside the schema are not looked at. */
  predicate Conforms(body: Value)
  {
    body.Obj? && forall k :: k in SchemaKeys ==> FieldConforms(body.fields, k)
  }

  lemma FieldIssuesEmpty(fields: map<string, Value>, key: string)
    ensures FieldIssues(fields, key) == [] <==> FieldConforms(fields, key)
  {
  }

  lemma {:induction false} KeyIssuesEmpty(fields: map<string, Value>, keys: seq<string>)
    ensures KeyIssues(fields, keys) == [] <==> forall k :: k in keys ==> FieldConforms(fields, k)
  {
    if keys != [] {
      FieldIssuesEmpty(fields, keys[0]);
      KeyIssuesEmpty(fields, keys[1..]);
      assert forall k :: k in keys <==> k == keys[0] || k in keys[1..];
    }
  }

  /** The schema raises no issue exactly on a conforming body. */
  lemma SchemaIssuesEmpty(body: Value)
    ensures SchemaIssues(body) == [] <==> Conforms(body)
  {
    if body.Obj? { KeyIssuesEmpty(body.fields, SchemaKeys); }
  }

  // ---------------------------------------------------------------------------
  // Collecting the issues into the error map.

  /** The error map after writing `issues` in order: each issue with a field
      sets that field's message, so a later issue for the same field
      overwrites an earlier one; issues about the whole body are skipped. */
  function FieldErrors(issues: seq<Issue>): FormErrors
  {
    if issues == [] then map[]
    else
      var errors := FieldErrors(issues[..|issues| - 1]);
      var last := issues[|issues| - 1];
      if last.field != "" then errors[last.field := last.message] else errors
  }

  lemma {:induction false} FieldErrorsAppend(a: seq<Issue>, b: seq<Issue>)
    ensures FieldErrors(a + b) == FieldErrors(a) + FieldErrors(b)
    decreases |b|
  {
    if b == [] {
      assert a + b == a;
    } else {
      var b' := b[..|b| - 1];
      assert (a + b)[..|a + b| - 1] == a + b';
      assert (a + b)[|a + b| - 1] == b[|b| - 1];
      FieldErrorsAppend(a, b');
    }
  }

  /** Issues that all name one field leave exactly that field's last message. */
  lemma {:induction false} FieldErrorsOfOneField(key: string, g: seq<Issue>)
    requires key != ""
    requires forall i :: 0 <= i < |g| ==> g[i].field == key
    ensures FieldErrors(g) == if g == [] then map[] else map[key := g[|g| - 1].message]
    decreases |g|
  {
    if g != [] {
      FieldErrorsOfOneField(key, g[..|g| - 1]);
    }
  }

  /** The message a field ends up with: the last of its own issues. */
  function LastMessage(g: seq<Issue>): string
    requires g != []
  {
    g[|g| - 1].message
  }

  /** Over several keys, each field with issues ends up with its own last message. */
  lemma {:induction false} KeyIssuesErrors(fields: map<string, Value>, keys: seq<string>)
    requires "" !in keys
    ensures forall k :: k in FieldErrors(KeyIssues(fields, keys)) <==> k in keys && FieldIssues(fields, k) != []
    ensures forall k :: k in FieldErrors(KeyIssues(fields, keys)) ==>
      FieldErrors(KeyIssues(fields, keys))[k] == LastMessage(FieldIssues(fields, k))
  {
    if keys != [] {
      var k0, g0, rest := keys[0], FieldIssues(fields, keys[0]), keys[1..];
      KeyIssuesErrors(fields, rest);
      FieldErrorsAppend(g0, KeyIssues(fields, rest));
      FieldErrorsOfOneField(k0, g0);
      assert forall k :: k in keys <==> k == k0 || k in rest;
    }
  }

  /** The error map of a validation reports every field whose rule is
      broken, all in one pass, and only those; each reported field carries
      the last message its own rule raised. A body that is not an object
      yields no field errors at all. */
  lemma KeyIssuesConform(fields: map<string, Value>, keys: seq<string>)
    requires "" !in keys
    ensures forall k :: k in FieldErrors(KeyIssues(fields, keys)) <==> k in keys && !FieldConforms(fields, k)
    ensures forall k :: k in FieldErrors(KeyIssues(fields, keys)) ==>
      FieldIssues(fields, k) != [] && FieldErrors(KeyIssues(fields, keys))[k] == LastMessage(FieldIssues(fields, k))
  {
    KeyIssuesErrors(fields, keys);
    forall k | k in keys ensures FieldIssues(fields, k) == [] <==> FieldConforms(fields, k) {
      FieldIssuesEmpty(fields, k);
    }
  }

  lemma ValidationErrorsByField(body: Value)
    ensures body.Obj? ==> forall k :: k in FieldErrors(SchemaIssues(body)) <==> k in SchemaKeys && !FieldConforms(body.fields, k)
    ensures body.Obj? ==> forall k :: k in FieldErrors(SchemaIssues(body)) ==>
      FieldIssues(body.fields, k) != [] && FieldErrors(SchemaIssues(body))[k] == LastMessage(FieldIssues(body.fields, k))
    ensures !body.Obj? ==> FieldErrors(SchemaIssues(body)) == map[]
  {
    if body.Obj? {
      assert SchemaIssues(body) == KeyIssues(body.fields, SchemaKeys);
      KeyIssuesConform(body.fields, SchemaKeys);
    } else {
      var issues := SchemaIssues(body);
      assert issues == [Issue("", TypeMessage("object", body))];
      assert issues[..0] == [];
    }
  }

  /** A bad `tipo` and a too-short `descricao` are both reported by one call. */
  lemma BadTipoAndShortDescricaoBothReported(fields: map<string, Value>)
    requires !(Get(fields, "tipo").Str? && Get(fields, "tipo").s in TipoOptions)
    requires Get(fields, "descricao").Str? && |Get(fields, "descricao").s| < DescricaoMin
    ensures "tipo" in FieldErrors(SchemaIssues(Obj(fields)))
    ensures "descricao" in FieldErrors(SchemaIssues(Obj(fields)))
  {
    ValidationErrorsByField(Obj(fields));
  }

  /** A short blank description raises two issues on `descricao`; the
      non-blank message, written last, is the one reported. */
  lemma ShortBlankDescricaoReportsBlank(fields: map<string, Value>)
    requires Get(fields, "descricao").Str? && |Get(fields, "descricao").s| < DescricaoMin
    requires Trim(Get(fields, "descricao").s) == []
    ensures var errors := FieldErrors(SchemaIssues(Obj(fields)));
      "descricao" in errors && errors["descricao"] == DescricaoBlank
  {
    ValidationErrorsByField(Obj(fields));
  }

  // ---------------------------------------------------------------------------
  // The validator.

  /** `validateDenuncia`: parse the body against the schema; on failure write
      every issue that names a field into the error map, in order. */
  method ValidateDenuncia(data: Value) returns (isValid: bool, errors: FormErrors)
    ensures isValid <==> Conforms(data)
    ensures errors == FieldErrors(SchemaIssues(data))
  {
    var issues := SchemaIssues(data);
    SchemaIssuesEmpty(data);
    if issues == [] {
      return true, map[];
    }
    errors := WriteErrors(issues);
    isValid := false;
  }

  /** The loop over the issues: each one that names a field writes its
      message under that field, later issues overwriting earlier ones. */
  method WriteErrors(issues: seq<Issue>) returns (errors: FormErrors)
    ensures errors == FieldErrors(issues)
  {
    errors := map[];
    var i := 0;
    while i < |issues|
      invariant 0 <= i <= |issues|
      invariant errors == FieldErrors(issues[..i])
    {
      var field := issues[i].field;
      if field != "" {
        errors := errors[field := issues[i].message];
      }
      assert issues[..i + 1][..i] == issues[..i];
      i := i + 1;
    }
    assert issues[..|issues|] == issues;
  }
}
