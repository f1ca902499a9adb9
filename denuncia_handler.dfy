/** The report submission endpoint (server/api/denuncia.post.ts): check the
    method, read and validate the body, sanitise it under a fresh identifier,
    store a summary, alert the operators when storing fails, then send the
    notification. Every external call is an entry of the returned effect
    log and its outcome is a field of `Environment`. */
module DenunciaHandler {
  import opened Types
  import opened Text
  import Schema
  import Sanitizer
  import AnonymousId
  import Telegram
  import Store

  // ---------------------------------------------------------------------------
  // Labels (lines 115-133).

  const TipoLabels: map<string, string> := map[
    "porte" := "Porte ilegal de arma",
    "trafico" := "Tráfico de drogas",
    "ameaca" := "Ameaças de facção",
    "disparos" := "Disparos de arma de fogo",
    "outros" := "Outros"]

  const UrgencyLabels: map<string, string> := map[
    "baixa" := "BAIXA URGÊNCIA",
    "media" := "MÉDIA URGÊNCIA",
    "alta" := "ALTA URGÊNCIA"]

  /** `tipos[tipo] || tipo`: the table entry, or the input itself. */
  function GetTipoLabel(tipo: string): string
  {
    if tipo in TipoLabels && TipoLabels[tipo] != "" then TipoLabels[tipo] else tipo
  }

  /** `urgencias[urgencia] || urgencia`: the table entry, or the input itself. */
  function GetUrgencyLabel(urgencia: string): string
  {
    if urgencia in UrgencyLabels && UrgencyLabels[urgencia] != "" then UrgencyLabels[urgencia] else urgencia
  }

  /** The label tables cover exactly the enumerations the schema accepts. */
  lemma LabelTablesMatchSchema()
    ensures forall t :: t in TipoLabels <==> t in Schema.TipoOptions
    ensures forall u :: u in UrgencyLabels <==> u in Schema.UrgenciaOptions
  {
  }

  /** Each accepted type gets its own label, distinct from every accepted
      type name; any other input comes back unchanged, so labelling twice is
      labelling once. */
  lemma TipoLabelFacts(a: string, b: string)
    ensures a in Schema.TipoOptions && b in Schema.TipoOptions && GetTipoLabel(a) == GetTipoLabel(b) ==> a == b
    ensures a in Schema.TipoOptions ==> GetTipoLabel(a) != a && GetTipoLabel(a) !in Schema.TipoOptions
    ensures a !in Schema.TipoOptions ==> GetTipoLabel(a) == a
    ensures GetTipoLabel(GetTipoLabel(a)) == GetTipoLabel(a)
  {
    LabelTablesMatchSchema();
  }

  /** The same for urgency levels. */
  lemma UrgencyLabelFacts(a: string, b: string)
    ensures a in Schema.UrgenciaOptions && b in Schema.UrgenciaOptions && GetUrgencyLabel(a) == GetUrgencyLabel(b) ==> a == b
    ensures a in Schema.UrgenciaOptions ==> GetUrgencyLabel(a) != a && GetUrgencyLabel(a) !in Schema.UrgenciaOptions
    ensures a !in Schema.UrgenciaOptions ==> GetUrgencyLabel(a) == a
    ensures GetUrgencyLabel(GetUrgencyLabel(a)) == GetUrgencyLabel(a)
  {
    LabelTablesMatchSchema();
  }

  // ---------------------------------------------------------------------------
  // Errors and replies.

  /** What an error response carries besides its status. */
  datatype ErrorData = NoData | FieldMessages(errors: FormErrors) | Detail(text: string)

  datatype HttpError = HttpError(statusCode: int, statusMessage: string, data: ErrorData)

  /** Something thrown: an HTTP error made with `createError`, or a plain
      error (a failed fetch or a non-OK reply of the messaging API) that has
      no status of its own. */
  datatype Thrown = Raised(error: HttpError) | Failure

  datatype Reply = Accepted(message: string, id: string) | Rejected(error: HttpError)

  const InternalErrorMessage := "Erro interno do servidor"
  const SuccessMessage := "Denúncia enviada via Telegram com sucesso"

  const MethodNotAllowed := HttpError(405, "Método não permitido", NoData)
  const ConfigMissing := HttpError(500, "Configuração ausente",
    Detail("Defina TELEGRAM_BOT_TOKEN e TELEGRAM_CHAT_ID nas variáveis de ambiente."))

  /** The outer `catch`: a falsy status becomes 500, a falsy message the
      generic one, and the data is passed on. */
  function CatchAll(t: Thrown): (e: HttpError)
    ensures e.statusCode != 0 && e.statusMessage != ""
    ensures t.Raised? && t.error.statusCode != 0 && t.error.statusMessage != "" ==> e == t.error
    ensures t.Failure? ==> e == HttpError(500, InternalErrorMessage, NoData)
  {
    match t
    case Raised(err) =>
      HttpError(if err.statusCode != 0 then err.statusCode else 500,
                if err.statusMessage != "" then err.statusMessage else InternalErrorMessage,
                err.data)
    case Failure => HttpError(500, InternalErrorMessage, NoData)
  }

  // ---------------------------------------------------------------------------
  // The environment of one request.

  /** What `readBody` gives: the parsed body, or what it threw. */
  datatype BodyOutcome = Read(value: Value) | Unreadable(thrown: Thrown)

  datatype Effect =
    | ReadBody
    | ExecPipeline(commands: seq<Store.Command>)
    | SendMessage(config: TelegramConfig, text: string)

  /** Everything the handler takes from outside: the configuration, the
      body, the clock read for the identifier, the random number's base-36
      text, the server creation time, the outcome of each external call and
      the date formatters. */
  datatype Environment = Environment(
    config: TelegramConfig,
    body: BodyOutcome,
    clock: nat,
    randomText: string,
    createdAt: int,
    storeOk: bool,
    alertOk: bool,
    sendOk: bool,
    isoString: int -> string,
    formatDateTime: int -> string,
    localeDate: string -> string)

  /** Both settings present (non-empty). */
  predicate ConfigPresent(config: TelegramConfig)
  {
    config.botToken != "" && config.chatId != ""
  }

  /** A POST whose body was read and passes the schema. */
  predicate Admitted(httpMethod: string, env: Environment)
  {
    httpMethod == "POST" && env.body.Read? && Schema.Conforms(env.body.value)
  }

  function GeneratedId(env: Environment): string
    requires AnonymousId.RandomText(env.randomText)
  {
    AnonymousId.GenerateAnonymousId(env.clock, env.randomText)
  }

  /** `{...body, id, createdAt}`: the server's identifier and creation time
      replace whatever the client sent under those keys. */
  function Stamped(fields: map<string, Value>, id: string, createdAt: int): (d: Denuncia)
    ensures "id" in d && d["id"] == Str(id) && "createdAt" in d && d["createdAt"] == Date(createdAt)
    ensures forall k :: k != "id" && k != "createdAt" ==> (k in d <==> k in fields) && (k in fields ==> d[k] == fields[k])
  {
    fields["id" := Str(id)]["createdAt" := Date(createdAt)]
  }

  /** What the steps after validation need of a body: an object whose
      description is a string, whose contact and location are strings or
      absent, and whose type and urgency are strings. */
  predicate Shaped(body: Value)
  {
    body.Obj? && Sanitizer.TextFieldsTyped(body.fields) &&
    Get(body.fields, "tipo").Str? && Get(body.fields, "urgencia").Str?
  }

  /** A body the schema accepts has that shape. */
  lemma ConformingIsShaped(body: Value)
    requires Schema.Conforms(body)
    ensures Shaped(body)
  {
    assert Schema.FieldConforms(body.fields, "descricao");
    assert Schema.FieldConforms(body.fields, "contato");
    assert Schema.FieldConforms(body.fields, "local");
    assert Schema.FieldConforms(body.fields, "tipo");
    assert Schema.FieldConforms(body.fields, "urgencia");
  }

  /** The sanitised report of an admitted request. */
  function Sanitized(env: Environment): (d: Denuncia)
    requires env.body.Read? && Shaped(env.body.value)
    requires AnonymousId.RandomText(env.randomText)
    ensures Get(d, "tipo") == Get(env.body.value.fields, "tipo") && Get(d, "tipo").Str?
    ensures Get(d, "urgencia") == Get(env.body.value.fields, "urgencia") && Get(d, "urgencia").Str?
    ensures Get(d, "descricao").Str?
  {
    Sanitizer.SanitizeDenuncia(Stamped(env.body.value.fields, GeneratedId(env), env.createdAt))
  }

  function OptString(v: Value): Option<string>
  {
    if v.Str? then Some(v.s) else None
  }

  function OptBool(v: Value): Option<bool>
  {
    if v.Bool? then Some(v.b) else None
  }

  /** The summary written to the store: identifier, type, urgency and the
      creation time as ISO text, and nothing else. */
  function Summary(env: Environment): Store.StoredRecord
    requires env.body.Read? && Shaped(env.body.value)
    requires AnonymousId.RandomText(env.randomText)
  {
    var d := Sanitized(env);
    Store.StoredRecord(GeneratedId(env), Get(d, "tipo").s, Get(d, "urgencia").s, env.isoString(env.createdAt))
  }

  /** The batch written on submission: the summary under the report's key,
      then the key in the date index scored by the creation time. */
  function StoreCommands(env: Environment): seq<Store.Command>
    requires env.body.Read? && Shaped(env.body.value)
    requires AnonymousId.RandomText(env.randomText)
  {
    var key := Store.ReportKey(GeneratedId(env));
    [Store.HSet(key, Summary(env)), Store.ZAdd(Store.DateIndex, env.createdAt, key)]
  }

  const AlertHead := "\U{1F6A8} *ALERTA DE SISTEMA* \U{1F6A8}\n\nA denúncia com ID `"
  const AlertTail := "` foi recebida e enviada, mas *FALHOU* ao ser salva no banco de dados.\n\n" +
    "*Erro:* Falha na conexão ou escrita no Redis. Verifique os logs da função e as variáveis de ambiente na Vercel."

  /** The operator alert sent when storing fails (line 66): the identifier,
      unescaped, between a fixed head and tail. */
  function AlertText(id: string): (text: string)
    ensures |text| == |AlertHead| + |id| + |AlertTail|
    ensures text[..|AlertHead|] == AlertHead && text[|AlertHead|..|AlertHead| + |id|] == id
  {
    AlertHead + id + AlertTail
  }

  /** The argument of `buildTelegramText`: labels for type and urgency, the
      sanitised description, location and date, the raw witness, evidence
      and contact fields of the body, and the creation time. */
  function NotificationPayload(env: Environment): Telegram.Payload
    requires env.body.Read? && Shaped(env.body.value)
    requires AnonymousId.RandomText(env.randomText)
  {
    var d := Sanitized(env);
    var body := env.body.value.fields;
    Telegram.Payload(
      GeneratedId(env),
      GetTipoLabel(Get(d, "tipo").s),
      GetUrgencyLabel(Get(d, "urgencia").s),
      Get(d, "descricao").s,
      OptString(Get(d, "local")),
      OptString(Get(d, "data")),
      OptBool(Get(body, "testemunhas")),
      OptBool(Get(body, "evidencias")),
      OptString(Get(body, "contato")),
      Some(env.createdAt))
  }

  function NotificationText(env: Environment): string
    requires env.body.Read? && Shaped(env.body.value)
    requires AnonymousId.RandomText(env.randomText)
  {
    var p := NotificationPayload(env);
    Telegram.JoinLines(Telegram.MessageLines(p, env.formatDateTime(env.createdAt), env.localeDate))
  }

  /** The store batch, then the alert when the batch failed. */
  function StoreAndAlert(env: Environment): seq<Effect>
    requires env.body.Read? && Shaped(env.body.value)
    requires AnonymousId.RandomText(env.randomText)
  {
    if env.storeOk then [ExecPipeline(StoreCommands(env))]
    else [ExecPipeline(StoreCommands(env)), SendMessage(env.config, AlertText(GeneratedId(env)))]
  }

  /** The calls made once the body is admitted: the store batch, the alert
      when the batch failed, then the notification unless a failed alert
      ended the request or a setting is missing. */
  function SubmitEffects(env: Environment): seq<Effect>
    requires env.body.Read? && Shaped(env.body.value)
    requires AnonymousId.RandomText(env.randomText)
  {
    if (env.storeOk || env.alertOk) && ConfigPresent(env.config)
    then StoreAndAlert(env) + [SendMessage(env.config, NotificationText(env))]
    else StoreAndAlert(env)
  }

  /** The reply once the body is admitted. */
  function SubmitReply(env: Environment): Reply
    requires AnonymousId.RandomText(env.randomText)
  {
    if !env.storeOk && !env.alertOk then Rejected(CatchAll(Failure))
    else if !ConfigPresent(env.config) then Rejected(ConfigMissing)
    else if env.sendOk then Accepted(SuccessMessage, GeneratedId(env))
    else Rejected(CatchAll(Failure))
  }

  /** The store batch is the first call, and at most two follow it. */
  lemma StoreComesFirst(env: Environment)
    requires env.body.Read? && Shaped(env.body.value)
    requires AnonymousId.RandomText(env.randomText)
    ensures 1 <= |SubmitEffects(env)| <= 3 && SubmitEffects(env)[0] == ExecPipeline(StoreCommands(env))
  {
    var prefix := StoreAndAlert(env);
    assert 1 <= |prefix| <= 2 && prefix[0] == ExecPipeline(StoreCommands(env));
    assert prefix <= SubmitEffects(env);
  }

  /** When the store batch fails, the alert is the second call, ahead of
      any notification. */
  lemma AlertBeforeNotification(env: Environment)
    requires env.body.Read? && Shaped(env.body.value)
    requires AnonymousId.RandomText(env.randomText)
    requires !env.storeOk
    ensures |SubmitEffects(env)| >= 2 && SubmitEffects(env)[1] == SendMessage(env.config, AlertText(GeneratedId(env)))
  {
  }

  /** A failed alert ends the request with a 500 and no notification is sent. */
  lemma FailedAlertAborts(env: Environment)
    requires env.body.Read? && Shaped(env.body.value)
    requires AnonymousId.RandomText(env.randomText)
    requires !env.storeOk && !env.alertOk
    ensures SubmitReply(env) == Rejected(HttpError(500, InternalErrorMessage, NoData))
    ensures |SubmitEffects(env)| == 2
  {
  }

  /** A missing setting gives 500 "Configuração ausente" even after a
      successful store, and no notification is sent. */
  lemma MissingSettingRejects(env: Environment)
    requires env.body.Read? && Shaped(env.body.value)
    requires AnonymousId.RandomText(env.randomText)
    requires (env.storeOk || env.alertOk) && !ConfigPresent(env.config)
    ensures SubmitReply(env) == Rejected(ConfigMissing) && ConfigMissing.statusCode == 500
    ensures SubmitEffects(env) == StoreAndAlert(env)
  {
  }

  /** Success comes only after the notification was sent, and carries the
      generated identifier; every other outcome is a 500. */
  lemma AcceptedOnlyAfterNotification(env: Environment)
    requires env.body.Read? && Shaped(env.body.value)
    requires AnonymousId.RandomText(env.randomText)
    ensures SubmitReply(env).Accepted? <==> (env.storeOk || env.alertOk) && ConfigPresent(env.config) && env.sendOk
    ensures SubmitReply(env).Accepted? ==>
      SubmitReply(env) == Accepted(SuccessMessage, GeneratedId(env)) &&
      var effects := SubmitEffects(env);
      effects[|effects| - 1] == SendMessage(env.config, NotificationText(env))
    ensures SubmitReply(env).Rejected? ==> SubmitReply(env).error.statusCode == 500
  {
  }

  /** The stored summary holds the generated identifier, the type and
      urgency as the client sent them and the server's creation time, under
      one key used both for the hash and for the date index. */
  lemma StoredSummaryIsProjection(env: Environment)
    requires env.body.Read? && Shaped(env.body.value)
    requires AnonymousId.RandomText(env.randomText)
    ensures var id := GeneratedId(env);
      var fields := env.body.value.fields;
      StoreCommands(env) ==
        [Store.HSet(Store.ReportKey(id), Store.StoredRecord(id, fields["tipo"].s, fields["urgencia"].s, env.isoString(env.createdAt))),
         Store.ZAdd(Store.DateIndex, env.createdAt, Store.ReportKey(id))]
  {
  }

  /** The server's identifier and creation time replace whatever the
      client sent under those keys. */
  lemma ServerStampsOverride(env: Environment)
    requires env.body.Read? && Shaped(env.body.value)
    requires AnonymousId.RandomText(env.randomText)
    ensures "id" in Sanitized(env) && Sanitized(env)["id"] == Str(GeneratedId(env))
    ensures "createdAt" in Sanitized(env) && Sanitized(env)["createdAt"] == Date(env.createdAt)
  {
  }

  /** The notification shows labels for type and urgency and a description
      without phone-like runs; the client's raw contact, witness and
      evidence fields are handed over but do not change the text. */
  lemma NotificationContent(env: Environment)
    requires env.body.Read? && Shaped(env.body.value)
    requires AnonymousId.RandomText(env.randomText)
    ensures var p := NotificationPayload(env);
      var fields := env.body.value.fields;
      p.id == GeneratedId(env) &&
      p.tipo == GetTipoLabel(fields["tipo"].s) &&
      p.urgencia == GetUrgencyLabel(fields["urgencia"].s) &&
      Sanitizer.NoPhoneNumber(p.descricao) &&
      NotificationText(env) ==
        Telegram.JoinLines(Telegram.MessageLines(p.(testemunhas := None, evidencias := None, contato := None),
                                                 env.formatDateTime(env.createdAt), env.localeDate))
  {
    var d := Stamped(env.body.value.fields, GeneratedId(env), env.createdAt);
    Sanitizer.SanitizedReportIsRedacted(d);
    var p := NotificationPayload(env);
    Telegram.MessageIgnoresPrivateFlags(p, None, None, None, env.formatDateTime(env.createdAt), env.localeDate);
  }

  // ---------------------------------------------------------------------------
  // The handler.

  /** The endpoint: the reply and the external calls in the order they are
      made. Another method gets 405 with nothing called; a body that cannot
      be read or fails the schema gets its error after the read alone (400
      with the field messages for the schema); an admitted body goes on as
      `SubmitReply` and `SubmitEffects` say. */
  method HandleDenuncia(httpMethod: string, env: Environment) returns (reply: Reply, effects: seq<Effect>)
    requires AnonymousId.RandomText(env.randomText)
    ensures httpMethod != "POST" ==> reply == Rejected(MethodNotAllowed) && effects == []
    ensures httpMethod == "POST" && env.body.Unreadable? ==>
      reply == Rejected(CatchAll(env.body.thrown)) && effects == [ReadBody]
    ensures httpMethod == "POST" && env.body.Read? && !Schema.Conforms(env.body.value) ==>
      reply == Rejected(HttpError(400, "Dados inválidos",
                                  FieldMessages(Schema.FieldErrors(Schema.SchemaIssues(env.body.value))))) &&
      effects == [ReadBody]
    ensures Admitted(httpMethod, env) ==>
      (Shaped(env.body.value) && reply == SubmitReply(env) && effects == [ReadBody] + SubmitEffects(env))
  {
    effects := [];
    if httpMethod != "POST" {
      reply := Rejected(CatchAll(Raised(MethodNotAllowed)));
      return;
    }

    effects := effects + [ReadBody];
    if env.body.Unreadable? {
      reply := Rejected(CatchAll(env.body.thrown));
      return;
    }
    var body := env.body.value;

    var isValid, errors := Schema.ValidateDenuncia(body);
    if !isValid {
      reply := Rejected(CatchAll(Raised(HttpError(400, "Dados inválidos", FieldMessages(errors)))));
      return;
    }

    ConformingIsShaped(body);
    var rest: seq<Effect>;
    reply, rest := Submit(body, env);
    effects := [ReadBody] + rest;
  }

  /** The steps after validation (lines 38-102): sanitise under a fresh
      identifier, store, alert on a store failure, notify. */
  method Submit(body: Value, env: Environment) returns (reply: Reply, effects: seq<Effect>)
    requires env.body == Read(body) && Shaped(body)
    requires AnonymousId.RandomText(env.randomText)
    ensures reply == SubmitReply(env) && effects == SubmitEffects(env)
  {
    var id, clean := Prepare(body, env);
    var commands := QueueSummary(id, clean, env);
    reply, effects := Deliver(body, id, clean, env, commands);
  }

  /** Lines 53-68 after the batch is queued: execute it, alert on a failure,
      and go on to the notification unless the alert failed too. */
  method Deliver(body: Value, id: string, clean: Denuncia, env: Environment, commands: seq<Store.Command>)
    returns (reply: Reply, effects: seq<Effect>)
    requires Prepared(body, id, clean, env) && commands == StoreCommands(env)
    ensures reply == SubmitReply(env) && effects == SubmitEffects(env)
  {
    if env.storeOk {
      reply, effects := Notify(body, id, clean, env, [ExecPipeline(commands)]);
    } else if env.alertOk {
      reply, effects := Notify(body, id, clean, env, [ExecPipeline(commands), SendMessage(env.config, AlertText(id))]);
    } else {
      reply := Rejected(CatchAll(Failure));
      effects := [ExecPipeline(commands), SendMessage(env.config, AlertText(id))];
    }
  }

  /** Lines 70-102: with the store step behind, notify when both settings
      are present, else fail with the configuration error. */
  method Notify(body: Value, id: string, clean: Denuncia, env: Environment, sofar: seq<Effect>)
    returns (reply: Reply, effects: seq<Effect>)
    requires Prepared(body, id, clean, env)
    requires (env.storeOk || env.alertOk) && sofar == StoreAndAlert(env)
    ensures reply == SubmitReply(env) && effects == SubmitEffects(env)
  {
    if env.config.botToken != "" && env.config.chatId != "" {
      reply, effects := SendNotification(body, id, clean, env, sofar);
    } else {
      MissingSettingRejects(env);
      reply := Rejected(CatchAll(Raised(ConfigMissing)));
      effects := sofar;
    }
  }

  /** Lines 72-94: build the notification, send it, and report success once
      it is delivered. */
  method SendNotification(body: Value, id: string, clean: Denuncia, env: Environment, sofar: seq<Effect>)
    returns (reply: Reply, effects: seq<Effect>)
    requires Prepared(body, id, clean, env)
    requires (env.storeOk || env.alertOk) && ConfigPresent(env.config) && sofar == StoreAndAlert(env)
    ensures reply == SubmitReply(env) && effects == SubmitEffects(env)
  {
    var text := ComposeNotification(body, id, clean, env);
    effects := sofar + [SendMessage(env.config, text)];
    reply := if env.sendOk then Accepted(SuccessMessage, id) else Rejected(CatchAll(Failure));
  }

  /** What `Prepare` leaves behind: the admitted body, the generated
      identifier and the sanitised report. */
  predicate Prepared(body: Value, id: string, clean: Denuncia, env: Environment)
  {
    env.body == Read(body) && Shaped(body) && AnonymousId.RandomText(env.randomText) &&
    id == GeneratedId(env) && clean == Sanitized(env)
  }

  /** Lines 38-42: a fresh identifier and the sanitised report stamped with
      it and the creation time. */
  method Prepare(body: Value, env: Environment) returns (id: string, clean: Denuncia)
    requires env.body == Read(body) && Shaped(body)
    requires AnonymousId.RandomText(env.randomText)
    ensures id == GeneratedId(env) && clean == Sanitized(env)
  {
    id := AnonymousId.GenerateAnonymousId(env.clock, env.randomText);
    clean := Sanitizer.SanitizeDenuncia(Stamped(body.fields, id, env.createdAt));
  }

  /** Lines 46-61: the summary, hashed under the report's key and indexed
      by creation time, queued on a fresh pipeline. */
  method QueueSummary(id: string, clean: Denuncia, env: Environment) returns (commands: seq<Store.Command>)
    requires env.body.Read? && Shaped(env.body.value)
    requires AnonymousId.RandomText(env.randomText)
    requires id == GeneratedId(env) && clean == Sanitized(env)
    ensures commands == StoreCommands(env)
  {
    var record := Store.StoredRecord(id, Get(clean, "tipo").s, Get(clean, "urgencia").s, env.isoString(env.createdAt));
    var pipeline := new Store.Pipeline();
    pipeline.QueueHSet(Store.ReportKey(record.id), record);
    pipeline.QueueZAdd(Store.DateIndex, env.createdAt, Store.ReportKey(record.id));
    commands := pipeline.commands;
  }

  /** Lines 72-83: the notification text of the sanitised report. */
  method ComposeNotification(body: Value, id: string, clean: Denuncia, env: Environment) returns (text: string)
    requires Prepared(body, id, clean, env)
    ensures text == NotificationText(env)
  {
    var payload := Telegram.Payload(
      id,
      GetTipoLabel(Get(clean, "tipo").s),
      GetUrgencyLabel(Get(clean, "urgencia").s),
      Get(clean, "descricao").s,
      OptString(Get(clean, "local")),
      OptString(Get(clean, "data")),
      OptBool(Get(body.fields, "testemunhas")),
      OptBool(Get(body.fields, "evidencias")),
      OptString(Get(body.fields, "contato")),
      Some(env.createdAt));
    assert payload == NotificationPayload(env);
    text := Telegram.BuildTelegramText(payload, env.createdAt, env.formatDateTime, env.localeDate);
  }
}
