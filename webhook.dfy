/** The bot's webhook (server/api/telegram/webhook.post.ts, lines 13-67): an
    update from the configured chat whose trimmed text is `/stats` makes the
    handler read the date index, fetch every indexed report in one pipeline,
    compute the statistics and send them to the chat; any failure on the
    way sends a fixed apology instead. The store, the messaging service and
    the clock are outside the model: each call the handler makes is
    recorded, in order, in an effect log, and each call's outcome is a field
    of `Environment`. */
module Webhook {
  import opened Types
  import opened Text
  import Store
  import opened Statistics

  // ---------------------------------------------------------------------------
  // Reading the update.

  /** JavaScript truthiness of a parsed JSON value. */
  predicate Truthy(v: Value)
  {
    match v
    case Undefined => false
    case Null => false
    case Bool(b) => b
    case Num(n) => n != 0.0
    case Str(s) => s != ""
    case _ => true
  }

  /** Optional property access `v?.key`: `undefined` on anything but an
      object that has the key (no JSON primitive or array has the keys read
      here). */
  function Member(v: Value, key: string): (r: Value)
    ensures !v.Obj? ==> r == Undefined
    ensures v.Obj? ==> r == Get(v.fields, key)
  {
    match v
    case Obj(fields) => Get(fields, key)
    case _ => Undefined
  }

  /** `id.toString()` for a chat id: strings as they are, integral numbers
      below 10^21 in decimal, booleans as words; every other value goes
      through `toText`, which gives `None` where `toString` throws (an object
      whose `toString` member is not a function, or an array holding one). */
  function ChatIdText(id: Value, toText: Value -> Option<string>): (t: Option<string>)
    ensures id.Str? ==> t == Some(id.s)
    ensures id.Num? && id.n == id.n.Floor as real && -1.0e21 < id.n < 1.0e21 ==>
      t == Some(NumberToString(id.n.Floor, 10))
    ensures id.Bool? ==> t.Some?
  {
    match id
    case Str(s) => Some(s)
    case Num(n) =>
      if n == n.Floor as real && -1.0e21 < n < 1.0e21 then Some(NumberToString(n.Floor, 10)) else toText(id)
    case Bool(b) => Some(if b then "true" else "false")
    case _ => toText(id)
  }

  /** What the first lines of the handler make of an update: ignore it,
      throw a `TypeError` (a chat that is `null` or missing, a chat id whose
      `toString` throws, or a text that is not a string and so has no
      `trim`), or go on with the chat id's
      text and the trimmed command. */
  datatype Screening = Ignore | Crash | Proceed(chatId: string, command: string)

  /** The guard `!body?.message?.text || !body.message.chat.id`, then the
      chat id's text and the trimmed message text. */
  function Screen(body: Value, toText: Value -> Option<string>): (g: Screening)
    ensures g.Proceed? ==>
      (Member(Member(body, "message"), "text").Str? &&
       g.command == Trim(Member(Member(body, "message"), "text").s))
    ensures !Truthy(Member(Member(body, "message"), "text")) ==> g == Ignore
  {
    var message := Member(body, "message");
    var text := Member(message, "text");
    if !Truthy(text) then Ignore
    else
      var chat := Member(message, "chat");
      if chat.Undefined? || chat.Null? then Crash
      else
        var id := Member(chat, "id");
        if !Truthy(id) then Ignore
        else
          var chatId := ChatIdText(id, toText);
          if chatId.None? || !text.Str? then Crash
          else Proceed(chatId.value, Trim(text.s))
  }

  // ---------------------------------------------------------------------------
  // Calls, outcomes and replies.

  const StatsCommand := "/stats"
  const IgnoredMessage := "Requisição ignorada"
  const NoReportsNotice := "Nenhuma denúncia encontrada para gerar estatísticas."
  const FailureNotice := "Ocorreu um erro ao buscar as estatísticas. Tente novamente mais tarde."

  /** A call the handler makes outside itself, in the order made. */
  datatype Effect =
    | ReadBody
    | ZRange(key: string, start: int, stop: int)
    | ExecPipeline(commands: seq<Store.Command>)
    | SendMessage(config: TelegramConfig, text: string)

  /** What the handler gives back: an object with a status code and
      perhaps a message, or an exception, which the framework turns into an
      error response. */
  datatype Response = Returned(statusCode: int, message: Option<string>) | Threw

  const Ok := Returned(200, Some("OK"))

  /** The world as the handler meets it: the bot configuration, the parsed
      body (`None` when it cannot be read), the conversion of unusual chat
      ids to text (`None` where `toString` throws), the date index (`None` when reading it fails), the
      pipeline's results (`None` when executing it fails; `None` items are
      reports no longer present), the clock, the statistics formatter, and
      whether the first and the apology message are delivered. */
  datatype Environment = Environment(
    config: TelegramConfig,
    body: Option<Value>,
    toText: Value -> Option<string>,
    index: Option<seq<string>>,
    results: Option<seq<Option<Entry>>>,
    now: int,
    formatStats: Stats -> string,
    sendOk: bool,
    apologyOk: bool)

  /** The update is a `/stats` command from the configured chat. */
  predicate IsStatsRequest(env: Environment)
  {
    env.body.Some? && Screen(env.body.value, env.toText) == Proceed(env.config.chatId, StatsCommand)
  }

  /** One `hgetall` per indexed key, in index order. */
  function Fetches(keys: seq<string>): (cs: seq<Store.Command>)
    ensures |cs| == |keys| && forall i :: 0 <= i < |keys| ==> cs[i] == Store.HGetAll(keys[i])
  {
    seq(|keys|, i requires 0 <= i < |keys| => Store.HGetAll(keys[i]))
  }

  /** `results.filter(r => r !== null)`. */
  function Present(results: seq<Option<Entry>>): (es: seq<Entry>)
    ensures |es| <= |results|
    ensures forall e :: e in es <==> Some(e) in results
  {
    if results == [] then []
    else if results[0].Some? then [results[0].value] + Present(results[1..])
    else Present(results[1..])
  }

  /** The text of the statistics message sent for the fetched reports. */
  function StatsText(env: Environment, results: seq<Option<Entry>>): string
  {
    env.formatStats(Figures(Present(results), env.now))
  }

  /** How the `try` block ends. */
  datatype Attempt = Completed | EarlyReturn | Failed

  /** The calls made inside the `try` block, after the date index is read. */
  function TryEffects(env: Environment): seq<Effect>
  {
    if env.index.None? then []
    else if env.index.value == [] then [SendMessage(env.config, NoReportsNotice)]
    else if env.results.None? then [ExecPipeline(Fetches(env.index.value))]
    else [ExecPipeline(Fetches(env.index.value)), SendMessage(env.config, StatsText(env, env.results.value))]
  }

  function TryAttempt(env: Environment): Attempt
  {
    if env.index.None? then Failed
    else if env.index.value == [] then (if env.sendOk then EarlyReturn else Failed)
    else if env.results.None? || !env.sendOk then Failed
    else Completed
  }

  /** The calls of the `/stats` branch: the index read, the `try` block, and
      the apology when the block fails. */
  function StatsEffects(env: Environment): seq<Effect>
  {
    if TryAttempt(env) == Failed then
      [ZRange(Store.DateIndex, 0, -1)] + TryEffects(env) + [SendMessage(env.config, FailureNotice)]
    else
      [ZRange(Store.DateIndex, 0, -1)] + TryEffects(env)
  }

  function StatsReply(env: Environment): Response
  {
    match TryAttempt(env)
    case Completed => Ok
    case EarlyReturn => Returned(200, None)
    case Failed => if env.apologyOk then Ok else Threw
  }

  /** The calls the handler makes. */
  function WebhookEffects(env: Environment): seq<Effect>
  {
    if IsStatsRequest(env) then [ReadBody] + StatsEffects(env) else [ReadBody]
  }

  /** The handler's reply. */
  function WebhookReply(env: Environment): Response
  {
    if env.body.None? then Threw else ScreenedReply(Screen(env.body.value, env.toText), env)
  }

  /** The reply once the update has been screened. */
  function ScreenedReply(g: Screening, env: Environment): Response
  {
    match g
    case Ignore => Returned(200, Some(IgnoredMessage))
    case Crash => Threw
    case Proceed(chatId, command) =>
      if command == StatsCommand && chatId == env.config.chatId then StatsReply(env) else Ok
  }

  /** A `/stats` request from the configured chat is answered by the
      `/stats` branch. */
  lemma StatsRequestRuns(env: Environment)
    requires IsStatsRequest(env)
    ensures WebhookReply(env) == StatsReply(env)
    ensures WebhookEffects(env) == [ReadBody] + StatsEffects(env)
  {
    var g := Screen(env.body.value, env.toText);
    assert g == Proceed(env.config.chatId, StatsCommand);
    assert ScreenedReply(g, env) == StatsReply(env);
  }

  // ---------------------------------------------------------------------------
  // The handler.

  /** The webhook handler. */
  method HandleWebhook(env: Environment) returns (reply: Response, effects: seq<Effect>)
    ensures reply == WebhookReply(env) && effects == WebhookEffects(env)
  {
    effects := [ReadBody];
    if env.body.None? {
      reply := Threw;
      return;
    }
    var screen := Screen(env.body.value, env.toText);
    if screen.Ignore? {
      reply := Returned(200, Some(IgnoredMessage));
    } else if screen.Crash? {
      reply := Threw;
    } else if screen.command == StatsCommand && screen.chatId == env.config.chatId {
      var rest;
      reply, rest := RunStats(env);
      effects := [ReadBody] + rest;
    } else {
      reply := Ok;
    }
  }

  /** The `/stats` branch with its `try`/`catch`. */
  method RunStats(env: Environment) returns (reply: Response, effects: seq<Effect>)
    ensures reply == StatsReply(env) && effects == StatsEffects(env)
  {
    var attempt, tried := TryStats(env);
    if attempt == Failed {
      effects := [ZRange(Store.DateIndex, 0, -1)] + tried + [SendMessage(env.config, FailureNotice)];
      reply := if env.apologyOk then Ok else Threw;
    } else {
      effects := [ZRange(Store.DateIndex, 0, -1)] + tried;
      reply := if attempt == Completed then Ok else Returned(200, None);
    }
  }

  /** The `try` block after the date index is read. */
  method TryStats(env: Environment) returns (attempt: Attempt, effects: seq<Effect>)
    ensures attempt == TryAttempt(env) && effects == TryEffects(env)
  {
    if env.index.None? {
      return Failed, [];
    }
    var keys := env.index.value;
    if |keys| == 0 {
      effects := [SendMessage(env.config, NoReportsNotice)];
      attempt := if env.sendOk then EarlyReturn else Failed;
      return;
    }
    var commands := QueueFetches(keys);
    effects := [ExecPipeline(commands)];
    if env.results.None? {
      return Failed, effects;
    }
    var reports := Present(env.results.value);
    var stats := CalculateStatistics(reports, env.now);
    var message := env.formatStats(stats);
    effects := effects + [SendMessage(env.config, message)];
    attempt := if env.sendOk then Completed else Failed;
  }

  /** `denunciaKeys.forEach(key => pipeline.hgetall(key))` on a new pipeline. */
  method QueueFetches(keys: seq<string>) returns (commands: seq<Store.Command>)
    ensures commands == Fetches(keys)
  {
    var pipeline := new Store.Pipeline();
    var i := 0;
    while i < |keys|
      invariant 0 <= i <= |keys|
      invariant pipeline.commands == Fetches(keys[..i])
    {
      pipeline.QueueHGetAll(keys[i]);
      i := i + 1;
    }
    assert keys[..i] == keys;
    commands := pipeline.commands;
  }

  // ---------------------------------------------------------------------------
  // What the handler promises.

  /** An update without message text is acknowledged as ignored; the
      handler reads nothing from the store and sends nothing. */
  lemma UpdateWithoutTextIsIgnored(env: Environment)
    requires env.body.Some? && !Truthy(Member(Member(env.body.value, "message"), "text"))
    ensures WebhookReply(env) == Returned(200, Some(IgnoredMessage))
    ensures WebhookEffects(env) == [ReadBody]
  {
  }

  /** An update whose chat has a falsy id is ignored in the same way. */
  lemma UpdateWithoutChatIdIsIgnored(env: Environment, message: map<string, Value>, chat: map<string, Value>)
    requires env.body.Some? && env.body.value.Obj? && Get(env.body.value.fields, "message") == Obj(message)
    requires Truthy(Get(message, "text")) && Get(message, "chat") == Obj(chat)
    requires !Truthy(Get(chat, "id"))
    ensures WebhookReply(env) == Returned(200, Some(IgnoredMessage))
    ensures WebhookEffects(env) == [ReadBody]
  {
  }

  /** A chat id whose `toString` throws makes the handler throw after the
      body read, whatever the text says. */
  lemma UnconvertibleChatIdThrows(env: Environment, message: map<string, Value>, chat: map<string, Value>)
    requires env.body.Some? && env.body.value.Obj? && Get(env.body.value.fields, "message") == Obj(message)
    requires Truthy(Get(message, "text")) && Get(message, "chat") == Obj(chat)
    requires Truthy(Get(chat, "id")) && ChatIdText(Get(chat, "id"), env.toText).None?
    ensures WebhookReply(env) == Threw
    ensures WebhookEffects(env) == [ReadBody]
  {
  }

  /** The store is read, and a message sent, only for a `/stats` command
      from the configured chat; every other update that gets past the guard
      is answered 'OK' and nothing else happens. */
  lemma OnlyStatsRequestsReachTheStore(env: Environment)
    ensures |WebhookEffects(env)| > 1 <==> IsStatsRequest(env)
    ensures IsStatsRequest(env) ==> WebhookEffects(env)[1] == ZRange(Store.DateIndex, 0, -1)
    ensures env.body.Some? && Screen(env.body.value, env.toText).Proceed? && !IsStatsRequest(env) ==>
      WebhookReply(env) == Ok
  {
  }

  /** A text with whitespace around `/stats` still passes as the command. */
  lemma PaddedCommandRuns(message: map<string, Value>, chat: string, toText: Value -> Option<string>)
    requires message == map["text" := Str(PaddedCommand), "chat" := Obj(map["id" := Str(chat)])]
    requires chat != ""
    ensures Screen(Obj(map["message" := Obj(message)]), toText) == Proceed(chat, StatsCommand)
  {
    var body := Obj(map["message" := Obj(message)]);
    assert Member(body, "message") == Obj(message);
    assert Member(Obj(message), "text") == Str(PaddedCommand);
    assert Member(Obj(message), "chat") == Obj(map["id" := Str(chat)]);
    assert Member(Obj(map["id" := Str(chat)]), "id") == Str(chat);
    TrimPadded();
  }

  const PaddedCommand := " /stats\n"

  lemma TrimPadded()
    ensures Trim(PaddedCommand) == StatsCommand
  {
    var t := PaddedCommand;
    assert LeadingSpace(t[2..]) == 0;
    assert LeadingSpace(t[1..]) == 0;
    assert LeadingSpace(t) == 1;
    assert TrailingSpace(t[..7]) == 0;
    assert TrailingSpace(t) == 1;
  }

  /** An empty date index sends the single 'no reports' notice and returns
      a bare status 200; should that send fail, the apology follows. */
  lemma EmptyIndexSendsNotice(env: Environment)
    requires env.index == Some([])
    ensures env.sendOk ==>
      StatsEffects(env) == [ZRange(Store.DateIndex, 0, -1), SendMessage(env.config, NoReportsNotice)] &&
      StatsReply(env) == Returned(200, None)
    ensures !env.sendOk ==>
      StatsEffects(env) == [ZRange(Store.DateIndex, 0, -1), SendMessage(env.config, NoReportsNotice),
        SendMessage(env.config, FailureNotice)]
  {
  }

  /** With a non-empty index, every indexed report is requested in one
      pipeline, and the message sent is the formatting of the statistics of
      exactly the reports that came back (`StatisticsFacts` says what those
      figures satisfy). */
  lemma StatisticsOfFetchedReports(env: Environment)
    requires env.index.Some? && env.index.value != [] && env.results.Some?
    ensures var keys, rs := env.index.value, env.results.value;
      var e := StatsEffects(env);
      |e| >= 3 && e[1] == ExecPipeline(Fetches(keys)) &&
      e[2] == SendMessage(env.config, env.formatStats(Figures(Present(rs), env.now)))
    ensures env.sendOk ==> StatsReply(env) == Ok && |StatsEffects(env)| == 3
  {
  }

  /** A failure while reading the index, executing the pipeline or sending
      the statistics ends with the apology as the last call, and the reply
      is still 'OK' once the apology is delivered. */
  lemma FailureSendsApology(env: Environment)
    requires TryAttempt(env) == Failed
    ensures var e := StatsEffects(env); e[|e| - 1] == SendMessage(env.config, FailureNotice)
    ensures env.apologyOk <==> StatsReply(env) == Ok
  {
  }

  /** The number of messages among the calls. */
  function SendCount(e: seq<Effect>): nat
  {
    if e == [] then 0 else (if e[0].SendMessage? then 1 else 0) + SendCount(e[1..])
  }

  lemma {:induction false} SendCountAppend(a: seq<Effect>, b: seq<Effect>)
    ensures SendCount(a + b) == SendCount(a) + SendCount(b)
  {
    if a == [] {
      assert a + b == b;
    } else {
      assert (a + b)[0] == a[0];
      assert (a + b)[1..] == a[1..] + b;
      SendCountAppend(a[1..], b);
    }
  }

  /** At most two messages are sent, both to the configured chat, and
      neither before the date index is read; at most five calls in all. */
  lemma AtMostTwoMessages(env: Environment)
    ensures var e := WebhookEffects(env);
      forall i :: 0 <= i < |e| && e[i].SendMessage? ==> e[i].config == env.config && i >= 2
    ensures |WebhookEffects(env)| <= 5
    ensures SendCount(WebhookEffects(env)) <= 2
  {
    if IsStatsRequest(env) {
      StatsSends(env);
      StatsSendCount(env);
      var s := StatsEffects(env);
      var e := WebhookEffects(env);
      assert e == [ReadBody] + s;
      SendCountAppend([ReadBody], s);
      forall i | 0 <= i < |e| && e[i].SendMessage? ensures e[i].config == env.config && i >= 2 {
        assert e[i] == s[i - 1];
      }
    }
  }

  /** The `/stats` branch sends at most two messages: one from the `try`
      block and the apology. */
  lemma StatsSendCount(env: Environment)
    ensures SendCount(StatsEffects(env)) <= 2
  {
    var t, z := TryEffects(env), ZRange(Store.DateIndex, 0, -1);
    TrySendCount(env);
    SendCountAppend([z], t);
    SendCountPair(z, z);
    if TryAttempt(env) == Failed {
      var a := SendMessage(env.config, FailureNotice);
      SendCountAppend([z] + t, [a]);
      SendCountPair(a, a);
    }
  }

  /** The `try` block sends at most one message. */
  lemma TrySendCount(env: Environment)
    ensures SendCount(TryEffects(env)) <= 1
  {
    var t := TryEffects(env);
    if env.index.Some? && env.index.value != [] && env.results.Some? {
      SendCountPair(t[0], t[1]);
      assert t == [t[0], t[1]] && t[0].ExecPipeline?;
    } else if t != [] {
      SendCountPair(t[0], t[0]);
      assert t == [t[0]];
    }
  }

  lemma SendCountPair(x: Effect, y: Effect)
    ensures SendCount([x]) == (if x.SendMessage? then 1 else 0)
    ensures SendCount([x, y]) == SendCount([x]) + (if y.SendMessage? then 1 else 0)
  {
    assert [x][1..] == [];
    assert [x, y][1..] == [y];
    assert [y][1..] == [];
  }

  /** In the `/stats` branch, sends go to the configured chat and come after
      the index read. */
  lemma StatsSends(env: Environment)
    ensures var s := StatsEffects(env);
      |s| <= 4 && forall i :: 0 <= i < |s| && s[i].SendMessage? ==> s[i].config == env.config && i >= 1
  {
    var t, z := TryEffects(env), ZRange(Store.DateIndex, 0, -1);
    TrySends(env);
    if TryAttempt(env) == Failed {
      SendsAfterRead(StatsEffects(env), z, t, [SendMessage(env.config, FailureNotice)], env.config);
    } else {
      assert [z] + t == [z] + t + [];
      SendsAfterRead(StatsEffects(env), z, t, [], env.config);
    }
  }

  /** Calls made of a non-send followed by sends to one chat send only to
      that chat, and never first. */
  lemma SendsAfterRead(s: seq<Effect>, z: Effect, t: seq<Effect>, a: seq<Effect>, c: TelegramConfig)
    requires s == [z] + t + a && !z.SendMessage?
    requires forall i :: 0 <= i < |t| && t[i].SendMessage? ==> t[i].config == c
    requires forall i :: 0 <= i < |a| && a[i].SendMessage? ==> a[i].config == c
    ensures forall i :: 0 <= i < |s| && s[i].SendMessage? ==> s[i].config == c && i >= 1
  {
    assert s[0] == z;
    forall i | 1 <= i < |s| && s[i].SendMessage? ensures s[i].config == c {
      if i - 1 < |t| {
        assert s[i] == t[i - 1];
      } else {
        assert s[i] == a[i - 1 - |t|];
      }
    }
  }

  /** The `try` block makes at most two calls, and sends only to the
      configured chat. */
  lemma TrySends(env: Environment)
    ensures var t := TryEffects(env);
      |t| <= 2 && forall i :: 0 <= i < |t| && t[i].SendMessage? ==> t[i].config == env.config
  {
  }
}
