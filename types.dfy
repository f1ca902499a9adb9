/** Shared data of the report pipeline: JavaScript values as they arrive in a
    request body, the report record, the form-error map and the bot
    configuration (app/types/index.ts). */
module Types {

  datatype Option<T> = None | Some(value: T)

  /** A JavaScript value. A parsed JSON body only ever holds the first seven
      kinds; `Date` appears once the server stamps `createdAt`, and
      `Undefined` stands both for a missing property and for a property
      explicitly set to `undefined`. */
  datatype Value =
    | Undefined
    | Null
    | Bool(b: bool)
    | Num(n: real)
    | Str(s: string)
    | Arr(items: seq<Value>)
    | Obj(fields: map<string, Value>)
    | Date(ms: int)

  /** Property access `o[key]` on a plain object: a missing key reads as `undefined`. */
  function Get(fields: map<string, Value>, key: string): Value
  {
    if key in fields then fields[key] else Undefined
  }

  /** The name the schema library gives the type of a value it did not expect
      ("Expected string, received number"). */
  function ParsedType(v: Value): string
  {
    match v
    case Undefined => "undefined"
    case Null => "null"
    case Bool(_) => "boolean"
    case Num(_) => "number"
    case Str(_) => "string"
    case Arr(_) => "array"
    case Obj(_) => "object"
    case Date(_) => "date"
  }

  /** A report as the handler carries it: a plain object whose known keys are
      id, tipo, descricao, local, data, urgencia, testemunhas, evidencias,
      contato and createdAt, and which keeps any other key the client sent. */
  type Denuncia = map<string, Value>

  /** Field name to human-readable message. */
  type FormErrors = map<string, string>

  /** Bot token and destination chat of the messaging channel; an empty
      string stands for a missing setting. */
  datatype TelegramConfig = TelegramConfig(botToken: string, chatId: string)
}
