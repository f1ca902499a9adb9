/** The key-value store as the handlers use it: a pipeline object that
    queues commands and is then executed as one batch
    (server/api/denuncia.post.ts, lines 53-61, and
    server/api/telegram/webhook.post.ts, lines 47-50). Executing a batch is
    I/O; the handlers receive its outcome as a parameter. */
module Store {

  /** The summary of a report the store keeps: the creation time is held as
      its ISO-8601 text. */
  datatype StoredRecord = StoredRecord(id: string, tipo: string, urgencia: string, createdAt: string)

  /** A queued store command. */
  datatype Command =
    | HSet(key: string, record: StoredRecord)
    | ZAdd(key: string, score: int, member: string)
    | HGetAll(key: string)

  /** The sorted set that indexes reports by creation time. */
  const DateIndex := "denuncias_por_data"

  /** The hash key of a report, also its member in the date index. */
  function ReportKey(id: string): (key: string)
    ensures |key| == |id| + 9 && key[..9] == "denuncia:" && key[9..] == id
  {
    "denuncia:" + id
  }

  lemma ReportKeyInjective(a: string, b: string)
    ensures ReportKey(a) == ReportKey(b) ==> a == b
  {
    if ReportKey(a) == ReportKey(b) {
      assert a == ReportKey(a)[9..];
    }
  }

  /** `redis.pipeline()`: a batch of commands queued in call order. */
  class Pipeline {
    var commands: seq<Command>

    constructor()
      ensures commands == []
    {
      commands := [];
    }

    method QueueHSet(key: string, record: StoredRecord)
      modifies this
      ensures commands == old(commands) + [HSet(key, record)]
    {
      commands := commands + [HSet(key, record)];
    }

    method QueueZAdd(key: string, score: int, member: string)
      modifies this
      ensures commands == old(commands) + [ZAdd(key, score, member)]
    {
      commands := commands + [ZAdd(key, score, member)];
    }

    method QueueHGetAll(key: string)
      modifies this
      ensures commands == old(commands) + [HGetAll(key)]
    {
      commands := commands + [HGetAll(key)];
    }
  }
}
