/** Values that cross the boundary between the primary process, its HTTP
    workers and the logger: payloads, the two message shapes the primary
    sends, the messages a worker sends, and structured log entries. */
module Messages {

  datatype Option<+T> = None | Some(value: T)

  /** The primary's environment object, reduced to the parts this core reads:
      the byte counter reported by GET_PROFILING_DATA, the cache key pushed by
      FLUSH_CACHE, and a revision standing for every other setting. */
  datatype Environment = Environment(bytesWritten: nat, freshKey: string, revision: nat)

  /** A payload carried by a message. `Snapshot` is a serialized copy of an
      environment: a value, never a live reference to the primary's state. */
  datatype Value =
    | Undefined
    | Num(n: int)
    | Str(s: string)
    | Snapshot(env: Environment)

  /** Environment.serialize: a copy of the environment as it is at call time. */
  function Serialize(env: Environment): Value
  {
    Snapshot(env)
  }

  /** The first argument a command handler passes to its reply callback. */
  datatype ErrorArg = NoError | Failure(message: string)

  /** The fields of a worker request's `content` that the primary reads.
      `command` is the property key the registry is indexed with; `level`,
      `tag` and `info` are read by the built-in LOG handler only. */
  datatype Content = Content(command: string, level: string, tag: string, info: Value)

  /** A message received from a worker: a falsy value, or an object with a
      transaction id, the sender's pid and a content that may be falsy. */
  datatype Incoming =
    | Falsy
    | Request(txid: Value, pid: Value, content: Option<Content>)

  /** The two messages the primary sends to a worker: the one reply to a
      request, tagged with the request's txid and pid, and a fire-and-forget
      event with a fresh guid. */
  datatype Message =
    | Reply(error: ErrorArg, txid: Value, pid: Value, value: Value)
    | Event(guid: string, command: string, data: Value)

  /** What a log entry carries besides its level and tag. */
  datatype Detail =
    | NoDetail
    | Text(text: string)
    | About(subject: Value)
    | OfRequest(request: Incoming)
    | ExitStatus(signal: Option<string>, code: Option<int>)

  datatype LogEntry = LogEntry(level: string, tag: string, detail: Detail)
}
