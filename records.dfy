/**
 * The values the server keeps and returns (app.py:22-31, 55-60, 99-105,
 * 159-164, 209-233): pending logins, user records, registry entries, the
 * persisted document, and the JSON bodies of the responses.
 */
module Records {

  datatype Option<+T> = None | Some(value: T)

  /**
   * The outcome of a step that can raise: a call into the messaging client
   * library, or `int(...)` on a path parameter. Its value is an input of the
   * handler, since the library itself is not part of this model.
   */
  datatype Call<+T> = Returns(value: T) | Raises(message: string)

  /** `db['temp_sessions'][code]`: a login waiting for its one-time password. */
  datatype Pending = Pending(phone: string, apiId: int, apiHash: string, time: real)

  /** `db['users'][auth]`. `groupId` is `None` until the first start. */
  datatype UserRecord = UserRecord(userId: int, phone: string, active: bool, groupId: Option<int>, emoji: string)

  /**
   * `active_bots[auth]`: what the registry keeps about a running worker.
   * The client handle it also holds is not modelled.
   */
  datatype Worker = Worker(groupId: int, emoji: string, phone: string)

  /** The persisted JSON document. */
  datatype Document = Document(users: map<string, UserRecord>, tempSessions: map<string, Pending>)

  /** The reaction a freshly verified account starts out with. */
  const DefaultEmoji: string := "\U{1F601}"

  /** The document `load_db` falls back to when the file is missing or unreadable. */
  const EmptyDocument: Document := Document(map[], map[])

  /**
   * `load_db`: `stored` is the parsed file, or `None` when opening or parsing
   * it fails; the failure is not reported.
   */
  function LoadDb(stored: Option<Document>): Document {
    match stored
    case Some(d) => d
    case None => EmptyDocument
  }

  /** The guards of the handlers, and the catch-all for anything raised. */
  datatype Fault =
    | AlreadyLoggedIn
    | InvalidCode
    | InvalidAuth
    | NotRunning
    | Raised(message: string)

  /** The `error` text of the JSON body. */
  function Message(f: Fault): string {
    match f
    case AlreadyLoggedIn => "Already logged in"
    case InvalidCode => "Invalid code"
    case InvalidAuth => "Invalid auth"
    case NotRunning => "Bot not running"
    case Raised(m) => m
  }

  /** One element of the `bots` list of `/Start/list`. */
  datatype BotEntry = BotEntry(auth: string, groupId: int, emoji: string, phone: string)

  /** The JSON bodies the handlers return. */
  datatype Response =
    | CodeSent(code: string, next: string)
    | Verified(auth: string, next: string)
    | Started
    | Stopped
    | StatusReport(active: bool, groupId: Option<int>, emoji: string, phone: string)
    | Listing(total: nat, bots: seq<BotEntry>)
    | Error(fault: Fault)
}
