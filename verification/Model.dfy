/** The leaf data types shared by every component, and the answers the outside
    world gives: a statement, an HTTP call or a blob call may succeed, fail, take
    effect and still be reported as failed, or be the last thing the process does. */
module Model {
  datatype Option<+T> = None | Some(value: T)

  /** A normalised instant: whole seconds and nanoseconds in [0, 10^9). */
  datatype Time = Time(sec: int, nsec: int)

  /** Primary key of `messages`. */
  datatype Key = Key(channel: string, ts: string)

  datatype MessageRow = MessageRow(
    channelId: string, ts: string, threadTs: string, userId: string, text: string,
    subtype: string, postedAt: Time, editedAt: Option<Time>)

  datatype Channel = Channel(name: string, isPrivate: bool)
  datatype User = User(username: string, realName: string, isBot: bool)

  datatype FileMeta = FileMeta(
    name: string, title: string, mimetype: string, filetype: string, size: int,
    userId: string, mode: string, isExternal: bool)
  datatype FileRef = FileRef(id: string, meta: FileMeta, urlDownload: string)

  datatype DownloadState = Pending | Stored | Skipped | Failed

  /** A blob's address is determined by its key, which is "files/" + the file id. */
  datatype Uri = Uri(fileId: string)
  type Bytes = seq<int>

  datatype FileRow = FileRow(
    meta: FileMeta, storageUri: Option<Uri>, sha256: Option<string>, state: DownloadState)

  /** One edge of `message_files`. */
  datatype Edge = Edge(key: Key, file: string)

  datatype Action = Skip | Upsert(key: Key, message: MessageRow) | Delete(key: Key)

  // ---- outcomes ----

  /** How a call ended, as its caller sees it. `Crashed`: the process stopped there. */
  datatype Status = Done | Err | Crashed

  /** What the world does with one durable operation. `Lost`: it took effect but the
      caller is told it failed. `Crash`: the process stops before it takes effect. */
  datatype Outcome = Ok | Fail | Lost | Crash

  predicate TakesEffect(o: Outcome) { o == Ok || o == Lost }

  datatype Run<+T> = Run(state: T, status: Status)

  /** Executes one statement. `next` is the table state after it, or None when it
      violates a constraint. */
  function Stmt<T>(o: Outcome, now: T, next: Option<T>): Run<T> {
    match o
    case Crash => Run(now, Crashed)
    case Fail => Run(now, Err)
    case Ok => if next.Some? then Run(next.value, Done) else Run(now, Err)
    case Lost => if next.Some? then Run(next.value, Err) else Run(now, Err)
  }

  datatype HttpAnswer = NoResponse | HttpCrash | Response(status: int, body: Bytes)

  /** A failing `Put` may leave the old object, or any content, behind. */
  datatype PutAnswer = PutOk | PutFail(left: Option<Bytes>) | PutCrash(left: Option<Bytes>)

  /** The answers met by one transaction and the blob deletions after it. Each Status
      covers a query together with scanning its rows. `deleted` is a hint: which blobs
      were already gone when a deletion failed, which depends on the row order. */
  datatype TxAnswer = TxAnswer(
    begin: Status, read: Status, remove: Status, find: Status, collect: Status,
    commit: Outcome, undeletable: set<Uri>, blobCrash: bool, deleted: set<Uri>)

  datatype RefAnswer = RefAnswer(
    upsert: Outcome, link: Outcome, http: HttpAnswer, put: PutAnswer, stored: Outcome, state: Outcome)

  datatype MetaAnswer = MetaAnswer(
    channelInfo: Option<Channel>, channelUpsert: Outcome,
    userInfo: Option<User>, userUpsert: Outcome)

  /** Everything the world answers while one action is written. */
  datatype WriteAnswer = WriteAnswer(
    meta: MetaAnswer, message: Outcome, tx: TxAnswer, refs: nat -> RefAnswer)

  /** Runs `rest` only when `s` succeeded. */
  function Then(s: Status, rest: Status): Status { if s == Done then rest else s }
}
