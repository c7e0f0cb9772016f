/** What one write does to the durable world, as a function of the answers it meets.
    Every write either completes, reports an error, or stops with the process; since a
    crash may come at any durable operation, the states these functions end in are all
    the states the world ever passes through. */
module Mirror {
  import opened Model
  import opened Tables

  /** Durable state: the database and the external blob store. */
  datatype World = World(t: Tables, blobs: map<Uri, Bytes>)

  /** The world and the resolver's in-process caches. */
  datatype Proc = Proc(w: World, channels: set<string>, users: set<string>)

  datatype Config = Config(filesOn: bool, maxBytes: int, mimeAllow: map<string, bool>, hash: Bytes -> string)

  /** Go's lookup in a `map[string]bool`: a missing key reads as false. */
  predicate Has(m: map<string, bool>, k: string) { k in m && m[k] }

  // ---- transactions ----

  function CollectStatements(t: Tables, candidates: set<string>, a: TxAnswer): Status {
    if candidates == {} then Done
    else Then(a.find, if Orphans(t, candidates) == {} then Done else a.collect)
  }

  function DeleteStatements(t: Tables, key: Key, a: TxAnswer): Status {
    Then(a.begin, Then(a.read, Then(a.remove,
      CollectStatements(DropMessage(t, key), FilesOf(EdgesOf(t.edges, key)), a))))
  }

  function ReconcileStatements(t: Tables, key: Key, keep: set<string>, a: TxAnswer): Status {
    var gone := EdgesNotKept(t.edges, key, keep);
    Then(a.begin, Then(a.read,
      if gone == {} then Done else Then(a.remove, CollectStatements(DropEdges(t, gone), FilesOf(gone), a))))
  }

  /** Rolls back unless every statement succeeded; deletes blobs only after the commit. */
  function Finish(w: World, on: bool, statements: Status, c: Collected, a: TxAnswer): Run<World> {
    if statements != Done then Run(w, statements)
    else
      var r := Stmt(a.commit, w.t, Some(c.tables));
      if r.status != Done || !on then Run(w.(t := r.state), r.status)
      else BlobDeletes(World(r.state, w.blobs), c.uris, a)
  }

  function BlobDeletes(w: World, uris: set<Uri>, a: TxAnswer): Run<World> {
    if uris !! a.undeletable then Run(w.(blobs := w.blobs - uris), Done)
    else Run(w.(blobs := w.blobs - uris * a.deleted), if a.blobCrash then Crashed else Err)
  }

  /** The transaction took effect and one of the deletions after it fails. */
  predicate DeletionFails(on: bool, statements: Status, c: Collected, a: TxAnswer) {
    on && statements == Done && a.commit == Ok && !(c.uris !! a.undeletable)
  }

  function DeleteMessage(w: World, on: bool, key: Key, a: TxAnswer): Run<World> {
    Finish(w, on, DeleteStatements(w.t, key, a), DeleteTx(w.t, key), a)
  }

  function Reconcile(w: World, on: bool, key: Key, keep: set<string>, a: TxAnswer): Run<World> {
    Finish(w, on, ReconcileStatements(w.t, key, keep, a), ReconcileTx(w.t, key, keep), a)
  }

  // ---- files of one message ----

  predicate SkipsDownload(cfg: Config, ref: FileRef) {
    || ref.meta.isExternal || ref.urlDownload == ""
    || (cfg.maxBytes > 0 && ref.meta.size > cfg.maxBytes)
    || (|cfg.mimeAllow| > 0 && !Has(cfg.mimeAllow, ref.meta.mimetype))
  }

  function Sql(w: World, o: Outcome, next: Option<Tables>): Run<World> {
    var r := Stmt(o, w.t, next);
    Run(w.(t := r.state), r.status)
  }

  function Leave(blobs: map<Uri, Bytes>, uri: Uri, left: Option<Bytes>): map<Uri, Bytes> {
    if left.Some? then blobs[uri := left.value] else blobs
  }

  function Download(cfg: Config, w: World, id: string, a: RefAnswer): Run<World> {
    match a.http
    case NoResponse => Run(w, Err)
    case HttpCrash => Run(w, Crashed)
    case Response(code, body) =>
      if code != 200 then Run(w, Err)
      else match a.put
        case PutFail(left) => Run(w.(blobs := Leave(w.blobs, Uri(id), left)), Err)
        case PutCrash(left) => Run(w.(blobs := Leave(w.blobs, Uri(id), left)), Crashed)
        case PutOk =>
          Sql(w.(blobs := w.blobs[Uri(id) := body]), a.stored, SetStored(w.t, id, Uri(id), cfg.hash(body)))
  }

  /** The result of recording a state is dropped by the caller, except that a crash is final. */
  function Record(w: World, id: string, st: DownloadState, o: Outcome): Run<World> {
    var r := Sql(w, o, SetState(w.t, id, st));
    Run(r.state, if r.status == Crashed then Crashed else Done)
  }

  function NewFile(ref: FileRef): FileRow { FileRow(ref.meta, None, None, Pending) }

  function Fetch(cfg: Config, w: World, ref: FileRef, a: RefAnswer): Run<World> {
    if SkipsDownload(cfg, ref) then Record(w, ref.id, Skipped, a.state)
    else
      var d := Download(cfg, w, ref.id, a);
      if d.status == Err then Record(d.state, ref.id, Failed, a.state) else d
  }

  /** Records the file, then links it to the message. */
  function Attach(w: World, key: Key, ref: FileRef, a: RefAnswer): Run<World> {
    var u := Sql(w, a.upsert, PutFile(w.t, ref.id, NewFile(ref)));
    if u.status != Done then u else Sql(u.state, a.link, Link(u.state.t, Edge(key, ref.id)))
  }

  function HandleRef(cfg: Config, w: World, key: Key, ref: FileRef, a: RefAnswer): Run<World> {
    var l := Attach(w, key, ref, a);
    if l.status != Done then l else Fetch(cfg, l.state, ref, a)
  }

  /** The first `n` refs, stopping at the first failure. */
  function HandleRefs(cfg: Config, w: World, key: Key, refs: seq<FileRef>, n: nat, env: nat -> RefAnswer): Run<World>
    requires n <= |refs|
  {
    if n == 0 then Run(w, Done)
    else
      var r := HandleRefs(cfg, w, key, refs, n - 1, env);
      if r.status != Done then r else HandleRef(cfg, r.state, key, refs[n - 1], env(n - 1))
  }

  function Ids(refs: seq<FileRef>): set<string> { set r | r in refs :: r.id }

  function Handle(cfg: Config, w: World, key: Key, refs: seq<FileRef>, a: WriteAnswer): Run<World> {
    var r := Reconcile(w, cfg.filesOn, key, Ids(refs), a.tx);
    if r.status != Done then r else HandleRefs(cfg, r.state, key, refs, |refs|, a.refs)
  }

  // ---- applying one action ----

  function EnsureChannel(p: Proc, id: string, a: MetaAnswer): Run<Proc> {
    if id == "" || id in p.channels then Run(p, Done)
    else
      var c := if a.channelInfo.Some? then a.channelInfo.value else Channel("", false);
      var r := Sql(p.w, a.channelUpsert, PutChannel(p.w.t, id, c));
      Run(p.(w := r.state, channels := if r.status == Done then p.channels + {id} else p.channels), r.status)
  }

  function EnsureUser(p: Proc, id: string, a: MetaAnswer): Run<Proc> {
    if id == "" || id in p.users then Run(p, Done)
    else
      var u := if a.userInfo.Some? then a.userInfo.value else User("", "", false);
      var r := Sql(p.w, a.userUpsert, PutUser(p.w.t, id, u));
      Run(p.(w := r.state, users := if r.status == Done then p.users + {id} else p.users), r.status)
  }

  /** The rows a message refers to: its channel (a foreign key), then its author. */
  function EnsureRows(p: Proc, channel: string, user: string, a: MetaAnswer): Run<Proc> {
    var c := EnsureChannel(p, channel, a);
    if c.status != Done then c else EnsureUser(c.state, user, a)
  }

  function UpsertMessage(p: Proc, row: MessageRow, o: Outcome): Run<Proc> {
    var m := Sql(p.w, o, PutMessage(p.w.t, row));
    Run(p.(w := m.state), m.status)
  }

  function Apply(p: Proc, on: bool, act: Action, a: WriteAnswer): Run<Proc> {
    match act
    case Skip => Run(p, Done)
    case Delete(key) =>
      var r := DeleteMessage(p.w, on, key, a.tx);
      Run(p.(w := r.state), r.status)
    case Upsert(key, row) =>
      var e := EnsureRows(p, key.channel, row.userId, a.meta);
      if e.status != Done then e else UpsertMessage(e.state, row, a.message)
  }

  /** Apply, then bring the message's files up to date. `refs` is None when no file
      handler runs for this write. */
  function Write(cfg: Config, p: Proc, act: Action, refs: Option<seq<FileRef>>, a: WriteAnswer): Run<Proc> {
    var r := Apply(p, cfg.filesOn, act, a);
    if r.status != Done || !act.Upsert? || refs.None? then r
    else
      var h := Handle(cfg, r.state.w, act.key, refs.value, a);
      Run(r.state.(w := h.state), h.status)
  }

  /** A new process over the same world. */
  function Restart(p: Proc): Proc { Proc(p.w, {}, {}) }

  const FRESH := Proc(World(EMPTY, map[]), {}, {})
}
