/** The storage surface the rest of the program writes to, over either backend. */
module Backend {
  import opened Model
  import opened Tables
  import opened Database
  import opened Postgres
  import opened Sqlite
  import Mirror

  datatype Store = OnPostgres(pg: PgStore) | OnSqlite(lite: SqliteStore) {
    function Db(): Db { match this case OnPostgres(s) => s.db case OnSqlite(s) => s.db }
    function Bucket(): Bucket { match this case OnPostgres(s) => s.bucket case OnSqlite(s) => s.bucket }
    function On(): bool { match this case OnPostgres(s) => s.on case OnSqlite(s) => s.on }

    ghost function World(): Mirror.World
      reads Db(), Bucket()
    {
      Mirror.World(Db().tables, Bucket().objects)
    }

    method UpsertChannel(id: string, c: Channel, o: Outcome) returns (s: Status)
      modifies Db()
      ensures Run(World(), s) == Mirror.Sql(old(World()), o, PutChannel(old(World().t), id, c))
    {
      s := Db().Exec(PutChannel(Db().tables, id, c), o);
    }

    method UpsertUser(id: string, u: User, o: Outcome) returns (s: Status)
      modifies Db()
      ensures Run(World(), s) == Mirror.Sql(old(World()), o, PutUser(old(World().t), id, u))
    {
      s := Db().Exec(PutUser(Db().tables, id, u), o);
    }

    method UpsertMessage(m: MessageRow, o: Outcome) returns (s: Status)
      modifies Db()
      ensures Run(World(), s) == Mirror.Sql(old(World()), o, PutMessage(old(World().t), m))
    {
      s := Db().Exec(PutMessage(Db().tables, m), o);
    }

    method UpsertFile(id: string, row: FileRow, o: Outcome) returns (s: Status)
      modifies Db()
      ensures Run(World(), s) == Mirror.Sql(old(World()), o, PutFile(old(World().t), id, row))
    {
      s := Db().Exec(PutFile(Db().tables, id, row), o);
    }

    method LinkFile(key: Key, id: string, o: Outcome) returns (s: Status)
      modifies Db()
      ensures Run(World(), s) == Mirror.Sql(old(World()), o, Link(old(World().t), Edge(key, id)))
    {
      s := Db().Exec(Link(Db().tables, Edge(key, id)), o);
    }

    method SetFileStored(id: string, uri: Uri, sha: string, o: Outcome) returns (s: Status)
      modifies Db()
      ensures Run(World(), s) == Mirror.Sql(old(World()), o, SetStored(old(World().t), id, uri, sha))
    {
      s := Db().Exec(SetStored(Db().tables, id, uri, sha), o);
    }

    method SetFileState(id: string, st: DownloadState, o: Outcome) returns (s: Status)
      modifies Db()
      ensures Run(World(), s) == Mirror.Sql(old(World()), o, SetState(old(World().t), id, st))
    {
      s := Db().Exec(SetState(Db().tables, id, st), o);
    }

    method DeleteMessage(key: Key, a: TxAnswer) returns (s: Status, ghost d: set<Uri>)
      modifies Db(), Bucket()
      ensures Run(World(), s) == Mirror.DeleteMessage(old(World()), On(), key, a.(deleted := d))
    {
      match this {
        case OnPostgres(st) => s, d := st.DeleteMessage(key, a);
        case OnSqlite(st) => s, d := st.DeleteMessage(key, a);
      }
    }

    method ReconcileMessageFiles(key: Key, keep: seq<string>, a: TxAnswer) returns (s: Status, ghost d: set<Uri>)
      modifies Db(), Bucket()
      ensures Run(World(), s) == Mirror.Reconcile(old(World()), On(), key, Elems(keep), a.(deleted := d))
    {
      match this {
        case OnPostgres(st) => s, d := st.ReconcileMessageFiles(key, keep, a);
        case OnSqlite(st) => s, d := st.ReconcileMessageFiles(key, keep, a);
      }
    }
  }

  /** Run on equal worlds, with equal answers and any keep list, the two backends return
      the same status and leave the same tables; the same blobs too unless a deletion after
      the commit fails, where the row order decides which blobs were already gone. */
  method ReconcileOnBoth(pg: PgStore, lite: SqliteStore, key: Key, keep: seq<string>, a: TxAnswer)
    returns (s: Status, s': Status)
    requires pg.db != lite.db && pg.bucket != lite.bucket && pg.on == lite.on && pg.World() == lite.World()
    modifies pg.db, pg.bucket, lite.db, lite.bucket
    ensures s == s' && pg.World().t == lite.World().t
    ensures s == Done ==> pg.World() == lite.World()
    ensures var t, ids := old(pg.World().t), Elems(keep);
      var c := ReconcileTx(t, key, ids);
      && pg.World().blobs - c.uris == lite.World().blobs - c.uris
      && (!Mirror.DeletionFails(pg.on, Mirror.ReconcileStatements(t, key, ids, a), c, a) ==> pg.World() == lite.World())
  {
    ghost var d, d';
    s, d := pg.ReconcileMessageFiles(key, keep, a);
    s', d' := lite.ReconcileMessageFiles(key, keep, a);
  }

  method DeleteOnBoth(pg: PgStore, lite: SqliteStore, key: Key, a: TxAnswer) returns (s: Status, s': Status)
    requires pg.db != lite.db && pg.bucket != lite.bucket && pg.on == lite.on && pg.World() == lite.World()
    modifies pg.db, pg.bucket, lite.db, lite.bucket
    ensures s == s' && pg.World().t == lite.World().t
    ensures s == Done ==> pg.World() == lite.World()
    ensures var t := old(pg.World().t);
      var c := DeleteTx(t, key);
      && pg.World().blobs - c.uris == lite.World().blobs - c.uris
      && (!Mirror.DeletionFails(pg.on, Mirror.DeleteStatements(t, key, a), c, a) ==> pg.World() == lite.World())
  {
    ghost var d, d';
    s, d := pg.DeleteMessage(key, a);
    s', d' := lite.DeleteMessage(key, a);
  }
}
