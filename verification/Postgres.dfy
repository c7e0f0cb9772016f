/** The Postgres backend: garbage collection inside a transaction, blobs after the commit. */
module Postgres {
  import opened Model
  import opened Tables
  import opened Database
  import Mirror

  /** `x = ANY(list)` */
  predicate EqAny(x: string, list: seq<string>) { x in list }

  class PgStore {
    const db: Db
    const bucket: Bucket
    const on: bool     // whether a blob store is configured

    constructor (db: Db, bucket: Bucket, on: bool)
      ensures this.db == db && this.bucket == bucket && this.on == on
    {
      this.db, this.bucket, this.on := db, bucket, on;
    }

    ghost function World(): Mirror.World
      reads db, bucket
    {
      Mirror.World(db.tables, bucket.objects)
    }

    method DeleteMessage(key: Key, a: TxAnswer) returns (s: Status, ghost d: set<Uri>)
      modifies db, bucket
      ensures Run(World(), s) == Mirror.DeleteMessage(old(World()), on, key, a.(deleted := d))
    {
      d := {};
      s := db.Begin(a.begin);
      if s != Done { return; }

      var rows;
      s, rows := db.Select(FilesOf(EdgesOf(db.tx.edges, key)), a.read);
      if s != Done { return; }
      var candidates: seq<string> := [];
      for i := 0 to |rows|
        invariant candidates == rows[..i]
      {
        candidates := candidates + [rows[i]];
      }
      assert candidates == rows && Elems(candidates) == FilesOf(EdgesOf(db.tx.edges, key));

      s := db.TxExec(Some(DropMessage(db.tx, key)), a.remove);
      if s != Done { return; }

      var orphanUris;
      s, orphanUris := CollectAny(candidates, a);
      if s != Done { return; }
      s := db.Commit(a.commit);
      if s != Done { return; }
      s, d := DeleteBlobs(bucket, on, orphanUris, a);
    }

    /** Deletes the candidate rows that have no edge left and returns their addresses. */
    method CollectAny(candidates: seq<string>, a: TxAnswer) returns (s: Status, orphanUris: seq<Uri>)
      modifies db
      ensures db.tables == old(db.tables)
      ensures s == Mirror.CollectStatements(old(db.tx), Elems(candidates), a)
      ensures s == Done ==>
        Collected(db.tx, Elems(orphanUris)) == Collect(old(db.tx), Elems(candidates))
    {
      s, orphanUris := Done, [];
      ghost var t := db.tx;
      if |candidates| > 0 {
        assert candidates[0] in Elems(candidates);
        var wanted := set id | id in db.tx.files && EqAny(id, candidates) && !Linked(db.tx.edges, id);
        assert wanted == Orphans(t, Elems(candidates));
        var orows;
        s, orows := db.Select(wanted, a.find);
        if s != Done { return; }
        var orphanIds: seq<string> := [];
        for i := 0 to |orows|
          invariant db.tx == t && db.tables == old(db.tables) && orphanIds == orows[..i]
          invariant Elems(orphanUris) == UrisOf(t.files, Elems(orows[..i]))
        {
          assert orows[i] in wanted;
          UrisOfNext(t.files, orows, i);
          orphanIds := orphanIds + [orows[i]];
          var uri := db.tx.files[orows[i]].storageUri;
          if uri.Some? { orphanUris := orphanUris + [uri.value]; }
        }
        assert orphanIds == orows && Elems(orphanIds) == wanted;
        if |orphanIds| > 0 {
          assert orphanIds[0] in wanted;
          s := db.TxExec(DropFiles(db.tx, Elems(orphanIds)), a.collect);
        } else {
          assert t.files - wanted == t.files;
        }
      } else {
        assert Orphans(t, Elems(candidates)) == {} && t.files - {} == t.files;
      }
    }

    method ReconcileMessageFiles(key: Key, keep: seq<string>, a: TxAnswer) returns (s: Status, ghost d: set<Uri>)
      modifies db, bucket
      ensures Run(World(), s) == Mirror.Reconcile(old(World()), on, key, Elems(keep), a.(deleted := d))
    {
      d := {};
      s := db.Begin(a.begin);
      if s != Done { return; }

      var gone := set e | e in db.tx.edges && e.key == key && !EqAny(e.file, keep);
      assert gone == EdgesNotKept(db.tx.edges, key, Elems(keep));
      var rows;
      s, rows := db.Select(FilesOf(gone), a.read);
      if s != Done { return; }
      var removed: seq<string> := [];
      for i := 0 to |rows|
        invariant removed == rows[..i]
      {
        removed := removed + [rows[i]];
      }
      assert removed == rows && Elems(removed) == FilesOf(gone);
      if |removed| == 0 {
        NothingRemoved(db.tx, gone);
        assert bucket.objects - {} == bucket.objects;
        s := db.Commit(a.commit);
        return;
      }
      assert removed[0] in FilesOf(gone);

      s := db.TxExec(Some(DropEdges(db.tx, gone)), a.remove);
      if s != Done { return; }
      var orphanUris;
      s, orphanUris := CollectAny(removed, a);
      if s != Done { return; }
      s := db.Commit(a.commit);
      if s != Done { return; }
      s, d := DeleteBlobs(bucket, on, orphanUris, a);
    }
  }
}
