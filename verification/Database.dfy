/** The database as an object whose statements run one at a time, and the blob store.
    Each operation takes the answer the world gives it as its last argument. */
module Database {
  import opened Model
  import opened Tables

  ghost predicate Enumerates<T(!new)>(rows: seq<T>, wanted: set<T>) {
    (forall x :: x in wanted <==> x in rows) && forall i, j :: 0 <= i < j < |rows| ==> rows[i] != rows[j]
  }

  function Elems<T(==)>(s: seq<T>): set<T> { set x | x in s }

  lemma {:induction false} UrisOfNext(files: map<string, FileRow>, rows: seq<string>, i: nat)
    requires i < |rows| && rows[i] in files
    ensures UrisOf(files, Elems(rows[..i + 1])) == UrisOf(files, Elems(rows[..i]))
      + if files[rows[i]].storageUri.Some? then {files[rows[i]].storageUri.value} else {}
  {
  }

  /** With no edge to remove the whole transaction changes nothing. */
  lemma {:induction false} NothingRemoved(t: Tables, gone: set<Edge>)
    requires FilesOf(gone) == {}
    ensures gone == {} && Collect(DropEdges(t, gone), FilesOf(gone)) == Collected(t, {})
  {
    assert forall e :: e in gone ==> e.file in FilesOf(gone);
    assert t.edges - gone == t.edges && t.files - {} == t.files;
    assert Orphans(DropEdges(t, gone), {}) == {};
  }

  class Db {
    var tables: Tables    // committed state
    var tx: Tables        // the open transaction's working state

    constructor ()
      ensures tables == EMPTY
    {
      tables, tx := EMPTY, EMPTY;
    }

    /** One auto-committed statement. */
    method Exec(next: Option<Tables>, o: Outcome) returns (s: Status)
      modifies this
      ensures Run(tables, s) == Stmt(o, old(tables), next)
    {
      match o {
        case Crash => s := Crashed;
        case Fail => s := Err;
        case _ =>
          if next.None? { return Err; }
          tables := next.value;
          s := if o == Ok then Done else Err;
      }
    }

    method Begin(o: Status) returns (s: Status)
      modifies this
      ensures s == o && tables == old(tables) && (s == Done ==> tx == tables)
    {
      tx := tables;
      s := o;
    }

    /** A statement inside the transaction. */
    method TxExec(next: Option<Tables>, o: Status) returns (s: Status)
      modifies this
      ensures tables == old(tables) && (next.Some? ==> s == o && (s == Done ==> tx == next.value))
    {
      if o != Done || next.None? { return if o == Done then Err else o; }
      tx := next.value;
      s := Done;
    }

    method Commit(o: Outcome) returns (s: Status)
      modifies this
      ensures Run(tables, s) == Stmt(o, old(tables), Some(old(tx)))
    {
      s := Exec(Some(tx), o);
    }

    /** A query inside the transaction: the wanted rows, each once, in any order. */
    method Select<T(==,!new)>(wanted: set<T>, o: Status) returns (s: Status, rows: seq<T>)
      ensures s == o && (s == Done ==> Enumerates(rows, wanted))
    {
      rows, s := [], o;
      var rest := wanted;
      while rest != {}
        invariant Enumerates(rows, wanted - rest) && rest <= wanted
      {
        var x :| x in rest;
        rows, rest := rows + [x], rest - {x};
      }
    }
  }

  /** The external object store. */
  class Bucket {
    var objects: map<Uri, Bytes>

    constructor ()
      ensures objects == map[]
    {
      objects := map[];
    }

    /** Deleting an absent object succeeds; a failing deletion may or may not take effect. */
    method Delete(uri: Uri, a: TxAnswer) returns (s: Status)
      modifies this
      ensures uri !in a.undeletable ==> s == Done && objects == old(objects) - {uri}
      ensures uri in a.undeletable ==>
        && s == (if a.blobCrash then Crashed else Err)
        && (objects == old(objects) || objects == old(objects) - {uri})
    {
      if uri !in a.undeletable {
        objects := objects - {uri};
        return Done;
      }
      if * { objects := objects - {uri}; }
      s := if a.blobCrash then Crashed else Err;
    }

    method Put(fileId: string, body: Bytes, a: PutAnswer) returns (s: Status, uri: Uri)
      modifies this
      ensures match a
        case PutOk => s == Done && uri == Uri(fileId) && objects == old(objects)[uri := body]
        case PutFail(left) => s == Err && objects == (if left.Some? then old(objects)[Uri(fileId) := left.value] else old(objects))
        case PutCrash(left) => s == Crashed && objects == (if left.Some? then old(objects)[Uri(fileId) := left.value] else old(objects))
    {
      uri := Uri(fileId);
      match a {
        case PutOk =>
          objects := objects[uri := body];
          s := Done;
        case PutFail(left) =>
          if left.Some? { objects := objects[uri := left.value]; }
          s := Err;
        case PutCrash(left) =>
          if left.Some? { objects := objects[uri := left.value]; }
          s := Crashed;
      }
    }
  }

  /** `d` are the blobs deleted before the n-th deletion failed, and perhaps that one. */
  ghost predicate StopsAt(uris: seq<Uri>, a: TxAnswer, n: nat, d: set<Uri>) {
    && n < |uris| && uris[n] in a.undeletable && Elems(uris[..n]) !! a.undeletable
    && Elems(uris[..n]) <= d <= Elems(uris[..n]) + {uris[n]}
  }

  /** Deletes blobs in row order and stops at the first failure; `d` are those gone. */
  method DeleteBlobs(bucket: Bucket, on: bool, uris: seq<Uri>, a: TxAnswer) returns (s: Status, ghost d: set<Uri>)
    modifies bucket
    ensures !on ==> s == Done && bucket.objects == old(bucket.objects)
    ensures on && Elems(uris) !! a.undeletable ==> s == Done && bucket.objects == old(bucket.objects) - Elems(uris)
    ensures on && !(Elems(uris) !! a.undeletable) ==>
      s == (if a.blobCrash then Crashed else Err) && bucket.objects == old(bucket.objects) - Elems(uris) * d
    ensures on && !(Elems(uris) !! a.undeletable) ==> exists n :: StopsAt(uris, a, n, d)
  {
    s, d := Done, {};
    if on {
      for i := 0 to |uris|
        invariant s == Done && d == Elems(uris[..i]) && d !! a.undeletable
        invariant bucket.objects == old(bucket.objects) - d
      {
        ghost var before := bucket.objects;
        s := bucket.Delete(uris[i], a);
        assert uris[..i + 1] == uris[..i] + [uris[i]];
        if s != Done {
          assert uris[i] in Elems(uris) * a.undeletable;
          if bucket.objects != before { d := d + {uris[i]}; }
          assert Elems(uris) * d == d && StopsAt(uris, a, i, d);
          return;
        }
        d := d + {uris[i]};
      }
      assert uris[..|uris|] == uris && d == Elems(uris);
    }
  }
}
