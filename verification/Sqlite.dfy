/** The SQLite backend: the same garbage collection with positional placeholders. */
module Sqlite {
  import opened Model
  import opened Tables
  import opened Database
  import Mirror

  // ---- placeholders ----

  /** The number of positional parameters in a piece of SQL. */
  function Marks(sql: string): nat {
    if sql == "" then 0 else Marks(sql[..|sql| - 1]) + if sql[|sql| - 1] == '?' then 1 else 0
  }

  /** strings.Repeat */
  function Repeat(s: string, n: nat): string { if n == 0 then "" else Repeat(s, n - 1) + s }

  /** "?,?,…,?": what may stand between the parentheses of IN. An empty list is a syntax error. */
  predicate MarkList(ph: string) {
    |ph| % 2 == 1 && forall i :: 0 <= i < |ph| ==> ph[i] == if i % 2 == 0 then '?' else ','
  }

  lemma {:induction false} RepeatedMarks(n: nat)
    ensures var r := Repeat("?,", n);
      && |r| == 2 * n && Marks(r) == n
      && (forall i :: 0 <= i < |r| ==> r[i] == if i % 2 == 0 then '?' else ',')
  {
    if n > 0 {
      RepeatedMarks(n - 1);
      var r, r' := Repeat("?,", n), Repeat("?,", n - 1);
      assert r[..|r| - 1] == r' + "?" && (r' + "?")[..|r'|] == r';
    }
  }

  method InPlaceholders(ids: seq<string>) returns (ph: string, args: seq<string>)
    ensures args == ids && Marks(ph) == |args|
    ensures if ids == [] then ph == "" else MarkList(ph)
  {
    if |ids| == 0 { return "", []; }
    ph := Repeat("?,", |ids|);
    RepeatedMarks(|ids|);
    ph := ph[..|ph| - 1];
    var a := new string[|ids|];
    for i := 0 to |ids|
      invariant a[..i] == ids[..i]
    {
      a[i] := ids[i];
    }
    args := a[..];
    assert ids[..|ids|] == ids;
  }

  // ---- WHERE clauses over message_files ----

  datatype Term = ChannelIs | TsIs | FileNotIn(ph: string)

  function Arity(terms: seq<Term>): nat {
    if terms == [] then 0
    else (if terms[0].FileNotIn? then Marks(terms[0].ph) else 1) + Arity(terms[1..])
  }

  predicate WellFormed(terms: seq<Term>) {
    forall i :: 0 <= i < |terms| && terms[i].FileNotIn? ==> MarkList(terms[i].ph)
  }

  /** Whether a row satisfies the clause, each term taking its arguments in turn. */
  predicate Satisfies(e: Edge, terms: seq<Term>, args: seq<string>)
    requires |args| == Arity(terms)
  {
    if terms == [] then true
    else match terms[0]
      case ChannelIs => e.key.channel == args[0] && Satisfies(e, terms[1..], args[1..])
      case TsIs => e.key.ts == args[0] && Satisfies(e, terms[1..], args[1..])
      case FileNotIn(ph) => e.file !in args[..Marks(ph)] && Satisfies(e, terms[1..], args[Marks(ph)..])
  }

  lemma {:induction false} FirstTerm(t: Term, rest: seq<Term>)
    ensures Arity([t] + rest) == (if t.FileNotIn? then Marks(t.ph) else 1) + Arity(rest)
    ensures forall e: Edge, args: seq<string> :: |args| == Arity([t] + rest) ==>
      (Satisfies(e, [t] + rest, args) <==> match t
        case ChannelIs => e.key.channel == args[0] && Satisfies(e, rest, args[1..])
        case TsIs => e.key.ts == args[0] && Satisfies(e, rest, args[1..])
        case FileNotIn(ph) => e.file !in args[..Marks(ph)] && Satisfies(e, rest, args[Marks(ph)..]))
  {
    assert ([t] + rest)[1..] == rest;
  }

  /** `channel_id=? AND message_ts=?` selects the message's edges. */
  lemma {:induction false} KeyClause(key: Key)
    ensures Arity([ChannelIs, TsIs]) == 2
    ensures forall e :: Satisfies(e, [ChannelIs, TsIs], [key.channel, key.ts]) <==> e.key == key
  {
    FirstTerm(ChannelIs, [TsIs]);
    FirstTerm(TsIs, []);
    assert [ChannelIs] + [TsIs] == [ChannelIs, TsIs] && [TsIs] + [] == [TsIs];
    assert [key.channel, key.ts][1..] == [key.ts];
  }

  /** With the NOT IN term it selects those whose file is not kept: every mark meets its
      own argument, repeated ids included. */
  lemma {:induction false} NotKeptClause(key: Key, ph: string, keep: seq<string>)
    requires Marks(ph) == |keep|
    ensures Arity([ChannelIs, TsIs, FileNotIn(ph)]) == 2 + |keep|
    ensures forall e :: Satisfies(e, [ChannelIs, TsIs, FileNotIn(ph)], [key.channel, key.ts] + keep) <==>
                        e.key == key && e.file !in keep
  {
    var last := [FileNotIn(ph)];
    FirstTerm(ChannelIs, [TsIs] + last);
    FirstTerm(TsIs, last);
    FirstTerm(FileNotIn(ph), []);
    assert [ChannelIs] + ([TsIs] + last) == [ChannelIs, TsIs, FileNotIn(ph)] && last + [] == last;
    var args := [key.channel, key.ts] + keep;
    assert args[1..] == [key.ts] + keep && args[1..][1..] == keep && keep[..Marks(ph)] == keep;
    assert keep[Marks(ph)..] == [];
  }

  /** The rows a SELECT or DELETE with this clause touches. */
  function Rows(edges: set<Edge>, terms: seq<Term>, args: seq<string>): set<Edge>
    requires WellFormed(terms) && |args| == Arity(terms)
  {
    set e | e in edges && Satisfies(e, terms, args)
  }

  class SqliteStore {
    const db: Db
    const bucket: Bucket
    const on: bool

    constructor (db: Db, bucket: Bucket, on: bool)
      ensures this.db == db && this.bucket == bucket && this.on == on
    {
      this.db, this.bucket, this.on := db, bucket, on;
    }

    ghost function World(): Mirror.World
      reads db, bucket
    {
      Mirror.World(db.tables, bucket.objects)
    }

    method DeleteMessage(key: Key, a: TxAnswer) returns (s: Status, ghost d: set<Uri>)
      modifies db, bucket
      ensures Run(World(), s) == Mirror.DeleteMessage(old(World()), on, key, a.(deleted := d))
    {
      d := {};
      s := db.Begin(a.begin);
      if s != Done { return; }

      var rows;
      s, rows := db.Select(FilesOf(EdgesOf(db.tx.edges, key)), a.read);
      if s != Done { return; }
      var candidates: seq<string> := [];
      for i := 0 to |rows|
        invariant candidates == rows[..i]
      {
        candidates := candidates + [rows[i]];
      }
      assert candidates == rows && Elems(candidates) == FilesOf(EdgesOf(db.tx.edges, key));

      s := db.TxExec(Some(DropMessage(db.tx, key)), a.remove);
      if s != Done { return; }
      var orphanUris;
      s, orphanUris := GcOrphans(candidates, a);
      if s != Done { return; }
      s := db.Commit(a.commit);
      if s != Done { return; }
      s, d := DeleteBlobs(bucket, on, orphanUris, a);
    }

    /** Deletes the candidate rows without edges and returns their addresses; an empty
        candidate list runs no statement. */
    method GcOrphans(candidates: seq<string>, a: TxAnswer) returns (s: Status, uris: seq<Uri>)
      modifies db
      ensures db.tables == old(db.tables)
      ensures s == Mirror.CollectStatements(old(db.tx), Elems(candidates), a)
      ensures s == Done ==> Collected(db.tx, Elems(uris)) == Collect(old(db.tx), Elems(candidates))
    {
      s, uris := Done, [];
      ghost var t := db.tx;
      if |candidates| == 0 {
        assert Orphans(t, Elems(candidates)) == {} && t.files - {} == t.files;
        return;
      }
      assert candidates[0] in Elems(candidates);
      var ph, args := InPlaceholders(candidates);
      assert MarkList(ph) && Marks(ph) == |args|;
      var wanted := set id | id in db.tx.files && id in args && !Linked(db.tx.edges, id);
      assert wanted == Orphans(t, Elems(candidates));
      var rows;
      s, rows := db.Select(wanted, a.find);
      if s != Done { return; }
      var orphanIds: seq<string> := [];
      for i := 0 to |rows|
        invariant db.tx == t && db.tables == old(db.tables) && orphanIds == rows[..i]
        invariant Elems(uris) == UrisOf(t.files, Elems(rows[..i]))
      {
        assert rows[i] in wanted;
        UrisOfNext(t.files, rows, i);
        orphanIds := orphanIds + [rows[i]];
        var uri := db.tx.files[rows[i]].storageUri;
        if uri.Some? { uris := uris + [uri.value]; }
      }
      assert orphanIds == rows && Elems(orphanIds) == wanted;
      if |orphanIds| > 0 {
        assert orphanIds[0] in wanted;
        var ph2, args2 := InPlaceholders(orphanIds);
        assert MarkList(ph2) && Marks(ph2) == |args2|;
        s := db.TxExec(DropFiles(db.tx, Elems(args2)), a.collect);
      } else {
        assert t.files - wanted == t.files;
      }
    }

    method ReconcileMessageFiles(key: Key, keep: seq<string>, a: TxAnswer) returns (s: Status, ghost d: set<Uri>)
      modifies db, bucket
      ensures Run(World(), s) == Mirror.Reconcile(old(World()), on, key, Elems(keep), a.(deleted := d))
    {
      d := {};
      s := db.Begin(a.begin);
      if s != Done { return; }

      var where_ := [ChannelIs, TsIs];
      var args := [key.channel, key.ts];
      KeyClause(key);
      if |keep| > 0 {
        var ph, kargs := InPlaceholders(keep);
        assert where_ + [FileNotIn(ph)] == [ChannelIs, TsIs, FileNotIn(ph)];
        NotKeptClause(key, ph, keep);
        where_ := where_ + [FileNotIn(ph)];
        args := args + kargs;
      }
      var gone := Rows(db.tx.edges, where_, args);
      assert gone == EdgesNotKept(db.tx.edges, key, Elems(keep));

      var rows;
      s, rows := db.Select(FilesOf(gone), a.read);
      if s != Done { return; }
      var removed: seq<string> := [];
      for i := 0 to |rows|
        invariant removed == rows[..i]
      {
        removed := removed + [rows[i]];
      }
      assert removed == rows && Elems(removed) == FilesOf(gone);
      if |removed| == 0 {
        NothingRemoved(db.tx, gone);
        assert bucket.objects - {} == bucket.objects;
        s := db.Commit(a.commit);
        return;
      }
      assert removed[0] in FilesOf(gone);

      s := db.TxExec(Some(DropEdges(db.tx, gone)), a.remove);
      if s != Done { return; }
      var orphanUris;
      s, orphanUris := GcOrphans(removed, a);
      if s != Done { return; }
      s := db.Commit(a.commit);
      if s != Done { return; }
      s, d := DeleteBlobs(bucket, on, orphanUris, a);
    }
  }
}
