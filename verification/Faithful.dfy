/** When a row says `stored`, do its bytes hash to its digest? */
module Faithful {
  import opened Model
  import opened Tables
  import opened Mirror
  import opened Safety
  import opened Dispatcher
  import opened Serve

  /** A stored row has an address whose content hashes to the recorded digest. */
  ghost predicate FaithfulRow(cfg: Config, w: World, id: string)
    requires id in w.t.files
  {
    var row := w.t.files[id];
    row.state == Stored ==>
      row.storageUri == Some(Uri(id)) && Uri(id) in w.blobs && row.sha256 == Some(cfg.hash(w.blobs[Uri(id)]))
  }

  ghost predicate Faithful(cfg: Config, w: World) { forall id :: id in w.t.files ==> FaithfulRow(cfg, w, id) }

  // ---- downloading ----

  /** What a call to Put leaves in the blob. */
  function Landed(a: RefAnswer): Option<Bytes> {
    if !a.http.Response? || a.http.status != 200 then None
    else match a.put case PutOk => Some(a.http.body) case PutFail(left) => left case PutCrash(left) => left
  }

  /** After the bytes landed, the row is brought in line with them. */
  predicate RowFollows(a: RefAnswer) {
    match a.put
    case PutOk => TakesEffect(a.stored) || (a.stored == Fail && TakesEffect(a.state))
    case PutFail(_) => TakesEffect(a.state)
    case PutCrash(_) => false
  }

  /** Bytes with another digest landed in a stored row's blob. */
  predicate Overwritten(cfg: Config, w: World, id: string, a: RefAnswer)
    requires id in w.t.files
  {
    && Landed(a).Some? && w.t.files[id].state == Stored
    && w.t.files[id].sha256 != Some(cfg.hash(Landed(a).value))
  }

  /** New bytes replace those of a stored row, and the row is left as it was. */
  predicate Torn(cfg: Config, w: World, ref: FileRef, a: RefAnswer) {
    !SkipsDownload(cfg, ref) && !RowFollows(a) && ref.id in w.t.files && Overwritten(cfg, w, ref.id, a)
  }

  lemma {:induction false} RecordKeepsFaithful(cfg: Config, w: World, id: string, st: DownloadState, o: Outcome)
    requires Faithful(cfg, w) && st != Stored
    ensures Faithful(cfg, Record(w, id, st, o).state)
  {
  }

  predicate RowStored(a: RefAnswer) { Landed(a).Some? && a.put == PutOk && TakesEffect(a.stored) }

  /** A download replaces the blob by whatever landed, and the row only when it is stored. */
  lemma {:induction false} DownloadShape(cfg: Config, w: World, id: string, a: RefAnswer)
    ensures var d := Download(cfg, w, id, a);
      && d.state.blobs == Leave(w.blobs, Uri(id), Landed(a))
      && d.state.t == (if RowStored(a) then SetStored(w.t, id, Uri(id), cfg.hash(Landed(a).value)).value else w.t)
      && (d.status == Err && Landed(a).Some? ==> a.put.PutFail? || (a.put == PutOk && (a.stored == Fail || a.stored == Lost)))
      && (d.status == Done ==> RowStored(a))
      && (d.status == Crashed && Landed(a).Some? ==> a.put.PutCrash? || (a.put == PutOk && a.stored == Crash))
  {
  }

  /** The row after the download step: still the old one, or brought in line. */
  lemma {:induction false} DownloadFaithfulExact(cfg: Config, w: World, id: string, a: RefAnswer)
    requires Faithful(cfg, w) && id in w.t.files
    ensures var d := Download(cfg, w, id, a).state;
      && (forall x :: x in d.t.files && x != id ==> FaithfulRow(cfg, d, x))
      && d.t.files.Keys == w.t.files.Keys
      && (FaithfulRow(cfg, d, id) <==> RowStored(a) || !Overwritten(cfg, w, id, a))
      && (d.t.files[id].state == Stored <==> RowStored(a) || w.t.files[id].state == Stored)
  {
    DownloadShape(cfg, w, id, a);
    assert FaithfulRow(cfg, w, id);
    var d := Download(cfg, w, id, a).state;
    forall x | x in d.t.files && x != id ensures FaithfulRow(cfg, d, x) { assert FaithfulRow(cfg, w, x); }
  }

  /** Marking a row as not stored makes it faithful, if the mark takes effect. */
  lemma {:induction false} RecordFaithfulExact(cfg: Config, w: World, id: string, st: DownloadState, o: Outcome)
    requires st != Stored && id in w.t.files && forall x :: x in w.t.files && x != id ==> FaithfulRow(cfg, w, x)
    ensures Faithful(cfg, Record(w, id, st, o).state) <==> TakesEffect(o) || FaithfulRow(cfg, w, id)
  {
  }

  /** A download breaks faithfulness exactly when it is torn. */
  lemma {:induction false} FetchFaithfulExact(cfg: Config, w: World, ref: FileRef, a: RefAnswer)
    requires Faithful(cfg, w) && ref.id in w.t.files
    ensures Faithful(cfg, Fetch(cfg, w, ref, a).state) <==> !Torn(cfg, w, ref, a)
  {
    if SkipsDownload(cfg, ref) {
      RecordKeepsFaithful(cfg, w, ref.id, Skipped, a.state);
    } else {
      DownloadShape(cfg, w, ref.id, a);
      DownloadFaithfulExact(cfg, w, ref.id, a);
      var d := Download(cfg, w, ref.id, a);
      hide Download, Record, FaithfulRow;
      if d.status == Err { RecordFaithfulExact(cfg, d.state, ref.id, Failed, a.state); }
    }
  }

  // ---- whole writes and runs ----

  /** Bytes that landed are followed by a row update that took effect. */
  predicate Follows(a: RefAnswer) { Landed(a).Some? ==> RowFollows(a) }

  lemma {:induction false} AttachKeepsFaithful(cfg: Config, w: World, key: Key, ref: FileRef, a: RefAnswer)
    requires Faithful(cfg, w)
    ensures Faithful(cfg, Attach(w, key, ref, a).state)
    ensures Attach(w, key, ref, a).status == Done ==> ref.id in Attach(w, key, ref, a).state.t.files
  {
    var w' := Attach(w, key, ref, a).state;
    forall x | x in w'.t.files ensures FaithfulRow(cfg, w', x) {
      if x in w.t.files { assert FaithfulRow(cfg, w, x); }
    }
  }

  lemma {:induction false} HandleRefsKeepsFaithful(cfg: Config, w: World, key: Key, refs: seq<FileRef>, n: nat, env: nat -> RefAnswer)
    requires Faithful(cfg, w) && n <= |refs| && forall i :: Follows(env(i))
    ensures Faithful(cfg, HandleRefs(cfg, w, key, refs, n, env).state)
  {
    hide Attach, Fetch;
    if n > 0 {
      HandleRefsKeepsFaithful(cfg, w, key, refs, n - 1, env);
      var r := HandleRefs(cfg, w, key, refs, n - 1, env);
      if r.status == Done {
        AttachKeepsFaithful(cfg, r.state, key, refs[n - 1], env(n - 1));
        var l := Attach(r.state, key, refs[n - 1], env(n - 1));
        if l.status == Done { FetchFaithfulExact(cfg, l.state, refs[n - 1], env(n - 1)); }
      }
    }
  }

  /** A file row that stays is not changed, and no collected row hands over its address. */
  lemma {:induction false} StayingRow(w: World, gone: set<Edge>, c: Collected, id: string)
    requires Safe(w) && CollectsExactly(w.t, gone, c) && id in c.tables.files
    ensures id in w.t.files && c.tables.files[id] == w.t.files[id] && Uri(id) !in c.uris
  {
  }

  lemma {:induction false} FinishShape(w: World, on: bool, s: Status, c: Collected, a: TxAnswer)
    ensures var w' := Finish(w, on, s, c, a).state;
      || w' == w
      || (w'.t == c.tables && forall u :: u in w.blobs && u !in c.uris ==> u in w'.blobs && w'.blobs[u] == w.blobs[u])
  {
  }

  lemma {:induction false} FinishKeepsFaithful(cfg: Config, w: World, on: bool, s: Status, gone: set<Edge>, c: Collected, a: TxAnswer)
    requires Safe(w) && Faithful(cfg, w) && CollectsExactly(w.t, gone, c)
    ensures Faithful(cfg, Finish(w, on, s, c, a).state)
  {
    hide Finish, Safe, CollectsExactly;
    var w' := Finish(w, on, s, c, a).state;
    FinishShape(w, on, s, c, a);
    forall id | id in w'.t.files ensures FaithfulRow(cfg, w', id) {
      if w' != w { StayingRow(w, gone, c, id); }
      assert FaithfulRow(cfg, w, id);
    }
  }

  lemma {:induction false} WriteKeepsFaithful(cfg: Config, p: Proc, act: Action, refs: Option<seq<FileRef>>, a: WriteAnswer)
    requires Sound(p) && WellKeyed(act) && Faithful(cfg, p.w) && forall i :: Follows(a.refs(i))
    ensures Faithful(cfg, Write(cfg, p, act, refs, a).state.w)
  {
    ApplyKeepsSound(p, cfg.filesOn, act, a);
    ApplyKeepsFaithful(cfg, p, act, a);
    var r := Apply(p, cfg.filesOn, act, a);
    if r.status == Done && act.Upsert? && refs.Some? {
      var w, ids := r.state.w, Ids(refs.value);
      ReconcileCollectsExactly(w.t, act.key, ids);
      FinishKeepsFaithful(cfg, w, cfg.filesOn, ReconcileStatements(w.t, act.key, ids, a.tx),
                          EdgesNotKept(w.t.edges, act.key, ids), ReconcileTx(w.t, act.key, ids), a.tx);
      HandleRefsKeepsFaithful(cfg, Reconcile(w, cfg.filesOn, act.key, ids, a.tx).state, act.key, refs.value, |refs.value|, a.refs);
    }
  }

  lemma {:induction false} ApplyKeepsFaithful(cfg: Config, p: Proc, act: Action, a: WriteAnswer)
    requires Sound(p) && WellKeyed(act) && Faithful(cfg, p.w)
    ensures Faithful(cfg, Apply(p, cfg.filesOn, act, a).state.w)
  {
    ApplyKeepsSound(p, cfg.filesOn, act, a);
    var w' := Apply(p, cfg.filesOn, act, a).state.w;
    if act.Delete? {
      DeleteCollectsExactly(p.w.t, act.key);
      FinishKeepsFaithful(cfg, p.w, cfg.filesOn, DeleteStatements(p.w.t, act.key, a.tx), EdgesOf(p.w.t.edges, act.key),
                          DeleteTx(p.w.t, act.key), a.tx);
    } else {
      assert SameFiles(p.w, w');
      forall id | id in w'.t.files ensures FaithfulRow(cfg, w', id) { assert FaithfulRow(cfg, p.w, id); }
    }
  }

  ghost predicate TurnFollows(turn: Turn) { !turn.Redeploy? ==> forall i :: Follows(AnswerOf(turn).refs(i)) }

  /** In a run where every landed upload is followed by a row update, whatever else
      fails, every stored row's bytes hash to its digest. */
  lemma {:induction false} ServedIsFaithful(cfg: Config, f: Filter, log: seq<Turn>)
    requires forall turn :: turn in log ==> TurnFollows(turn)
    ensures Faithful(cfg, Served(cfg, f, log).w)
  {
    hide Take, Write, ActionOf, Sound, Follows;
    if log != [] {
      var n := |log| - 1;
      ServedIsFaithful(cfg, f, log[..n]);
      ServedIsSound(cfg, f, log[..n]);
      TakeWrites(cfg, f, Served(cfg, f, log[..n]), log[n]);
      var act := ActionOf(f, log[n]);
      if act.Some? {
        assert TurnFollows(log[n]);
        ActionKeyed(f, log[n]);
        WriteKeepsFaithful(cfg, Served(cfg, f, log[..n]), act.value, RefsOf(cfg, log[n]), AnswerOf(log[n]));
      }
    }
  }
}
