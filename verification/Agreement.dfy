/** Views that agree except for some messages and files: what a write that may fail or stop
    anywhere can touch, and what replaying changes over it makes equal again. */
module Agreement {
  import opened Model
  import opened Tables
  import opened Mirror
  import opened Safety
  import opened Changes
  import opened Refinement

  /** `v` and `v'` agree on the rows outside `ks`, on the edges of messages outside `es`
      and on the left-over files outside `ids`. */
  ghost predicate AgreeOff(v: View, v': View, ks: set<Key>, es: set<Key>, ids: set<string>) {
    && (forall k :: k !in ks ==> (k in v.messages <==> k in v'.messages) && (k in v.messages ==> v.messages[k] == v'.messages[k]))
    && (forall e: Edge :: e.key !in es ==> (e in v.edges <==> e in v'.edges))
    && (forall id :: id !in ids ==> (id in v.leftovers <==> id in v'.leftovers))
  }

  function RowKeys(log: seq<Change>): set<Key> { set c | c in log && c.Put? :: RowKey(c.row) }

  /** The messages whose files the log settles. */
  function EdgeKeys(log: seq<Change>): set<Key> { set c | c in log && c.Put? && c.files.Some? :: RowKey(c.row) }

  function FileIds(log: seq<Change>): set<string> {
    set c, id | c in log && c.Put? && c.files.Some? && id in c.files.value :: id
  }

  predicate OnlyPuts(log: seq<Change>) { forall c :: c in log ==> !c.Remove? }

  lemma {:induction false} AgreeAfterChange(v: View, v': View, ks: set<Key>, es: set<Key>, ids: set<string>, c: Change)
    requires AgreeOff(v, v', ks, es, ids) && !c.Remove?
    ensures AgreeOff(Change1(v, c), Change1(v', c), ks - RowKeys([c]), es - EdgeKeys([c]), ids - FileIds([c]))
  {
    assert forall x :: x in [c] <==> x == c;
    if c.Put? {
      var key := RowKey(c.row);
      assert RowKeys([c]) == {key};
      if c.files.Some? {
        assert EdgeKeys([c]) == {key} && FileIds([c]) == c.files.value;
        forall e: Edge ensures e in Links(key, c.files.value) <==> e.key == key && e.file in c.files.value {
          if e.key == key && e.file in c.files.value { assert e == Edge(key, e.file); }
        }
      }
    }
  }

  lemma {:induction false} LogSets(log: seq<Change>)
    requires log != []
    ensures var init, last := log[..|log| - 1], [log[|log| - 1]];
      && RowKeys(log) == RowKeys(init) + RowKeys(last) && EdgeKeys(log) == EdgeKeys(init) + EdgeKeys(last)
      && FileIds(log) == FileIds(init) + FileIds(last)
  {
    assert log == log[..|log| - 1] + [log[|log| - 1]];
  }

  lemma {:induction false} AgreeAfterReplay(v: View, v': View, ks: set<Key>, es: set<Key>, ids: set<string>, log: seq<Change>)
    requires AgreeOff(v, v', ks, es, ids) && OnlyPuts(log)
    ensures AgreeOff(Replay(v, log), Replay(v', log), ks - RowKeys(log), es - EdgeKeys(log), ids - FileIds(log))
  {
    if log != [] {
      var n := |log| - 1;
      AgreeAfterReplay(v, v', ks, es, ids, log[..n]);
      AgreeAfterChange(Replay(v, log[..n]), Replay(v', log[..n]),
                       ks - RowKeys(log[..n]), es - EdgeKeys(log[..n]), ids - FileIds(log[..n]), log[n]);
      LogSets(log);
      assert (ks - RowKeys(log[..n])) - RowKeys([log[n]]) == ks - RowKeys(log);
      assert (es - EdgeKeys(log[..n])) - EdgeKeys([log[n]]) == es - EdgeKeys(log);
      assert (ids - FileIds(log[..n])) - FileIds([log[n]]) == ids - FileIds(log);
    }
  }

  /** Replaying a log over states that differ only where the log writes ends the same. */
  lemma {:induction false} ReplayHides(v: View, v': View, log: seq<Change>)
    requires OnlyPuts(log) && AgreeOff(v, v', RowKeys(log), EdgeKeys(log), FileIds(log))
    ensures Replay(v, log) == Replay(v', log)
  {
    var ks, es, ids := RowKeys(log), EdgeKeys(log), FileIds(log);
    AgreeAfterReplay(v, v', ks, es, ids, log);
    assert ks - ks == {} && es - es == {} && ids - ids == {};
    var r, r' := Replay(v, log), Replay(v', log);
    assert r.messages.Keys == r'.messages.Keys;
    assert r.messages == r'.messages;
    assert r.edges == r'.edges;
    assert r.leftovers == r'.leftovers;
  }

  lemma {:induction false} AgreeChain(u: View, v: View, w: View, ks: set<Key>, es: set<Key>, ids: set<string>)
    requires AgreeOff(u, v, ks, es, ids) && AgreeOff(v, w, ks, es, ids)
    ensures AgreeOff(u, w, ks, es, ids)
  {
  }

  lemma {:induction false} AgreeWiden(v: View, v': View, ks: set<Key>, es: set<Key>, ids: set<string>, ks': set<Key>, es': set<Key>, ids': set<string>)
    requires AgreeOff(v, v', ks, es, ids) && ks <= ks' && es <= es' && ids <= ids'
    ensures AgreeOff(v, v', ks', es', ids')
  {
  }

  // ---- what a write that may fail anywhere can touch ----

  /** Only edges from `key` to `ids` and rows for `ids` may have been added. */
  ghost predicate AddsWithin(w: World, w': World, key: Key, ids: set<string>) {
    && w'.t.messages == w.t.messages
    && w.t.edges <= w'.t.edges && (forall e :: e in w'.t.edges - w.t.edges ==> e.key == key && e.file in ids)
    && w.t.files.Keys <= w'.t.files.Keys <= w.t.files.Keys + ids
  }

  lemma {:induction false} AttachAdds(w: World, key: Key, ref: FileRef, a: RefAnswer, ids: set<string>)
    requires ref.id in ids
    ensures AddsWithin(w, Attach(w, key, ref, a).state, key, ids)
  {
  }

  lemma {:induction false} HandleRefsAdds(cfg: Config, w: World, key: Key, refs: seq<FileRef>, n: nat, env: nat -> RefAnswer, ids: set<string>)
    requires n <= |refs| && forall i :: 0 <= i < n ==> refs[i].id in ids
    ensures AddsWithin(w, HandleRefs(cfg, w, key, refs, n, env).state, key, ids)
  {
    hide Attach, Fetch;
    if n > 0 {
      HandleRefsAdds(cfg, w, key, refs, n - 1, env, ids);
      var r := HandleRefs(cfg, w, key, refs, n - 1, env);
      if r.status == Done {
        AttachAdds(r.state, key, refs[n - 1], env(n - 1), ids);
        var l := Attach(r.state, key, refs[n - 1], env(n - 1));
        if l.status == Done { FetchKeys(cfg, l.state, refs[n - 1], env(n - 1)); }
      }
    }
  }

  lemma {:induction false} AddsAgree(w: World, w': World, key: Key, ids: set<string>)
    requires AddsWithin(w, w', key, ids)
    ensures AgreeOff(ViewOf(w.t), ViewOf(w'.t), {}, {key}, ids)
  {
  }

  lemma {:induction false} ReconcileAgrees(w: World, on: bool, key: Key, keep: set<string>, a: TxAnswer)
    ensures AgreeOff(ViewOf(w.t), ViewOf(Reconcile(w, on, key, keep, a).state.t), {}, {key}, {})
  {
    hide ReconcileStatements, ReconcileTx;
    ReconcileCollectsExactly(w.t, key, keep);
    CollectKeepsLeftovers(w.t, EdgesNotKept(w.t.edges, key, keep), ReconcileTx(w.t, key, keep));
    var t' := Reconcile(w, on, key, keep, a).state.t;
    assert t' == w.t || t' == ReconcileTx(w.t, key, keep).tables;
  }

  lemma {:induction false} HandleAgrees(cfg: Config, w: World, key: Key, refs: seq<FileRef>, a: WriteAnswer)
    ensures AgreeOff(ViewOf(w.t), ViewOf(Handle(cfg, w, key, refs, a).state.t), {}, {key}, Ids(refs))
  {
    hide AgreeOff, HandleRefs, Reconcile;
    var ids := Ids(refs);
    ReconcileAgrees(w, cfg.filesOn, key, ids, a.tx);
    var r := Reconcile(w, cfg.filesOn, key, ids, a.tx);
    AgreeWiden(ViewOf(w.t), ViewOf(r.state.t), {}, {key}, {}, {}, {key}, ids);
    if r.status == Done {
      forall i | 0 <= i < |refs| ensures refs[i].id in ids { assert refs[i] in refs; }
      HandleRefsAdds(cfg, r.state, key, refs, |refs|, a.refs, ids);
      var w' := HandleRefs(cfg, r.state, key, refs, |refs|, a.refs).state;
      AddsAgree(r.state, w', key, ids);
      AgreeChain(ViewOf(w.t), ViewOf(r.state.t), ViewOf(w'.t), {}, {key}, ids);
    }
  }

  /** An upsert that may stop anywhere touches only its own message and its own files. */
  lemma {:induction false} UpsertAgrees(cfg: Config, p: Proc, key: Key, row: MessageRow, refs: Option<seq<FileRef>>, a: WriteAnswer)
    requires Ready(p) && RowKey(row) == key
    ensures var c := [ChangeOf(Upsert(key, row), refs)];
      AgreeOff(ViewOf(p.w.t), ViewOf(Write(cfg, p, Upsert(key, row), refs, a).state.w.t), RowKeys(c), EdgeKeys(c), FileIds(c))
  {
    var act := Upsert(key, row);
    var c := ChangeOf(act, refs);
    assert forall x :: x in [c] <==> x == c;
    if c.Keep? {
      WriteMakesChange(cfg, p, act, refs, a);
    } else {
      assert RowKeys([c]) == {key};
      UpsertRowAgrees(p, cfg.filesOn, key, row, a);
      var r := Apply(p, cfg.filesOn, act, a);
      if refs.Some? {
        assert EdgeKeys([c]) == {key} && FileIds([c]) == Ids(refs.value);
        AgreeWiden(ViewOf(p.w.t), ViewOf(r.state.w.t), {key}, {}, {}, {key}, {key}, Ids(refs.value));
        if r.status == Done {
          HandleAgrees(cfg, r.state.w, key, refs.value, a);
          var v, v' := ViewOf(r.state.w.t), ViewOf(Handle(cfg, r.state.w, key, refs.value, a).state.t);
          AgreeWiden(v, v', {}, {key}, Ids(refs.value), {key}, {key}, Ids(refs.value));
          AgreeChain(ViewOf(p.w.t), v, v', {key}, {key}, Ids(refs.value));
        }
      } else {
        assert EdgeKeys([c]) == {} && FileIds([c]) == {};
      }
    }
  }

  lemma {:induction false} UpsertRowAgrees(p: Proc, on: bool, key: Key, row: MessageRow, a: WriteAnswer)
    requires Sound(p) && RowKey(row) == key
    ensures AgreeOff(ViewOf(p.w.t), ViewOf(Apply(p, on, Upsert(key, row), a).state.w.t), {key}, {}, {})
  {
    EnsureRowsKeepsSound(p, key.channel, row.userId, a.meta);
    var e := EnsureRows(p, key.channel, row.userId, a.meta);
    UpsertMessageKeepsSound(e.state, row, a.message);
  }
}
