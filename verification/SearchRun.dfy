/** The full-text index along a run of the program on SQLite. */
module SearchRun {
  import opened Model
  import opened Tables
  import opened Mirror
  import opened Safety
  import opened Dispatcher
  import opened Serve
  import opened Fts

  /** What a write does to the messages table and its index: the upsert and its trigger take
      effect together; a delete and its trigger run inside the transaction, and are rolled
      back with it unless the commit takes effect. Handling files touches neither. */
  ghost function Indexing(tok: Tokenizer, p: Proc, act: Action, a: WriteAnswer, x: Indexed): Indexed
    requires KeyIndex(x.rows, x.rowids)
  {
    match act
    case Skip => x
    case Delete(key) =>
      var inTx := Deleted(tok, x, key);
      if DeleteStatements(p.w.t, key, a.tx) == Done && TakesEffect(a.tx.commit) then inTx else x
    case Upsert(key, row) =>
      var e := EnsureRows(p, key.channel, row.userId, a.meta);
      if e.status == Done && PutMessage(e.state.w.t, row).Some? && TakesEffect(a.message) then Upserted(tok, x, row) else x
  }

  /** The messages a write leaves, by key. */
  lemma {:induction false} WrittenMessages(cfg: Config, p: Proc, act: Action, refs: Option<seq<FileRef>>, a: WriteAnswer)
    requires Sound(p) && WellKeyed(act)
    ensures Write(cfg, p, act, refs, a).state.w.t.messages == Apply(p, cfg.filesOn, act, a).state.w.t.messages
  {
    hide Apply, Handle;
    ApplyKeepsSound(p, cfg.filesOn, act, a);
    var r := Apply(p, cfg.filesOn, act, a);
    if r.status == Done && act.Upsert? && refs.Some? { HandleKeepsSafe(cfg, r.state.w, act.key, refs.value, a); }
  }

  lemma {:induction false} DeletedMessages(w: World, on: bool, key: Key, a: TxAnswer)
    ensures DeleteMessage(w, on, key, a).state.t.messages ==
      if DeleteStatements(w.t, key, a) == Done && TakesEffect(a.commit) then w.t.messages - {key} else w.t.messages
  {
  }

  lemma {:induction false} WriteIndexes(cfg: Config, tok: Tokenizer, p: Proc, act: Action, refs: Option<seq<FileRef>>, a: WriteAnswer, x: Indexed)
    requires Sound(p) && WellKeyed(act) && Current(tok, x) && View(x.rows, x.rowids) == p.w.t.messages
    ensures var y := Indexing(tok, p, act, a, x);
      Current(tok, y) && View(y.rows, y.rowids) == Write(cfg, p, act, refs, a).state.w.t.messages
  {
    hide View, KeyIndex, Write, Deleted, Upserted, Rebuilt, Sound, EnsureRows, DeleteMessage, DeleteStatements;
    WrittenMessages(cfg, p, act, refs, a);
    match act {
      case Skip =>
      case Delete(key) =>
        DeletedCurrent(tok, x, key);
        DeletedMessages(p.w, cfg.filesOn, key, a.tx);
      case Upsert(key, row) =>
        UpsertedCurrent(tok, x, row);
        EnsureRowsKeepsSound(p, key.channel, row.userId, a.meta);
    }
  }

  ghost function IndexServed(cfg: Config, f: Filter, tok: Tokenizer, log: seq<Turn>): (x: Indexed)
    ensures Current(tok, x)
  {
    if log == [] then BlankCurrent(tok); BLANK
    else
      var n := |log| - 1;
      var act := ActionOf(f, log[n]);
      var x := IndexServed(cfg, f, tok, log[..n]);
      if act.None? then x
      else
        IndexingCurrent(tok, Served(cfg, f, log[..n]), act.value, AnswerOf(log[n]), x);
        Indexing(tok, Served(cfg, f, log[..n]), act.value, AnswerOf(log[n]), x)
  }

  lemma {:induction false} IndexingCurrent(tok: Tokenizer, p: Proc, act: Action, a: WriteAnswer, x: Indexed)
    requires Current(tok, x)
    ensures Current(tok, Indexing(tok, p, act, a, x))
  {
    hide Current, Deleted, Upserted;
    match act {
      case Skip =>
      case Delete(key) => DeletedCurrent(tok, x, key);
      case Upsert(_, row) => UpsertedCurrent(tok, x, row);
    }
  }

  /** Whatever fails and wherever the process stops, the index is the one rebuilt from the
      messages table of the run. */
  lemma {:induction false} IndexFollowsRun(cfg: Config, f: Filter, tok: Tokenizer, log: seq<Turn>)
    ensures var x := IndexServed(cfg, f, tok, log);
      Current(tok, x) && View(x.rows, x.rowids) == Served(cfg, f, log).w.t.messages
  {
    hide Current, View, KeyIndex, Indexing, Write, Take, ActionOf, Sound;
    if log == [] {
      BlankCurrent(tok);
    } else {
      var n := |log| - 1;
      IndexFollowsRun(cfg, f, tok, log[..n]);
      ServedIsSound(cfg, f, log[..n]);
      TakeWrites(cfg, f, Served(cfg, f, log[..n]), log[n]);
      var act := ActionOf(f, log[n]);
      if act.Some? {
        ActionKeyed(f, log[n]);
        WriteIndexes(cfg, tok, Served(cfg, f, log[..n]), act.value, RefsOf(cfg, log[n]), AnswerOf(log[n]), IndexServed(cfg, f, tok, log[..n]));
      }
    }
  }

  /** So at any point of any run a one-token match finds exactly the messages a scan of the
      table would. */
  lemma {:induction false} MatchFindsServed(cfg: Config, f: Filter, tok: Tokenizer, log: seq<Turn>, token: string, k: Key)
    ensures var x, messages := IndexServed(cfg, f, tok, log), Served(cfg, f, log).w.t.messages;
      (k in x.rowids && Posting(token, x.rowids[k]) in x.index) <==> (k in messages && Matches(tok, messages[k], token))
  {
    hide Rebuilt;
    IndexFollowsRun(cfg, f, tok, log);
    var x := IndexServed(cfg, f, tok, log);
    if k in x.rowids { MatchIsScan(tok, x.rows, token, x.rowids[k]); }
  }
}
