/** A run whose writes complete holds exactly the mirror its events describe. */
module Refinement {
  import opened Model
  import opened Tables
  import opened Mirror
  import opened Safety
  import opened Changes
  import opened Dispatcher
  import opened Serve

  // ---- answers without database faults ----

  predicate QuietTx(a: TxAnswer) {
    && a.begin == a.read == a.remove == a.find == a.collect == Done
    && a.commit == Ok && a.undeletable == {}
  }

  /** The download itself may still fail in any way short of stopping the process. */
  predicate QuietRef(a: RefAnswer) {
    a.upsert == a.link == a.stored == a.state == Ok && !a.http.HttpCrash? && !a.put.PutCrash?
  }

  predicate QuietRows(a: WriteAnswer) {
    a.meta.channelUpsert == a.meta.userUpsert == a.message == Ok && QuietTx(a.tx)
  }

  ghost predicate Quiet(a: WriteAnswer) { QuietRows(a) && forall i :: QuietRef(a.refs(i)) }

  /** A `Put` that fails leaves nothing behind. */
  predicate CleanPut(a: RefAnswer) { a.put == PutOk || a.put == PutFail(None) }
  ghost predicate CleanPuts(a: WriteAnswer) { forall i :: CleanPut(a.refs(i)) }

  // ---- the change an action makes ----

  /** A message without a channel is refused by its foreign key. */
  function ChangeOf(act: Action, refs: Option<seq<FileRef>>): Change {
    match act
    case Skip => Keep
    case Delete(key) => Remove(key)
    case Upsert(key, row) =>
      if key.channel == "" then Keep
      else Put(row, if refs.Some? then Some(Ids(refs.value)) else None)
  }

  // ---- files of one message ----

  lemma {:induction false} AttachEffect(w: World, key: Key, ref: FileRef, a: RefAnswer)
    requires Attach(w, key, ref, a).status == Done
    ensures var t' := Attach(w, key, ref, a).state.t;
      && t'.messages == w.t.messages && t'.channels == w.t.channels
      && t'.edges == w.t.edges + {Edge(key, ref.id)} && t'.files.Keys == w.t.files.Keys + {ref.id}
  {
  }

  lemma {:induction false} HandleRefEffect(cfg: Config, w: World, key: Key, ref: FileRef, a: RefAnswer)
    requires HandleRef(cfg, w, key, ref, a).status == Done
    ensures var t' := HandleRef(cfg, w, key, ref, a).state.t;
      && t'.messages == w.t.messages
      && t'.edges == w.t.edges + {Edge(key, ref.id)} && t'.files.Keys == w.t.files.Keys + {ref.id}
  {
    AttachEffect(w, key, ref, a);
    FetchKeys(cfg, Attach(w, key, ref, a).state, ref, a);
  }

  lemma {:induction false} IdsOfPrefix(refs: seq<FileRef>, n: nat)
    requires 0 < n <= |refs|
    ensures Ids(refs[..n]) == Ids(refs[..n - 1]) + {refs[n - 1].id}
  {
    assert refs[..n] == refs[..n - 1] + [refs[n - 1]];
  }

  lemma {:induction false} HandleRefsEffect(cfg: Config, w: World, key: Key, refs: seq<FileRef>, n: nat, env: nat -> RefAnswer)
    requires n <= |refs| && HandleRefs(cfg, w, key, refs, n, env).status == Done
    ensures var t' := HandleRefs(cfg, w, key, refs, n, env).state.t;
      && t'.messages == w.t.messages
      && t'.edges == w.t.edges + Links(key, Ids(refs[..n])) && t'.files.Keys == w.t.files.Keys + Ids(refs[..n])
  {
    hide HandleRef;
    if n > 0 {
      HandleRefsEffect(cfg, w, key, refs, n - 1, env);
      HandleRefEffect(cfg, HandleRefs(cfg, w, key, refs, n - 1, env).state, key, refs[n - 1], env(n - 1));
      IdsOfPrefix(refs, n);
      assert Links(key, Ids(refs[..n])) == Links(key, Ids(refs[..n - 1])) + {Edge(key, refs[n - 1].id)};
    }
  }

  /** A collection takes exactly the files it detached, so the left-overs stay. */
  lemma {:induction false} CollectKeepsLeftovers(t: Tables, gone: set<Edge>, c: Collected)
    requires CollectsExactly(t, gone, c) && gone <= t.edges
    ensures Leftovers(c.tables) == Leftovers(t)
  {
  }

  lemma {:induction false} ReconcileEffect(w: World, on: bool, key: Key, keep: set<string>, a: TxAnswer)
    requires Reconcile(w, on, key, keep, a).status == Done
    ensures var t' := Reconcile(w, on, key, keep, a).state.t;
      && t'.messages == w.t.messages && t'.edges == w.t.edges - EdgesNotKept(w.t.edges, key, keep)
      && Leftovers(t') == Leftovers(w.t)
  {
  }

  /** Linking files removes them from the left-overs. */
  lemma {:induction false} LeftoversAfterLinking(t: Tables, t': Tables, key: Key, ids: set<string>)
    requires t'.edges == t.edges + Links(key, ids) && t'.files.Keys == t.files.Keys + ids
    ensures Leftovers(t') == Leftovers(t) - ids
  {
    forall id ensures id in Leftovers(t') <==> id in Leftovers(t) && id !in ids {
      if id in ids { assert Edge(key, id) in t'.edges; }
      if Linked(t.edges, id) { LinkedGrows(t.edges, t'.edges); }
      if Linked(t'.edges, id) && id !in ids {
        var e :| e in t'.edges && e.file == id;
        assert e in t.edges;
      }
    }
  }

  lemma {:induction false} HandleEffect(cfg: Config, w: World, key: Key, refs: seq<FileRef>, a: WriteAnswer)
    requires Handle(cfg, w, key, refs, a).status == Done
    ensures var t' := Handle(cfg, w, key, refs, a).state.t;
      && t'.messages == w.t.messages
      && t'.edges == (w.t.edges - EdgesOf(w.t.edges, key)) + Links(key, Ids(refs))
      && Leftovers(t') == Leftovers(w.t) - Ids(refs)
  {
    var ids := Ids(refs);
    ReconcileEffect(w, cfg.filesOn, key, ids, a.tx);
    var v := Reconcile(w, cfg.filesOn, key, ids, a.tx).state;
    assert refs[..|refs|] == refs;
    HandleRefsEffect(cfg, v, key, refs, |refs|, a.refs);
    LeftoversAfterLinking(v.t, Handle(cfg, w, key, refs, a).state.t, key, ids);
  }

  // ---- one write ----

  ghost predicate Ready(p: Proc) { Sound(p) && "" !in p.w.t.channels }

  lemma {:induction false} EnsureRowsEffect(p: Proc, channel: string, user: string, a: MetaAnswer)
    requires Ready(p)
    ensures var r := EnsureRows(p, channel, user, a);
      && Ready(r.state) && SameFiles(p.w, r.state.w) && r.state.w.t.messages == p.w.t.messages
      && (r.status == Done && channel != "" ==> channel in r.state.w.t.channels)
  {
    EnsureRowsKeepsSound(p, channel, user, a);
    var c := EnsureChannel(p, channel, a).state;
    assert "" !in c.w.t.channels;
    assert EnsureUser(c, user, a).state.w.t.channels == c.w.t.channels;
  }

  lemma {:induction false} DeleteEffect(w: World, on: bool, key: Key, a: TxAnswer)
    ensures var r := DeleteMessage(w, on, key, a);
      && r.state.t.channels == w.t.channels
      && (r.status == Done ==> ViewOf(r.state.t) == Change1(ViewOf(w.t), Remove(key)))
  {
  }

  /** Whatever fails: a blank channel id never gets a row. When applying succeeds it makes
      its change; a message without a channel is refused and changes nothing. */
  lemma {:induction false} ApplyEffect(p: Proc, on: bool, act: Action, a: WriteAnswer)
    requires Ready(p) && WellKeyed(act)
    ensures var r := Apply(p, on, act, a);
      && Ready(r.state) && (act.Upsert? ==> SameFiles(p.w, r.state.w))
      && (r.status == Done ==> ViewOf(r.state.w.t) == Change1(ViewOf(p.w.t), ChangeOf(act, None)))
      && (r.status == Done && act.Upsert? ==> act.key.channel != "")
      && (act.Upsert? && act.key.channel == "" ==> ViewOf(r.state.w.t) == ViewOf(p.w.t))
  {
    hide DeleteMessage, Sound, EnsureRows;
    ApplyKeepsSound(p, on, act, a);
    match act {
      case Skip =>
      case Delete(key) => DeleteEffect(p.w, on, key, a.tx);
      case Upsert(key, row) => EnsureRowsEffect(p, key.channel, row.userId, a.meta);
    }
  }

  lemma {:induction false} WriteKeepsReady(cfg: Config, p: Proc, act: Action, refs: Option<seq<FileRef>>, a: WriteAnswer)
    requires Ready(p) && WellKeyed(act)
    ensures Ready(Write(cfg, p, act, refs, a).state)
  {
    hide Apply, Handle;
    WriteKeepsSound(cfg, p, act, refs, a);
    ApplyEffect(p, cfg.filesOn, act, a);
    if act.Upsert? && refs.Some? { HandleKeepsSafe(cfg, Apply(p, cfg.filesOn, act, a).state.w, act.key, refs.value, a); }
  }

  /** A write that completes makes exactly its change; one whose change is nothing makes
      none, whatever it meets. */
  lemma {:induction false} WriteMakesChange(cfg: Config, p: Proc, act: Action, refs: Option<seq<FileRef>>, a: WriteAnswer)
    requires Ready(p) && WellKeyed(act)
    requires Write(cfg, p, act, refs, a).status == Done || ChangeOf(act, refs).Keep?
    ensures ViewOf(Write(cfg, p, act, refs, a).state.w.t) == Change1(ViewOf(p.w.t), ChangeOf(act, refs))
  {
    ApplyEffect(p, cfg.filesOn, act, a);
    var r := Apply(p, cfg.filesOn, act, a);
    if r.status == Done && act.Upsert? && refs.Some? { HandleEffect(cfg, r.state.w, act.key, refs.value, a); }
  }

  // ---- without database faults every write completes ----

  lemma {:induction false} AttachQuiet(w: World, key: Key, ref: FileRef, a: RefAnswer)
    requires key in w.t.messages && QuietRef(a)
    ensures Attach(w, key, ref, a).status == Done
  {
  }

  lemma {:induction false} FetchQuiet(cfg: Config, w: World, ref: FileRef, a: RefAnswer)
    requires QuietRef(a)
    ensures Fetch(cfg, w, ref, a).status == Done
  {
  }

  lemma {:induction false} HandleRefsQuiet(cfg: Config, w: World, key: Key, refs: seq<FileRef>, n: nat, env: nat -> RefAnswer)
    requires key in w.t.messages && n <= |refs| && forall i :: QuietRef(env(i))
    ensures HandleRefs(cfg, w, key, refs, n, env).status == Done
  {
    hide Attach, Fetch;
    if n > 0 {
      HandleRefsQuiet(cfg, w, key, refs, n - 1, env);
      HandleRefsEffect(cfg, w, key, refs, n - 1, env);
      var v := HandleRefs(cfg, w, key, refs, n - 1, env).state;
      AttachQuiet(v, key, refs[n - 1], env(n - 1));
      FetchQuiet(cfg, Attach(v, key, refs[n - 1], env(n - 1)).state, refs[n - 1], env(n - 1));
    }
  }

  lemma {:induction false} ReconcileQuiet(w: World, on: bool, key: Key, keep: set<string>, a: TxAnswer)
    requires QuietTx(a)
    ensures Reconcile(w, on, key, keep, a).status == Done
  {
  }

  lemma {:induction false} ApplyQuiet(p: Proc, on: bool, act: Action, a: WriteAnswer)
    requires Ready(p) && WellKeyed(act) && QuietRows(a)
    ensures var r := Apply(p, on, act, a);
      && r.status != Crashed && (r.status == Done <==> !(act.Upsert? && act.key.channel == ""))
      && (r.status == Done && act.Upsert? ==> act.key in r.state.w.t.messages)
  {
    if act.Upsert? { EnsureRowsEffect(p, act.key.channel, act.message.userId, a.meta); }
  }

  lemma {:induction false} QuietCompletes(cfg: Config, p: Proc, act: Action, refs: Option<seq<FileRef>>, a: WriteAnswer)
    requires Ready(p) && WellKeyed(act) && Quiet(a)
    ensures Write(cfg, p, act, refs, a).status == Done || ChangeOf(act, refs).Keep?
    ensures Write(cfg, p, act, refs, a).status != Crashed
  {
    ApplyQuiet(p, cfg.filesOn, act, a);
    var r := Apply(p, cfg.filesOn, act, a);
    if r.status == Done && act.Upsert? && refs.Some? {
      var w, ids := r.state.w, Ids(refs.value);
      ReconcileQuiet(w, cfg.filesOn, act.key, ids, a.tx);
      ReconcileEffect(w, cfg.filesOn, act.key, ids, a.tx);
      HandleRefsQuiet(cfg, Reconcile(w, cfg.filesOn, act.key, ids, a.tx).state, act.key, refs.value, |refs.value|, a.refs);
    }
  }

  // ---- a run ----

  function DeliveredChange(cfg: Config, f: Filter, turn: Turn): Change {
    var act := ActionOf(f, turn);
    if act.None? then Keep else ChangeOf(act.value, RefsOf(cfg, turn))
  }

  function DeliveredChanges(cfg: Config, f: Filter, log: seq<Turn>): seq<Change> {
    seq(|log|, i requires 0 <= i < |log| => DeliveredChange(cfg, f, log[i]))
  }

  /** The turn's write, files included, ends without an error, or there is nothing to change. */
  predicate Completes(cfg: Config, f: Filter, p: Proc, turn: Turn) {
    || DeliveredChange(cfg, f, turn).Keep?
    || Write(cfg, p, ActionOf(f, turn).value, RefsOf(cfg, turn), AnswerOf(turn)).status == Done
  }

  /** Every write of the run completes. Downloads may fail, and so may recording their outcome. */
  predicate RunCompletes(cfg: Config, f: Filter, log: seq<Turn>) {
    log == [] ||
      var n := |log| - 1;
      RunCompletes(cfg, f, log[..n]) && Completes(cfg, f, Served(cfg, f, log[..n]), log[n])
  }

  lemma {:induction false} TakeKeepsReady(cfg: Config, f: Filter, p: Proc, turn: Turn)
    requires Ready(p)
    ensures Ready(Take(cfg, f, p, turn))
  {
    hide Take, Write, ActionOf;
    TakeWrites(cfg, f, p, turn);
    var act := ActionOf(f, turn);
    if act.Some? {
      ActionKeyed(f, turn);
      WriteKeepsReady(cfg, p, act.value, RefsOf(cfg, turn), AnswerOf(turn));
    }
  }

  lemma {:induction false} ServedReady(cfg: Config, f: Filter, log: seq<Turn>)
    ensures Ready(Served(cfg, f, log))
  {
    hide Ready, Take;
    if log == [] {
      FreshReady();
    } else {
      ServedReady(cfg, f, log[..|log| - 1]);
      TakeKeepsReady(cfg, f, Served(cfg, f, log[..|log| - 1]), log[|log| - 1]);
    }
  }

  lemma {:induction false} FreshReady()
    ensures Ready(FRESH)
  {
  }

  lemma {:induction false} TurnMakesChange(cfg: Config, f: Filter, p: Proc, turn: Turn)
    requires Ready(p) && Completes(cfg, f, p, turn)
    ensures ViewOf(Take(cfg, f, p, turn).w.t) == Change1(ViewOf(p.w.t), DeliveredChange(cfg, f, turn))
  {
    hide Take, Write, ActionOf, Ready;
    TakeWrites(cfg, f, p, turn);
    var act := ActionOf(f, turn);
    if act.Some? {
      ActionKeyed(f, turn);
      WriteMakesChange(cfg, p, act.value, RefsOf(cfg, turn), AnswerOf(turn));
    }
  }

  lemma {:induction false} ServedReplays(cfg: Config, f: Filter, log: seq<Turn>)
    requires RunCompletes(cfg, f, log)
    ensures ViewOf(Served(cfg, f, log).w.t) == Replay(NOTHING, DeliveredChanges(cfg, f, log))
  {
    hide Take, DeliveredChange, Completes;
    if log == [] {
      FreshView();
    } else {
      var n := |log| - 1;
      ServedReplays(cfg, f, log[..n]);
      ServedReady(cfg, f, log[..n]);
      TurnMakesChange(cfg, f, Served(cfg, f, log[..n]), log[n]);
      assert DeliveredChanges(cfg, f, log)[..n] == DeliveredChanges(cfg, f, log[..n]);
    }
  }

  lemma {:induction false} FreshView()
    ensures ViewOf(FRESH.w.t) == NOTHING
  {
  }

  ghost predicate QuietTurn(turn: Turn) { !turn.Redeploy? ==> Quiet(AnswerOf(turn)) }

  /** A run without database faults completes. */
  lemma {:induction false} QuietRunCompletes(cfg: Config, f: Filter, log: seq<Turn>)
    requires forall turn :: turn in log ==> QuietTurn(turn)
    ensures RunCompletes(cfg, f, log)
  {
    hide Quiet, Write, ActionOf, Ready, Take;
    if log != [] {
      var n := |log| - 1;
      QuietRunCompletes(cfg, f, log[..n]);
      ServedReady(cfg, f, log[..n]);
      var act := ActionOf(f, log[n]);
      if act.Some? {
        assert QuietTurn(log[n]);
        ActionKeyed(f, log[n]);
        QuietCompletes(cfg, Served(cfg, f, log[..n]), act.value, RefsOf(cfg, log[n]), AnswerOf(log[n]));
      }
    }
  }

  /** The whole-run statement: a message is stored exactly when its last change stored it,
      with that change's row; its edges are that change's files; and the files table holds
      exactly the files some edge reaches. */
  lemma {:induction false} ServedMirrors(cfg: Config, f: Filter, log: seq<Turn>)
    requires RunCompletes(cfg, f, log)
    ensures var t, changes := Served(cfg, f, log).w.t, DeliveredChanges(cfg, f, log);
      && (forall k :: k in t.messages <==> Latest(changes, k).Present?)
      && (forall k :: k in t.messages ==> t.messages[k] == Latest(changes, k).row)
      && (forall e: Edge :: e in t.edges <==> e.file in FilesIn(Latest(changes, e.key)))
      && t.files.Keys == FilesOf(t.edges)
  {
    ServedReplays(cfg, f, log);
    ServedReady(cfg, f, log);
    var t, changes := Served(cfg, f, log).w.t, DeliveredChanges(cfg, f, log);
    ReplayMirrors(changes);
    forall id ensures id in t.files.Keys <==> id in FilesOf(t.edges) {
      LinkedIsMarked(t.edges, id);
      assert id !in Leftovers(t);
      if Linked(t.edges, id) {
        var e :| e in t.edges && e.file == id;
      }
    }
  }

  /** Two runs that deliver the same changes to each message, in whatever order across
      messages, end with the same rows, the same edges and the same files. */
  lemma {:induction false} ServedConverges(cfg: Config, f: Filter, log: seq<Turn>, log': seq<Turn>)
    requires RunCompletes(cfg, f, log) && RunCompletes(cfg, f, log')
    requires SamePerMessage(DeliveredChanges(cfg, f, log), DeliveredChanges(cfg, f, log'))
    ensures var t, t' := Served(cfg, f, log).w.t, Served(cfg, f, log').w.t;
      t.messages == t'.messages && t.edges == t'.edges && t.files.Keys == t'.files.Keys
  {
    ServedReplays(cfg, f, log);
    ServedReplays(cfg, f, log');
    OrderAcrossMessagesIsIrrelevant(DeliveredChanges(cfg, f, log), DeliveredChanges(cfg, f, log'));
    ServedMirrors(cfg, f, log);
    ServedMirrors(cfg, f, log');
  }

  lemma {:induction false} ChangesConcat(cfg: Config, f: Filter, a: seq<Turn>, b: seq<Turn>)
    ensures DeliveredChanges(cfg, f, a + b) == DeliveredChanges(cfg, f, a) + DeliveredChanges(cfg, f, b)
  {
    hide DeliveredChange;
  }

  lemma {:induction false} ChangesAround(cfg: Config, f: Filter, a: seq<Turn>, d: Turn, b: seq<Turn>)
    ensures DeliveredChanges(cfg, f, a + [d] + b)
         == DeliveredChanges(cfg, f, a) + [DeliveredChange(cfg, f, d)] + DeliveredChanges(cfg, f, b)
  {
    hide DeliveredChange;
  }

  /** Exactly when one more delivery, between `a` and `b`, leaves rows, edges and left-over
      files as they would be without it. */
  lemma {:induction false} ServedRedeliveryExact(cfg: Config, f: Filter, a: seq<Turn>, d: Turn, b: seq<Turn>, k: Key)
    requires RunCompletes(cfg, f, a + [d] + b) && RunCompletes(cfg, f, a + b)
    requires Concerns(DeliveredChange(cfg, f, d), k)
    ensures var before, later := DeliveredChanges(cfg, f, a), DeliveredChanges(cfg, f, b);
      var was := Latest(before, k);
      var now := Step(was, DeliveredChange(cfg, f, d));
      ViewOf(Served(cfg, f, a + [d] + b).w.t) == ViewOf(Served(cfg, f, a + b).w.t) <==>
        now == was || HasSettling(later, k) || (FilesIn(now) == FilesIn(was) && HasTouch(later, k))
  {
    ServedReplays(cfg, f, a + [d] + b);
    ServedReplays(cfg, f, a + b);
    ChangesAround(cfg, f, a, d, b);
    ChangesConcat(cfg, f, a, b);
    RedeliveryExact(DeliveredChanges(cfg, f, a), DeliveredChange(cfg, f, d), DeliveredChanges(cfg, f, b), k);
  }

  /** At-least-once delivery: a second delivery of the same change, before the next change
      to its message, changes no row, edge or file. */
  lemma {:induction false} ServedDuplicateIsHarmless(cfg: Config, f: Filter, a: seq<Turn>, d: Turn, b: seq<Turn>, again: Turn, c: seq<Turn>)
    requires RunCompletes(cfg, f, a + [d] + b + [again] + c) && RunCompletes(cfg, f, a + [d] + b + c)
    requires DeliveredChange(cfg, f, again) == DeliveredChange(cfg, f, d)
    requires forall k, x :: x in b && Concerns(DeliveredChange(cfg, f, d), k) ==> !Concerns(DeliveredChange(cfg, f, x), k)
    ensures ViewOf(Served(cfg, f, a + [d] + b + [again] + c).w.t) == ViewOf(Served(cfg, f, a + [d] + b + c).w.t)
  {
    hide Served, DeliveredChange, RunCompletes;
    var pre := a + [d] + b;
    ServedReplays(cfg, f, pre + [again] + c);
    ServedReplays(cfg, f, pre + c);
    ChangesAround(cfg, f, a, d, b);
    ChangesAround(cfg, f, pre, again, c);
    ChangesConcat(cfg, f, pre, c);
    EarlyDuplicateIsHarmless(DeliveredChanges(cfg, f, a), DeliveredChange(cfg, f, d), DeliveredChanges(cfg, f, b), DeliveredChanges(cfg, f, c));
  }

  lemma {:induction false} LastTurn(cfg: Config, f: Filter, log: seq<Turn>, d: Turn)
    requires RunCompletes(cfg, f, log + [d])
    ensures RunCompletes(cfg, f, log) && Completes(cfg, f, Served(cfg, f, log), d)
    ensures Served(cfg, f, log + [d]) == Take(cfg, f, Served(cfg, f, log), d)
  {
    assert (log + [d])[..|log|] == log;
  }

  /** The table shows `row` under its key. */
  predicate Shows(t: Tables, row: MessageRow) { RowKey(row) in t.messages && t.messages[RowKey(row)] == row }

  lemma {:induction false} LastPutShows(cfg: Config, f: Filter, log: seq<Turn>, d: Turn, row: MessageRow, files: Option<set<string>>)
    requires RunCompletes(cfg, f, log + [d]) && DeliveredChange(cfg, f, d) == Put(row, files)
    ensures RunCompletes(cfg, f, log) && Shows(Served(cfg, f, log + [d]).w.t, row)
  {
    hide Take, DeliveredChange, Completes;
    LastTurn(cfg, f, log, d);
    ServedReady(cfg, f, log);
    TurnMakesChange(cfg, f, Served(cfg, f, log), d);
  }

  /** There is no version guard: whatever was delivered before, an old event delivered again
      after a newer one for its message puts the old row back. */
  lemma {:induction false} ServedStaleWins(cfg: Config, f: Filter, log: seq<Turn>, stale: Turn, newer: Turn, again: Turn,
                        new_: MessageRow, old_: MessageRow, files: Option<set<string>>, files': Option<set<string>>)
    requires RunCompletes(cfg, f, log + [stale] + [newer] + [again])
    requires DeliveredChange(cfg, f, newer) == Put(new_, files)
    requires DeliveredChange(cfg, f, stale) == DeliveredChange(cfg, f, again) == Put(old_, files')
    requires RowKey(new_) == RowKey(old_) && new_ != old_
    ensures Shows(Served(cfg, f, log + [stale] + [newer]).w.t, new_)
    ensures Shows(Served(cfg, f, log + [stale] + [newer] + [again]).w.t, old_)
  {
    hide DeliveredChange, RunCompletes, Shows;
    LastPutShows(cfg, f, log + [stale] + [newer], again, old_, files');
    LastPutShows(cfg, f, log + [stale], newer, new_, files);
  }

  // ---- blobs ----

  /** No blob is present that no row records. */
  ghost predicate BlobsRecorded(w: World) { forall u :: u in w.blobs ==> Records(w.t, u) }

  predicate Records(t: Tables, u: Uri) { u.fileId in t.files && t.files[u.fileId].storageUri == Some(u) }

  lemma {:induction false} FinishKeepsBlobsRecorded(w: World, s: Status, gone: set<Edge>, c: Collected, a: TxAnswer)
    requires BlobsRecorded(w) && CollectsExactly(w.t, gone, c) && a.undeletable == {} && a.commit == Ok
    ensures BlobsRecorded(Finish(w, true, s, c, a).state)
  {
  }

  lemma {:induction false} HandleRefKeepsBlobsRecorded(cfg: Config, w: World, key: Key, ref: FileRef, a: RefAnswer)
    requires BlobsRecorded(w) && key in w.t.messages && QuietRef(a) && CleanPut(a)
    ensures BlobsRecorded(HandleRef(cfg, w, key, ref, a).state)
  {
    AttachQuiet(w, key, ref, a);
    AttachEffect(w, key, ref, a);
    var l := Attach(w, key, ref, a).state;
    assert BlobsRecorded(l);
    FetchKeepsBlobsRecorded(cfg, l, ref, a);
  }

  lemma {:induction false} FetchKeepsBlobsRecorded(cfg: Config, w: World, ref: FileRef, a: RefAnswer)
    requires BlobsRecorded(w) && ref.id in w.t.files && QuietRef(a) && CleanPut(a)
    ensures BlobsRecorded(Fetch(cfg, w, ref, a).state)
  {
    if !SkipsDownload(cfg, ref) { assert BlobsRecorded(Download(cfg, w, ref.id, a).state); }
  }

  lemma {:induction false} HandleRefsKeepsBlobsRecorded(cfg: Config, w: World, key: Key, refs: seq<FileRef>, n: nat, env: nat -> RefAnswer)
    requires BlobsRecorded(w) && key in w.t.messages && n <= |refs|
    requires forall i :: QuietRef(env(i)) && CleanPut(env(i))
    ensures BlobsRecorded(HandleRefs(cfg, w, key, refs, n, env).state)
  {
    hide HandleRef;
    if n > 0 {
      HandleRefsKeepsBlobsRecorded(cfg, w, key, refs, n - 1, env);
      HandleRefsQuiet(cfg, w, key, refs, n - 1, env);
      HandleRefsEffect(cfg, w, key, refs, n - 1, env);
      HandleRefKeepsBlobsRecorded(cfg, HandleRefs(cfg, w, key, refs, n - 1, env).state, key, refs[n - 1], env(n - 1));
    }
  }

  lemma {:induction false} WriteKeepsBlobsRecorded(cfg: Config, p: Proc, act: Action, refs: Option<seq<FileRef>>, a: WriteAnswer)
    requires Ready(p) && WellKeyed(act) && Quiet(a) && CleanPuts(a) && cfg.filesOn && BlobsRecorded(p.w)
    ensures BlobsRecorded(Write(cfg, p, act, refs, a).state.w)
  {
    ApplyEffect(p, cfg.filesOn, act, a);
    ApplyQuiet(p, cfg.filesOn, act, a);
    var r := Apply(p, cfg.filesOn, act, a);
    if act.Delete? {
      DeleteCollectsExactly(p.w.t, act.key);
      FinishKeepsBlobsRecorded(p.w, DeleteStatements(p.w.t, act.key, a.tx), EdgesOf(p.w.t.edges, act.key),
                               DeleteTx(p.w.t, act.key), a.tx);
    } else if r.status == Done && act.Upsert? && refs.Some? {
      var w, ids := r.state.w, Ids(refs.value);
      ReconcileCollectsExactly(w.t, act.key, ids);
      FinishKeepsBlobsRecorded(w, ReconcileStatements(w.t, act.key, ids, a.tx), EdgesNotKept(w.t.edges, act.key, ids),
                               ReconcileTx(w.t, act.key, ids), a.tx);
      ReconcileQuiet(w, true, act.key, ids, a.tx);
      ReconcileEffect(w, true, act.key, ids, a.tx);
      HandleRefsKeepsBlobsRecorded(cfg, Reconcile(w, true, act.key, ids, a.tx).state, act.key, refs.value, |refs.value|, a.refs);
    }
  }

  ghost predicate CleanTurn(turn: Turn) { !turn.Redeploy? ==> Quiet(AnswerOf(turn)) && CleanPuts(AnswerOf(turn)) }

  /** With failing puts leaving nothing behind, the blobs present are exactly the recorded ones. */
  lemma {:induction false} ServedBlobsExact(cfg: Config, f: Filter, log: seq<Turn>)
    requires cfg.filesOn && forall turn :: turn in log ==> CleanTurn(turn)
    ensures var w := Served(cfg, f, log).w;
      forall u :: u in w.blobs <==> Records(w.t, u)
  {
    ServedBlobsRecorded(cfg, f, log);
    ServedIsSound(cfg, f, log);
    var w := Served(cfg, f, log).w;
    forall u | Records(w.t, u) ensures u in w.blobs { assert RecordedOk(w, u.fileId); }
  }

  lemma {:induction false} ServedBlobsRecorded(cfg: Config, f: Filter, log: seq<Turn>)
    requires cfg.filesOn && forall turn :: turn in log ==> CleanTurn(turn)
    ensures BlobsRecorded(Served(cfg, f, log).w)
  {
    hide Take, Write, ActionOf, Ready, Quiet, CleanPuts;
    if log != [] {
      var n := |log| - 1;
      ServedBlobsRecorded(cfg, f, log[..n]);
      ServedReady(cfg, f, log[..n]);
      TakeWrites(cfg, f, Served(cfg, f, log[..n]), log[n]);
      var act := ActionOf(f, log[n]);
      if act.Some? {
        assert CleanTurn(log[n]);
        ActionKeyed(f, log[n]);
        WriteKeepsBlobsRecorded(cfg, Served(cfg, f, log[..n]), act.value, RefsOf(cfg, log[n]), AnswerOf(log[n]));
      }
    }
  }
}
