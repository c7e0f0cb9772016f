/** What holds in every state the world passes through, whatever fails and wherever the
    process stops. */
module Safety {
  import opened Model
  import opened Tables
  import opened Mirror

  /** A recorded address is the file's own, its blob is present, and the file is in use. */
  ghost predicate RecordedOk(w: World, id: string)
    requires id in w.t.files
  {
    w.t.files[id].storageUri.Some? ==>
      w.t.files[id].storageUri.value == Uri(id) && Uri(id) in w.blobs && Linked(w.t.edges, id)
  }

  /** No dangling edge or message, a present blob for every recorded address, and no
      recorded address on a file without edges. */
  ghost predicate Safe(w: World) {
    Integrity(w.t) && forall id :: id in w.t.files ==> RecordedOk(w, id)
  }

  /** Every id the resolver remembers has its row. */
  ghost predicate CacheSound(p: Proc) {
    p.channels <= p.w.t.channels.Keys && p.users <= p.w.t.users.Keys
  }

  ghost predicate Sound(p: Proc) { Safe(p.w) && CacheSound(p) }

  /** Rows that stay keep their recorded address; rows that go had theirs in `handed`. */
  ghost predicate Remembers(w: World, w': World, handed: set<Uri>) {
    forall id :: id in w.t.files && w.t.files[id].storageUri.Some? ==>
      if id in w'.t.files then w'.t.files[id].storageUri == w.t.files[id].storageUri
      else w.t.files[id].storageUri.value in handed
  }

  // ---- transactions ----

  lemma {:induction false} CommitKeepsSafe(w: World, gone: set<Edge>, c: Collected, blobs: map<Uri, Bytes>)
    requires Safe(w) && gone <= w.t.edges && CollectsExactly(w.t, gone, c) && Integrity(c.tables)
    requires w.blobs.Keys - c.uris <= blobs.Keys
    ensures Safe(World(c.tables, blobs)) && Remembers(w, World(c.tables, blobs), c.uris)
  {
  }

  lemma {:induction false} FinishKeepsSafe(w: World, on: bool, s: Status, gone: set<Edge>, c: Collected, a: TxAnswer)
    requires Safe(w) && gone <= w.t.edges && CollectsExactly(w.t, gone, c) && Integrity(c.tables)
    ensures Safe(Finish(w, on, s, c, a).state)
    ensures Remembers(w, Finish(w, on, s, c, a).state, c.uris)
    ensures Finish(w, on, s, c, a).state.t == w.t || Finish(w, on, s, c, a).state.t == c.tables
  {
    var w' := Finish(w, on, s, c, a).state;
    if w'.t == c.tables { CommitKeepsSafe(w, gone, c, w'.blobs); } else { assert w' == w; }
  }

  lemma {:induction false} DeleteIntegrity(t: Tables, key: Key)
    requires Integrity(t)
    ensures Integrity(DeleteTx(t, key).tables)
  {
  }

  lemma {:induction false} ReconcileIntegrity(t: Tables, key: Key, keep: set<string>)
    requires Integrity(t)
    ensures Integrity(ReconcileTx(t, key, keep).tables)
  {
  }

  lemma {:induction false} DeleteKeepsSafe(w: World, on: bool, key: Key, a: TxAnswer)
    requires Safe(w)
    ensures Safe(DeleteMessage(w, on, key, a).state)
    ensures Remembers(w, DeleteMessage(w, on, key, a).state, DeleteTx(w.t, key).uris)
  {
    DeleteCollectsExactly(w.t, key);
    DeleteIntegrity(w.t, key);
    FinishKeepsSafe(w, on, DeleteStatements(w.t, key, a), EdgesOf(w.t.edges, key), DeleteTx(w.t, key), a);
  }

  lemma {:induction false} ReconcileKeepsSafe(w: World, on: bool, key: Key, keep: set<string>, a: TxAnswer)
    requires Safe(w)
    ensures Safe(Reconcile(w, on, key, keep, a).state)
    ensures Remembers(w, Reconcile(w, on, key, keep, a).state, ReconcileTx(w.t, key, keep).uris)
    ensures Reconcile(w, on, key, keep, a).state.t.channels == w.t.channels
    ensures Reconcile(w, on, key, keep, a).state.t.users == w.t.users
    ensures Reconcile(w, on, key, keep, a).state.t.messages == w.t.messages
  {
    ReconcileCollectsExactly(w.t, key, keep);
    ReconcileIntegrity(w.t, key, keep);
    var s, c := ReconcileStatements(w.t, key, keep, a), ReconcileTx(w.t, key, keep);
    FinishKeepsSafe(w, on, s, EdgesNotKept(w.t.edges, key, keep), c, a);
  }

  // ---- one file ----

  /** Files are only added or touched: nothing is collected, no edge is removed. */
  ghost predicate Grows(w: World, w': World) {
    && w'.t.messages == w.t.messages && w'.t.channels == w.t.channels && w'.t.users == w.t.users
    && w.t.edges <= w'.t.edges && w.t.files.Keys <= w'.t.files.Keys
    && Remembers(w, w', {})
  }

  lemma {:induction false} LinkedGrows(edges: set<Edge>, more: set<Edge>)
    requires edges <= more
    ensures forall id :: Linked(edges, id) ==> Linked(more, id)
  {
  }

  /** One step on one file: its row may be added or updated, edges and blobs may be added. */
  ghost predicate Touches(w: World, w': World, id: string) {
    && w'.t.messages == w.t.messages && w'.t.channels == w.t.channels && w'.t.users == w.t.users
    && w.t.edges <= w'.t.edges && w.t.files.Keys <= w'.t.files.Keys <= w.t.files.Keys + {id}
    && w.blobs.Keys <= w'.blobs.Keys
    && (forall e :: e in w'.t.edges - w.t.edges ==> e.key in w'.t.messages && e.file in w'.t.files)
    && (forall other :: other in w.t.files && other != id ==> w'.t.files[other] == w.t.files[other])
    && (id in w.t.files && w.t.files[id].storageUri.Some? ==> w'.t.files[id].storageUri.Some?)
    && (id in w'.t.files && w'.t.files[id].storageUri.Some? ==>
          || (id in w.t.files && w'.t.files[id].storageUri == w.t.files[id].storageUri)
          || (w'.t.files[id].storageUri == Some(Uri(id)) && Uri(id) in w'.blobs && Linked(w'.t.edges, id)))
  }

  lemma {:induction false} TouchKeepsSafe(w: World, w': World, id: string)
    requires Safe(w) && Touches(w, w', id)
    ensures Safe(w') && Grows(w, w')
  {
    LinkedGrows(w.t.edges, w'.t.edges);
    forall x | x in w'.t.files ensures RecordedOk(w', x) {
      if x in w.t.files { assert RecordedOk(w, x); }
    }
    forall x | x in w.t.files && w.t.files[x].storageUri.Some?
      ensures w'.t.files[x].storageUri == w.t.files[x].storageUri
    {
      assert RecordedOk(w, x);
    }
  }

  lemma {:induction false} GrowsTransitive(w: World, v: World, w': World)
    requires Grows(w, v) && Grows(v, w')
    ensures Grows(w, w')
  {
  }

  lemma {:induction false} RecordKeepsSafe(w: World, id: string, st: DownloadState, o: Outcome)
    requires Safe(w)
    ensures Safe(Record(w, id, st, o).state) && Grows(w, Record(w, id, st, o).state)
  {
    TouchKeepsSafe(w, Record(w, id, st, o).state, id);
  }

  lemma {:induction false} DownloadKeepsSafe(cfg: Config, w: World, id: string, a: RefAnswer)
    requires Safe(w) && id in w.t.files && Linked(w.t.edges, id)
    ensures Safe(Download(cfg, w, id, a).state) && Grows(w, Download(cfg, w, id, a).state)
  {
    TouchKeepsSafe(w, Download(cfg, w, id, a).state, id);
  }

  lemma {:induction false} FetchKeepsSafe(cfg: Config, w: World, ref: FileRef, a: RefAnswer)
    requires Safe(w) && ref.id in w.t.files && Linked(w.t.edges, ref.id)
    ensures Safe(Fetch(cfg, w, ref, a).state) && Grows(w, Fetch(cfg, w, ref, a).state)
  {
    if SkipsDownload(cfg, ref) {
      RecordKeepsSafe(w, ref.id, Skipped, a.state);
    } else {
      DownloadKeepsSafe(cfg, w, ref.id, a);
      var d := Download(cfg, w, ref.id, a);
      if d.status == Err {
        RecordKeepsSafe(d.state, ref.id, Failed, a.state);
        GrowsTransitive(w, d.state, Record(d.state, ref.id, Failed, a.state).state);
      }
    }
  }

  lemma {:induction false} PutFileKeepsSafe(w: World, ref: FileRef, o: Outcome)
    requires Safe(w)
    ensures var u := Sql(w, o, PutFile(w.t, ref.id, NewFile(ref)));
      Safe(u.state) && Grows(w, u.state) && (u.status == Done ==> ref.id in u.state.t.files)
  {
    TouchKeepsSafe(w, Sql(w, o, PutFile(w.t, ref.id, NewFile(ref))).state, ref.id);
  }

  lemma {:induction false} LinkKeepsSafe(w: World, e: Edge, o: Outcome)
    requires Safe(w)
    ensures var l := Sql(w, o, Link(w.t, e));
      Safe(l.state) && Grows(w, l.state) && (l.status == Done ==> Linked(l.state.t.edges, e.file))
  {
    var l := Sql(w, o, Link(w.t, e));
    TouchKeepsSafe(w, l.state, e.file);
    if l.status == Done { assert e in l.state.t.edges; }
  }

  lemma {:induction false} AttachKeepsSafe(w: World, key: Key, ref: FileRef, a: RefAnswer)
    requires Safe(w)
    ensures var l := Attach(w, key, ref, a);
      && Safe(l.state) && Grows(w, l.state)
      && (l.status == Done ==> ref.id in l.state.t.files && Linked(l.state.t.edges, ref.id))
  {
    PutFileKeepsSafe(w, ref, a.upsert);
    var u := Sql(w, a.upsert, PutFile(w.t, ref.id, NewFile(ref)));
    if u.status == Done {
      LinkKeepsSafe(u.state, Edge(key, ref.id), a.link);
      GrowsTransitive(w, u.state, Attach(w, key, ref, a).state);
    }
  }

  lemma {:induction false} HandleRefKeepsSafe(cfg: Config, w: World, key: Key, ref: FileRef, a: RefAnswer)
    requires Safe(w)
    ensures Safe(HandleRef(cfg, w, key, ref, a).state) && Grows(w, HandleRef(cfg, w, key, ref, a).state)
  {
    AttachKeepsSafe(w, key, ref, a);
    var l := Attach(w, key, ref, a);
    if l.status == Done {
      FetchKeepsSafe(cfg, l.state, ref, a);
      GrowsTransitive(w, l.state, Fetch(cfg, l.state, ref, a).state);
    }
  }

  lemma {:induction false} HandleRefsKeepsSafe(cfg: Config, w: World, key: Key, refs: seq<FileRef>, n: nat, env: nat -> RefAnswer)
    requires Safe(w) && n <= |refs|
    ensures var w' := HandleRefs(cfg, w, key, refs, n, env).state; Safe(w') && Grows(w, w')
  {
    hide HandleRef;
    if n > 0 {
      HandleRefsKeepsSafe(cfg, w, key, refs, n - 1, env);
      var r := HandleRefs(cfg, w, key, refs, n - 1, env);
      if r.status == Done { HandleRefKeepsSafe(cfg, r.state, key, refs[n - 1], env(n - 1)); }
    }
  }

  // ---- one write ----

  ghost predicate WellKeyed(act: Action) { act.Upsert? ==> RowKey(act.message) == act.key }

  /** The addresses the write's transaction hands to the post-commit deletion. */
  function Handed(t: Tables, act: Action, refs: Option<seq<FileRef>>): set<Uri> {
    match act
    case Skip => {}
    case Delete(key) => DeleteTx(t, key).uris
    case Upsert(key, _) => if refs.Some? then ReconcileTx(t, key, Ids(refs.value)).uris else {}
  }

  ghost predicate SameFiles(w: World, w': World) {
    w'.blobs == w.blobs && w'.t.files == w.t.files && w'.t.edges == w.t.edges
  }

  /** A write that leaves files, edges and blobs alone and only adds well-placed rows. */
  lemma {:induction false} RowsKeepSound(p: Proc, p': Proc)
    requires Sound(p) && SameFiles(p.w, p'.w) && CacheSound(p')
    requires p.w.t.channels.Keys <= p'.w.t.channels.Keys && p.w.t.messages.Keys <= p'.w.t.messages.Keys
    requires forall k :: k in p'.w.t.messages ==> k.channel in p'.w.t.channels && RowKey(p'.w.t.messages[k]) == k
    ensures Sound(p')
  {
    forall id | id in p'.w.t.files ensures RecordedOk(p'.w, id) { assert RecordedOk(p.w, id); }
  }

  lemma {:induction false} EnsureChannelKeepsSound(p: Proc, id: string, a: MetaAnswer)
    requires Sound(p)
    ensures var p' := EnsureChannel(p, id, a).state;
      Sound(p') && SameFiles(p.w, p'.w) && p'.w.t.messages == p.w.t.messages
  {
    RowsKeepSound(p, EnsureChannel(p, id, a).state);
  }

  lemma {:induction false} EnsureUserKeepsSound(p: Proc, id: string, a: MetaAnswer)
    requires Sound(p)
    ensures var p' := EnsureUser(p, id, a).state;
      Sound(p') && SameFiles(p.w, p'.w) && p'.w.t.messages == p.w.t.messages
  {
    RowsKeepSound(p, EnsureUser(p, id, a).state);
  }

  lemma {:induction false} EnsureRowsKeepsSound(p: Proc, channel: string, user: string, a: MetaAnswer)
    requires Sound(p)
    ensures var p' := EnsureRows(p, channel, user, a).state;
      Sound(p') && SameFiles(p.w, p'.w) && p'.w.t.messages == p.w.t.messages
  {
    EnsureChannelKeepsSound(p, channel, a);
    EnsureUserKeepsSound(EnsureChannel(p, channel, a).state, user, a);
  }

  lemma {:induction false} UpsertMessageKeepsSound(p: Proc, row: MessageRow, o: Outcome)
    requires Sound(p)
    ensures var p' := UpsertMessage(p, row, o).state;
      && Sound(p') && SameFiles(p.w, p'.w)
      && (p'.w.t.messages == p.w.t.messages || p'.w.t.messages == p.w.t.messages[RowKey(row) := row])
  {
    RowsKeepSound(p, UpsertMessage(p, row, o).state);
  }

  lemma {:induction false} ApplyKeepsSound(p: Proc, on: bool, act: Action, a: WriteAnswer)
    requires Sound(p) && WellKeyed(act)
    ensures var p' := Apply(p, on, act, a).state;
      && Sound(p') && Remembers(p.w, p'.w, Handed(p.w.t, act, None))
      && (act.Upsert? ==> SameFiles(p.w, p'.w))
  {
    match act {
      case Skip =>
      case Delete(key) =>
        DeleteKeepsSafe(p.w, on, key, a.tx);
        DeleteCollectsExactly(p.w.t, key);
      case Upsert(key, row) =>
        EnsureRowsKeepsSound(p, key.channel, row.userId, a.meta);
        UpsertMessageKeepsSound(EnsureRows(p, key.channel, row.userId, a.meta).state, row, a.message);
    }
  }

  lemma {:induction false} CollectedNotKept(t: Tables, key: Key, keep: set<string>)
    ensures forall id :: id in t.files && id !in ReconcileTx(t, key, keep).tables.files ==> id !in keep
  {
    ReconcileCollectsExactly(t, key, keep);
  }

  /** The blob of a file this message still carries is never handed to the deletion. */
  lemma {:induction false} KeptNotHanded(w: World, key: Key, keep: set<string>)
    requires Safe(w)
    ensures forall id :: id in keep ==> Uri(id) !in ReconcileTx(w.t, key, keep).uris
  {
  }

  lemma {:induction false} DownloadKeys(cfg: Config, w: World, id: string, a: RefAnswer)
    ensures var t' := Download(cfg, w, id, a).state.t;
      t'.files.Keys == w.t.files.Keys && t'.edges == w.t.edges && t'.messages == w.t.messages
  {
  }

  lemma {:induction false} RecordKeys(w: World, id: string, st: DownloadState, o: Outcome)
    ensures var t' := Record(w, id, st, o).state.t;
      t'.files.Keys == w.t.files.Keys && t'.edges == w.t.edges && t'.messages == w.t.messages
  {
  }

  /** Downloading changes no key, edge or message. */
  lemma {:induction false} FetchKeys(cfg: Config, w: World, ref: FileRef, a: RefAnswer)
    ensures var t' := Fetch(cfg, w, ref, a).state.t;
      t'.files.Keys == w.t.files.Keys && t'.edges == w.t.edges && t'.messages == w.t.messages
  {
    if SkipsDownload(cfg, ref) {
      RecordKeys(w, ref.id, Skipped, a.state);
    } else {
      DownloadKeys(cfg, w, ref.id, a);
      RecordKeys(Download(cfg, w, ref.id, a).state, ref.id, Failed, a.state);
    }
  }

  lemma {:induction false} HandleRefKeys(cfg: Config, w: World, key: Key, ref: FileRef, a: RefAnswer)
    ensures AddsOnly(w, HandleRef(cfg, w, key, ref, a).state, {ref.id})
  {
    var l := Attach(w, key, ref, a);
    if l.status == Done { FetchKeys(cfg, l.state, ref, a); }
  }

  ghost predicate AddsOnly(w: World, w': World, ids: set<string>) {
    w'.t.files.Keys <= w.t.files.Keys + ids
  }

  lemma {:induction false} NotRecreated(cfg: Config, w: World, key: Key, refs: seq<FileRef>, n: nat, env: nat -> RefAnswer, ids: set<string>)
    requires n <= |refs| && forall i :: 0 <= i < n ==> refs[i].id in ids
    ensures AddsOnly(w, HandleRefs(cfg, w, key, refs, n, env).state, ids)
  {
    hide HandleRef;
    if n > 0 {
      NotRecreated(cfg, w, key, refs, n - 1, env, ids);
      var r := HandleRefs(cfg, w, key, refs, n - 1, env);
      if r.status == Done { HandleRefKeys(cfg, r.state, key, refs[n - 1], env(n - 1)); }
    }
  }

  /** Bringing a message's files up to date, whatever it meets. */
  lemma {:induction false} HandleKeepsSafe(cfg: Config, w: World, key: Key, refs: seq<FileRef>, a: WriteAnswer)
    requires Safe(w)
    ensures var w' := Handle(cfg, w, key, refs, a).state;
      && Safe(w') && Remembers(w, w', ReconcileTx(w.t, key, Ids(refs)).uris)
      && (forall ref :: ref in refs ==> Uri(ref.id) !in ReconcileTx(w.t, key, Ids(refs)).uris)
      && w'.t.messages == w.t.messages && w'.t.channels == w.t.channels && w'.t.users == w.t.users
  {
    hide Reconcile, HandleRefs, Safe, RecordedOk;
    var ids := Ids(refs);
    ReconcileKeepsSafe(w, cfg.filesOn, key, ids, a.tx);
    KeptNotHanded(w, key, ids);
    forall ref | ref in refs ensures ref.id in ids {}
    var r := Reconcile(w, cfg.filesOn, key, ids, a.tx);
    if r.status == Done {
      HandleRefsKeepsSafe(cfg, r.state, key, refs, |refs|, a.refs);
      forall i | 0 <= i < |refs| ensures refs[i].id in ids { assert refs[i] in refs; }
      NotRecreated(cfg, r.state, key, refs, |refs|, a.refs, ids);
      CollectedNotKept(w.t, key, ids);
      ReconciledFiles(w, cfg.filesOn, key, ids, a.tx);
      RemembersThrough(w, r.state, Handle(cfg, w, key, refs, a).state, ReconcileTx(w.t, key, ids).uris, ids);
    }
  }

  lemma {:induction false} ReconciledFiles(w: World, on: bool, key: Key, keep: set<string>, a: TxAnswer)
    ensures var t' := Reconcile(w, on, key, keep, a).state.t;
      t' == w.t || t' == ReconcileTx(w.t, key, keep).tables
  {
  }

  lemma {:induction false} RemembersThrough(w: World, v: World, w': World, handed: set<Uri>, ids: set<string>)
    requires Remembers(w, v, handed) && Grows(v, w') && AddsOnly(v, w', ids)
    requires forall id :: id in w.t.files && id !in v.t.files ==> id !in ids
    ensures Remembers(w, w', handed)
  {
  }

  // ---- how a file row can be left without an edge ----

  /** Recording and linking a file leaves a row without an edge exactly when the row is new
      and was recorded, and the link did not take effect. */
  lemma {:induction false} AttachOrphansExact(w: World, key: Key, ref: FileRef, a: RefAnswer)
    requires Integrity(w.t) && NoOrphans(w.t)
    ensures NoOrphans(Attach(w, key, ref, a).state.t) <==>
      || ref.id in w.t.files || !TakesEffect(a.upsert)
      || (a.upsert == Ok && TakesEffect(a.link) && key in w.t.messages)
  {
    var t, t' := w.t, Attach(w, key, ref, a).state.t;
    LinkedGrows(t.edges, t'.edges);
    if Edge(key, ref.id) in t'.edges {
      assert Linked(t'.edges, ref.id);
    } else if ref.id !in t.files && TakesEffect(a.upsert) {
      assert t'.edges == t.edges && ref.id in t'.files && !Linked(t.edges, ref.id);
    }
  }

  // ---- who may change the messages table ----

  /** Every row of t' is t's own or the one the action stores. */
  ghost predicate OnlyStores(t: Tables, t': Tables, act: Action) {
    forall k :: k in t'.messages ==>
      || (k in t.messages && t'.messages[k] == t.messages[k])
      || (act.Upsert? && k == act.key && t'.messages[k] == act.message)
  }

  lemma {:induction false} ApplyMessages(p: Proc, on: bool, act: Action, a: WriteAnswer)
    requires Sound(p) && WellKeyed(act)
    ensures OnlyStores(p.w.t, Apply(p, on, act, a).state.w.t, act)
  {
    if act.Upsert? {
      EnsureRowsKeepsSound(p, act.key.channel, act.message.userId, a.meta);
      UpsertMessageKeepsSound(EnsureRows(p, act.key.channel, act.message.userId, a.meta).state, act.message, a.message);
    }
  }

  lemma {:induction false} WriteMessages(cfg: Config, p: Proc, act: Action, refs: Option<seq<FileRef>>, a: WriteAnswer)
    requires Sound(p) && WellKeyed(act)
    ensures OnlyStores(p.w.t, Write(cfg, p, act, refs, a).state.w.t, act)
  {
    ApplyMessages(p, cfg.filesOn, act, a);
    ApplyKeepsSound(p, cfg.filesOn, act, a);
    var r := Apply(p, cfg.filesOn, act, a);
    if r.status == Done && act.Upsert? && refs.Some? { HandleKeepsSafe(cfg, r.state.w, act.key, refs.value, a); }
  }

  /** One write, whatever it meets: safety, cache soundness, and no address forgotten. */
  lemma {:induction false} WriteKeepsSound(cfg: Config, p: Proc, act: Action, refs: Option<seq<FileRef>>, a: WriteAnswer)
    requires Sound(p) && WellKeyed(act)
    ensures var p' := Write(cfg, p, act, refs, a).state;
      Sound(p') && Remembers(p.w, p'.w, Handed(p.w.t, act, refs))
  {
    ApplyKeepsSound(p, cfg.filesOn, act, a);
    var r := Apply(p, cfg.filesOn, act, a);
    if r.status == Done && act.Upsert? && refs.Some? {
      HandleKeepsSafe(cfg, r.state.w, act.key, refs.value, a);
      SameHanded(p.w.t, r.state.w.t, act.key, Ids(refs.value));
    }
  }

  lemma {:induction false} SameHanded(t: Tables, t': Tables, key: Key, keep: set<string>)
    requires t'.files == t.files && t'.edges == t.edges
    ensures ReconcileTx(t', key, keep).uris == ReconcileTx(t, key, keep).uris
  {
  }

  /** The same answers, but the process stops at the i-th ref. */
  function CrashAt(env: nat -> RefAnswer, i: nat): nat -> RefAnswer {
    (j: nat) => if j == i then env(j).(upsert := Crash) else env(j)
  }

  lemma {:induction false} StopsAtRef(cfg: Config, w: World, key: Key, ref: FileRef, a: RefAnswer)
    requires a.upsert == Crash
    ensures HandleRef(cfg, w, key, ref, a) == Run(w, Crashed)
  {
  }

  /** The world between two refs is also where the process ends up if it crashes there, so
      a statement about every final state covers it. */
  lemma {:induction false} CrashBetweenRefs(cfg: Config, w: World, key: Key, refs: seq<FileRef>, i: nat, n: nat, env: nat -> RefAnswer)
    requires i < n <= |refs| && HandleRefs(cfg, w, key, refs, i, env).status == Done
    ensures HandleRefs(cfg, w, key, refs, n, CrashAt(env, i)) == Run(HandleRefs(cfg, w, key, refs, i, env).state, Crashed)
    decreases n
  {
    hide HandleRef;
    if n > i + 1 {
      CrashBetweenRefs(cfg, w, key, refs, i, n - 1, env);
    } else {
      SameUntil(cfg, w, key, refs, i, env, CrashAt(env, i));
      StopsAtRef(cfg, HandleRefs(cfg, w, key, refs, i, env).state, key, refs[i], CrashAt(env, i)(i));
    }
  }

  lemma {:induction false} SameUntil(cfg: Config, w: World, key: Key, refs: seq<FileRef>, n: nat, env: nat -> RefAnswer, env': nat -> RefAnswer)
    requires n <= |refs| && forall j: nat :: j < n ==> env(j) == env'(j)
    ensures HandleRefs(cfg, w, key, refs, n, env) == HandleRefs(cfg, w, key, refs, n, env')
  {
    hide HandleRef;
    if n > 0 { SameUntil(cfg, w, key, refs, n - 1, env, env'); }
  }
}
