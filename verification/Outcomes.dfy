/** What the program makes of an event, a file or a history message, said in the fields of
    that event, file or message: what the tables and blobs hold afterwards. */
module Outcomes {
  import opened Model
  import opened Tables
  import opened Mirror
  import opened Safety
  import opened Changes
  import opened Refinement
  import opened Dispatcher
  import opened History
  import opened Serve
  import opened Timestamps
  import opened FloatTime

  // ---- the filter ----

  /** The map sends the key to true. */
  predicate On(m: map<string, bool>, k: string) { (k, true) in m.Items }

  lemma {:induction false} OnIsHas(m: map<string, bool>, k: string)
    ensures On(m, k) <==> Has(m, k)
    ensures |m| == 0 <==> m == map[]
  {
    if Has(m, k) { assert (k, m[k]) in m.Items; }
  }

  /** The denylist always wins; an empty allowlist allows every other channel. */
  lemma {:induction false} ChannelAllowedExact(f: Filter, id: string)
    ensures On(f.deny, id) ==> !ChannelAllowed(f, id)
    ensures !On(f.deny, id) && f.allow == map[] ==> ChannelAllowed(f, id)
    ensures !On(f.deny, id) && f.allow != map[] ==> (ChannelAllowed(f, id) <==> On(f.allow, id))
  {
    OnIsHas(f.deny, id);
    OnIsHas(f.allow, id);
  }

  /** A normal message always persists; among the others the skip list wins over the persist
      list, and an empty persist list lets the rest through. */
  lemma {:induction false} SubtypePersistedExact(f: Filter, subtype: string)
    ensures subtype == "" ==> SubtypePersisted(f, subtype)
    ensures subtype != "" && On(f.skip, subtype) ==> !SubtypePersisted(f, subtype)
    ensures subtype != "" && !On(f.skip, subtype) && f.persist == map[] ==> SubtypePersisted(f, subtype)
    ensures subtype != "" && !On(f.skip, subtype) && f.persist != map[] ==> (SubtypePersisted(f, subtype) <==> On(f.persist, subtype))
  {
    OnIsHas(f.skip, subtype);
    OnIsHas(f.persist, subtype);
  }

  // ---- what an event stands for ----

  /** The row carries these fields of a message; a bot's message without a user is the bot's. */
  predicate Carries(row: MessageRow, channel: string, ts: string, threadTs: string, user: string, botId: string,
                    text: string, subtype: string)
  {
    && row.channelId == channel && row.ts == ts && row.threadTs == threadTs && row.text == text && row.subtype == subtype
    && (user != "" ==> row.userId == user) && (user == "" ==> row.userId == botId)
  }

  /** An edit stamp that converts is kept; a missing, empty or malformed one is none. */
  predicate EditedAs(row: MessageRow, stamp: Option<string>, instant: Option<Time>) {
    if stamp.Some? && stamp.value != "" then row.editedAt == instant else row.editedAt == None
  }

  /** An event on a channel that is not allowed is skipped. */
  lemma {:induction false} OtherChannelsSkipped(ev: MessageEvent, f: Filter)
    ensures On(f.deny, ev.channel) || (f.allow != map[] && !On(f.allow, ev.channel)) ==> Dispatch(ev.channel, ev, f) == Some(Skip)
  {
    ChannelAllowedExact(f, ev.channel);
  }

  /** A deletion deletes the message it names, whatever the subtype lists say. */
  lemma {:induction false} DeletionDispatched(ev: MessageEvent, f: Filter)
    requires ev.subtype == "message_deleted" && ChannelAllowed(f, ev.channel)
    ensures Dispatch(ev.channel, ev, f) == Some(Delete(Key(ev.channel, ev.deletedTs)))
  {
  }

  /** An edit is filtered by, keyed by and stored as its inner message; without one it is
      skipped, and a timestamp that does not convert is an error. */
  lemma {:induction false} EditDispatched(ev: MessageEvent, f: Filter)
    requires ev.subtype == "message_changed" && ChannelAllowed(f, ev.channel)
    ensures ev.message.None? ==> Dispatch(ev.channel, ev, f) == Some(Skip)
    ensures ev.message.Some? ==>
      var m, act := ev.message.value, Dispatch(ev.channel, ev, f);
      && (!SubtypePersisted(f, m.subtype) ==> act == Some(Skip))
      && (SubtypePersisted(f, m.subtype) && TimeOf(m.ts).None? ==> act == None)
      && (SubtypePersisted(f, m.subtype) && TimeOf(m.ts).Some? ==>
            && act.Some? && act.value.Upsert? && act.value.key == Key(ev.channel, m.ts)
            && Carries(act.value.message, ev.channel, m.ts, m.threadTs, m.user, m.botId, m.text, m.subtype)
            && act.value.message.postedAt == TimeOf(m.ts).value
            && EditedAs(act.value.message, m.editedTs, if m.editedTs.Some? then TimeOf(m.editedTs.value) else None))
  {
    hide TimeOf;
  }

  /** Any other event is filtered by, keyed by and stored as itself. */
  lemma {:induction false} MessageDispatched(ev: MessageEvent, f: Filter)
    requires ev.subtype != "message_deleted" && ev.subtype != "message_changed" && ChannelAllowed(f, ev.channel)
    ensures var act := Dispatch(ev.channel, ev, f);
      && (!SubtypePersisted(f, ev.subtype) ==> act == Some(Skip))
      && (SubtypePersisted(f, ev.subtype) && TimeOf(ev.ts).None? ==> act == None)
      && (SubtypePersisted(f, ev.subtype) && TimeOf(ev.ts).Some? ==>
            && act.Some? && act.value.Upsert? && act.value.key == Key(ev.channel, ev.ts)
            && Carries(act.value.message, ev.channel, ev.ts, ev.threadTs, ev.user, ev.botId, ev.text, ev.subtype)
            && act.value.message.postedAt == TimeOf(ev.ts).value && act.value.message.editedAt == None)
  {
    hide TimeOf;
  }

  // ---- what a delivered event leaves ----

  /** The edges of `key` are exactly to these refs. */
  ghost predicate LinkedTo(t: Tables, key: Key, refs: seq<FileRef>) {
    forall id :: Edge(key, id) in t.edges <==> exists r :: r in refs && r.id == id
  }

  lemma {:induction false} LinksAre(t: Tables, t': Tables, key: Key, refs: seq<FileRef>)
    requires t'.edges == (t.edges - EdgesOf(t.edges, key)) + Links(key, Ids(refs))
    ensures LinkedTo(t', key, refs)
  {
    forall id ensures Edge(key, id) in t'.edges <==> exists r :: r in refs && r.id == id {
      assert Edge(key, id) in Links(key, Ids(refs)) <==> id in Ids(refs);
    }
  }

  lemma {:induction false} AfterDelivery(cfg: Config, f: Filter, log: seq<Turn>, d: Delivery)
    ensures Served(cfg, f, log + [Deliver(d)]) == Over(HandleMessage(cfg, f, Served(cfg, f, log), d))
  {
    assert (log + [Deliver(d)])[..|log|] == log;
  }

  /** After a deletion that is handled without an error the message it names is gone, with
      its edges, the files nothing else carries, and those files' blobs; other messages,
      their edges and their files stay. */
  lemma {:induction false} DeletedIsGone(cfg: Config, f: Filter, log: seq<Turn>, d: Delivery)
    requires d.ev.subtype == "message_deleted" && ChannelAllowed(f, d.ev.channel)
    requires HandleMessage(cfg, f, Served(cfg, f, log), d).status == Done
    ensures var w, w', key := Served(cfg, f, log).w, Served(cfg, f, log + [Deliver(d)]).w, Key(d.ev.channel, d.ev.deletedTs);
      && w'.t.messages == w.t.messages - {key}
      && (forall e: Edge :: e in w'.t.edges <==> e in w.t.edges && e.key != key)
      && (forall id :: id in w'.t.files <==> id in w.t.files && (Linked(w'.t.edges, id) || !Linked(w.t.edges, id)))
      && (cfg.filesOn ==> forall id :: id in w.t.files && id !in w'.t.files && w.t.files[id].storageUri.Some? ==>
            w.t.files[id].storageUri.value !in w'.blobs)
  {
    hide Served, DeleteTx, DeleteStatements, ChannelAllowed, Dispatch, Refs;
    AfterDelivery(cfg, f, log, d);
    DeletionDispatched(d.ev, f);
    var w := Served(cfg, f, log).w;
    DeleteCollectsExactly(w.t, Key(d.ev.channel, d.ev.deletedTs));
  }

  /** After an edit is stored, its message's row carries the inner message's fields and its
      edges are exactly that message's files, whatever the payload says; without a file
      handler the edges stay. The edit's writes are those of storing `row` with these refs. */
  lemma {:induction false} EditIsStored(cfg: Config, f: Filter, log: seq<Turn>, d: Delivery, m: Msg, row: MessageRow)
    requires d.ev.subtype == "message_changed" && d.ev.message == Some(m) && ChannelAllowed(f, d.ev.channel)
    requires SubtypePersisted(f, m.subtype) && MessageToRow(d.ev.channel, m) == Some(row)
    requires var refs := if cfg.filesOn then Some(m.files) else None;
      Write(cfg, Served(cfg, f, log), Upsert(Key(d.ev.channel, m.ts), row), refs, d.a).status == Done
    ensures var t, t', key := Served(cfg, f, log).w.t, Served(cfg, f, log + [Deliver(d)]).w.t, Key(d.ev.channel, m.ts);
      && key in t'.messages && Carries(t'.messages[key], d.ev.channel, m.ts, m.threadTs, m.user, m.botId, m.text, m.subtype)
      && Some(t'.messages[key].postedAt) == TimeOf(m.ts)
      && EditedAs(t'.messages[key], m.editedTs, if m.editedTs.Some? then TimeOf(m.editedTs.value) else None)
      && (cfg.filesOn ==> LinkedTo(t', key, m.files))
      && (!cfg.filesOn ==> t'.edges == t.edges)
  {
    hide Served, Write, TimeOf;
    var p, act := Served(cfg, f, log), Upsert(Key(d.ev.channel, m.ts), row);
    var refs := if cfg.filesOn then Some(m.files) else None;
    AfterDelivery(cfg, f, log, d);
    EditDispatched(d.ev, f);
    ServedReady(cfg, f, log);
    WriteMakesChange(cfg, p, act, refs, d.a);
    StoredRow(cfg, p, act, refs, d.a);
    if cfg.filesOn { LinksAre(p.w.t, Write(cfg, p, act, refs, d.a).state.w.t, act.key, m.files); }
  }

  /** After any other event is stored, the row carries the event's own fields, and the edges
      are exactly the files of the message in the raw payload; without a payload that parses,
      or without a file handler, they stay. */
  lemma {:induction false} MessageIsStored(cfg: Config, f: Filter, log: seq<Turn>, d: Delivery, row: MessageRow)
    requires d.ev.subtype != "message_deleted" && d.ev.subtype != "message_changed" && ChannelAllowed(f, d.ev.channel)
    requires SubtypePersisted(f, d.ev.subtype) && TimeOf(d.ev.ts).Some?
    requires Carries(row, d.ev.channel, d.ev.ts, d.ev.threadTs, d.ev.user, d.ev.botId, d.ev.text, d.ev.subtype)
    requires row.postedAt == TimeOf(d.ev.ts).value && row.editedAt == None
    requires var refs := if cfg.filesOn && d.payload.Some? then Some(d.payload.value.files) else None;
      Write(cfg, Served(cfg, f, log), Upsert(Key(d.ev.channel, d.ev.ts), row), refs, d.a).status == Done
    ensures var t, t', key := Served(cfg, f, log).w.t, Served(cfg, f, log + [Deliver(d)]).w.t, Key(d.ev.channel, d.ev.ts);
      && key in t'.messages && t'.messages[key] == row
      && (cfg.filesOn && d.payload.Some? ==> LinkedTo(t', key, d.payload.value.files))
      && (!cfg.filesOn || d.payload.None? ==> t'.edges == t.edges)
  {
    hide Served, Write, TimeOf;
    var p, act := Served(cfg, f, log), Upsert(Key(d.ev.channel, d.ev.ts), row);
    var refs := if cfg.filesOn && d.payload.Some? then Some(d.payload.value.files) else None;
    AfterDelivery(cfg, f, log, d);
    MessageDispatched(d.ev, f);
    ServedReady(cfg, f, log);
    WriteMakesChange(cfg, p, act, refs, d.a);
    StoredRow(cfg, p, act, refs, d.a);
    if refs.Some? { LinksAre(p.w.t, Write(cfg, p, act, refs, d.a).state.w.t, act.key, refs.value); }
  }

  lemma {:induction false} StoredRow(cfg: Config, p: Proc, act: Action, refs: Option<seq<FileRef>>, a: WriteAnswer)
    requires Ready(p) && act.Upsert? && WellKeyed(act) && Write(cfg, p, act, refs, a).status == Done
    ensures var t' := Write(cfg, p, act, refs, a).state.w.t;
      && act.key in t'.messages && t'.messages[act.key] == act.message
      && (refs.None? ==> t'.edges == p.w.t.edges)
      && (refs.Some? ==> t'.edges == (p.w.t.edges - EdgesOf(p.w.t.edges, act.key)) + Links(act.key, Ids(refs.value)))
  {
    ApplyEffect(p, cfg.filesOn, act, a);
    WriteMakesChange(cfg, p, act, refs, a);
    hide Apply, Handle, Ready;
  }

  /** An event that is rejected is an error and changes nothing; a skipped one changes nothing. */
  lemma {:induction false} RejectedOrSkipped(cfg: Config, f: Filter, p: Proc, d: Delivery)
    ensures Dispatch(d.ev.channel, d.ev, f) == None ==> HandleMessage(cfg, f, p, d) == Run(p, Err)
    ensures Dispatch(d.ev.channel, d.ev, f) == Some(Skip) ==> HandleMessage(cfg, f, p, d) == Run(p, Done)
  {
  }

  /** A failing file handler is not an error of the event. */
  lemma {:induction false} FileErrorIsLogged(cfg: Config, f: Filter, p: Proc, d: Delivery)
    requires var act := Dispatch(d.ev.channel, d.ev, f);
      act.Some? && Apply(p, cfg.filesOn, act.value, d.a).status == Done
    ensures HandleMessage(cfg, f, p, d).status != Err
  {
    hide Apply, Handle, Dispatch;
  }

  /** A new process, at a redeploy or after a crash, finds the world as it was left and
      remembers nothing. */
  lemma {:induction false} NewProcess(cfg: Config, f: Filter, log: seq<Turn>, turn: Turn)
    ensures var p := Served(cfg, f, log);
      && (turn.Redeploy? ==> Served(cfg, f, log + [turn]) == Proc(p.w, {}, {}))
      && (turn.Deliver? && HandleMessage(cfg, f, p, turn.d).status == Crashed ==>
            Served(cfg, f, log + [turn]) == Proc(HandleMessage(cfg, f, p, turn.d).state.w, {}, {}))
  {
    hide HandleMessage, UpsertOne;
    assert (log + [turn])[..|log|] == log;
  }

  // ---- what a visited history message leaves ----

  /** A message of the history is filtered by its subtype only; one whose timestamp does not
      convert is an error. */
  lemma {:induction false} VisitRefused(cfg: Config, f: Filter, p: Proc, v: Visit, a: WriteAnswer)
    ensures !SubtypePersisted(f, v.m.subtype) ==> UpsertOne(cfg, f, p, v, a) == Run(p, Done)
    ensures SubtypePersisted(f, v.m.subtype) && ParseTs(v.m.ts).None? ==> UpsertOne(cfg, f, p, v, a) == Run(p, Err)
  {
    hide ParseTs, Write;
  }

  /** After a visit that succeeds the row carries the message's fields, and the edges are
      exactly its files; without a file handler they stay. */
  lemma {:induction false} VisitIsStored(cfg: Config, f: Filter, p: Proc, v: Visit, a: WriteAnswer)
    requires Ready(p) && SubtypePersisted(f, v.m.subtype) && UpsertOne(cfg, f, p, v, a).status == Done
    ensures var m, t', key := v.m, UpsertOne(cfg, f, p, v, a).state.w.t, Key(v.channel, v.m.ts);
      && key in t'.messages && Carries(t'.messages[key], v.channel, m.ts, m.threadTs, m.user, m.botId, m.text, m.subtype)
      && ParseTs(m.ts) == Some(t'.messages[key].postedAt)
      && EditedAs(t'.messages[key], m.editedTs, if m.editedTs.Some? then ParseTs(m.editedTs.value) else None)
      && (cfg.filesOn ==> LinkedTo(t', key, m.files))
      && (!cfg.filesOn ==> t'.edges == p.w.t.edges)
  {
    hide ParseTs, Write, Ready;
    var act := Upsert(Key(v.channel, v.m.ts), RowOf(v.channel, v.m).value);
    var refs := if cfg.filesOn then Some(v.m.files) else None;
    StoredRow(cfg, p, act, refs, a);
    if cfg.filesOn { LinksAre(p.w.t, Write(cfg, p, act, refs, a).state.w.t, act.key, v.m.files); }
  }

  // ---- what handling one file leaves ----

  /** External, without a URL, over a positive limit, or of a type a non-empty list lacks. */
  predicate Barred(cfg: Config, ref: FileRef) {
    || ref.meta.isExternal
    || ref.urlDownload == ""
    || 0 < cfg.maxBytes < ref.meta.size
    || (cfg.mimeAllow != map[] && !On(cfg.mimeAllow, ref.meta.mimetype))
  }

  /** What the row recorded before, if there was one. */
  function AddressBefore(t: Tables, id: string): (Option<Uri>, Option<string>) {
    if id in t.files then (t.files[id].storageUri, t.files[id].sha256) else (None, None)
  }

  /** Recording a new file makes a pending row without an address; recording a known one only
      renews its metadata. */
  lemma {:induction false} RecordedRow(w: World, key: Key, ref: FileRef, a: RefAnswer)
    requires TakesEffect(a.upsert)
    ensures var t' := Attach(w, key, ref, a).state.t;
      && ref.id in t'.files
      && (ref.id !in w.t.files ==> t'.files[ref.id] == FileRow(ref.meta, None, None, Pending))
      && (ref.id in w.t.files ==> t'.files[ref.id] == w.t.files[ref.id].(meta := ref.meta))
  {
  }

  predicate Delivered(a: RefAnswer) { a.http.Response? && a.http.status == 200 && a.put == PutOk }

  /** The blobs after a download that failed: what the put left, if it came to one. */
  function BlobsAfterFailure(blobs: map<Uri, Bytes>, id: string, a: RefAnswer): map<Uri, Bytes> {
    if a.http.Response? && a.http.status == 200 && !a.put.PutOk? && a.put.left.Some? then blobs[Uri(id) := a.put.left.value] else blobs
  }

  ghost predicate FileOutcome(cfg: Config, w: World, ref: FileRef, a: RefAnswer, w': World)
    requires ref.id in w'.t.files
  {
    var row := w'.t.files[ref.id];
    && row.meta == ref.meta
    && (Barred(cfg, ref) ==> row.state == Skipped && w'.blobs == w.blobs)
    && (!Barred(cfg, ref) && Delivered(a) ==>
          && w'.blobs == w.blobs[Uri(ref.id) := a.http.body]
          && row == FileRow(ref.meta, Some(Uri(ref.id)), Some(cfg.hash(a.http.body)), Stored))
    && (!Barred(cfg, ref) && !Delivered(a) ==> row.state == Failed && w'.blobs == BlobsAfterFailure(w.blobs, ref.id, a))
    && (row.state != Stored ==> (row.storageUri, row.sha256) == AddressBefore(w.t, ref.id))
  }

  lemma {:induction false} BarredExact(cfg: Config, ref: FileRef)
    ensures SkipsDownload(cfg, ref) <==> Barred(cfg, ref)
  {
    OnIsHas(cfg.mimeAllow, ref.meta.mimetype);
  }

  /** A download that is made: its row and blob when delivered, and otherwise what it left. */
  lemma {:induction false} DownloadOutcome(cfg: Config, w: World, id: string, a: RefAnswer)
    requires id in w.t.files && QuietRef(a)
    ensures var d, row := Download(cfg, w, id, a), w.t.files[id];
      && id in d.state.t.files
      && (Delivered(a) ==>
            && d.status == Done && d.state.blobs == w.blobs[Uri(id) := a.http.body]
            && d.state.t.files[id] == FileRow(row.meta, Some(Uri(id)), Some(cfg.hash(a.http.body)), Stored))
      && (!Delivered(a) ==> d.status == Err && d.state.t == w.t && d.state.blobs == BlobsAfterFailure(w.blobs, id, a))
  {
  }

  lemma {:induction false} RecordOutcome(w: World, id: string, st: DownloadState)
    requires id in w.t.files
    ensures var r := Record(w, id, st, Ok);
      id in r.state.t.files && r.state.t.files[id] == w.t.files[id].(state := st) && r.state.blobs == w.blobs
  {
  }

  lemma {:induction false} FetchOutcome(cfg: Config, w: World, ref: FileRef, a: RefAnswer)
    requires ref.id in w.t.files && w.t.files[ref.id].meta == ref.meta && QuietRef(a)
    ensures ref.id in Fetch(cfg, w, ref, a).state.t.files && FileOutcome(cfg, w, ref, a, Fetch(cfg, w, ref, a).state)
  {
    hide Barred, SkipsDownload, Download, Record, Delivered, BlobsAfterFailure;
    BarredExact(cfg, ref);
    if SkipsDownload(cfg, ref) {
      RecordOutcome(w, ref.id, Skipped);
    } else {
      DownloadOutcome(cfg, w, ref.id, a);
      RecordOutcome(Download(cfg, w, ref.id, a).state, ref.id, Failed);
    }
  }

  /** A barred file is never fetched: it is marked skipped and no blob changes, whatever a
      server would answer. Any other file answered 200 and put is stored with exactly those
      bytes; any other answer marks it failed. A file that is not stored keeps the address
      and digest it had. */
  lemma {:induction false} RefOutcome(cfg: Config, w: World, key: Key, ref: FileRef, a: RefAnswer)
    requires key in w.t.messages && QuietRef(a)
    ensures var w' := HandleRef(cfg, w, key, ref, a).state;
      Edge(key, ref.id) in w'.t.edges && ref.id in w'.t.files && FileOutcome(cfg, w, ref, a, w')
  {
    hide Fetch, Barred;
    AttachQuiet(w, key, ref, a);
    AttachEffect(w, key, ref, a);
    var l := Attach(w, key, ref, a).state;
    FetchOutcome(cfg, l, ref, a);
    FetchKeys(cfg, l, ref, a);
  }

  /** Once a file is recorded and linked nothing but a crash stops the batch: a download that
      fails, and a state that cannot be recorded, are not errors. */
  lemma {:induction false} FileErrorsDropped(cfg: Config, w: World, key: Key, ref: FileRef, a: RefAnswer)
    requires Attach(w, key, ref, a).status == Done
    ensures HandleRef(cfg, w, key, ref, a).status != Err
  {
    hide Attach, SkipsDownload;
  }

  /** A batch that ends with an error ended at the first file that could not be recorded or
      linked. */
  lemma {:induction false} BatchStops(cfg: Config, w: World, key: Key, refs: seq<FileRef>, n: nat, env: nat -> RefAnswer) returns (i: nat)
    requires n <= |refs| && HandleRefs(cfg, w, key, refs, n, env).status == Err
    ensures i < n && HandleRefs(cfg, w, key, refs, i, env).status == Done
    ensures Attach(HandleRefs(cfg, w, key, refs, i, env).state, key, refs[i], env(i)).status == Err
  {
    hide Attach, Fetch;
    var r := HandleRefs(cfg, w, key, refs, n - 1, env);
    if r.status != Done {
      i := BatchStops(cfg, w, key, refs, n - 1, env);
    } else {
      i := n - 1;
      if Attach(r.state, key, refs[i], env(i)).status == Done { FileErrorsDropped(cfg, r.state, key, refs[i], env(i)); }
    }
  }

  // ---- what ensuring a user or a channel leaves ----

  function UserFrom(info: Option<User>): User { match info case Some(u) => u case None => User("", "", false) }
  function ChannelFrom(info: Option<Channel>): Channel { match info case Some(c) => c case None => Channel("", false) }

  /** After success the user has a row; an unseen user's row is what the API said, or a stub
      when it failed. */
  lemma {:induction false} UserOutcome(p: Proc, id: string, a: MetaAnswer)
    requires CacheSound(p)
    ensures var r := EnsureUser(p, id, a);
      && (r.status == Done && id != "" ==> id in r.state.w.t.users && id in r.state.users)
      && (id == "" || id in p.users ==> r == Run(p, Done))
      && (id != "" && id !in p.users ==>
            && (r.status == Done <==> a.userUpsert == Ok)
            && (TakesEffect(a.userUpsert) ==> r.state.w.t.users == p.w.t.users[id := UserFrom(a.userInfo)])
            && (!TakesEffect(a.userUpsert) ==> r.state.w == p.w)
            && (r.status != Done ==> r.state.users == p.users))
  {
  }

  lemma {:induction false} ChannelOutcome(p: Proc, id: string, a: MetaAnswer)
    requires CacheSound(p)
    ensures var r := EnsureChannel(p, id, a);
      && (r.status == Done && id != "" ==> id in r.state.w.t.channels && id in r.state.channels)
      && (id == "" || id in p.channels ==> r == Run(p, Done))
      && (id != "" && id !in p.channels ==>
            && (r.status == Done <==> a.channelUpsert == Ok)
            && (TakesEffect(a.channelUpsert) ==> r.state.w.t.channels == p.w.t.channels[id := ChannelFrom(a.channelInfo)])
            && (!TakesEffect(a.channelUpsert) ==> r.state.w == p.w)
            && (r.status != Done ==> r.state.channels == p.channels))
  {
  }

  /** A message is written only after its channel and then its author are ensured: when the
      channel fails neither is touched, when the author fails the message is not. */
  lemma {:induction false} EnsuredInOrder(p: Proc, on: bool, key: Key, row: MessageRow, a: WriteAnswer)
    ensures EnsureChannel(p, key.channel, a.meta).status != Done ==>
      Apply(p, on, Upsert(key, row), a) == EnsureChannel(p, key.channel, a.meta)
    ensures var c := EnsureChannel(p, key.channel, a.meta);
      c.status == Done && EnsureUser(c.state, row.userId, a.meta).status != Done ==>
        Apply(p, on, Upsert(key, row), a) == EnsureUser(c.state, row.userId, a.meta)
  {
    hide EnsureChannel, EnsureUser;
  }

  /** Every stored message's author, if it has one, has a row. */
  ghost predicate AuthorsKnown(t: Tables) {
    forall k :: k in t.messages && t.messages[k].userId != "" ==> t.messages[k].userId in t.users
  }

  lemma {:induction false} EnsureRowsAuthor(p: Proc, channel: string, user: string, a: MetaAnswer)
    requires Sound(p)
    ensures var r := EnsureRows(p, channel, user, a);
      && p.w.t.users.Keys <= r.state.w.t.users.Keys && r.state.w.t.messages == p.w.t.messages
      && (r.status == Done && user != "" ==> user in r.state.w.t.users)
  {
    hide EnsureUser, EnsureChannel, Sound;
    EnsureChannelKeepsSound(p, channel, a);
    SoundCaches(p);
    ChannelUsers(p, channel, a);
    var c := EnsureChannel(p, channel, a).state;
    SoundCaches(c);
    EnsureUserKeepsSound(c, user, a);
    UserOutcome(c, user, a);
  }

  lemma {:induction false} SoundCaches(p: Proc)
    requires Sound(p)
    ensures CacheSound(p)
  {
  }

  lemma {:induction false} ChannelUsers(p: Proc, id: string, a: MetaAnswer)
    ensures EnsureChannel(p, id, a).state.w.t.users == p.w.t.users
  {
  }

  lemma {:induction false} DeleteKeepsUsers(w: World, on: bool, key: Key, a: TxAnswer)
    ensures var t' := DeleteMessage(w, on, key, a).state.t;
      t'.users == w.t.users && (t'.messages == w.t.messages || t'.messages == w.t.messages - {key})
  {
    hide DeleteStatements;
    DeleteCollectsExactly(w.t, key);
  }

  lemma {:induction false} ApplyKeepsAuthors(p: Proc, on: bool, act: Action, a: WriteAnswer)
    requires Sound(p) && WellKeyed(act) && AuthorsKnown(p.w.t)
    ensures AuthorsKnown(Apply(p, on, act, a).state.w.t)
  {
    hide EnsureRows, DeleteMessage, Sound;
    match act {
      case Skip =>
      case Delete(key) => DeleteKeepsUsers(p.w, on, key, a.tx);
      case Upsert(key, row) => EnsureRowsAuthor(p, key.channel, row.userId, a.meta);
    }
  }

  lemma {:induction false} WriteKeepsAuthors(cfg: Config, p: Proc, act: Action, refs: Option<seq<FileRef>>, a: WriteAnswer)
    requires Sound(p) && WellKeyed(act) && AuthorsKnown(p.w.t)
    ensures AuthorsKnown(Write(cfg, p, act, refs, a).state.w.t)
  {
    hide Apply, Handle;
    ApplyKeepsAuthors(p, cfg.filesOn, act, a);
    ApplyKeepsSound(p, cfg.filesOn, act, a);
    var r := Apply(p, cfg.filesOn, act, a);
    if r.status == Done && act.Upsert? && refs.Some? { HandleKeepsSafe(cfg, r.state.w, act.key, refs.value, a); }
  }

  /** In every run, whatever fails, every stored message's author has a row. */
  lemma {:induction false} ServedAuthorsKnown(cfg: Config, f: Filter, log: seq<Turn>)
    ensures AuthorsKnown(Served(cfg, f, log).w.t)
  {
    hide Take, Write, ActionOf, Sound;
    if log != [] {
      var n := |log| - 1;
      ServedAuthorsKnown(cfg, f, log[..n]);
      ServedIsSound(cfg, f, log[..n]);
      TakeWrites(cfg, f, Served(cfg, f, log[..n]), log[n]);
      var act := ActionOf(f, log[n]);
      if act.Some? {
        ActionKeyed(f, log[n]);
        WriteKeepsAuthors(cfg, Served(cfg, f, log[..n]), act.value, RefsOf(cfg, log[n]), AnswerOf(log[n]));
      }
    }
  }
}
