/** What a file row says after runs without database faults: the metadata of the last ref
    that mentioned the file, and how that ref's download ended. */
module FileRows {
  import opened Model
  import opened Tables
  import opened Mirror
  import opened Safety
  import opened Refinement
  import opened Dispatcher
  import opened Serve

  /** A ref that was handled, and the answers it met. */
  datatype Mention = Mention(ref: FileRef, a: RefAnswer)

  function LastMention(ms: seq<Mention>, id: string): Option<Mention> {
    if ms == [] then None
    else if ms[|ms| - 1].ref.id == id then Some(ms[|ms| - 1])
    else LastMention(ms[..|ms| - 1], id)
  }

  predicate Downloaded(a: RefAnswer) { a.http.Response? && a.http.status == 200 && a.put == PutOk }

  /** The state a mention leaves its file in: never pending. */
  function StateAfter(cfg: Config, m: Mention): DownloadState {
    if SkipsDownload(cfg, m.ref) then Skipped else if Downloaded(m.a) then Stored else Failed
  }

  ghost predicate RowSays(cfg: Config, row: FileRow, m: Mention) {
    && row.meta == m.ref.meta && row.state == StateAfter(cfg, m)
    && (row.state == Stored ==> row.storageUri == Some(Uri(m.ref.id)) && row.sha256 == Some(cfg.hash(m.a.http.body)))
  }

  ghost predicate RowCurrent(cfg: Config, t: Tables, ms: seq<Mention>, id: string)
    requires id in t.files
  {
    LastMention(ms, id).Some? && RowSays(cfg, t.files[id], LastMention(ms, id).value)
  }

  ghost predicate RowsCurrent(cfg: Config, t: Tables, ms: seq<Mention>) {
    forall id :: id in t.files ==> RowCurrent(cfg, t, ms, id)
  }

  lemma {:induction false} AttachRow(w: World, key: Key, ref: FileRef, a: RefAnswer)
    requires key in w.t.messages && QuietRef(a)
    ensures var t' := Attach(w, key, ref, a).state.t;
      && ref.id in t'.files && t'.files[ref.id].meta == ref.meta
      && (forall id :: id in t'.files && id != ref.id ==> id in w.t.files && t'.files[id] == w.t.files[id])
  {
  }

  lemma {:induction false} FetchRow(cfg: Config, w: World, ref: FileRef, a: RefAnswer)
    requires ref.id in w.t.files && w.t.files[ref.id].meta == ref.meta && QuietRef(a)
    ensures var t' := Fetch(cfg, w, ref, a).state.t;
      && t'.files.Keys == w.t.files.Keys && RowSays(cfg, t'.files[ref.id], Mention(ref, a))
      && (forall id :: id in w.t.files && id != ref.id ==> t'.files[id] == w.t.files[id])
  {
    if !SkipsDownload(cfg, ref) {
      var d := Download(cfg, w, ref.id, a);
      assert d.state.t.files.Keys == w.t.files.Keys && d.state.t.files[ref.id].meta == ref.meta;
      assert d.status == Done <==> Downloaded(a);
    }
  }

  lemma {:induction false} HandleRefRow(cfg: Config, w: World, key: Key, ref: FileRef, a: RefAnswer, ms: seq<Mention>)
    requires key in w.t.messages && QuietRef(a) && RowsCurrent(cfg, w.t, ms)
    ensures RowsCurrent(cfg, HandleRef(cfg, w, key, ref, a).state.t, ms + [Mention(ref, a)])
  {
    hide Attach, Fetch, RowSays;
    AttachQuiet(w, key, ref, a);
    AttachEffect(w, key, ref, a);
    AttachRow(w, key, ref, a);
    var l := Attach(w, key, ref, a).state;
    FetchRow(cfg, l, ref, a);
    var t' := Fetch(cfg, l, ref, a).state.t;
    var ms' := ms + [Mention(ref, a)];
    assert ms'[..|ms|] == ms;
    forall id | id in t'.files ensures RowCurrent(cfg, t', ms', id) {
      if id != ref.id { assert RowCurrent(cfg, w.t, ms, id); }
    }
  }

  function Mentions(refs: seq<FileRef>, env: nat -> RefAnswer, n: nat): seq<Mention>
    requires n <= |refs|
  {
    seq(n, i requires 0 <= i < n => Mention(refs[i], env(i)))
  }

  lemma {:induction false} HandleRefsRows(cfg: Config, w: World, key: Key, refs: seq<FileRef>, n: nat, env: nat -> RefAnswer, ms: seq<Mention>)
    requires key in w.t.messages && n <= |refs| && (forall i :: QuietRef(env(i))) && RowsCurrent(cfg, w.t, ms)
    ensures RowsCurrent(cfg, HandleRefs(cfg, w, key, refs, n, env).state.t, ms + Mentions(refs, env, n))
  {
    hide HandleRef, RowsCurrent;
    if n == 0 {
      assert ms + Mentions(refs, env, 0) == ms;
    } else {
      HandleRefsRows(cfg, w, key, refs, n - 1, env, ms);
      HandleRefsQuiet(cfg, w, key, refs, n - 1, env);
      HandleRefsEffect(cfg, w, key, refs, n - 1, env);
      var before := ms + Mentions(refs, env, n - 1);
      HandleRefRow(cfg, HandleRefs(cfg, w, key, refs, n - 1, env).state, key, refs[n - 1], env(n - 1), before);
      assert before + [Mention(refs[n - 1], env(n - 1))] == ms + Mentions(refs, env, n);
    }
  }

  /** The mentions a write makes. */
  function WriteMentions(act: Action, refs: Option<seq<FileRef>>, a: WriteAnswer): seq<Mention> {
    if act.Upsert? && act.key.channel != "" && refs.Some? then Mentions(refs.value, a.refs, |refs.value|) else []
  }

  lemma {:induction false} FewerRows(cfg: Config, t: Tables, t': Tables, ms: seq<Mention>)
    requires RowsCurrent(cfg, t, ms) && forall id :: id in t'.files ==> id in t.files && t'.files[id] == t.files[id]
    ensures RowsCurrent(cfg, t', ms)
  {
    forall id | id in t'.files ensures RowCurrent(cfg, t', ms, id) { assert RowCurrent(cfg, t, ms, id); }
  }

  lemma {:induction false} WriteRows(cfg: Config, p: Proc, act: Action, refs: Option<seq<FileRef>>, a: WriteAnswer, ms: seq<Mention>)
    requires Ready(p) && WellKeyed(act) && Quiet(a) && RowsCurrent(cfg, p.w.t, ms)
    ensures RowsCurrent(cfg, Write(cfg, p, act, refs, a).state.w.t, ms + WriteMentions(act, refs, a))
  {
    hide RowsCurrent, HandleRefs;
    ApplyEffect(p, cfg.filesOn, act, a);
    ApplyQuiet(p, cfg.filesOn, act, a);
    var r := Apply(p, cfg.filesOn, act, a);
    if act.Delete? { DeleteCollectsExactly(p.w.t, act.key); }
    FewerRows(cfg, p.w.t, r.state.w.t, ms);
    if WriteMentions(act, refs, a) == [] { assert ms + WriteMentions(act, refs, a) == ms; }
    if r.status == Done && act.Upsert? && refs.Some? {
      var w, ids := r.state.w, Ids(refs.value);
      ReconcileCollectsExactly(w.t, act.key, ids);
      ReconcileQuiet(w, cfg.filesOn, act.key, ids, a.tx);
      ReconcileEffect(w, cfg.filesOn, act.key, ids, a.tx);
      var v := Reconcile(w, cfg.filesOn, act.key, ids, a.tx).state;
      FewerRows(cfg, w.t, v.t, ms);
      HandleRefsRows(cfg, v, act.key, refs.value, |refs.value|, a.refs, ms);
    }
  }

  /** All mentions of a run, in order. */
  function ServedMentions(cfg: Config, f: Filter, log: seq<Turn>): seq<Mention> {
    if log == [] then [] else ServedMentions(cfg, f, log[..|log| - 1]) + TurnMentions(cfg, f, log[|log| - 1])
  }

  function TurnMentions(cfg: Config, f: Filter, turn: Turn): seq<Mention> {
    var act := ActionOf(f, turn);
    if act.None? then [] else WriteMentions(act.value, RefsOf(cfg, turn), AnswerOf(turn))
  }

  /** After a run without database faults every file row holds the metadata of the last ref
      that mentioned the file and records how that ref's download ended; none is pending. */
  lemma {:induction false} ServedRowsCurrent(cfg: Config, f: Filter, log: seq<Turn>)
    requires forall turn :: turn in log ==> QuietTurn(turn)
    ensures RowsCurrent(cfg, Served(cfg, f, log).w.t, ServedMentions(cfg, f, log))
  {
    hide RowsCurrent, Quiet, Take, Write, ActionOf, Ready;
    if log == [] {
      NoRows(cfg);
    } else {
      var n := |log| - 1;
      ServedRowsCurrent(cfg, f, log[..n]);
      ServedReady(cfg, f, log[..n]);
      TakeWrites(cfg, f, Served(cfg, f, log[..n]), log[n]);
      assert QuietTurn(log[n]);
      var act := ActionOf(f, log[n]);
      var ms := ServedMentions(cfg, f, log[..n]);
      if act.Some? {
        ActionKeyed(f, log[n]);
        WriteRows(cfg, Served(cfg, f, log[..n]), act.value, RefsOf(cfg, log[n]), AnswerOf(log[n]), ms);
      } else {
        assert ms + [] == ms;
      }
    }
  }

  lemma {:induction false} NoRows(cfg: Config)
    ensures RowsCurrent(cfg, EMPTY, [])
  {
  }
}
