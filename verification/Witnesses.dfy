/** Runs in which a claim made for the program fails: first for every delivery of the kind
    that breaks it, then one run from the empty store. */
module Witnesses {
  import opened Model
  import opened Tables
  import opened Mirror
  import opened Safety
  import opened Changes
  import opened Refinement
  import F = Faithful
  import opened Dispatcher
  import opened Serve
  import opened Timestamps
  import opened FloatTime
  import opened History

  /** The delivery stores a message that carries one file. */
  predicate Carries(cfg: Config, f: Filter, d: Delivery, key: Key, row: MessageRow, ref: FileRef) {
    && Dispatch(d.ev.channel, d.ev, f) == Some(Upsert(key, row)) && key.channel != ""
    && Refs(cfg, d.ev, d.payload) == Some([ref])
  }

  /** Such a delivery reaches its file: what it then meets decides the final world, and the
      file's row is still what it was before the delivery. */
  lemma {:induction false} ReachesFile(cfg: Config, f: Filter, log: seq<Turn>, d: Delivery, key: Key, row: MessageRow, ref: FileRef)
    returns (v: World)
    requires Carries(cfg, f, d, key, row, ref) && QuietRows(d.a)
    ensures Safe(v) && key in v.t.messages
    ensures Served(cfg, f, log + [Deliver(d)]).w == HandleRef(cfg, v, key, ref, d.a.refs(0)).state
    ensures var t := Served(cfg, f, log).w.t;
      (ref.id in v.t.files <==> ref.id in t.files) && (ref.id in t.files ==> v.t.files[ref.id] == t.files[ref.id])
  {
    hide Apply, Reconcile, HandleRef, Ready, Take, Safe;
    var p, act := Served(cfg, f, log), Upsert(key, row);
    assert (log + [Deliver(d)])[..|log|] == log;
    ServedReady(cfg, f, log);
    ActionKeyed(f, Deliver(d));
    ApplyEffect(p, cfg.filesOn, act, d.a);
    ApplyQuiet(p, cfg.filesOn, act, d.a);
    var q := Apply(p, cfg.filesOn, act, d.a).state;
    ReadySafe(q);
    v := Reconciled(cfg, q.w, key, ref, d.a.tx);
    HandledAs(cfg, f, p, d, key, row, ref, q, v);
  }

  lemma {:induction false} ReadySafe(p: Proc)
    requires Ready(p)
    ensures Safe(p.w)
  {
  }

  lemma {:induction false} Reconciled(cfg: Config, w: World, key: Key, ref: FileRef, a: TxAnswer) returns (v: World)
    requires Safe(w) && QuietTx(a)
    ensures Safe(v) && v.t.messages == w.t.messages && Reconcile(w, cfg.filesOn, key, Ids([ref]), a) == Run(v, Done)
    ensures ref.id in v.t.files <==> ref.id in w.t.files
    ensures ref.id in w.t.files ==> v.t.files[ref.id] == w.t.files[ref.id]
  {
    var ids := Ids([ref]);
    assert [ref][0] in [ref];
    ReconcileQuiet(w, cfg.filesOn, key, ids, a);
    ReconcileKeepsSafe(w, cfg.filesOn, key, ids, a);
    ReconcileCollectsExactly(w.t, key, ids);
    CollectedNotKept(w.t, key, ids);
    v := Reconcile(w, cfg.filesOn, key, ids, a).state;
    hide Safe, ReconcileTx, ReconcileStatements;
  }

  lemma {:induction false} HandledAs(cfg: Config, f: Filter, p: Proc, d: Delivery, key: Key, row: MessageRow, ref: FileRef, q: Proc, v: World)
    requires Carries(cfg, f, d, key, row, ref) && Apply(p, cfg.filesOn, Upsert(key, row), d.a) == Run(q, Done)
    requires Reconcile(q.w, cfg.filesOn, key, Ids([ref]), d.a.tx) == Run(v, Done)
    ensures Take(cfg, f, p, Deliver(d)).w == HandleRef(cfg, v, key, ref, d.a.refs(0)).state
  {
    hide Apply, Reconcile, HandleRef, HandleRefs, Dispatch, Refs;
    OneRef(cfg, v, key, ref, d.a.refs);
  }

  lemma {:induction false} OneRef(cfg: Config, w: World, key: Key, ref: FileRef, env: nat -> RefAnswer)
    ensures HandleRefs(cfg, w, key, [ref], 1, env) == HandleRef(cfg, w, key, ref, env(0))
    ensures ref.id in Ids([ref])
  {
  }

  /** A process that stops between the upload and the row update leaves a stored row whose
      digest is that of bytes no longer there. */
  lemma {:induction false} CrashAfterPutTears(cfg: Config, f: Filter, log: seq<Turn>, d: Delivery, key: Key, row: MessageRow, ref: FileRef)
    requires Carries(cfg, f, d, key, row, ref) && QuietRows(d.a) && !SkipsDownload(cfg, ref)
    requires var a := d.a.refs(0);
      && a.upsert == a.link == Ok && a.http.Response? && a.http.status == 200 && a.put == PutOk && a.stored == Crash
    requires var t := Served(cfg, f, log).w.t;
      ref.id in t.files && t.files[ref.id].state == Stored && t.files[ref.id].sha256 != Some(cfg.hash(d.a.refs(0).http.body))
    ensures !F.Faithful(cfg, Served(cfg, f, log + [Deliver(d)]).w)
  {
    hide Served, Take;
    var v := ReachesFile(cfg, f, log, d, key, row, ref);
    var w := HandleRef(cfg, v, key, ref, d.a.refs(0)).state;
    assert ref.id in w.t.files && !F.FaithfulRow(cfg, w, ref.id);
  }

  /** A file that is recorded and not linked has a row without an edge, and then no delete
      collects what a sweep of all files would. */
  lemma {:induction false} FailedLinkLeavesOrphan(cfg: Config, f: Filter, log: seq<Turn>, d: Delivery, key: Key, row: MessageRow, ref: FileRef)
    requires Carries(cfg, f, d, key, row, ref) && QuietRows(d.a)
    requires d.a.refs(0).upsert == Ok && d.a.refs(0).link == Fail && ref.id !in Served(cfg, f, log).w.t.files
    ensures var t := Served(cfg, f, log + [Deliver(d)]).w.t;
      && ref.id in t.files && !Linked(t.edges, ref.id)
      && forall k :: DeleteTx(t, k).tables != MarkAndSweep(DropMessage(t, k))
  {
    hide Served, Take;
    var v := ReachesFile(cfg, f, log, d, key, row, ref);
    var t := HandleRef(cfg, v, key, ref, d.a.refs(0)).state.t;
    assert ref.id in t.files && !Linked(v.t.edges, ref.id) && t.edges == v.t.edges;
    forall k ensures DeleteTx(t, k).tables != MarkAndSweep(DropMessage(t, k)) { DeleteIsSweep(t, k); }
  }

  // ---- one run each ----

  const CFG := Config(true, 0, map[], (b: Bytes) => if b == [] then "empty" else "full")
  const FILTER := Filter(map[], map[], map[], map[])
  const FILE := FileRef("F1", FileMeta("a.txt", "a", "text/plain", "text", 1, "U1", "hosted", false), "https://files.slack.com/F1")
  const TS := "1600000000" + "." + "000100"

  function Event(text: string): MessageEvent { MessageEvent("C1", "U1", "", text, TS, "", "", "", None) }
  function Payload(text: string): Msg { Msg("U1", "", text, TS, "", "", None, 0, [FILE]) }

  /** Everything succeeds, except as `link` and `stored` say. */
  function Answer(body: Bytes, link: Outcome, stored: Outcome): WriteAnswer {
    WriteAnswer(MetaAnswer(None, Ok, None, Ok), Ok, TxAnswer(Done, Done, Done, Done, Done, Ok, {}, false, {}),
                (i: nat) => RefAnswer(Ok, link, Response(200, body), PutOk, stored, Ok))
  }

  function Sent(text: string, body: Bytes, link: Outcome, stored: Outcome): Delivery {
    Delivery(Event(text), Some(Payload(text)), Answer(body, link, stored))
  }

  const KEY := Key("C1", TS)

  lemma {:induction false} StampParses()
    ensures TimeOf(TS).Some?
  {
    ValBound("1600000000");
    Pow10Mono(10, 18);
    Pow10Eighteen();
    TimeOfParts("1600000000", "000100");
  }

  lemma {:induction false} SentCarries(text: string, body: Bytes, link: Outcome, stored: Outcome) returns (row: MessageRow)
    ensures Carries(CFG, FILTER, Sent(text, body, link, stored), KEY, row, FILE)
    ensures row.text == text && TimeOf(TS) == Some(row.postedAt)
  {
    hide TimeOf, Ids;
    StampParses();
    row := MessageToRow("C1", MsgFromEvent(Event(text))).value;
  }

  lemma {:induction false} SentFollows()
    ensures F.TurnFollows(Deliver(Sent("hello", [], Ok, Ok)))
  {
  }

  /** The message is delivered, and delivered again after its file's bytes have changed; the
      second time the process stops right after the upload. */
  lemma {:induction false} TearingRun()
    ensures var once := [Deliver(Sent("hello", [], Ok, Ok))];
      && F.Faithful(CFG, Served(CFG, FILTER, once).w)
      && !F.Faithful(CFG, Served(CFG, FILTER, once + [Deliver(Sent("hello", [1], Ok, Crash))]).w)
  {
    hide Served, F.Faithful, F.TurnFollows, Carries;
    var d := Sent("hello", [], Ok, Ok);
    var once := [] + [Deliver(d)];
    assert once == [Deliver(d)];
    SentFollows();
    F.ServedIsFaithful(CFG, FILTER, once);
    var row := SentCarries("hello", [], Ok, Ok);
    var v := ReachesFile(CFG, FILTER, [], d, KEY, row, FILE);
    StoresFile(CFG, v, KEY, FILE, d.a.refs(0));
    var row' := SentCarries("hello", [1], Ok, Crash);
    CrashAfterPutTears(CFG, FILTER, once, Sent("hello", [1], Ok, Crash), KEY, row', FILE);
  }

  lemma {:induction false} StoresFile(cfg: Config, w: World, key: Key, ref: FileRef, a: RefAnswer)
    requires key in w.t.messages && !SkipsDownload(cfg, ref) && a.upsert == a.link == a.stored == Ok
    requires a.http.Response? && a.http.status == 200 && a.put == PutOk
    ensures var t := HandleRef(cfg, w, key, ref, a).state.t;
      ref.id in t.files && t.files[ref.id].state == Stored && t.files[ref.id].sha256 == Some(cfg.hash(a.http.body))
  {
  }

  /** The message is delivered and linking its file fails. */
  lemma {:induction false} OrphaningRun()
    ensures var t := Served(CFG, FILTER, [Deliver(Sent("hello", [], Fail, Ok))]).w.t;
      !NoOrphans(t) && forall k :: DeleteTx(t, k).tables != MarkAndSweep(DropMessage(t, k))
  {
    var d := Sent("hello", [], Fail, Ok);
    var row := SentCarries("hello", [], Fail, Ok);
    assert [] + [Deliver(d)] == [Deliver(d)];
    FailedLinkLeavesOrphan(CFG, FILTER, [], d, KEY, row, FILE);
  }

  /** Told(text): the message with this text, and everything succeeds. */
  function Told(text: string): Turn { Deliver(Sent(text, [], Ok, Ok)) }

  lemma {:induction false} Tells(text: string) returns (row: MessageRow)
    ensures QuietTurn(Told(text)) && DeliveredChange(CFG, FILTER, Told(text)) == Put(row, Some(Ids([FILE])))
    ensures RowKey(row) == KEY && row.text == text && TimeOf(TS) == Some(row.postedAt)
  {
    row := SentCarries(text, [], Ok, Ok);
    DispatchKeys(Event(text), FILTER);
  }

  /** A message is delivered, then a newer text for it, then the first event again. */
  lemma {:induction false} StaleRun()
    ensures var t, t' := Served(CFG, FILTER, [Told("old"), Told("new")]).w.t, Served(CFG, FILTER, [Told("old"), Told("new"), Told("old")]).w.t;
      KEY in t.messages && t.messages[KEY].text == "new" && KEY in t'.messages && t'.messages[KEY].text == "old"
  {
    hide Served, DeliveredChange, RunCompletes, QuietTurn, Told;
    var old_ := Tells("old");
    var new_ := Tells("new");
    var stale, newer := Told("old"), Told("new");
    assert [] + [stale] + [newer] == [stale, newer] && [stale, newer] + [stale] == [stale, newer, stale];
    QuietRunCompletes(CFG, FILTER, [stale, newer, stale]);
    ServedStaleWins(CFG, FILTER, [], stale, newer, stale, new_, old_, Some(Ids([FILE])), Some(Ids([FILE])));
  }

  lemma {:induction false} Digits()
    ensures AllDigits("1600000000") && Val("1600000000") == 1_600_000_000
    ensures AllDigits("000100") && Val("000100") == 100
  {
    hide Val, Pow10;
    DigitVal('1');
    DigitVal('6');
    Powers();
    ValConcat("1", "6");
    ZerosVal(8);
    ValConcat("16", Zeros(8));
    assert "1600000000" == "16" + Zeros(8) && "1" + "6" == "16";
    ZerosVal(3);
    ZerosVal(2);
    ValConcat("1", Zeros(2));
    ValConcat(Zeros(3), "1" + Zeros(2));
    assert "000100" == Zeros(3) + ("1" + Zeros(2));
  }

  lemma {:induction false} Powers()
    ensures Pow10(1) == 10 && Pow10(2) == 100 && Pow10(8) == 100_000_000
  {
  }

  lemma {:induction false} Stamp()
    ensures TimeOf(TS) == Some(Time(1_600_000_000, 100_000)) && ParseTs(TS) == Some(Time(1_600_000_000, 99_897))
  {
    hide Val, TimeOf, ParseTs, AllDigits;
    Digits();
    TimeOfValue("1600000000", "000100");
    ParseTsValue("1600000000", "000100");
    assert Steps(100) == 419;
  }

  /** Met(text): a backfill visits the message with this text, and everything succeeds. */
  function Met(text: string): Turn { Seed(Visit("C1", Payload(text)), Answer([], Ok, Ok)) }

  lemma {:induction false} MetQuiet(text: string)
    ensures QuietTurn(Met(text))
  {
  }

  lemma {:induction false} Meets(text: string) returns (row: MessageRow)
    ensures QuietTurn(Met(text)) && DeliveredChange(CFG, FILTER, Met(text)) == Put(row, Some(Ids([FILE])))
    ensures RowKey(row) == KEY && ParseTs(TS) == Some(row.postedAt)
  {
    hide ParseTs, TimeOf, QuietTurn, Ids;
    MetQuiet(text);
    Stamp();
    row := RowOf("C1", Payload(text)).value;
  }

  /** The message is captured live and then visited by a backfill, which moves its instant:
      by 103 ns in SQLite's column, by one microsecond in Postgres's. */
  lemma {:induction false} RewritingRun()
    ensures var t, t' := Served(CFG, FILTER, [Told("hello")]).w.t, Served(CFG, FILTER, [Told("hello"), Met("hello")]).w.t;
      && KEY in t.messages && t.messages[KEY].postedAt.nsec == 100_000
      && KEY in t'.messages && t'.messages[KEY].postedAt.nsec == 99_897
      && PgRow(t.messages[KEY]).postedAt.nsec == 100_000 && PgRow(t'.messages[KEY]).postedAt.nsec == 99_000
  {
    hide Served, DeliveredChange, RunCompletes, TimeOf, ParseTs, QuietTurn, Told, Met;
    var live := Tells("hello");
    var back := Meets("hello");
    Stamp();
    var log := [Told("hello"), Met("hello")];
    assert [] + [Told("hello")] == [Told("hello")] && [Told("hello")] + [Met("hello")] == log;
    QuietRunCompletes(CFG, FILTER, log);
    LastPutShows(CFG, FILTER, [Told("hello")], Met("hello"), back, Some(Ids([FILE])));
    LastPutShows(CFG, FILTER, [], Told("hello"), live, Some(Ids([FILE])));
  }
}
