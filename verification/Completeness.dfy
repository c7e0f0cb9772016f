/** What a backfill that returns without an error leaves, in the pages and messages the Web
    API served. */
module Completeness {
  import opened Model
  import opened Tables
  import opened Backend
  import opened Mirror
  import opened Changes
  import opened Refinement
  import opened Dispatcher
  import opened History
  import opened Backfill
  import opened Restart
  import opened Outcomes
  import opened Timestamps
  import opened FloatTime
  import D = Downloader

  // ---- a visited message is stored ----

  ghost predicate HoldsPut(v: View, c: Change) {
    && c.Put? && RowKey(c.row) in v.messages && v.messages[RowKey(c.row)] == c.row
    && (c.files.Some? ==> forall id :: Edge(RowKey(c.row), id) in v.edges <==> id in c.files.value)
  }

  lemma {:induction false} PutHolds(v: View, c: Change)
    requires c.Put?
    ensures HoldsPut(Change1(v, c), c)
  {
    if c.files.Some? {
      forall id ensures Edge(RowKey(c.row), id) in Change1(v, c).edges <==> id in c.files.value {
        assert Edge(RowKey(c.row), id) in Links(RowKey(c.row), c.files.value) <==> id in c.files.value;
      }
    }
  }

  lemma {:induction false} PutStays(v: View, c: Change, later: Change)
    requires HoldsPut(v, c) && !later.Remove? && !Concerns(later, RowKey(c.row))
    ensures HoldsPut(Change1(v, later), c)
  {
  }

  /** After a log of puts a message holds the last one to it, which is no earlier than the
      i-th change when that one was to it. */
  lemma {:induction false} LastPut(v: View, log: seq<Change>, i: nat) returns (j: nat)
    requires i < |log| && log[i].Put? && forall c :: c in log ==> !c.Remove?
    ensures i <= j < |log| && log[j].Put? && RowKey(log[j].row) == RowKey(log[i].row) && HoldsPut(Replay(v, log), log[j])
  {
    hide HoldsPut, Change1;
    var n := |log| - 1;
    var last := log[n];
    if last.Put? && RowKey(last.row) == RowKey(log[i].row) {
      j := n;
      PutHolds(Replay(v, log[..n]), last);
    } else {
      j := LastPut(v, log[..n], i);
      assert last in log;
      PutStays(Replay(v, log[..n]), log[j], last);
    }
  }

  /** The table shows this message under the channel: its fields, its instant as the float
      converter reads it, and with a file handler exactly its files. */
  ghost predicate ShowsMessage(t: Tables, filesOn: bool, channel: string, m: Msg) {
    var k := Key(channel, m.ts);
    && k in t.messages
    && Outcomes.Carries(t.messages[k], channel, m.ts, m.threadTs, m.user, m.botId, m.text, m.subtype)
    && ParseTs(m.ts) == Some(t.messages[k].postedAt)
    && EditedAs(t.messages[k], m.editedTs, if m.editedTs.Some? then ParseTs(m.editedTs.value) else None)
    && (filesOn ==> LinkedTo(t, k, m.files))
  }

  lemma {:induction false} HoldsMessage(cfg: Config, f: Filter, t: Tables, v: Visit)
    requires VisitChange(cfg, f, v).Put? && HoldsPut(ViewOf(t), VisitChange(cfg, f, v))
    ensures SubtypePersisted(f, v.m.subtype) && ShowsMessage(t, cfg.filesOn, v.channel, v.m)
  {
    hide ParseTs;
    var k := Key(v.channel, v.m.ts);
    if cfg.filesOn {
      forall id ensures Edge(k, id) in t.edges <==> exists r :: r in v.m.files && r.id == id {
        assert Edge(k, id) in t.edges <==> id in Ids(v.m.files);
      }
    }
  }

  /** Every persisted message visited by a successful backfill is stored, as the last visit
      to it in the plan says. */
  lemma {:induction false} VisitedIsStored(cfg: Config, f: Filter, p: Proc, vs: seq<Visit>, answers: seq<WriteAnswer>, i: nat) returns (j: nat)
    requires Ready(p) && |vs| == |answers| && UpsertAll(cfg, f, p, vs, answers).status == Done
    requires i < |vs| && SubtypePersisted(f, vs[i].m.subtype)
    ensures i <= j < |vs| && vs[j].channel == vs[i].channel && vs[j].m.ts == vs[i].m.ts
    ensures SubtypePersisted(f, vs[j].m.subtype)
    ensures ShowsMessage(UpsertAll(cfg, f, p, vs, answers).state.w.t, cfg.filesOn, vs[j].channel, vs[j].m)
  {
    hide UpsertOne, Ready, HoldsPut, Replay, ShowsMessage;
    var log := VisitChanges(cfg, f, vs);
    FullRunReplays(cfg, f, p, vs, answers);
    VisitChangesPrefix(cfg, f, vs, 0);
    VisitedPut(cfg, f, p, vs, answers, i);
    j := LastPut(ViewOf(p.w.t), log, i);
    PutKey(cfg, f, vs[i]);
    PutKey(cfg, f, vs[j]);
    HoldsMessage(cfg, f, UpsertAll(cfg, f, p, vs, answers).state.w.t, vs[j]);
  }

  lemma {:induction false} PutKey(cfg: Config, f: Filter, v: Visit)
    ensures VisitChange(cfg, f, v).Put? ==> RowKey(VisitChange(cfg, f, v).row) == Key(v.channel, v.m.ts)
  {
    hide ParseTs;
  }

  /** A run that succeeds made each persisted message a row. */
  lemma {:induction false} VisitedPut(cfg: Config, f: Filter, p: Proc, vs: seq<Visit>, answers: seq<WriteAnswer>, i: nat)
    requires Ready(p) && |vs| == |answers| && UpsertAll(cfg, f, p, vs, answers).status == Done
    requires i < |vs| && SubtypePersisted(f, vs[i].m.subtype)
    ensures VisitChange(cfg, f, vs[i]).Put?
  {
    hide UpsertOne, Ready, VisitChange, SubtypePersisted;
    var n := |vs| - 1;
    if i < n {
      VisitedPut(cfg, f, p, vs[..n], answers[..n], i);
    } else {
      PartialRunAgrees(cfg, f, p, vs[..n], answers[..n]);
      PutOfDone(cfg, f, UpsertAll(cfg, f, p, vs[..n], answers[..n]).state, vs[n], answers[n]);
    }
  }

  lemma {:induction false} PutOfDone(cfg: Config, f: Filter, p: Proc, v: Visit, a: WriteAnswer)
    requires Ready(p) && SubtypePersisted(f, v.m.subtype) && UpsertOne(cfg, f, p, v, a).status == Done
    ensures VisitChange(cfg, f, v).Put?
  {
    hide ParseTs, Handle, Ready;
    var row := RowOf(v.channel, v.m).value;
    ApplyEffect(p, cfg.filesOn, Upsert(Key(v.channel, v.m.ts), row), a);
  }

  // ---- the command ----

  /** What the API serves for one channel reaches `m`: it is on a history page, or on a reply
      page of a thread whose parent is. */
  ghost predicate Reached(hist: seq<Page>, replies: string -> seq<Page>, m: Msg) {
    OnPages(hist, m) || exists r :: OnPages(hist, r) && HasThread(r) && OnPages(replies(r.ts), m)
  }

  /** The pages of each channel and of each of its threads are those given. */
  ghost predicate Serves(serves: string -> Workspace, channels: seq<string>, hist: string -> seq<Page>, replies: string -> string -> seq<Page>) {
    forall c :: c in channels ==> Paging(serves(c).history, "", hist(c)) && Threads(serves(c), hist(c), replies(c))
  }

  function Counts(hist: string -> seq<Page>): string -> nat { c => |hist(c)| }
  function AllLengths(replies: string -> string -> seq<Page>): string -> string -> nat { c => Lengths(replies(c)) }

  lemma {:induction false} ServesFinite(serves: string -> Workspace, channels: seq<string>, hist: string -> seq<Page>, replies: string -> string -> seq<Page>)
    requires Serves(serves, channels, hist, replies)
    ensures Finite(serves, channels, Counts(hist), AllLengths(replies))
  {
    forall c | c in channels
      ensures Chain(serves(c).history, "", |hist(c)|)
        && FiniteReplies(serves(c), Lengths(replies(c)), Flatten(PagesFrom(serves(c).history, "", |hist(c)|)))
    {
      PlanMembers(serves(c), hist(c), replies(c), Msg("", "", "", "", "", "", None, 0, []));
    }
  }

  /** The plan visits, under each channel, exactly what the API's pages reach. */
  lemma {:induction false} SeedPlanMembers(serves: string -> Workspace, channels: seq<string>, hist: string -> seq<Page>,
                                           replies: string -> string -> seq<Page>, v: Visit)
    requires Serves(serves, channels, hist, replies)
    ensures v in SeedPlan(serves, channels, Counts(hist), AllLengths(replies)) <==>
      v.channel in channels && Reached(hist(v.channel), replies(v.channel), v.m)
  {
    hide ChannelPlan, Reached, Serves;
    if channels != [] {
      var k := |channels| - 1;
      var c := channels[k];
      assert Serves(serves, channels[..k], hist, replies) by { ServesFewer(serves, channels, hist, replies, k); }
      SeedPlanMembers(serves, channels[..k], hist, replies, v);
      ChannelPlanMembers(serves, channels, hist, replies, c, v);
      assert channels == channels[..k] + [c];
    }
  }

  lemma {:induction false} ServesFewer(serves: string -> Workspace, channels: seq<string>, hist: string -> seq<Page>, replies: string -> string -> seq<Page>, k: nat)
    requires Serves(serves, channels, hist, replies) && k <= |channels|
    ensures Serves(serves, channels[..k], hist, replies)
  {
  }

  lemma {:induction false} ChannelPlanMembers(serves: string -> Workspace, channels: seq<string>, hist: string -> seq<Page>,
                           replies: string -> string -> seq<Page>, c: string, v: Visit)
    requires Serves(serves, channels, hist, replies) && c in channels
    ensures v in ChannelPlan(serves(c), c, Counts(hist)(c), AllLengths(replies)(c)) <==>
      v.channel == c && Reached(hist(c), replies(c), v.m)
  {
    PlanMembers(serves(c), hist(c), replies(c), v.m);
    var plan := Plan(serves(c), |hist(c)|, Lengths(replies(c)));
    hide Plan, Serves, Reached;
    if v in Visits(c, plan) { var i :| 0 <= i < |plan| && Visits(c, plan)[i] == v; assert plan[i] == v.m; }
    if v.channel == c && v.m in plan { var i :| 0 <= i < |plan| && plan[i] == v.m; assert Visits(c, plan)[i] == v; }
  }

  /** Run to success, the command stores every persisted message the API's pages reach, top
      level or reply: its row and edges are those of a message with its timestamp that was
      reached. */
  method SeedsEverything(store: Store, downloader: D.Downloader, filter: Filter, serves: string -> Workspace,
                         outcome: nat -> Status, answer: nat -> WriteAnswer, channels: seq<string>,
                         ghost hist: string -> seq<Page>, ghost replies: string -> string -> seq<Page>) returns (s: Status)
    requires downloader.store == store && downloader.cfg.filesOn == store.On() && Ready(Proc(store.World(), {}, {}))
    requires Serves(serves, channels, hist, replies)
    modifies store.Db(), store.Bucket()
    ensures s == Done ==> forall c, m :: c in channels && Reached(hist(c), replies(c), m) && SubtypePersisted(filter, m.subtype) ==>
      exists m' :: Reached(hist(c), replies(c), m') && m'.ts == m.ts && ShowsMessage(store.World().t, store.On(), c, m')
  {
    hide Serves, SeedPlan, UpsertAll, Ready, ShowsMessage, Reached, Finite;
    ghost var n, len := Counts(hist), AllLengths(replies);
    ghost var p, plan := Proc(store.World(), {}, {}), SeedPlan(serves, channels, n, len);
    ghost var answers;
    ServesFinite(serves, channels, hist, replies);
    s, answers := RunBackfill(store, downloader, filter, serves, outcome, answer, channels, n, len);
    if s == Done {
      assert plan[..|plan|] == plan;
      ghost var t := store.World().t;
      forall c, m | c in channels && Reached(hist(c), replies(c), m) && SubtypePersisted(filter, m.subtype)
        ensures exists m' :: Reached(hist(c), replies(c), m') && m'.ts == m.ts && ShowsMessage(t, store.On(), c, m')
      {
        SeedPlanMembers(serves, channels, hist, replies, Visit(c, m));
        var i :| 0 <= i < |plan| && plan[i] == Visit(c, m);
        var j := VisitedIsStored(downloader.cfg, filter, p, plan, answers, i);
        SeedPlanMembers(serves, channels, hist, replies, plan[j]);
      }
    }
  }
}
