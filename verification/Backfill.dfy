/** Seeding channels from their paged history and the paged replies of their threads. */
module Backfill {
  import opened Model
  import opened Backend
  import opened Dispatcher
  import opened History
  import opened Mirror
  import D = Downloader
  import R = Resolver
  import C = Consumer

  // ---- pages ----

  datatype Page = Page(messages: seq<Msg>, hasMore: bool, next: string)

  predicate Last(p: Page) { !p.hasMore || p.next == "" }

  /** Following cursors from `cursor` reaches a last page after exactly `n` pages. */
  predicate Chain(pages: map<string, Page>, cursor: string, n: nat)
    decreases n
  {
    n > 0 && cursor in pages && if Last(pages[cursor]) then n == 1 else Chain(pages, pages[cursor].next, n - 1)
  }

  /** The pages of a chain, in order. */
  function PagesFrom(pages: map<string, Page>, cursor: string, n: nat): seq<Page>
    requires Chain(pages, cursor, n)
    decreases n
  {
    [pages[cursor]] + if Last(pages[cursor]) then [] else PagesFrom(pages, pages[cursor].next, n - 1)
  }

  /** `ps` are the pages the API serves from `cursor` on: each but the last has more and names
      the next one's cursor, and the last has no more or names none. */
  ghost predicate Paging(pages: map<string, Page>, cursor: string, ps: seq<Page>) {
    && |ps| > 0 && cursor in pages && ps[0] == pages[cursor]
    && (forall i :: 0 <= i < |ps| - 1 ==>
          ps[i].hasMore && ps[i].next != "" && ps[i].next in pages && ps[i + 1] == pages[ps[i].next])
    && (!ps[|ps| - 1].hasMore || ps[|ps| - 1].next == "")
  }

  /** The chain is exactly those pages. */
  lemma {:induction false} PagesExact(pages: map<string, Page>, cursor: string, ps: seq<Page>)
    requires |ps| > 0
    ensures Paging(pages, cursor, ps) <==> Chain(pages, cursor, |ps|) && PagesFrom(pages, cursor, |ps|) == ps
    decreases |ps|
  {
    if cursor in pages && ps[0] == pages[cursor] {
      if |ps| > 1 {
        var rest := ps[1..];
        PagesExact(pages, ps[0].next, rest);
        assert ps == [ps[0]] + rest;
        assert forall i :: 0 <= i < |rest| ==> rest[i] == ps[i + 1];
        if Paging(pages, cursor, ps) {
          assert ps[1] == pages[ps[0].next];
          forall i | 0 <= i < |rest| - 1
            ensures rest[i].hasMore && rest[i].next != "" && rest[i].next in pages && rest[i + 1] == pages[rest[i].next]
          {
            assert ps[i + 2] == pages[ps[i + 1].next];
          }
          assert Paging(pages, ps[0].next, rest);
        }
        if Chain(pages, cursor, |ps|) && PagesFrom(pages, cursor, |ps|) == ps {
          assert PagesFrom(pages, cursor, |ps|) == [pages[cursor]] + PagesFrom(pages, ps[0].next, |rest|);
          assert PagesFrom(pages, ps[0].next, |rest|) == rest;
          forall i | 0 <= i < |ps| - 1
            ensures ps[i].hasMore && ps[i].next != "" && ps[i].next in pages && ps[i + 1] == pages[ps[i].next]
          {
            if i > 0 { assert rest[i] == pages[rest[i - 1].next]; }
          }
        }
      }
    }
  }

  function Flatten(ps: seq<Page>): seq<Msg> { if ps == [] then [] else ps[0].messages + Flatten(ps[1..]) }

  predicate IsRoot(m: Msg) {
    (m.replyCount > 0 && m.threadTs == "") || (m.threadTs != "" && m.threadTs == m.ts)
  }

  /** What the Web API serves for one channel: history pages by cursor, and each thread's
      reply pages by cursor. */
  datatype Workspace = Workspace(history: map<string, Page>, replies: map<string, map<string, Page>>)

  function RepliesOf(ws: Workspace, threadTs: string): map<string, Page> {
    if threadTs in ws.replies then ws.replies[threadTs] else map[]
  }

  /** The reply chain of every root among `ms` is finite; `len` says how long. */
  ghost predicate FiniteReplies(ws: Workspace, len: string -> nat, ms: seq<Msg>) {
    forall m :: m in ms && IsRoot(m) ==> Chain(RepliesOf(ws, m.ts), "", len(m.ts))
  }

  function ReplyPlan(ws: Workspace, threadTs: string, len: string -> nat): seq<Msg> {
    if Chain(RepliesOf(ws, threadTs), "", len(threadTs))
    then Flatten(PagesFrom(RepliesOf(ws, threadTs), "", len(threadTs))) else []
  }

  /** Each message, followed at once by its thread's replies when it is a root. */
  function Expand(ws: Workspace, len: string -> nat, ms: seq<Msg>): seq<Msg> {
    if ms == [] then []
    else
      var m := ms[|ms| - 1];
      Expand(ws, len, ms[..|ms| - 1]) + [m] + ThreadOf(ws, len, m)
  }

  function ThreadOf(ws: Workspace, len: string -> nat, m: Msg): seq<Msg> {
    if IsRoot(m) then ReplyPlan(ws, m.ts, len) else []
  }

  /** All messages a backfill visits, in order. */
  function Plan(ws: Workspace, n: nat, len: string -> nat): seq<Msg>
    requires Chain(ws.history, "", n)
  {
    Expand(ws, len, Flatten(PagesFrom(ws.history, "", n)))
  }

  /** The messages of one channel as visits. */
  function Visits(channel: string, ms: seq<Msg>): seq<Visit> {
    seq(|ms|, i requires 0 <= i < |ms| => Visit(channel, ms[i]))
  }

  lemma {:induction false} VisitsConcat(channel: string, a: seq<Msg>, b: seq<Msg>)
    ensures Visits(channel, a + b) == Visits(channel, a) + Visits(channel, b)
  {
  }

  /** Every cursor chain of these channels is finite; `n` and `len` say how long. */
  ghost predicate Finite(serves: string -> Workspace, channels: seq<string>, n: string -> nat, len: string -> string -> nat) {
    forall c :: c in channels ==>
      && Chain(serves(c).history, "", n(c))
      && FiniteReplies(serves(c), len(c), Flatten(PagesFrom(serves(c).history, "", n(c))))
  }

  function ChannelPlan(ws: Workspace, channel: string, n: nat, len: string -> nat): seq<Visit> {
    if Chain(ws.history, "", n) then Visits(channel, Plan(ws, n, len)) else []
  }

  /** All visits of a backfill, channel after channel. */
  function SeedPlan(serves: string -> Workspace, channels: seq<string>, n: string -> nat, len: string -> string -> nat): seq<Visit> {
    if channels == [] then []
    else
      var c := channels[|channels| - 1];
      SeedPlan(serves, channels[..|channels| - 1], n, len) + ChannelPlan(serves(c), c, n(c), len(c))
  }

  lemma {:induction false} FlattenMembers(ps: seq<Page>, m: Msg)
    ensures m in Flatten(ps) <==> OnPages(ps, m)
  {
    if ps != [] {
      FlattenMembers(ps[1..], m);
      if m in ps[0].messages { assert m in Flatten(ps); }
      if m in Flatten(ps[1..]) {
        var i :| 0 <= i < |ps[1..]| && m in ps[1..][i].messages;
        assert m in ps[i + 1].messages;
      }
    }
  }

  lemma {:induction false} ExpandMembers(ws: Workspace, len: string -> nat, ms: seq<Msg>, m: Msg)
    ensures m in Expand(ws, len, ms) <==> m in ms || exists r :: r in ms && IsRoot(r) && m in ReplyPlan(ws, r.ts, len)
  {
    if ms != [] {
      var n := |ms| - 1;
      ExpandMembers(ws, len, ms[..n], m);
      assert ms == ms[..n] + [ms[n]];
    }
  }

  ghost predicate OnPages(ps: seq<Page>, m: Msg) { exists i :: 0 <= i < |ps| && m in ps[i].messages }

  /** A thread's parent: Slack marks it by its own timestamp as thread_ts, and one that comes
      without thread_ts by its reply count. */
  predicate HasThread(m: Msg) {
    if m.threadTs == "" then m.replyCount > 0 else m.threadTs == m.ts
  }

  lemma {:induction false} RootExact(m: Msg)
    ensures IsRoot(m) <==> HasThread(m)
  {
  }

  /** The reply pages of every thread on these pages are those given. */
  ghost predicate Threads(ws: Workspace, hist: seq<Page>, replies: string -> seq<Page>) {
    forall m :: OnPages(hist, m) && HasThread(m) ==> m.ts in ws.replies && Paging(ws.replies[m.ts], "", replies(m.ts))
  }

  lemma {:induction false} RepliesFlat(ws: Workspace, ts: string, rs: seq<Page>, len: string -> nat)
    requires ts in ws.replies && Paging(ws.replies[ts], "", rs) && len(ts) == |rs|
    ensures Chain(RepliesOf(ws, ts), "", len(ts)) && ReplyPlan(ws, ts, len) == Flatten(rs)
  {
    PagesExact(ws.replies[ts], "", rs);
  }

  function Lengths(replies: string -> seq<Page>): string -> nat { ts => |replies(ts)| }

  /** A message is visited exactly when it is on a history page, or on a reply page of a
      thread whose parent is. */
  lemma {:induction false} PlanMembers(ws: Workspace, hist: seq<Page>, replies: string -> seq<Page>, m: Msg)
    requires Paging(ws.history, "", hist) && Threads(ws, hist, replies)
    ensures Chain(ws.history, "", |hist|) && FiniteReplies(ws, Lengths(replies), Flatten(PagesFrom(ws.history, "", |hist|)))
    ensures m in Plan(ws, |hist|, Lengths(replies)) <==>
      OnPages(hist, m) || exists r :: OnPages(hist, r) && HasThread(r) && OnPages(replies(r.ts), m)
  {
    var len := Lengths(replies);
    PagesExact(ws.history, "", hist);
    FlattenMembers(hist, m);
    ExpandMembers(ws, len, Flatten(hist), m);
    forall r: Msg ensures r in Flatten(hist) <==> OnPages(hist, r) { FlattenMembers(hist, r); }
    forall r: Msg | OnPages(hist, r) && HasThread(r)
      ensures Chain(RepliesOf(ws, r.ts), "", len(r.ts)) && (m in ReplyPlan(ws, r.ts, len) <==> OnPages(replies(r.ts), m))
    {
      RepliesFlat(ws, r.ts, replies(r.ts), len);
      FlattenMembers(replies(r.ts), m);
    }
    forall r: Msg ensures IsRoot(r) <==> HasThread(r) { RootExact(r); }
  }

  /** Without threads the plan is the history alone, page after page. */
  lemma {:induction false} ExpandPlain(ws: Workspace, len: string -> nat, ms: seq<Msg>)
    requires forall m :: m in ms ==> !HasThread(m)
    ensures Expand(ws, len, ms) == ms
  {
    if ms != [] {
      var n := |ms| - 1;
      ExpandPlain(ws, len, ms[..n]);
      assert ms == ms[..n] + [ms[n]] && ms[n] in ms;
    }
  }

  lemma {:induction false} PlainPlan(ws: Workspace, hist: seq<Page>, len: string -> nat)
    requires Paging(ws.history, "", hist) && forall m :: OnPages(hist, m) ==> !HasThread(m)
    ensures Chain(ws.history, "", |hist|) && Plan(ws, |hist|, len) == Flatten(hist)
  {
    PagesExact(ws.history, "", hist);
    forall m | m in Flatten(hist) ensures !HasThread(m) { FlattenMembers(hist, m); }
    ExpandPlain(ws, len, Flatten(hist));
  }

  // ---- the paging loops ----

  /** The Web API client: each call may also fail, as `outcome` says for the n-th call. */
  class Client {
    const serves: string -> Workspace     // by channel
    const outcome: nat -> Status
    var calls: nat

    constructor (serves: string -> Workspace, outcome: nat -> Status)
      ensures this.serves == serves && this.outcome == outcome
    {
      this.serves, this.outcome, calls := serves, outcome, 0;
    }

    /** One of the calls since the `from`-th was answered with a failure. */
    ghost predicate CallFailed(from: nat)
      reads this
    {
      exists k: nat :: from <= k < calls && outcome(k) != Done
    }

    method Get(pages: map<string, Page>, cursor: string) returns (s: Status, page: Page)
      modifies this
      ensures calls == old(calls) + 1
      ensures s == (if cursor in pages then outcome(old(calls)) else Then(outcome(old(calls)), Err))
      ensures s == Done ==> cursor in pages && page == pages[cursor]
    {
      s := outcome(calls);
      calls := calls + 1;
      page := Page([], false, "");
      if s == Done {
        if cursor !in pages { return Err, page; }
        page := pages[cursor];
      }
    }
  }

  /** Answers that differ at most in the hint about blobs already gone. */
  ghost predicate SameAnswer(a: WriteAnswer, b: WriteAnswer) {
    a == b.(tx := b.tx.(deleted := a.tx.deleted))
  }

  class Backfiller {
    const client: Client
    const store: Store
    const resolver: R.Resolver
    const filter: Filter
    const downloader: D.Downloader
    const answer: nat -> WriteAnswer          // what the world answers to the n-th message
    var visited: seq<Visit>                   // messages begun so far, under their channels
    ghost var answers: seq<WriteAnswer>       // the answers they met
    ghost const origin: Proc                  // the process and the world at the start

    constructor (client: Client, store: Store, resolver: R.Resolver, filter: Filter, downloader: D.Downloader,
                 answer: nat -> WriteAnswer)
      requires resolver.store == store && downloader.store == store && downloader.cfg.filesOn == store.On()
      ensures this.client == client && this.store == store && this.resolver == resolver
      ensures this.filter == filter && this.downloader == downloader && this.answer == answer
      ensures origin == resolver.Proc() && visited == [] && Clean() && Progress()
    {
      this.client, this.store, this.resolver := client, store, resolver;
      this.filter, this.downloader, this.answer := filter, downloader, answer;
      visited, answers, origin := [], [], resolver.Proc();
    }

    predicate Wired() {
      resolver.store == store && downloader.store == store && downloader.cfg.filesOn == store.On()
    }

    /** The process and the world are what upserting the visited messages makes of the origin. */
    ghost predicate Progress()
      reads this, resolver, store.Db(), store.Bucket()
    {
      && Wired() && |visited| == |answers|
      && resolver.Proc() == UpsertAll(downloader.cfg, filter, origin, visited, answers).state
      && forall i :: 0 <= i < |answers| ==> SameAnswer(answers[i], answer(i))
    }

    /** … and none of them failed. */
    ghost predicate Clean()
      reads this, resolver, store.Db(), store.Bucket()
    {
      && Progress()
      && UpsertAll(downloader.cfg, filter, origin, visited, answers).status == Done
    }

    method Upsert(channelId: string, m: Msg, a: WriteAnswer) returns (s: Status, ghost d: set<Uri>)
      requires Wired()
      modifies resolver, store.Db(), store.Bucket()
      ensures Run(resolver.Proc(), s)
           == UpsertOne(downloader.cfg, filter, old(resolver.Proc()), Visit(channelId, m), a.(tx := a.tx.(deleted := d)))
    {
      hide Handle;
      d := {};
      if !SubtypePersisted(filter, m.subtype) { return Done, d; }
      var row := RowOf(channelId, m);
      if row.None? { return Err, d; }
      s, d := C.Apply(store, resolver, Action.Upsert(Key(channelId, m.ts), row.value), a);
      if s != Done { return; }
      if store.On() {
        s, d := downloader.Handle(Key(channelId, m.ts), m.files, a);
      }
    }

    /** Upserts the next message and books it. */
    method VisitNext(channelId: string, m: Msg) returns (s: Status)
      requires Clean() && Progress()
      modifies this, resolver, store.Db(), store.Bucket()
      ensures visited == old(visited) + [Visit(channelId, m)] && Progress()
      ensures s == Done <==> Clean()
    {
      hide UpsertOne;
      var n := |visited|;
      ghost var d;
      s, d := Upsert(channelId, m, answer(n));
      ghost var met := answer(n).(tx := answer(n).tx.(deleted := d));
      visited, answers := visited + [Visit(channelId, m)], answers + [met];
      assert visited[..n] == old(visited) && answers[..n] == old(answers);
    }

    /** The inner loop over one page of replies. */
    method VisitPage(channelId: string, ms: seq<Msg>) returns (s: Status)
      requires Clean() && Progress()
      modifies this, resolver, store.Db(), store.Bucket()
      ensures Progress() && old(visited) <= visited <= old(visited) + Visits(channelId, ms)
      ensures s == Done <==> Clean()
      ensures s == Done ==> visited == old(visited) + Visits(channelId, ms)
    {
      hide Clean, Progress;
      ghost var start := visited;
      for i := 0 to |ms|
        invariant Clean() && Progress() && visited == start + Visits(channelId, ms[..i])
      {
        s := VisitNext(channelId, ms[i]);
        assert visited == start + Visits(channelId, ms[..i + 1]);
        if s != Done { return; }
      }
      assert ms[..|ms|] == ms;
      s := Done;
    }

    method Replies(channelId: string, threadTs: string, ghost n: nat) returns (s: Status)
      requires Clean() && Progress() && Chain(RepliesOf(client.serves(channelId), threadTs), "", n)
      modifies this, client, resolver, store.Db(), store.Bucket()
      ensures Progress() && old(visited) <= visited && old(client.calls) <= client.calls
      ensures s != Done ==> !Clean() || client.CallFailed(old(client.calls))
      ensures var plan := Visits(channelId, Flatten(PagesFrom(RepliesOf(client.serves(channelId), threadTs), "", n)));
        visited <= old(visited) + plan && (s == Done ==> Clean() && visited == old(visited) + plan)
    {
      hide Clean, Progress, Visits, PagesFrom, Flatten;
      var pages := RepliesOf(client.serves(channelId), threadTs);
      ghost var all := old(visited) + Visits(channelId, Flatten(PagesFrom(pages, "", n)));
      var cursor := "";
      ghost var left := n;
      while true
        invariant Clean() && Progress() && Chain(pages, cursor, left)
        invariant old(visited) <= visited && old(client.calls) <= client.calls
        invariant visited + Visits(channelId, Flatten(PagesFrom(pages, cursor, left))) == all
        decreases left
      {
        var page;
        s, page := client.Get(pages, cursor);
        if s != Done { return; }
        ghost var rest := if Last(page) then [] else Flatten(PagesFrom(pages, page.next, left - 1));
        FlattenFirst(pages, cursor, left);
        VisitsConcat(channelId, page.messages, rest);
        ghost var upTo := visited + Visits(channelId, page.messages);
        assert upTo + Visits(channelId, rest) == all;
        s := VisitPage(channelId, page.messages);
        PrefixOf(visited, upTo, Visits(channelId, rest));
        if s != Done { return; }
        if Last(page) { VisitsNil(channelId); break; }
        cursor, left := page.next, left - 1;
      }
      s := Done;
    }

    /** The messages of one history page, each followed by its thread. */
    method Messages(channelId: string, ms: seq<Msg>, ghost len: string -> nat) returns (s: Status)
      requires Clean() && Progress() && FiniteReplies(client.serves(channelId), len, ms)
      modifies this, client, resolver, store.Db(), store.Bucket()
      ensures Progress() && old(visited) <= visited <= old(visited) + Visits(channelId, Expand(client.serves(channelId), len, ms))
      ensures old(client.calls) <= client.calls
      ensures s != Done ==> !Clean() || client.CallFailed(old(client.calls))
      ensures s == Done ==> Clean() && visited == old(visited) + Visits(channelId, Expand(client.serves(channelId), len, ms))
    {
      hide Clean, Progress, Expand, ReplyPlan, Visits, ThreadOf;
      var ws := client.serves(channelId);
      ghost var all := Visits(channelId, Expand(ws, len, ms));
      ghost var start := visited;
      ExpandNil(ws, len);
      VisitsNil(channelId);
      for i := 0 to |ms|
        invariant Clean() && Progress() && visited == start + Visits(channelId, Expand(ws, len, ms[..i]))
        invariant old(client.calls) <= client.calls
      {
        ghost var thread := Visits(channelId, ThreadOf(ws, len, ms[i]));
        VisitsNext(ws, channelId, len, ms, i);
        s := VisitNext(channelId, ms[i]);
        PrefixOf(visited, visited, thread);
        assert visited + thread <= start + all;
        if s != Done { return; }
        ThreadPlanned(ws, len, ms[i]);
        if IsRoot(ms[i]) {
          s := Replies(channelId, ms[i].ts, len(ms[i].ts));
          assert visited <= start + all;
          if s != Done { return; }
        } else {
          assert thread == [];
        }
      }
      assert ms[..|ms|] == ms;
      s := Done;
    }

    /** All history pages of one channel. `n` and `len` are the lengths of the cursor chains;
        the loops end when those run out. */
    method Channel(channelId: string, ghost n: nat, ghost len: string -> nat) returns (s: Status)
      requires Clean() && Progress()
      requires Chain(client.serves(channelId).history, "", n)
      requires FiniteReplies(client.serves(channelId), len, Flatten(PagesFrom(client.serves(channelId).history, "", n)))
      modifies this, client, resolver, store.Db(), store.Bucket()
      ensures Progress() && old(client.calls) <= client.calls
      ensures old(visited) <= visited <= old(visited) + Visits(channelId, Plan(client.serves(channelId), n, len))
      ensures s != Done ==> !Clean() || client.CallFailed(old(client.calls))
      ensures s == Done ==> Clean() && visited == old(visited) + Visits(channelId, Plan(client.serves(channelId), n, len))
    {
      hide Clean, Progress, Expand, Visits, PagesFrom;
      var ws := client.serves(channelId);
      ghost var all := old(visited) + Visits(channelId, Plan(ws, n, len));
      var cursor := "";
      ghost var left := n;
      while true
        invariant Clean() && Progress() && Chain(ws.history, cursor, left) && old(visited) <= visited
        invariant FiniteReplies(ws, len, Flatten(PagesFrom(ws.history, cursor, left))) && old(client.calls) <= client.calls
        invariant visited + Visits(channelId, Expand(ws, len, Flatten(PagesFrom(ws.history, cursor, left)))) == all
        decreases left
      {
        var page;
        s, page := client.Get(ws.history, cursor);
        if s != Done { return; }
        ghost var later := if Last(page) then [] else Flatten(PagesFrom(ws.history, page.next, left - 1));
        ghost var here, rest := Expand(ws, len, page.messages), Visits(channelId, Expand(ws, len, later));
        PlanOfPage(ws, len, cursor, left, later);
        VisitsConcat(channelId, here, Expand(ws, len, later));
        ghost var upTo := visited + Visits(channelId, here);
        assert upTo + rest == all;
        s := Messages(channelId, page.messages, len);
        PrefixOf(visited, upTo, rest);
        if s != Done { return; }
        if Last(page) { VisitsNil(channelId); break; }
        cursor, left := page.next, left - 1;
      }
      s := Done;
    }

    /** The allowlisted channels one after the other, up to the first error; an empty list
        is an error. */
    method Seed(channels: seq<string>, ghost n: string -> nat, ghost len: string -> string -> nat) returns (s: Status)
      requires Clean() && Progress() && Finite(client.serves, channels, n, len)
      modifies this, client, resolver, store.Db(), store.Bucket()
      ensures Progress() && old(visited) <= visited <= old(visited) + SeedPlan(client.serves, channels, n, len)
      ensures s != Done ==> channels == [] || !Clean() || client.CallFailed(old(client.calls))
      ensures s == Done ==> Clean() && visited == old(visited) + SeedPlan(client.serves, channels, n, len)
    {
      hide Clean, Progress, Visits, FiniteReplies, PagesFrom, Plan, SeedPlan;
      if |channels| == 0 { return Err; }
      ghost var start := visited;
      SeedNil(client.serves, n, len);
      for i := 0 to |channels|
        invariant Clean() && Progress() && old(client.calls) <= client.calls
        invariant visited == start + SeedPlan(client.serves, channels[..i], n, len)
      {
        SeedNext(client.serves, channels, n, len, i);
        assert channels[i] in channels;
        s := Channel(channels[i], n(channels[i]), len(channels[i]));
        assert visited <= start + SeedPlan(client.serves, channels[..i + 1], n, len);
        if s != Done { return; }
      }
      assert channels[..|channels|] == channels;
      s := Done;
    }
  }

  /** One run of the backfill command: a new process seeds the channels, up to the first
      error. `answers` are what its visits met. */
  method RunBackfill(store: Store, downloader: D.Downloader, filter: Filter, serves: string -> Workspace, outcome: nat -> Status,
                     answer: nat -> WriteAnswer, channels: seq<string>, ghost n: string -> nat, ghost len: string -> string -> nat)
    returns (s: Status, ghost answers: seq<WriteAnswer>)
    requires downloader.store == store && downloader.cfg.filesOn == store.On() && Finite(serves, channels, n, len)
    modifies store.Db(), store.Bucket()
    ensures var plan := SeedPlan(serves, channels, n, len);
      && |answers| <= |plan|
      && (forall i :: 0 <= i < |answers| ==> SameAnswer(answers[i], answer(i)))
      && var r := UpsertAll(downloader.cfg, filter, Proc(old(store.World()), {}, {}), plan[..|answers|], answers);
        && store.World() == r.state.w
        && (s == Done ==> |answers| == |plan| && r.status == Done)
        && (s != Done ==> channels == [] || r.status != Done || exists k :: outcome(k) != Done)
  {
    hide Finite, SeedPlan, UpsertAll;
    var resolver := new R.Resolver(store);
    var client := new Client(serves, outcome);
    var b := new Backfiller(client, store, resolver, filter, downloader, answer);
    s := b.Seed(channels, n, len);
    answers := b.answers;
    assert b.visited == SeedPlan(serves, channels, n, len)[..|answers|];
  }

  lemma {:induction false} ExpandNil(ws: Workspace, len: string -> nat)
    ensures Expand(ws, len, []) == []
  {
  }

  lemma {:induction false} VisitsNil(channel: string)
    ensures Visits(channel, []) == []
  {
  }

  /** The visits up to and including the i-th message and its thread. */
  lemma {:induction false} VisitsNext(ws: Workspace, channel: string, len: string -> nat, ms: seq<Msg>, i: nat)
    requires i < |ms|
    ensures Visits(channel, Expand(ws, len, ms[..i + 1]))
         == Visits(channel, Expand(ws, len, ms[..i])) + [Visit(channel, ms[i])] + Visits(channel, ThreadOf(ws, len, ms[i]))
    ensures Visits(channel, Expand(ws, len, ms[..i + 1])) <= Visits(channel, Expand(ws, len, ms))
  {
    hide Expand, ThreadOf;
    ExpandNext(ws, len, ms, i);
  }

  lemma {:induction false} ThreadPlanned(ws: Workspace, len: string -> nat, m: Msg)
    requires IsRoot(m) ==> Chain(RepliesOf(ws, m.ts), "", len(m.ts))
    ensures ThreadOf(ws, len, m) == if IsRoot(m) then Flatten(PagesFrom(RepliesOf(ws, m.ts), "", len(m.ts))) else []
  {
  }

  lemma {:induction false} SeedNil(serves: string -> Workspace, n: string -> nat, len: string -> string -> nat)
    ensures SeedPlan(serves, [], n, len) == []
  {
  }

  /** The plan up to the i-th channel is the plan before it and the channel's own; and it is
      a prefix of the whole. */
  lemma {:induction false} SeedNext(serves: string -> Workspace, channels: seq<string>, n: string -> nat, len: string -> string -> nat, i: nat)
    requires i < |channels|
    ensures var c := channels[i];
      SeedPlan(serves, channels[..i + 1], n, len) == SeedPlan(serves, channels[..i], n, len) + ChannelPlan(serves(c), c, n(c), len(c))
    ensures SeedPlan(serves, channels[..i + 1], n, len) <= SeedPlan(serves, channels, n, len)
    decreases |channels|
  {
    hide ChannelPlan;
    assert channels[..i + 1][..i] == channels[..i];
    var k := |channels| - 1;
    if i < k {
      SeedNext(serves, channels[..k], n, len, i);
      assert channels[..k][..i + 1] == channels[..i + 1];
    } else {
      assert channels[..i + 1] == channels;
    }
  }

  /** The plan up to and including the i-th message is the plan before it, the message and
      its thread; and it is a prefix of the whole. */
  lemma {:induction false} ExpandNext(ws: Workspace, len: string -> nat, ms: seq<Msg>, i: nat)
    requires i < |ms|
    ensures Expand(ws, len, ms[..i + 1]) == Expand(ws, len, ms[..i]) + [ms[i]] + ThreadOf(ws, len, ms[i])
    ensures Expand(ws, len, ms[..i + 1]) <= Expand(ws, len, ms)
  {
    hide ThreadOf;
    assert ms[..i + 1][..i] == ms[..i];
    ExpandConcat(ws, len, ms[..i + 1], ms[i + 1..]);
    assert ms == ms[..i + 1] + ms[i + 1..];
  }

  lemma {:induction false} ExpandConcat(ws: Workspace, len: string -> nat, a: seq<Msg>, b: seq<Msg>)
    ensures Expand(ws, len, a + b) == Expand(ws, len, a) + Expand(ws, len, b)
  {
    hide ThreadOf;
    if b == [] {
      assert a + b == a;
    } else {
      var n := |b| - 1;
      ExpandConcat(ws, len, a, b[..n]);
      assert (a + b)[..|a + b| - 1] == a + b[..n];
    }
  }

  lemma {:induction false} FlattenFirst(pages: map<string, Page>, cursor: string, n: nat)
    requires Chain(pages, cursor, n)
    ensures Flatten(PagesFrom(pages, cursor, n)) == pages[cursor].messages
      + if Last(pages[cursor]) then [] else Flatten(PagesFrom(pages, pages[cursor].next, n - 1))
  {
  }

  lemma {:induction false} PrefixOf(v: seq<Visit>, a: seq<Visit>, rest: seq<Visit>)
    requires v <= a
    ensures v <= a + rest
  {
  }

  /** The plan from a cursor on: this page's part, then the later pages'. */
  lemma {:induction false} PlanOfPage(ws: Workspace, len: string -> nat, cursor: string, left: nat, later: seq<Msg>)
    requires Chain(ws.history, cursor, left)
    requires later == if Last(ws.history[cursor]) then [] else Flatten(PagesFrom(ws.history, ws.history[cursor].next, left - 1))
    ensures Flatten(PagesFrom(ws.history, cursor, left)) == ws.history[cursor].messages + later
    ensures Expand(ws, len, Flatten(PagesFrom(ws.history, cursor, left)))
         == Expand(ws, len, ws.history[cursor].messages) + Expand(ws, len, later)
    ensures later == [] ==> Expand(ws, len, later) == []
  {
    FlattenFirst(ws.history, cursor, left);
    ExpandConcat(ws, len, ws.history[cursor].messages, later);
  }
}
