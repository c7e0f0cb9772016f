/** An aborted backfill, run again to the end, leaves what one uninterrupted run leaves. */
module Restart {
  import opened Model
  import opened Tables
  import opened Mirror
  import opened Changes
  import opened Refinement
  import opened Agreement
  import opened Dispatcher
  import opened History
  import opened Backfill
  import opened Backend
  import opened Serve
  import D = Downloader

  /** The change a visited message stands for. */
  function VisitChange(cfg: Config, f: Filter, v: Visit): Change {
    if VisitAction(f, v).None? then Keep else ChangeOf(VisitAction(f, v).value, VisitRefs(cfg, v))
  }

  function VisitChanges(cfg: Config, f: Filter, vs: seq<Visit>): seq<Change> {
    seq(|vs|, i requires 0 <= i < |vs| => VisitChange(cfg, f, vs[i]))
  }

  lemma {:induction false} VisitChangesPrefix(cfg: Config, f: Filter, vs: seq<Visit>, n: nat)
    requires n <= |vs|
    ensures VisitChanges(cfg, f, vs)[..n] == VisitChanges(cfg, f, vs[..n])
    ensures OnlyPuts(VisitChanges(cfg, f, vs))
  {
  }

  // ---- a run that may stop anywhere ----

  /** Whatever fails, a partial run touches only what its plan writes. */
  lemma {:induction false} PartialRunAgrees(cfg: Config, f: Filter, p: Proc, vs: seq<Visit>, answers: seq<WriteAnswer>)
    requires Ready(p) && |vs| == |answers|
    ensures var p' := UpsertAll(cfg, f, p, vs, answers).state;
      var log := VisitChanges(cfg, f, vs);
      Ready(p') && AgreeOff(ViewOf(p.w.t), ViewOf(p'.w.t), RowKeys(log), EdgeKeys(log), FileIds(log))
  {
    hide AgreeOff, Write, Ready;
    if vs == [] {
      SelfAgrees(ViewOf(p.w.t), VisitChanges(cfg, f, vs));
    } else {
      var n := |vs| - 1;
      PartialRunAgrees(cfg, f, p, vs[..n], answers[..n]);
      var r := UpsertAll(cfg, f, p, vs[..n], answers[..n]);
      var log, init := VisitChanges(cfg, f, vs), VisitChanges(cfg, f, vs[..n]);
      VisitChangesPrefix(cfg, f, vs, n);
      LogSets(log);
      AgreeWiden(ViewOf(p.w.t), ViewOf(r.state.w.t), RowKeys(init), EdgeKeys(init), FileIds(init), RowKeys(log), EdgeKeys(log), FileIds(log));
      if r.status == Done {
        UpsertOneAgrees(cfg, f, r.state, vs[n], answers[n]);
        var p' := UpsertOne(cfg, f, r.state, vs[n], answers[n]).state;
        var c := [VisitChange(cfg, f, vs[n])];
        AgreeWiden(ViewOf(r.state.w.t), ViewOf(p'.w.t), RowKeys(c), EdgeKeys(c), FileIds(c), RowKeys(log), EdgeKeys(log), FileIds(log));
        AgreeChain(ViewOf(p.w.t), ViewOf(r.state.w.t), ViewOf(p'.w.t), RowKeys(log), EdgeKeys(log), FileIds(log));
      }
    }
  }

  lemma {:induction false} SelfAgrees(v: View, log: seq<Change>)
    ensures AgreeOff(v, v, RowKeys(log), EdgeKeys(log), FileIds(log))
  {
  }

  lemma {:induction false} UpsertOneAgrees(cfg: Config, f: Filter, p: Proc, v: Visit, a: WriteAnswer)
    requires Ready(p)
    ensures var p' := UpsertOne(cfg, f, p, v, a).state;
      var c := [VisitChange(cfg, f, v)];
      Ready(p') && AgreeOff(ViewOf(p.w.t), ViewOf(p'.w.t), RowKeys(c), EdgeKeys(c), FileIds(c))
  {
    hide AgreeOff, Write, Ready;
    if SubtypePersisted(f, v.m.subtype) && RowOf(v.channel, v.m).Some? {
      var row := RowOf(v.channel, v.m).value;
      var refs := if cfg.filesOn then Some(v.m.files) else None;
      UpsertAgrees(cfg, p, Key(v.channel, v.m.ts), row, refs, a);
      WriteKeepsReady(cfg, p, Upsert(Key(v.channel, v.m.ts), row), refs, a);
    } else {
      SelfAgrees(ViewOf(p.w.t), [VisitChange(cfg, f, v)]);
    }
  }

  // ---- a run that succeeds ----

  /** A run that returns without an error makes exactly the changes of its plan. */
  lemma {:induction false} FullRunReplays(cfg: Config, f: Filter, p: Proc, vs: seq<Visit>, answers: seq<WriteAnswer>)
    requires Ready(p) && |vs| == |answers| && UpsertAll(cfg, f, p, vs, answers).status == Done
    ensures ViewOf(UpsertAll(cfg, f, p, vs, answers).state.w.t) == Replay(ViewOf(p.w.t), VisitChanges(cfg, f, vs))
  {
    hide Write, Ready;
    if vs != [] {
      var n := |vs| - 1;
      FullRunReplays(cfg, f, p, vs[..n], answers[..n]);
      PartialRunAgrees(cfg, f, p, vs[..n], answers[..n]);
      VisitChangesPrefix(cfg, f, vs, n);
      UpsertOneReplays(cfg, f, UpsertAll(cfg, f, p, vs[..n], answers[..n]).state, vs[n], answers[n]);
    }
  }

  lemma {:induction false} UpsertOneReplays(cfg: Config, f: Filter, p: Proc, v: Visit, a: WriteAnswer)
    requires Ready(p) && UpsertOne(cfg, f, p, v, a).status == Done
    ensures ViewOf(UpsertOne(cfg, f, p, v, a).state.w.t) == Change1(ViewOf(p.w.t), VisitChange(cfg, f, v))
  {
    hide Write, Ready;
    if SubtypePersisted(f, v.m.subtype) {
      WriteMakesChange(cfg, p, Upsert(Key(v.channel, v.m.ts), RowOf(v.channel, v.m).value),
                       if cfg.filesOn then Some(v.m.files) else None, a);
    }
  }

  predicate IsRow(f: Filter, v: Visit) {
    SubtypePersisted(f, v.m.subtype) ==> v.channel != "" && RowOf(v.channel, v.m).Some?
  }

  lemma {:induction false} UpsertOneQuiet(cfg: Config, f: Filter, p: Proc, v: Visit, a: WriteAnswer)
    requires Ready(p) && IsRow(f, v) && Quiet(a)
    ensures UpsertOne(cfg, f, p, v, a).status == Done
  {
    hide Write, Ready, Quiet;
    if SubtypePersisted(f, v.m.subtype) {
      QuietCompletes(cfg, p, Upsert(Key(v.channel, v.m.ts), RowOf(v.channel, v.m).value), if cfg.filesOn then Some(v.m.files) else None, a);
    }
  }

  /** Without database faults a run fails only at a persisted message that cannot be a row. */
  lemma {:induction false} QuietRunSucceeds(cfg: Config, f: Filter, p: Proc, vs: seq<Visit>, answers: seq<WriteAnswer>)
    requires Ready(p) && |vs| == |answers| && (forall a :: a in answers ==> Quiet(a)) && forall v :: v in vs ==> IsRow(f, v)
    ensures UpsertAll(cfg, f, p, vs, answers).status == Done
  {
    hide UpsertOne, Ready, Quiet, IsRow, AgreeOff;
    if vs != [] {
      var n := |vs| - 1;
      QuietRunSucceeds(cfg, f, p, vs[..n], answers[..n]);
      PartialRunAgrees(cfg, f, p, vs[..n], answers[..n]);
      UpsertOneQuiet(cfg, f, UpsertAll(cfg, f, p, vs[..n], answers[..n]).state, vs[n], answers[n]);
    }
  }

  // ---- aborted and run again ----

  /** Attempts at a plan, each by a new process and each stopped after some prefix. */
  function Attempts(cfg: Config, f: Filter, p: Proc, plan: seq<Visit>, attempts: seq<seq<WriteAnswer>>): Proc
    requires forall a :: a in attempts ==> |a| <= |plan|
  {
    if attempts == [] then p
    else
      var last := attempts[|attempts| - 1];
      var before := Attempts(cfg, f, p, plan, attempts[..|attempts| - 1]);
      Mirror.Restart(UpsertAll(cfg, f, before, plan[..|last|], last).state)
  }

  /** However often a plan was begun and given up, the store differs from where it started
      only where the plan writes. */
  lemma {:induction false} AttemptsAgree(cfg: Config, f: Filter, p: Proc, plan: seq<Visit>, attempts: seq<seq<WriteAnswer>>)
    requires Ready(p) && forall a :: a in attempts ==> |a| <= |plan|
    ensures var p' := Attempts(cfg, f, p, plan, attempts);
      var log := VisitChanges(cfg, f, plan);
      Ready(p') && AgreeOff(ViewOf(p.w.t), ViewOf(p'.w.t), RowKeys(log), EdgeKeys(log), FileIds(log))
  {
    hide AgreeOff, UpsertAll;
    var log := VisitChanges(cfg, f, plan);
    if attempts == [] {
      SelfAgrees(ViewOf(p.w.t), log);
    } else {
      var k := |attempts| - 1;
      var last := attempts[k];
      AttemptsAgree(cfg, f, p, plan, attempts[..k]);
      var before := Attempts(cfg, f, p, plan, attempts[..k]);
      var n := |last|;
      PartialRunAgrees(cfg, f, before, plan[..n], last);
      VisitChangesPrefix(cfg, f, plan, n);
      var after, part := UpsertAll(cfg, f, before, plan[..n], last).state, VisitChanges(cfg, f, plan[..n]);
      assert forall c :: c in part ==> c in log;
      AgreeWiden(ViewOf(before.w.t), ViewOf(after.w.t), RowKeys(part), EdgeKeys(part), FileIds(part), RowKeys(log), EdgeKeys(log), FileIds(log));
      AgreeChain(ViewOf(p.w.t), ViewOf(before.w.t), ViewOf(after.w.t), RowKeys(log), EdgeKeys(log), FileIds(log));
    }
  }

  /** Abort a plan any number of times, anywhere and with any faults; once it is run again
      and returns without an error, rows, edges and files are those of one uninterrupted run
      that returns without an error. */
  lemma {:induction false} RestartedRunAgrees(cfg: Config, f: Filter, p: Proc, plan: seq<Visit>, attempts: seq<seq<WriteAnswer>>,
                           again: seq<WriteAnswer>, once: seq<WriteAnswer>)
    requires Ready(p) && |again| == |once| == |plan| && forall a :: a in attempts ==> |a| <= |plan|
    requires UpsertAll(cfg, f, Attempts(cfg, f, p, plan, attempts), plan, again).status == Done
    requires UpsertAll(cfg, f, p, plan, once).status == Done
    ensures var t := UpsertAll(cfg, f, Attempts(cfg, f, p, plan, attempts), plan, again).state.w.t;
      var t' := UpsertAll(cfg, f, p, plan, once).state.w.t;
      t.messages == t'.messages && t.edges == t'.edges && t.files.Keys == t'.files.Keys
  {
    hide AgreeOff, Ready, UpsertAll, Attempts;
    var half, log := Attempts(cfg, f, p, plan, attempts), VisitChanges(cfg, f, plan);
    AttemptsAgree(cfg, f, p, plan, attempts);
    VisitChangesPrefix(cfg, f, plan, 0);
    ReplayHides(ViewOf(p.w.t), ViewOf(half.w.t), log);
    FullRunReplays(cfg, f, half, plan, again);
    FullRunReplays(cfg, f, p, plan, once);
    PartialRunAgrees(cfg, f, half, plan, again);
    PartialRunAgrees(cfg, f, p, plan, once);
    SameViewSameFiles(UpsertAll(cfg, f, half, plan, again).state, UpsertAll(cfg, f, p, plan, once).state);
  }

  lemma {:induction false} SameViewSameFiles(p: Proc, p': Proc)
    requires Ready(p) && Ready(p') && ViewOf(p.w.t) == ViewOf(p'.w.t)
    ensures p.w.t.files.Keys == p'.w.t.files.Keys
  {
    var t, t' := p.w.t, p'.w.t;
    forall id ensures id in t.files <==> id in t'.files {
      assert id in Leftovers(t) <==> id in Leftovers(t');
      assert Linked(t.edges, id) <==> Linked(t'.edges, id);
    }
  }

  /** The same of the command: run it any number of times, whatever comes of it, and then
      once more; and run it once over the store as it was at first. If those two runs return
      without an error, they leave the same rows, edges and files. */
  method ResumeAgrees(store: Store, downloader: D.Downloader, store': Store, downloader': D.Downloader, filter: Filter,
                      serves: string -> Workspace, outcome: nat -> nat -> Status, answer: nat -> nat -> WriteAnswer,
                      channels: seq<string>, k: nat, ghost n: string -> nat, ghost len: string -> string -> nat)
    returns (s: Status, s': Status)
    requires downloader.store == store && downloader'.store == store' && downloader.cfg == downloader'.cfg
    requires store.On() == store'.On() == downloader.cfg.filesOn
    requires store.Db() != store'.Db() && store.Bucket() != store'.Bucket()
    requires store.World() == store'.World() && Ready(Proc(store.World(), {}, {})) && Finite(serves, channels, n, len)
    modifies store.Db(), store.Bucket(), store'.Db(), store'.Bucket()
    ensures s == s' == Done ==>
      var t, t' := store.World().t, store'.World().t;
      t.messages == t'.messages && t.edges == t'.edges && t.files.Keys == t'.files.Keys
  {
    hide Finite, SeedPlan, UpsertAll, Ready;
    ghost var plan, p := SeedPlan(serves, channels, n, len), Proc(store.World(), {}, {});
    ghost var attempts: seq<seq<WriteAnswer>> := [];
    ghost var again, once;
    for i := 0 to k
      invariant (forall a :: a in attempts ==> |a| <= |plan|) && store'.World() == p.w
      invariant Proc(store.World(), {}, {}) == Attempts(downloader.cfg, filter, p, plan, attempts)
    {
      s, again := RunBackfill(store, downloader, filter, serves, outcome(i), answer(i), channels, n, len);
      assert (attempts + [again])[..|attempts|] == attempts;
      attempts := attempts + [again];
    }
    s, again := RunBackfill(store, downloader, filter, serves, outcome(k), answer(k), channels, n, len);
    s', once := RunBackfill(store', downloader', filter, serves, outcome(k + 1), answer(k + 1), channels, n, len);
    if s == s' == Done {
      assert plan[..|plan|] == plan;
      RestartedRunAgrees(downloader.cfg, filter, p, plan, attempts, again, once);
    }
  }

  // ---- a backfill as part of a run ----

  function SeedTurns(vs: seq<Visit>, answers: seq<WriteAnswer>): seq<Turn>
    requires |vs| == |answers|
  {
    seq(|vs|, i requires 0 <= i < |vs| => Seed(vs[i], answers[i]))
  }

  lemma {:induction false} VisitTurn(cfg: Config, f: Filter, p: Proc, v: Visit, a: WriteAnswer)
    ensures Take(cfg, f, p, Seed(v, a)) == Over(UpsertOne(cfg, f, p, v, a))
    ensures UpsertOne(cfg, f, p, v, a).status == Done ==> Completes(cfg, f, p, Seed(v, a))
    ensures DeliveredChange(cfg, f, Seed(v, a)) == VisitChange(cfg, f, v)
  {
    hide Write, RowOf;
  }

  /** Visiting messages up to the first that fails is a run of turns; if none fails, every
      write of those turns completes. */
  lemma {:induction false} SeedIsTurns(cfg: Config, f: Filter, log: seq<Turn>, vs: seq<Visit>, answers: seq<WriteAnswer>)
    requires |vs| == |answers|
    requires vs == [] || UpsertAll(cfg, f, Served(cfg, f, log), vs[..|vs| - 1], answers[..|vs| - 1]).status == Done
    ensures var r, turns := UpsertAll(cfg, f, Served(cfg, f, log), vs, answers), log + SeedTurns(vs, answers);
      && Served(cfg, f, turns) == Over(r)
      && (r.status == Done && RunCompletes(cfg, f, log) ==> RunCompletes(cfg, f, turns))
  {
    hide UpsertOne, Take, Completes;
    if vs == [] {
      assert log + SeedTurns(vs, answers) == log;
    } else {
      var n := |vs| - 1;
      var turns := log + SeedTurns(vs, answers);
      assert turns[..|turns| - 1] == log + SeedTurns(vs[..n], answers[..n]);
      assert n == 0 || UpsertAll(cfg, f, Served(cfg, f, log), vs[..n][..n - 1], answers[..n][..n - 1]).status == Done;
      SeedIsTurns(cfg, f, log, vs[..n], answers[..n]);
      VisitTurn(cfg, f, Served(cfg, f, turns[..|turns| - 1]), vs[n], answers[n]);
    }
  }

  lemma {:induction false} SeedChanges(cfg: Config, f: Filter, vs: seq<Visit>, answers: seq<WriteAnswer>)
    requires |vs| == |answers|
    ensures DeliveredChanges(cfg, f, SeedTurns(vs, answers)) == VisitChanges(cfg, f, vs)
  {
    hide DeliveredChange, VisitChange, UpsertOne;
    forall i | 0 <= i < |vs| ensures DeliveredChange(cfg, f, SeedTurns(vs, answers)[i]) == VisitChange(cfg, f, vs[i]) {
      VisitTurn(cfg, f, FRESH, vs[i], answers[i]);
    }
  }

  /** Seeding over whatever a run captured before: afterwards the store mirrors the changes
      of that run followed by the visited messages. */
  lemma {:induction false} BackfillMirrors(cfg: Config, f: Filter, log: seq<Turn>, plan: seq<Visit>, answers: seq<WriteAnswer>)
    requires RunCompletes(cfg, f, log) && |plan| == |answers|
    requires UpsertAll(cfg, f, Served(cfg, f, log), plan, answers).status == Done
    ensures Mirrors(ViewOf(UpsertAll(cfg, f, Served(cfg, f, log), plan, answers).state.w.t),
                    DeliveredChanges(cfg, f, log) + VisitChanges(cfg, f, plan))
  {
    hide UpsertOne, DeliveredChange, VisitChange, RunCompletes, Mirrors;
    var turns := log + SeedTurns(plan, answers);
    SeedIsTurns(cfg, f, log, plan, answers);
    SeedChanges(cfg, f, plan, answers);
    ChangesConcat(cfg, f, log, SeedTurns(plan, answers));
    ServedReplays(cfg, f, turns);
    ReplayMirrors(DeliveredChanges(cfg, f, turns));
  }
}
