/** One message in a run in which anything may fail: what its row and edges are depends
    only on the writes to that message. */
module LastWord {
  import opened Model
  import opened Tables
  import opened Mirror
  import opened Safety
  import opened Changes
  import opened Refinement
  import opened Agreement
  import opened Dispatcher
  import opened Serve

  /** What the tables hold of one message. */
  function EntryAt(t: Tables, k: Key): Entry {
    if k in t.messages then Present(t.messages[k], FilesOf(EdgesOf(t.edges, k))) else Absent
  }

  lemma {:induction false} DeleteLeavesOthers(w: World, on: bool, key: Key, a: TxAnswer, k: Key)
    requires k != key
    ensures EntryAt(DeleteMessage(w, on, key, a).state.t, k) == EntryAt(w.t, k)
  {
  }

  lemma {:induction false} AgreedEntry(t: Tables, t': Tables, c: Change, k: Key)
    requires AgreeOff(ViewOf(t), ViewOf(t'), RowKeys([c]), EdgeKeys([c]), FileIds([c])) && !Concerns(c, k)
    ensures EntryAt(t', k) == EntryAt(t, k)
  {
  }

  /** A write to another message leaves this one alone, whatever it meets. */
  lemma {:induction false} WriteLeavesOthers(cfg: Config, p: Proc, act: Action, refs: Option<seq<FileRef>>, a: WriteAnswer, k: Key)
    requires Ready(p) && WellKeyed(act) && !Concerns(ChangeOf(act, refs), k)
    ensures EntryAt(Write(cfg, p, act, refs, a).state.w.t, k) == EntryAt(p.w.t, k)
  {
    hide EntryAt, DeleteMessage, Handle, Ready;
    match act {
      case Skip =>
      case Delete(key) => DeleteLeavesOthers(p.w, cfg.filesOn, key, a.tx, k);
      case Upsert(key, row) =>
        hide Write, AgreeOff;
        UpsertAgrees(cfg, p, key, row, refs, a);
        AgreedEntry(p.w.t, Write(cfg, p, act, refs, a).state.w.t, ChangeOf(act, refs), k);
    }
  }

  /** A change takes the message's entry one step. */
  lemma {:induction false} ChangeStepsEntry(t: Tables, t': Tables, c: Change, k: Key)
    requires ViewOf(t') == Change1(ViewOf(t), c) && Concerns(c, k) && Integrity(t)
    ensures EntryAt(t', k) == Step(EntryAt(t, k), c)
  {
    if c.Put? {
      forall id ensures id in FilesOf(EdgesOf(t'.edges, k)) <==> id in FilesIn(Step(EntryAt(t, k), c)) {
        HasEdge(t', k, id);
        HasEdge(t, k, id);
      }
    }
  }

  lemma {:induction false} HasEdge(t: Tables, k: Key, id: string)
    ensures id in FilesOf(EdgesOf(t.edges, k)) <==> Edge(k, id) in t.edges
  {
    if Edge(k, id) in t.edges { assert Edge(k, id) in EdgesOf(t.edges, k); }
  }

  lemma {:induction false} TurnAt(cfg: Config, f: Filter, p: Proc, turn: Turn, k: Key)
    requires Ready(p)
    ensures var c, t' := DeliveredChange(cfg, f, turn), Take(cfg, f, p, turn).w.t;
      && (!Concerns(c, k) ==> EntryAt(t', k) == EntryAt(p.w.t, k))
      && (Concerns(c, k) && Completes(cfg, f, p, turn) ==> EntryAt(t', k) == Step(EntryAt(p.w.t, k), c))
  {
    hide Write, Take, ActionOf, Ready, EntryAt;
    var c, act := DeliveredChange(cfg, f, turn), ActionOf(f, turn);
    TakeWrites(cfg, f, p, turn);
    if act.Some? {
      ActionKeyed(f, turn);
      if Concerns(c, k) {
        if Completes(cfg, f, p, turn) {
          TurnMakesChange(cfg, f, p, turn);
          ReadyIntegrity(p);
          ChangeStepsEntry(p.w.t, Take(cfg, f, p, turn).w.t, c, k);
        }
      } else {
        WriteLeavesOthers(cfg, p, act.value, RefsOf(cfg, turn), AnswerOf(turn), k);
      }
    }
  }

  lemma {:induction false} ReadyIntegrity(p: Proc)
    requires Ready(p)
    ensures Integrity(p.w.t)
  {
  }

  /** The writes to `k` complete, from the last one that settles it on. */
  predicate Heard(cfg: Config, f: Filter, log: seq<Turn>, k: Key) {
    log == [] ||
      var n := |log| - 1;
      var c := DeliveredChange(cfg, f, log[n]);
      if !Concerns(c, k) then Heard(cfg, f, log[..n], k)
      else Completes(cfg, f, Served(cfg, f, log[..n]), log[n]) && (Settles(c, k) || Heard(cfg, f, log[..n], k))
  }

  /** Then the message's row and edges are exactly what its last change says, whatever failed
      before that, whatever fails for other messages, and wherever the process stopped. */
  lemma {:induction false} LastWordHolds(cfg: Config, f: Filter, log: seq<Turn>, k: Key)
    requires Heard(cfg, f, log, k)
    ensures EntryAt(Served(cfg, f, log).w.t, k) == Latest(DeliveredChanges(cfg, f, log), k)
  {
    hide Take, DeliveredChange, Completes, Ready;
    if log != [] {
      var n := |log| - 1;
      ServedReady(cfg, f, log[..n]);
      TurnAt(cfg, f, Served(cfg, f, log[..n]), log[n], k);
      var c := DeliveredChange(cfg, f, log[n]);
      assert DeliveredChanges(cfg, f, log)[..n] == DeliveredChanges(cfg, f, log[..n]);
      if !Settles(c, k) { LastWordHolds(cfg, f, log[..n], k); }
    }
  }

  /** In a run whose writes complete, that is so of every message. */
  lemma {:induction false} CompletedIsHeard(cfg: Config, f: Filter, log: seq<Turn>, k: Key)
    requires RunCompletes(cfg, f, log)
    ensures Heard(cfg, f, log, k)
  {
    hide DeliveredChange, Served, Write, ActionOf;
    if log != [] { CompletedIsHeard(cfg, f, log[..|log| - 1], k); }
  }
}
