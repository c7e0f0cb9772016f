/** A run of the program: message events handled, and messages of the history visited, one
    after the other by one process at a time, with a new process after each crash and
    whenever one is started. */
module Serve {
  import opened Model
  import opened Tables
  import opened Mirror
  import opened Safety
  import opened Dispatcher
  import opened History
  import opened Timestamps
  import opened FloatTime

  /** One delivered event: the event, the message parsed from the raw payload (None when
      it does not parse), and what the world answers while it is handled. */
  datatype Delivery = Delivery(ev: MessageEvent, payload: Option<Msg>, a: WriteAnswer)

  function FileMsg(ev: MessageEvent, payload: Option<Msg>): Option<Msg> {
    if ev.subtype == CHANGED then ev.message else payload
  }

  function Refs(cfg: Config, ev: MessageEvent, payload: Option<Msg>): Option<seq<FileRef>> {
    var m := FileMsg(ev, payload);
    if cfg.filesOn && m.Some? then Some(m.value.files) else None
  }

  /** A failing file handler is only logged; a failing dispatch or write is an error. */
  function HandleMessage(cfg: Config, f: Filter, p: Proc, d: Delivery): Run<Proc> {
    var act := Dispatch(d.ev.channel, d.ev, f);
    if act.None? then Run(p, Err)
    else
      var refs := Refs(cfg, d.ev, d.payload);
      var w := Write(cfg, p, act.value, refs, d.a);
      var applied := Apply(p, cfg.filesOn, act.value, d.a).status;
      Run(w.state, if applied == Done && w.status == Err then Done else w.status)
  }

  /** What happens next: the consumer is delivered an event, a backfill visits a message, or
      a new process takes over (a redeploy, or the end of one command and the start of the
      other). */
  datatype Turn = Deliver(d: Delivery) | Seed(v: Visit, answer: WriteAnswer) | Redeploy

  /** The action a turn writes, if any, the refs its file handler gets, and what it meets. */
  function ActionOf(f: Filter, turn: Turn): (act: Option<Action>)
    ensures act.Some? ==> !turn.Redeploy?
  {
    match turn
    case Deliver(d) => Dispatch(d.ev.channel, d.ev, f)
    case Seed(v, _) => VisitAction(f, v)
    case Redeploy => None
  }

  function RefsOf(cfg: Config, turn: Turn): Option<seq<FileRef>> {
    match turn
    case Deliver(d) => Refs(cfg, d.ev, d.payload)
    case Seed(v, _) => VisitRefs(cfg, v)
    case Redeploy => None
  }

  function AnswerOf(turn: Turn): WriteAnswer
    requires !turn.Redeploy?
  {
    match turn case Deliver(d) => d.a case Seed(_, a) => a
  }

  /** After a crash a new process takes over, too. */
  function Take(cfg: Config, f: Filter, p: Proc, turn: Turn): Proc {
    match turn
    case Redeploy => Restart(p)
    case Deliver(d) => Over(HandleMessage(cfg, f, p, d))
    case Seed(v, a) => Over(UpsertOne(cfg, f, p, v, a))
  }

  function Over(r: Run<Proc>): Proc { if r.status == Crashed then Restart(r.state) else r.state }

  /** A turn without an action leaves the world alone; any other does what its write does. */
  lemma {:induction false} TakeWrites(cfg: Config, f: Filter, p: Proc, turn: Turn)
    ensures var act, p' := ActionOf(f, turn), Take(cfg, f, p, turn);
      if act.None? then p' == p || p' == Restart(p)
      else
        var r := Write(cfg, p, act.value, RefsOf(cfg, turn), AnswerOf(turn));
        p' == r.state || p' == Restart(r.state)
  {
    hide DeleteMessage, EnsureRows, Handle, Dispatch, RowOf;
  }

  lemma {:induction false} ActionKeyed(f: Filter, turn: Turn)
    requires ActionOf(f, turn).Some?
    ensures WellKeyed(ActionOf(f, turn).value)
  {
    if turn.Deliver? { DispatchKeys(turn.d.ev, f); }
  }

  function Served(cfg: Config, f: Filter, log: seq<Turn>): Proc {
    if log == [] then FRESH
    else
      var n := |log| - 1;
      Take(cfg, f, Served(cfg, f, log[..n]), log[n])
  }

  lemma {:induction false} TakeKeepsSound(cfg: Config, f: Filter, p: Proc, turn: Turn)
    requires Sound(p)
    ensures Sound(Take(cfg, f, p, turn))
  {
    hide Take, Write, ActionOf, Safe;
    TakeWrites(cfg, f, p, turn);
    var act := ActionOf(f, turn);
    if act.Some? {
      ActionKeyed(f, turn);
      WriteKeepsSound(cfg, p, act.value, RefsOf(cfg, turn), AnswerOf(turn));
    }
  }

  /** Whatever fails and wherever the process stops, every state of a run is safe and
      the resolver remembers only rows that exist. */
  lemma {:induction false} ServedIsSound(cfg: Config, f: Filter, log: seq<Turn>)
    ensures Sound(Served(cfg, f, log))
  {
    if log != [] {
      var n := |log| - 1;
      ServedIsSound(cfg, f, log[..n]);
      TakeKeepsSound(cfg, f, Served(cfg, f, log[..n]), log[n]);
    }
  }

  /** Once recorded, an address stays on the row until the row is collected, and then the
      collecting transaction hands it over. */
  lemma {:induction false} AddressesRemembered(cfg: Config, f: Filter, log: seq<Turn>, turn: Turn)
    ensures var p, act := Served(cfg, f, log), ActionOf(f, turn);
      Remembers(p.w, Served(cfg, f, log + [turn]).w,
                if act.Some? then Handed(p.w.t, act.value, RefsOf(cfg, turn)) else {})
  {
    hide Take, Write, ActionOf, Sound, Handed;
    ServedIsSound(cfg, f, log);
    var p, act := Served(cfg, f, log), ActionOf(f, turn);
    assert (log + [turn])[..|log|] == log;
    TakeWrites(cfg, f, p, turn);
    if act.Some? {
      ActionKeyed(f, turn);
      WriteKeepsSound(cfg, p, act.value, RefsOf(cfg, turn), AnswerOf(turn));
    }
  }

  // ---- what the messages table holds ----

  /** What the consumer's rows owe to the filter and to their own timestamp. */
  ghost predicate TableFits(f: Filter, t: Tables) {
    forall k :: k in t.messages ==> RowFits(f, k, t.messages[k])
  }

  /** What any row does: a backfill does not ask whether the channel is allowed, and it takes
      the instant from the float converter. */
  predicate RowPlaced(f: Filter, k: Key, row: MessageRow) {
    && SubtypePersisted(f, row.subtype) && row.channelId == k.channel && row.ts == k.ts
    && (TimeOf(k.ts) == Some(row.postedAt) || ParseTs(k.ts) == Some(row.postedAt))
  }

  ghost predicate TablePlaced(f: Filter, t: Tables) {
    forall k :: k in t.messages ==> RowPlaced(f, k, t.messages[k])
  }

  lemma {:induction false} ActionPlaced(f: Filter, turn: Turn)
    requires ActionOf(f, turn).Some? && ActionOf(f, turn).value.Upsert?
    ensures RowPlaced(f, ActionOf(f, turn).value.key, ActionOf(f, turn).value.message)
    ensures turn.Deliver? ==> RowFits(f, ActionOf(f, turn).value.key, ActionOf(f, turn).value.message)
  {
    hide TimeOf, ParseTs, ChannelAllowed, SubtypePersisted;
    if turn.Deliver? { DispatchKeys(turn.d.ev, f); }
  }

  lemma {:induction false} TakeStores(cfg: Config, f: Filter, log: seq<Turn>)
    requires log != [] && ActionOf(f, log[|log| - 1]).Some?
    ensures OnlyStores(Served(cfg, f, log[..|log| - 1]).w.t, Served(cfg, f, log).w.t, ActionOf(f, log[|log| - 1]).value)
  {
    hide Take, Write, ActionOf, Sound;
    var n := |log| - 1;
    var p := Served(cfg, f, log[..n]);
    ServedIsSound(cfg, f, log[..n]);
    TakeWrites(cfg, f, p, log[n]);
    ActionKeyed(f, log[n]);
    WriteMessages(cfg, p, ActionOf(f, log[n]).value, RefsOf(cfg, log[n]), AnswerOf(log[n]));
  }

  /** In every run each stored row has a persisted subtype, sits under its own timestamp and
      carries that timestamp's instant as one of the two converters reads it. */
  lemma {:induction false} ServedTablePlaced(cfg: Config, f: Filter, log: seq<Turn>)
    ensures TablePlaced(f, Served(cfg, f, log).w.t)
  {
    hide Take, ActionOf, RowPlaced;
    if log != [] {
      var n := |log| - 1;
      ServedTablePlaced(cfg, f, log[..n]);
      TakeWrites(cfg, f, Served(cfg, f, log[..n]), log[n]);
      var act := ActionOf(f, log[n]);
      if act.Some? {
        TakeStores(cfg, f, log);
        if act.value.Upsert? { ActionPlaced(f, log[n]); }
      }
    }
  }

  /** While nothing is backfilled, each is moreover in an allowed channel and carries the
      exact instant. */
  lemma {:induction false} ServedTableFits(cfg: Config, f: Filter, log: seq<Turn>)
    requires forall turn :: turn in log ==> !turn.Seed?
    ensures TableFits(f, Served(cfg, f, log).w.t)
  {
    hide Take, ActionOf, RowFits;
    if log != [] {
      var n := |log| - 1;
      ServedTableFits(cfg, f, log[..n]);
      TakeWrites(cfg, f, Served(cfg, f, log[..n]), log[n]);
      var act := ActionOf(f, log[n]);
      if act.Some? {
        TakeStores(cfg, f, log);
        if act.value.Upsert? { ActionPlaced(f, log[n]); }
      }
    }
  }
}
