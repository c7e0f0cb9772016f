/** What a backfill makes of one message of a channel's history, and how its row compares
    with the one captured live. */
module History {
  import opened Model
  import opened Mirror
  import opened Dispatcher
  import opened Timestamps
  import opened FloatTime

  function FirstNonEmpty(a: string, b: string): string { if a != "" then a else b }

  /** The row a history message becomes: instants go through the float converter. */
  function RowOf(channelId: string, m: Msg): Option<MessageRow> {
    var posted := ParseTs(m.ts);
    if posted.None? then None
    else Some(MessageRow(
      channelId, m.ts, m.threadTs, FirstNonEmpty(m.user, m.botId), m.text, m.subtype,
      posted.value, EditedAt(m.editedTs, ParseTs)))
  }

  predicate Edited(m: Msg) { m.editedTs.Some? && m.editedTs.value != "" }

  /** Two instants of one second, at most 120 ns apart. */
  predicate Near(a: Time, b: Time) { a.sec == b.sec && -120 <= a.nsec - b.nsec <= 120 }

  /** A stamp in Slack's format. */
  ghost predicate Stamp(ts: string) { exists s, f :: SlackTs(s, f) && ts == s + "." + f }

  lemma {:induction false} StampConverts(ts: string)
    requires Stamp(ts)
    ensures TimeOf(ts).Some? && ParseTs(ts).Some? && Near(ParseTs(ts).value, TimeOf(ts).value)
  {
    var s, f :| SlackTs(s, f) && ts == s + "." + f;
    FloatBound(s, f);
  }

  /** The live row and the backfilled row of one message differ only in the instants, and
      in those by at most 120 ns. */
  lemma {:induction false} LiveAndBackfillAgree(channelId: string, m: Msg)
    requires Stamp(m.ts) && (Edited(m) ==> Stamp(m.editedTs.value))
    ensures MessageToRow(channelId, m).Some? && RowOf(channelId, m).Some?
    ensures var live, back := MessageToRow(channelId, m).value, RowOf(channelId, m).value;
      && back == live.(postedAt := back.postedAt, editedAt := back.editedAt)
      && Near(back.postedAt, live.postedAt)
      && (back.editedAt.Some? <==> live.editedAt.Some?)
      && (live.editedAt.Some? ==> Near(back.editedAt.value, live.editedAt.value))
  {
    hide TimeOf, ParseTs, Stamp;
    StampConverts(m.ts);
    if Edited(m) { StampConverts(m.editedTs.value); }
  }

  /** A stamp both converters read as the same instant: its microseconds times 2^22 are,
      or are just below, a multiple of 10^6. */
  ghost predicate SameInstant(ts: string) {
    exists s, f :: SlackTs(s, f) && ts == s + "." + f
      && ((Val(f) * UNITS) % 1_000_000 == 0 || (Val(f) * UNITS) % 1_000_000 >= 995_806)
  }

  lemma {:induction false} SameInstantExact(ts: string)
    requires Stamp(ts)
    ensures ParseTs(ts) == TimeOf(ts) <==> SameInstant(ts)
  {
    var s, f :| SlackTs(s, f) && ts == s + "." + f;
    AgreeExactly(s, f);
    if SameInstant(ts) {
      var s', f' :| SlackTs(s', f') && ts == s' + "." + f'
        && ((Val(f') * UNITS) % 1_000_000 == 0 || (Val(f') * UNITS) % 1_000_000 >= 995_806);
      AgreeExactly(s', f');
    }
  }

  /** On SQLite, whose columns keep nanoseconds, backfilling a message that was captured live
      leaves its row exactly as it was only when its stamps are such. */
  lemma {:induction false} BackfillRewritesRow(channelId: string, m: Msg)
    requires Stamp(m.ts) && (Edited(m) ==> Stamp(m.editedTs.value))
    ensures RowOf(channelId, m) == MessageToRow(channelId, m) <==>
      SameInstant(m.ts) && (Edited(m) ==> SameInstant(m.editedTs.value))
  {
    LiveAndBackfillAgree(channelId, m);
    SameInstantExact(m.ts);
    if Edited(m) { SameInstantExact(m.editedTs.value); }
  }

  // ---- in columns that keep microseconds ----

  /** What a Postgres TIMESTAMPTZ column keeps of an instant. */
  function Micros(t: Time): Time { t.(nsec := t.nsec / 1000 * 1000) }

  /** The row as Postgres keeps it. */
  function PgRow(row: MessageRow): MessageRow {
    row.(postedAt := Micros(row.postedAt),
         editedAt := if row.editedAt.Some? then Some(Micros(row.editedAt.value)) else None)
  }

  /** Where float64 puts the microseconds: r > 0 counts how far m·2^22 is above a multiple of
      10^6. The step below it is nearer when r < 500000, and then a microsecond is lost. */
  ghost predicate Kept(f: string)
    requires AllDigits(f)
  {
    var r := (Val(f) * UNITS) % 1_000_000;
    r == 0 || r > 500_000
  }

  ghost predicate SameMicros(ts: string) { exists s, f :: SlackTs(s, f) && ts == s + "." + f && Kept(f) }

  lemma {:induction false} FloorBelow(q: int, m: nat, d: int)
    requires q * 1_000_000 == m * UNITS + d && -UNITS <= d < UNITS && q >= 0
    ensures q * NANOS / UNITS / 1000 == if d >= 0 then m else m - 1
  {
    var n := q * NANOS / UNITS;
    var c := if d >= 0 then m else m - 1;
    assert n * UNITS <= q * NANOS < (n + 1) * UNITS;
    assert q * NANOS == 1000 * (m * UNITS + d);
    assert 1000 * c * UNITS <= q * NANOS < 1000 * (c + 1) * UNITS;
    assert 1000 * c <= n < 1000 * (c + 1);
  }

  /** The remainder is a multiple of 64, so it is never just half a microsecond. */
  lemma {:induction false} NeverHalf(m: nat)
    ensures (m * UNITS) % 1_000_000 != 500_000
  {
    var q, r := m * UNITS / 1_000_000, m * UNITS % 1_000_000;
    assert r == 64 * (m * 65_536 - q * 15_625);
  }

  lemma {:induction false} MicrosOfSteps(m: nat)
    requires m < 1_000_000
    ensures var r := (m * UNITS) % 1_000_000;
      Steps(m) * NANOS / UNITS / 1000 == if r == 0 || r > 500_000 then m else m - 1
  {
    StepsNear(m);
    hide Steps;
    NeverHalf(m);
    var d := Steps(m) * 1_000_000 - m * UNITS;
    FloorBelow(Steps(m), m, d);
    NearestMultiple(m * UNITS, Steps(m), d);
  }

  /** In microseconds the converters agree on exactly these stamps; on every other the float
      converter is one microsecond early. */
  lemma {:induction false} MicrosExact(s: string, f: string)
    requires SlackTs(s, f)
    ensures TimeOf(s + "." + f).Some? && ParseTs(s + "." + f).Some?
    ensures var exact, float := Micros(TimeOf(s + "." + f).value), Micros(ParseTs(s + "." + f).value);
      && float.sec == exact.sec && float.nsec == exact.nsec - if Kept(f) then 0 else 1000
  {
    hide TimeOf, ParseTs, Val, Steps;
    TimeOfValue(s, f);
    ParseTsValue(s, f);
    MicrosOfSteps(Val(f));
    CutToMicros(Val(s), 1000 * Val(f));
    CutToMicros(Val(s), Steps(Val(f)) * NANOS / UNITS);
  }

  lemma {:induction false} CutToMicros(sec: int, nsec: int)
    ensures Micros(Time(sec, nsec)) == Time(sec, nsec / 1000 * 1000)
  {
  }

  lemma {:induction false} NearestMultiple(x: nat, q: int, d: int)
    requires d == q * 1_000_000 - x && -500_000 <= d <= 500_000 && x % 1_000_000 != 500_000
    ensures d >= 0 <==> x % 1_000_000 == 0 || x % 1_000_000 > 500_000
  {
    assert x == 1_000_000 * (x / 1_000_000) + x % 1_000_000;
  }

  lemma {:induction false} SameMicrosExact(ts: string)
    requires Stamp(ts)
    ensures TimeOf(ts).Some? && ParseTs(ts).Some?
    ensures var exact, float := Micros(TimeOf(ts).value), Micros(ParseTs(ts).value);
      && float.sec == exact.sec && float.nsec == exact.nsec - if SameMicros(ts) then 0 else 1000
  {
    var s, f :| SlackTs(s, f) && ts == s + "." + f;
    MicrosExact(s, f);
    if SameMicros(ts) {
      var s', f' :| SlackTs(s', f') && ts == s' + "." + f' && Kept(f');
      MicrosExact(s', f');
    }
  }

  /** `back` is `live`, or one microsecond earlier, as `same` says. */
  predicate LosesMicro(back: Time, live: Time, same: bool) {
    back == live.(nsec := live.nsec - if same then 0 else 1000)
  }

  /** On Postgres more rows survive: the row a backfill stores is the one captured live if and
      only if its stamps keep their microseconds; the instants of the others move back by
      exactly one microsecond. */
  lemma {:induction false} PgBackfillRewritesRow(channelId: string, m: Msg)
    requires Stamp(m.ts) && (Edited(m) ==> Stamp(m.editedTs.value))
    ensures MessageToRow(channelId, m).Some? && RowOf(channelId, m).Some?
    ensures var live, back := PgRow(MessageToRow(channelId, m).value), PgRow(RowOf(channelId, m).value);
      && (back == live <==> SameMicros(m.ts) && (Edited(m) ==> SameMicros(m.editedTs.value)))
      && back == live.(postedAt := back.postedAt, editedAt := back.editedAt)
      && LosesMicro(back.postedAt, live.postedAt, SameMicros(m.ts))
      && (back.editedAt.Some? <==> Edited(m)) && (live.editedAt.Some? <==> Edited(m))
      && (Edited(m) ==> LosesMicro(back.editedAt.value, live.editedAt.value, SameMicros(m.editedTs.value)))
  {
    hide TimeOf, ParseTs, SameMicros, Stamp, Near, Micros;
    LiveAndBackfillAgree(channelId, m);
    SameMicrosExact(m.ts);
    if Edited(m) { SameMicrosExact(m.editedTs.value); }
  }

  /** The two backends differ: three microseconds past a second are kept by Postgres only. */
  lemma {:induction false} OnlyPostgresKeeps(s: string)
    requires SlackTs(s, "000003")
    ensures SameMicros(s + "." + "000003") && !SameInstant(s + "." + "000003")
  {
    ZerosVal(5);
    DigitVal('3');
    ValConcat(Zeros(5), "3");
    assert "000003" == Zeros(5) + "3";
    AgreeExactly(s, "000003");
    SameInstantExact(s + "." + "000003");
  }

  // ---- visiting a message ----

  /** A message to be upserted under a channel. */
  datatype Visit = Visit(channel: string, m: Msg)

  /** Upserting one message; messages of a subtype that is not persisted are passed over. */
  function UpsertOne(cfg: Config, f: Filter, p: Proc, v: Visit, a: WriteAnswer): Run<Proc> {
    if !SubtypePersisted(f, v.m.subtype) then Run(p, Done)
    else
      var row := RowOf(v.channel, v.m);
      if row.None? then Run(p, Err)
      else Write(cfg, p, Action.Upsert(Key(v.channel, v.m.ts), row.value), if cfg.filesOn then Some(v.m.files) else None, a)
  }

  /** The action and the refs a visit writes. */
  function VisitAction(f: Filter, v: Visit): Option<Action> {
    if !SubtypePersisted(f, v.m.subtype) then Some(Action.Skip)
    else
      var row := RowOf(v.channel, v.m);
      if row.None? then None else Some(Action.Upsert(Key(v.channel, v.m.ts), row.value))
  }

  function VisitRefs(cfg: Config, v: Visit): Option<seq<FileRef>> { if cfg.filesOn then Some(v.m.files) else None }

  /** The first visits of a plan one after the other, stopping at the first failure. */
  function UpsertAll(cfg: Config, f: Filter, p: Proc, vs: seq<Visit>, answers: seq<WriteAnswer>): Run<Proc>
    requires |vs| == |answers|
  {
    if vs == [] then Run(p, Done)
    else
      var n := |vs| - 1;
      var r := UpsertAll(cfg, f, p, vs[..n], answers[..n]);
      if r.status != Done then r else UpsertOne(cfg, f, r.state, vs[n], answers[n])
  }
}
