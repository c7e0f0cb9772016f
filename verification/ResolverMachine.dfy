/** Any number of writers sharing one resolver: each call is split into its check, fetch,
    upsert and mark steps, the lock being held only around the cache accesses, and the
    steps of different callers interleave freely. */
module ResolverMachine {
  import opened Model
  import Mirror

  /** Where a caller stands. The first four steps are EnsureChannel, the next four
      EnsureUser; Storing is about to insert the message row. */
  datatype Pc =
    | CheckChannel | FetchChannel | UpsertChannel | MarkChannel
    | CheckUser | FetchUser | UpsertUser | MarkUser
    | Storing | Saved | GaveUp | ForeignKeyError

  datatype Caller = Caller(channel: string, user: string, pc: Pc)

  /** `channels` and `users` are the rows; the seen sets are the in-process caches. */
  datatype State = State(
    channels: set<string>, users: set<string>,
    seenChannels: set<string>, seenUsers: set<string>, callers: seq<Caller>)

  const INIT := State({}, {}, {}, {}, [])

  /** What happens next: a new write arrives, caller i takes a step (`o` answers its
      statement, if it has one), or the process is replaced by a new one. */
  datatype Step = Arrive(channel: string, user: string) | Advance(i: nat, o: Outcome) | Restart

  function AfterUpsert(o: Outcome, next: Pc): Pc { if o == Ok then next else GaveUp }

  /** One step of a caller: the rows and caches after it, and where the caller then stands. */
  function StepOf(s: State, c: Caller, o: Outcome): (State, Pc) {
    match c.pc
    case CheckChannel =>
      (s, if c.channel == "" || c.channel in s.seenChannels then CheckUser else FetchChannel)
    case FetchChannel => (s, UpsertChannel)       // a failed API call only loses the name
    case UpsertChannel =>
      (if TakesEffect(o) then s.(channels := s.channels + {c.channel}) else s, AfterUpsert(o, MarkChannel))
    case MarkChannel => (s.(seenChannels := s.seenChannels + {c.channel}), CheckUser)
    case CheckUser =>
      (s, if c.user == "" || c.user in s.seenUsers then Storing else FetchUser)
    case FetchUser => (s, UpsertUser)
    case UpsertUser =>
      (if TakesEffect(o) then s.(users := s.users + {c.user}) else s, AfterUpsert(o, MarkUser))
    case MarkUser => (s.(seenUsers := s.seenUsers + {c.user}), Storing)
    case Storing => (s, if c.channel !in s.channels then ForeignKeyError else AfterUpsert(o, Saved))
    case _ => (s, c.pc)
  }

  function AdvanceCaller(s: State, i: nat, o: Outcome): State
    requires i < |s.callers|
  {
    var r := StepOf(s, s.callers[i], o);
    r.0.(callers := s.callers[i := s.callers[i].(pc := r.1)])
  }

  function Next(s: State, step: Step): State {
    match step
    case Arrive(channel, user) => s.(callers := s.callers + [Caller(channel, user, CheckChannel)])
    case Advance(i, o) => if i < |s.callers| then AdvanceCaller(s, i, o) else s
    case Restart => State(s.channels, s.users, {}, {}, [])
  }

  function After(steps: seq<Step>): State {
    if steps == [] then INIT else Next(After(steps[..|steps| - 1]), steps[|steps| - 1])
  }

  /** EnsureChannel has returned nil to this caller. */
  predicate ChannelEnsured(pc: Pc) {
    pc.CheckUser? || pc.FetchUser? || pc.UpsertUser? || pc.MarkUser? || pc.Storing? || pc.Saved?
  }
  /** Both ensure calls have returned nil. */
  predicate UserEnsured(pc: Pc) { pc.Storing? || pc.Saved? }

  ghost predicate CallerOk(s: State, c: Caller) {
    && ((ChannelEnsured(c.pc) || c.pc.MarkChannel?) && c.channel != "" ==> c.channel in s.channels)
    && ((UserEnsured(c.pc) || c.pc.MarkUser?) && c.user != "" ==> c.user in s.users)
    && (c.pc.MarkChannel? || c.pc.FetchChannel? || c.pc.UpsertChannel? ==> c.channel != "")
    && (c.pc.MarkUser? || c.pc.FetchUser? || c.pc.UpsertUser? ==> c.user != "")
    && (c.pc.ForeignKeyError? ==> c.channel == "")
    && (c.pc.Saved? ==> c.channel in s.channels)
  }

  /** The caches hold only ids whose rows exist, and every nil return for a non-empty id
      is backed by its row. */
  ghost predicate Inv(s: State) {
    && s.seenChannels <= s.channels && s.seenUsers <= s.users
    && forall i :: 0 <= i < |s.callers| ==> CallerOk(s, s.callers[i])
  }

  /** A step only adds rows, remembers only rows, and leaves the caller with its own. */
  lemma {:induction false} StepKeeps(s: State, c: Caller, o: Outcome)
    requires CallerOk(s, c) && s.seenChannels <= s.channels && s.seenUsers <= s.users
    ensures var r := StepOf(s, c, o);
      && CallerOk(r.0, c.(pc := r.1))
      && s.channels <= r.0.channels && s.users <= r.0.users
      && r.0.seenChannels <= r.0.channels && r.0.seenUsers <= r.0.users
  {
  }

  lemma {:induction false} NextKeepsInv(s: State, step: Step)
    requires Inv(s)
    ensures Inv(Next(s, step))
  {
    if step.Advance? && step.i < |s.callers| {
      hide StepOf;
      StepKeeps(s, s.callers[step.i], step.o);
      var s' := Next(s, step);
      forall i | 0 <= i < |s'.callers| ensures CallerOk(s', s'.callers[i]) {
        assert CallerOk(s, s.callers[i]);
      }
    }
  }

  lemma {:induction false} InvHolds(steps: seq<Step>)
    ensures Inv(After(steps))
  {
    if steps != [] {
      InvHolds(steps[..|steps| - 1]);
      NextKeepsInv(After(steps[..|steps| - 1]), steps[|steps| - 1]);
    }
  }

  /** In every interleaving, with any failures and restarts: seen ids have rows, a caller
      past its ensure calls has its rows, a saved message has its channel's, and no insert of a message with a channel is
      refused by the foreign key. */
  lemma {:induction false} ResolverSound(steps: seq<Step>, i: nat)
    requires i < |After(steps).callers|
    ensures var s := After(steps);
      var c := s.callers[i];
      && s.seenChannels <= s.channels && s.seenUsers <= s.users
      && (ChannelEnsured(c.pc) && c.channel != "" ==> c.channel in s.channels)
      && (UserEnsured(c.pc) && c.user != "" ==> c.user in s.users)
      && (c.pc.ForeignKeyError? ==> c.channel == "")
      && (c.pc.Saved? ==> c.channel in s.channels)
  {
    InvHolds(steps);
    assert CallerOk(After(steps), After(steps).callers[i]);
  }

  /** A new process keeps the rows and nothing else. */
  lemma {:induction false} RestartForgets(steps: seq<Step>)
    ensures var s, s' := After(steps), After(steps + [Restart]);
      && s'.channels == s.channels && s'.users == s.users
      && s'.seenChannels == {} && s'.seenUsers == {} && s'.callers == []
  {
    assert (steps + [Restart])[..|steps|] == steps;
  }

  /** EnsureChannel by one caller with nobody else moving. */
  function EnsureAlone(s: State, i: nat, o: Outcome): State
    requires i < |s.callers| && s.callers[i].pc.CheckChannel?
  {
    var checked := AdvanceCaller(s, i, o);
    if checked.callers[i].pc.CheckUser? then checked
    else
      var upserted := AdvanceCaller(AdvanceCaller(checked, i, o), i, o);
      if upserted.callers[i].pc.GaveUp? then upserted else AdvanceCaller(upserted, i, o)
  }

  /** Left alone, a caller does what the sequential specification says. */
  lemma {:induction false} AloneIsSequential(s: State, i: nat, p: Mirror.Proc, a: MetaAnswer)
    requires i < |s.callers| && s.callers[i].pc.CheckChannel? && a.channelUpsert != Crash
    requires s.seenChannels == p.channels && s.channels == p.w.t.channels.Keys
    ensures var s' := EnsureAlone(s, i, a.channelUpsert);
      var r := Mirror.EnsureChannel(p, s.callers[i].channel, a);
      && s'.seenChannels == r.state.channels && s'.channels == r.state.w.t.channels.Keys
      && (s'.callers[i].pc.CheckUser? <==> r.status == Done)
      && (s'.callers[i].pc.GaveUp? <==> r.status == Err)
  {
  }

  /** EnsureUser by one caller with nobody else moving. */
  function EnsureUserAlone(s: State, i: nat, o: Outcome): State
    requires i < |s.callers| && s.callers[i].pc.CheckUser?
  {
    var checked := AdvanceCaller(s, i, o);
    if checked.callers[i].pc.Storing? then checked
    else
      var upserted := AdvanceCaller(AdvanceCaller(checked, i, o), i, o);
      if upserted.callers[i].pc.GaveUp? then upserted else AdvanceCaller(upserted, i, o)
  }

  lemma {:induction false} UserAloneIsSequential(s: State, i: nat, p: Mirror.Proc, a: MetaAnswer)
    requires i < |s.callers| && s.callers[i].pc.CheckUser? && a.userUpsert != Crash
    requires s.seenUsers == p.users && s.users == p.w.t.users.Keys
    ensures var s' := EnsureUserAlone(s, i, a.userUpsert);
      var r := Mirror.EnsureUser(p, s.callers[i].user, a);
      && s'.seenUsers == r.state.users && s'.users == r.state.w.t.users.Keys
      && (s'.callers[i].pc.Storing? <==> r.status == Done)
      && (s'.callers[i].pc.GaveUp? <==> r.status == Err)
  {
  }
}
