/** The pure mapping from a Slack message event to an action. */
module Dispatcher {
  import opened Model
  import opened Mirror
  import opened Timestamps

  /** A canonical Slack message: the inner message of an edit, or one of a history page. */
  datatype Msg = Msg(
    user: string, botId: string, text: string, ts: string, threadTs: string, subtype: string,
    editedTs: Option<string>, replyCount: int, files: seq<FileRef>)

  datatype MessageEvent = MessageEvent(
    channel: string, user: string, botId: string, text: string, ts: string, threadTs: string,
    subtype: string, deletedTs: string, message: Option<Msg>)

  datatype Filter = Filter(
    allow: map<string, bool>, deny: map<string, bool>, persist: map<string, bool>, skip: map<string, bool>)

  predicate ChannelAllowed(f: Filter, id: string) {
    !Has(f.deny, id) && (|f.allow| == 0 || Has(f.allow, id))
  }

  predicate SubtypePersisted(f: Filter, subtype: string) {
    subtype == "" || (!Has(f.skip, subtype) && (|f.persist| == 0 || Has(f.persist, subtype)))
  }

  /** The instant of an edit stamp, when there is one that converts. */
  function EditedAt(stamp: Option<string>, convert: string -> Option<Time>): Option<Time> {
    if stamp.Some? && stamp.value != "" then convert(stamp.value) else None
  }

  /** None: the message's own timestamp does not convert. */
  function MessageToRow(channelId: string, m: Msg): Option<MessageRow> {
    var posted := TimeOf(m.ts);
    if posted.None? then None
    else Some(MessageRow(
      channelId, m.ts, m.threadTs,
      if m.user == "" && m.botId != "" then m.botId else m.user,
      m.text, m.subtype, posted.value, EditedAt(m.editedTs, TimeOf)))
  }

  function MsgFromEvent(ev: MessageEvent): Msg {
    Msg(ev.user, ev.botId, ev.text, ev.ts, ev.threadTs, ev.subtype, None, 0, [])
  }

  const CHANGED := "message_changed"
  const DELETED := "message_deleted"

  function UpsertOf(channelId: string, m: Msg, f: Filter): Option<Action> {
    if !SubtypePersisted(f, m.subtype) then Some(Skip)
    else
      var row := MessageToRow(channelId, m);
      if row.None? then None else Some(Upsert(Key(channelId, m.ts), row.value))
  }

  /** None: the event is rejected with an error. */
  function Dispatch(channelId: string, ev: MessageEvent, f: Filter): Option<Action> {
    if !ChannelAllowed(f, channelId) then Some(Skip)
    else if ev.subtype == DELETED then Some(Delete(Key(channelId, ev.deletedTs)))
    else if ev.subtype == CHANGED then
      if ev.message.None? then Some(Skip) else UpsertOf(channelId, ev.message.value, f)
    else UpsertOf(channelId, MsgFromEvent(ev), f)
  }

  /** What a stored row owes to the filter and to its own timestamp. */
  predicate RowFits(f: Filter, k: Key, row: MessageRow) {
    && ChannelAllowed(f, k.channel) && SubtypePersisted(f, row.subtype)
    && row.channelId == k.channel && row.ts == k.ts && TimeOf(k.ts) == Some(row.postedAt)
  }

  /** An upsert is keyed by the stored message's own timestamp (for an edit, the inner
      one), never by the event's; a delete by the deleted message's. */
  lemma {:induction false} DispatchKeys(ev: MessageEvent, f: Filter)
    requires Dispatch(ev.channel, ev, f).Some?
    ensures match Dispatch(ev.channel, ev, f).value
      case Skip => true
      case Delete(k) => k == Key(ev.channel, ev.deletedTs) && ev.subtype == DELETED && ChannelAllowed(f, ev.channel)
      case Upsert(k, row) =>
        && RowFits(f, k, row)
        && k == Key(ev.channel, if ev.subtype == CHANGED then ev.message.value.ts else ev.ts)
        && row.text == (if ev.subtype == CHANGED then ev.message.value.text else ev.text)
  {
  }
}
