/** The live loop's handling of one event. */
module Consumer {
  import opened Model
  import opened Tables
  import opened Backend
  import opened Dispatcher
  import D = Downloader
  import R = Resolver
  import S = Serve
  import Mirror

  method Apply(store: Store, r: R.Resolver, act: Action, a: WriteAnswer) returns (s: Status, ghost d: set<Uri>)
    requires r.store == store
    modifies r, store.Db(), store.Bucket()
    ensures Run(r.Proc(), s) == Mirror.Apply(old(r.Proc()), store.On(), act, a.(tx := a.tx.(deleted := d)))
  {
    d := {};
    match act {
      case Skip => s := Done;
      case Delete(key) => s, d := store.DeleteMessage(key, a.tx);
      case Upsert(key, row) =>
        s := r.EnsureChannel(key.channel, a.meta);
        if s != Done { return; }
        s := r.EnsureUser(row.userId, a.meta);
        if s != Done { return; }
        s := store.UpsertMessage(row, a.message);
    }
  }

  class Consumer {
    const store: Store
    const resolver: R.Resolver
    const filter: Filter
    const downloader: D.Downloader
    var eventsProcessed: nat
    var writeErrors: nat

    constructor (store: Store, resolver: R.Resolver, filter: Filter, downloader: D.Downloader)
      ensures this.store == store && this.resolver == resolver && this.filter == filter
      ensures this.downloader == downloader && eventsProcessed == writeErrors == 0
    {
      this.store, this.resolver, this.filter, this.downloader := store, resolver, filter, downloader;
      eventsProcessed, writeErrors := 0, 0;
    }

    /** The store, the resolver and the downloader are wired to one database. */
    predicate Wired() {
      resolver.store == store && downloader.store == store && downloader.cfg.filesOn == store.On()
    }

    /** A failed write is counted; an event the dispatcher rejects is not. */
    function WriteFailure(ev: MessageEvent): nat { if Dispatch(ev.channel, ev, filter).Some? then 1 else 0 }

    method HandleMessage(ev: MessageEvent, payload: Option<Msg>, a: WriteAnswer) returns (s: Status, ghost d: set<Uri>)
      requires Wired()
      modifies this, resolver, store.Db(), store.Bucket()
      ensures Run(resolver.Proc(), s)
           == S.HandleMessage(downloader.cfg, filter, old(resolver.Proc()),
                              S.Delivery(ev, payload, a.(tx := a.tx.(deleted := d))))
      ensures s == Done ==> eventsProcessed == old(eventsProcessed) + 1 && writeErrors == old(writeErrors)
      ensures s == Err ==> eventsProcessed == old(eventsProcessed) && writeErrors == old(writeErrors) + WriteFailure(ev)
    {
      d := {};
      var act := Dispatch(ev.channel, ev, filter);
      if act.None? { return Err, d; }
      s, d := Apply(store, resolver, act.value, a);
      if s != Done {
        writeErrors := writeErrors + 1;
        return;
      }
      eventsProcessed := eventsProcessed + 1;
      if store.On() && act.value.Upsert? {
        var m := S.FileMsg(ev, payload);
        if m.Some? {
          s, d := downloader.Handle(act.value.key, m.value.files, a);
          if s == Err { s := Done; }   // only logged
        }
      }
    }

    /** The event loop: one message after the other, going on after an error, until the
        events run out or the process stops. `before` is what was served so far and `met`
        the turns of this run as they went. */
    method RunLoop(events: seq<S.Delivery>, ghost before: seq<S.Turn>) returns (crashed: bool, ghost met: seq<S.Turn>)
      requires Wired() && resolver.Proc() == S.Served(downloader.cfg, filter, before)
      modifies this, resolver, store.Db(), store.Bucket()
      ensures |met| <= |events| && (!crashed ==> |met| == |events|)
      ensures forall i :: 0 <= i < |met| ==> SameDelivery(met[i], events[i])
      ensures store.World() == S.Served(downloader.cfg, filter, before + met).w
      ensures !crashed ==> resolver.Proc() == S.Served(downloader.cfg, filter, before + met)
    {
      hide S.HandleMessage;
      met := [];
      assert before + met == before;
      for i := 0 to |events|
        invariant |met| == i && forall j :: 0 <= j < i ==> SameDelivery(met[j], events[j])
        invariant resolver.Proc() == S.Served(downloader.cfg, filter, before + met)
      {
        var e := events[i];
        var s;
        ghost var d;
        s, d := HandleMessage(e.ev, e.payload, e.a);
        ghost var now := S.Deliver(S.Delivery(e.ev, e.payload, e.a.(tx := e.a.tx.(deleted := d))));
        assert (before + (met + [now]))[..|before + met|] == before + met;
        met := met + [now];
        if s == Crashed { return true, met; }
      }
      crashed := false;
    }

    /** The delivery as the events gave it, up to the hint about blobs already gone. */
    ghost predicate SameDelivery(met: S.Turn, e: S.Delivery) {
      met.Deliver? && e == met.d.(a := met.d.a.(tx := met.d.a.tx.(deleted := e.a.tx.deleted)))
    }
  }
}
