/** Makes sure the channel and user rows exist before a message refers to them, and
    remembers in process which it has seen. */
module Resolver {
  import opened Model
  import opened Tables
  import opened Backend
  import Mirror

  class Resolver {
    const store: Store
    var channels: set<string>
    var users: set<string>

    constructor (store: Store)
      ensures this.store == store && channels == {} && users == {}
    {
      this.store, channels, users := store, {}, {};
    }

    ghost function Proc(): Mirror.Proc
      reads this, store.Db(), store.Bucket()
    {
      Mirror.Proc(store.World(), channels, users)
    }

    method EnsureChannel(id: string, a: MetaAnswer) returns (s: Status)
      modifies this, store.Db()
      ensures Run(Proc(), s) == Mirror.EnsureChannel(old(Proc()), id, a)
    {
      if id == "" || id in channels { return Done; }
      var c := Channel("", false);
      if a.channelInfo.Some? { c := a.channelInfo.value; }
      s := store.UpsertChannel(id, c, a.channelUpsert);
      if s != Done { return; }   // not marked: the next message retries
      channels := channels + {id};
    }

    method EnsureUser(id: string, a: MetaAnswer) returns (s: Status)
      modifies this, store.Db()
      ensures Run(Proc(), s) == Mirror.EnsureUser(old(Proc()), id, a)
    {
      if id == "" || id in users { return Done; }
      var u := User("", "", false);
      if a.userInfo.Some? { u := a.userInfo.value; }
      s := store.UpsertUser(id, u, a.userUpsert);
      if s != Done { return; }
      users := users + {id};
    }
  }
}
