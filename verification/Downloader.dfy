/** Brings one message's files up to date: reconcile, record, link, download. */
module Downloader {
  import opened Model
  import opened Tables
  import opened Database
  import opened Backend
  import Mirror

  class Downloader {
    const store: Store
    const cfg: Mirror.Config

    constructor (store: Store, cfg: Mirror.Config)
      ensures this.store == store && this.cfg == cfg
    {
      this.store, this.cfg := store, cfg;
    }

    method Handle(key: Key, refs: seq<FileRef>, a: WriteAnswer) returns (s: Status, ghost d: set<Uri>)
      requires cfg.filesOn == store.On()
      modifies store.Db(), store.Bucket()
      ensures Run(store.World(), s)
           == Mirror.Handle(cfg, old(store.World()), key, refs, a.(tx := a.tx.(deleted := d)))
    {
      hide Mirror.HandleRef, Mirror.Reconcile;
      var keep: seq<string> := [];
      for i := 0 to |refs|
        invariant |keep| == i && forall j :: 0 <= j < i ==> keep[j] == refs[j].id
      {
        keep := keep + [refs[i].id];
      }
      SameIds(keep, refs);
      s, d := store.ReconcileMessageFiles(key, keep, a.tx);
      if s != Done { return; }
      ghost var w1 := store.World();
      for i := 0 to |refs|
        invariant Run(store.World(), Done) == Mirror.HandleRefs(cfg, w1, key, refs, i, a.refs)
      {
        s := HandleRef(key, refs[i], a.refs(i));
        assert Run(store.World(), s) == Mirror.HandleRefs(cfg, w1, key, refs, i + 1, a.refs);
        if s != Done {
          StoppedAt(cfg, w1, key, refs, i + 1, |refs|, a.refs);
          return;
        }
      }
      s := Done;
    }

    /** One iteration of the loop over refs. */
    method HandleRef(key: Key, ref: FileRef, a: RefAnswer) returns (s: Status)
      modifies store.Db(), store.Bucket()
      ensures Run(store.World(), s) == Mirror.HandleRef(cfg, old(store.World()), key, ref, a)
    {
      s := store.UpsertFile(ref.id, FileRow(ref.meta, None, None, Pending), a.upsert);
      if s != Done { return; }
      s := store.LinkFile(key, ref.id, a.link);
      if s != Done { return; }
      if Skip(ref) {
        s := store.SetFileState(ref.id, Skipped, a.state);   // the error is dropped
        s := if s == Crashed then Crashed else Done;
        return;
      }
      s := Download(ref, a);
      if s == Err {
        s := store.SetFileState(ref.id, Failed, a.state);    // the error is dropped
        s := if s == Crashed then Crashed else Done;
      }
    }

    predicate Skip(ref: FileRef)
      ensures Skip(ref) <==> Mirror.SkipsDownload(cfg, ref)
    {
      if ref.meta.isExternal || ref.urlDownload == "" then true
      else if cfg.maxBytes > 0 && ref.meta.size > cfg.maxBytes then true
      else if |cfg.mimeAllow| > 0 && !Mirror.Has(cfg.mimeAllow, ref.meta.mimetype) then true
      else false
    }

    method Download(ref: FileRef, a: RefAnswer) returns (s: Status)
      modifies store.Db(), store.Bucket()
      ensures Run(store.World(), s) == Mirror.Download(cfg, old(store.World()), ref.id, a)
    {
      match a.http {
        case NoResponse => return Err;
        case HttpCrash => return Crashed;
        case Response(code, body) =>
          if code != 200 { return Err; }
          var uri;
          s, uri := store.Bucket().Put(ref.id, body, a.put);
          if s != Done { return; }
          s := store.SetFileStored(ref.id, uri, cfg.hash(body), a.stored);
      }
    }
  }

  // ---- what the two limits mean ----

  /** A type list that allows no type at all. */
  ghost predicate AllowsNone(allow: map<string, bool>) { |allow| > 0 && forall k :: !Mirror.Has(allow, k) }

  /** The second size limit admits every size the first does; a limit that is not positive
      admits all. */
  predicate WiderLimit(max: int, max': int) { max' <= 0 || 0 < max <= max' }

  /** The second type list allows every type the first does; an empty list allows all. */
  ghost predicate WiderList(allow: map<string, bool>, allow': map<string, bool>) {
    |allow'| == 0 || (|allow| > 0 && forall k :: Mirror.Has(allow, k) ==> Mirror.Has(allow', k))
  }

  /** Changing the configuration never stops a file from being downloaded exactly when both
      limits are at least as wide, or nothing was downloaded in the first place. */
  lemma {:induction false} ReconfigureExact(cfg: Mirror.Config, cfg': Mirror.Config)
    ensures (forall ref :: Mirror.SkipsDownload(cfg', ref) ==> Mirror.SkipsDownload(cfg, ref))
       <==> AllowsNone(cfg.mimeAllow) || (WiderLimit(cfg.maxBytes, cfg'.maxBytes) && WiderList(cfg.mimeAllow, cfg'.mimeAllow))
  {
    if !AllowsNone(cfg.mimeAllow) {
      if !WiderLimit(cfg.maxBytes, cfg'.maxBytes) {
        var mime: string :| |cfg.mimeAllow| > 0 ==> Mirror.Has(cfg.mimeAllow, mime);
        var ref := Candidate(mime, if cfg.maxBytes > 0 then cfg.maxBytes else cfg'.maxBytes + 1);
        assert Mirror.SkipsDownload(cfg', ref) && !Mirror.SkipsDownload(cfg, ref);
      }
      if !WiderList(cfg.mimeAllow, cfg'.mimeAllow) {
        var mime := Unlisted(cfg'.mimeAllow.Keys);
        if |cfg.mimeAllow| > 0 {
          mime :| Mirror.Has(cfg.mimeAllow, mime) && !Mirror.Has(cfg'.mimeAllow, mime);
        }
        var ref := Candidate(mime, 0);
        assert Mirror.SkipsDownload(cfg', ref) && !Mirror.SkipsDownload(cfg, ref);
      }
    }
  }

  function Candidate(mime: string, size: int): FileRef {
    FileRef("F", FileMeta("", "", mime, "", size, "", "", false), "https://files.slack.com/F")
  }

  /** A string longer than every member of the set. */
  ghost function Unlisted(s: set<string>): (x: string)
    ensures |x| > 0 && (forall y :: y in s ==> |y| < |x|) && x !in s
  {
    if s == {} then "?"
    else
      var y :| y in s;
      var x := Unlisted(s - {y}) + y + "?";
      assert forall z :: z in s ==> z == y || z in s - {y};
      x
  }

  lemma {:induction false} SameIds(keep: seq<string>, refs: seq<FileRef>)
    requires |keep| == |refs| && forall j :: 0 <= j < |refs| ==> keep[j] == refs[j].id
    ensures Elems(keep) == Mirror.Ids(refs)
  {
  }

  /** Once a ref fails the remaining ones are not looked at. */
  lemma {:induction false} StoppedAt(cfg: Mirror.Config, w: Mirror.World, key: Key, refs: seq<FileRef>, n: nat, m: nat, env: nat -> RefAnswer)
    requires n <= m <= |refs| && Mirror.HandleRefs(cfg, w, key, refs, n, env).status != Done
    ensures Mirror.HandleRefs(cfg, w, key, refs, m, env) == Mirror.HandleRefs(cfg, w, key, refs, n, env)
    decreases m
  {
    hide Mirror.HandleRef;
    if n < m { StoppedAt(cfg, w, key, refs, n, m - 1, env); }
  }
}
