/** The visible SQL state and each statement as a function on it. A statement that
    would violate a key or foreign-key constraint yields None. */
module Tables {
  import opened Model

  datatype Tables = Tables(
    channels: map<string, Channel>, users: map<string, User>,
    messages: map<Key, MessageRow>, files: map<string, FileRow>, edges: set<Edge>)

  const EMPTY := Tables(map[], map[], map[], map[], {})

  // ---- statements ----

  function PutChannel(t: Tables, id: string, c: Channel): Option<Tables> {
    Some(t.(channels := t.channels[id := c]))
  }

  function PutUser(t: Tables, id: string, u: User): Option<Tables> {
    Some(t.(users := t.users[id := u]))
  }

  function RowKey(m: MessageRow): Key { Key(m.channelId, m.ts) }

  function PutMessage(t: Tables, m: MessageRow): Option<Tables> {
    if m.channelId in t.channels then Some(t.(messages := t.messages[RowKey(m) := m])) else None
  }

  /** `ON CONFLICT (id)` leaves storage_uri, sha256 and download_state alone. */
  function PutFile(t: Tables, id: string, row: FileRow): Option<Tables> {
    Some(t.(files := t.files[id := if id in t.files then t.files[id].(meta := row.meta) else row]))
  }

  function Link(t: Tables, e: Edge): Option<Tables> {
    if e.key in t.messages && e.file in t.files then Some(t.(edges := t.edges + {e})) else None
  }

  /** `UPDATE … WHERE id = …` on a missing row changes nothing and succeeds. */
  function SetStored(t: Tables, id: string, uri: Uri, sha: string): Option<Tables> {
    Some(if id !in t.files then t else
         t.(files := t.files[id := t.files[id].(storageUri := Some(uri), sha256 := Some(sha), state := Stored)]))
  }

  function SetState(t: Tables, id: string, st: DownloadState): Option<Tables> {
    Some(if id !in t.files then t else t.(files := t.files[id := t.files[id].(state := st)]))
  }

  /** Deleting a message cascades to its edges. */
  function DropMessage(t: Tables, key: Key): Tables {
    t.(messages := t.messages - {key}, edges := t.edges - EdgesOf(t.edges, key))
  }

  function DropEdges(t: Tables, gone: set<Edge>): Tables { t.(edges := t.edges - gone) }

  /** A file row that an edge still references cannot be deleted. */
  function DropFiles(t: Tables, ids: set<string>): Option<Tables> {
    if exists e :: e in t.edges && e.file in ids && e.file in t.files then None else Some(t.(files := t.files - ids))
  }

  // ---- queries ----

  function EdgesOf(edges: set<Edge>, key: Key): set<Edge> { set e | e in edges && e.key == key }

  function EdgesNotKept(edges: set<Edge>, key: Key, keep: set<string>): set<Edge> {
    set e | e in edges && e.key == key && e.file !in keep
  }

  function FilesOf(edges: set<Edge>): set<string> { set e | e in edges :: e.file }

  predicate Linked(edges: set<Edge>, id: string) { exists e :: e in edges && e.file == id }

  /** `id = ANY(candidates) AND NOT EXISTS (an edge to it)`. */
  function Orphans(t: Tables, candidates: set<string>): set<string> {
    set id | id in candidates && id in t.files && !Linked(t.edges, id)
  }

  function UrisOf(files: map<string, FileRow>, ids: set<string>): set<Uri> {
    set id | id in ids && id in files && files[id].storageUri.Some? :: files[id].storageUri.value
  }

  // ---- the two garbage-collecting transactions ----

  /** New tables, and the addresses of the blobs whose rows were collected. */
  datatype Collected = Collected(tables: Tables, uris: set<Uri>)

  function Collect(t: Tables, candidates: set<string>): Collected {
    var ids := Orphans(t, candidates);
    Collected(t.(files := t.files - ids), UrisOf(t.files, ids))
  }

  function DeleteTx(t: Tables, key: Key): Collected {
    Collect(DropMessage(t, key), FilesOf(EdgesOf(t.edges, key)))
  }

  function ReconcileTx(t: Tables, key: Key, keep: set<string>): Collected {
    var gone := EdgesNotKept(t.edges, key, keep);
    Collect(DropEdges(t, gone), FilesOf(gone))
  }

  // ---- invariants ----

  /** Every foreign key resolves, and a row sits under its own key. */
  ghost predicate Integrity(t: Tables) {
    && (forall e :: e in t.edges ==> e.key in t.messages && e.file in t.files)
    && (forall k :: k in t.messages ==> k.channel in t.channels && RowKey(t.messages[k]) == k)
  }

  /** A statement is refused exactly when its result would break a foreign key. */
  lemma {:induction false} ForeignKeysExact(t: Tables, m: MessageRow, e: Edge, ids: set<string>)
    requires Integrity(t)
    ensures PutMessage(t, m).Some? <==> Integrity(t.(messages := t.messages[RowKey(m) := m]))
    ensures Link(t, e).Some? <==> Integrity(t.(edges := t.edges + {e}))
    ensures DropFiles(t, ids).Some? <==> Integrity(t.(files := t.files - ids))
  {
    var t' := t.(files := t.files - ids);
    if DropFiles(t, ids).None? {
      var x :| x in t.edges && x.file in ids && x.file in t.files;
      assert x in t'.edges;
    }
    assert e in t.(edges := t.edges + {e}).edges;
    assert RowKey(m) in t.messages[RowKey(m) := m];
  }

  ghost predicate NoOrphans(t: Tables) { forall id :: id in t.files ==> Linked(t.edges, id) }

  // ---- candidate-limited collection against a full mark and sweep ----

  function MarkAndSweep(t: Tables): Tables {
    t.(files := map id | id in t.files && id in FilesOf(t.edges) :: t.files[id])
  }

  lemma {:induction false} LinkedIsMarked(edges: set<Edge>, id: string)
    ensures Linked(edges, id) <==> id in FilesOf(edges)
  {
  }

  /** Only rows named by `candidates` are examined; that is as good as examining every
      row exactly when each row outside `candidates` has an edge. */
  lemma {:induction false} CollectIsSweep(t: Tables, candidates: set<string>)
    ensures Collect(t, candidates).tables == MarkAndSweep(t)
       <==> (forall id :: id in t.files && id !in candidates ==> Linked(t.edges, id))
  {
    var c, m := Collect(t, candidates).tables, MarkAndSweep(t);
    forall id ensures Linked(t.edges, id) <==> id in FilesOf(t.edges) { LinkedIsMarked(t.edges, id); }
    assert forall id :: id in m.files <==> id in t.files && Linked(t.edges, id);
    assert forall id :: id in c.files <==> id in t.files && (id in candidates ==> Linked(t.edges, id));
    if forall id :: id in t.files && id !in candidates ==> Linked(t.edges, id) {
      assert c.files == m.files;
    } else {
      var id :| id in t.files && id !in candidates && !Linked(t.edges, id);
      assert id in c.files && id !in m.files;
    }
  }

  lemma {:induction false} DeleteIsSweep(t: Tables, key: Key)
    ensures DeleteTx(t, key).tables == MarkAndSweep(DropMessage(t, key)) <==> NoOrphans(t)
  {
    var u := DropMessage(t, key);
    var gone := EdgesOf(t.edges, key);
    CollectIsSweep(u, FilesOf(gone));
    DetachedAreCandidates(t, gone);
  }

  lemma {:induction false} ReconcileIsSweep(t: Tables, key: Key, keep: set<string>)
    ensures ReconcileTx(t, key, keep).tables == MarkAndSweep(DropEdges(t, EdgesNotKept(t.edges, key, keep)))
       <==> NoOrphans(t)
  {
    var gone := EdgesNotKept(t.edges, key, keep);
    CollectIsSweep(DropEdges(t, gone), FilesOf(gone));
    DetachedAreCandidates(t, gone);
  }

  /** Removing `gone` can only detach files that `gone` mentions. */
  lemma {:induction false} DetachedAreCandidates(t: Tables, gone: set<Edge>)
    requires gone <= t.edges
    ensures forall id :: Linked(t.edges, id) <==> id in FilesOf(gone) || Linked(t.edges - gone, id)
  {
  }

  /** Exactly the files that lost their last edge to `gone` go, exactly their URIs are
      handed over, and every other table entry stays. */
  ghost predicate CollectsExactly(t: Tables, gone: set<Edge>, c: Collected) {
    && c.tables.edges == t.edges - gone
    && c.tables.channels == t.channels && c.tables.users == t.users
    && (forall id :: id in c.tables.files <==>
          id in t.files && (Linked(t.edges - gone, id) || !Linked(t.edges, id)))
    && (forall id :: id in c.tables.files ==> c.tables.files[id] == t.files[id])
    && (forall u :: u in c.uris <==> exists id ::
          id in t.files && id !in c.tables.files && t.files[id].storageUri == Some(u))
  }

  lemma {:induction false} DeleteCollectsExactly(t: Tables, key: Key)
    ensures CollectsExactly(t, EdgesOf(t.edges, key), DeleteTx(t, key))
    ensures DeleteTx(t, key).tables.messages == t.messages - {key}
  {
    DetachedAreCandidates(t, EdgesOf(t.edges, key));
  }

  lemma {:induction false} ReconcileCollectsExactly(t: Tables, key: Key, keep: set<string>)
    ensures CollectsExactly(t, EdgesNotKept(t.edges, key, keep), ReconcileTx(t, key, keep))
    ensures ReconcileTx(t, key, keep).tables.messages == t.messages
  {
    DetachedAreCandidates(t, EdgesNotKept(t.edges, key, keep));
  }
}
