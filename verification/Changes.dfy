/** The reference semantics: a log of per-message changes, what the latest one says about
    a message, and the mirror that log describes. Nothing here mentions a statement. */
module Changes {
  import opened Model
  import opened Tables

  /** `files` is None when the write did not look at the message's files. */
  datatype Change = Keep | Put(row: MessageRow, files: Option<set<string>>) | Remove(key: Key)

  predicate Concerns(c: Change, k: Key) {
    match c case Keep => false case Put(row, _) => RowKey(row) == k case Remove(key) => key == k
  }

  datatype Entry = Absent | Present(row: MessageRow, files: set<string>)

  function FilesIn(e: Entry): set<string> { if e.Present? then e.files else {} }

  /** One change as one message sees it. */
  function Step(e: Entry, c: Change): Entry {
    match c
    case Keep => e
    case Remove(_) => Absent
    case Put(row, files) => Present(row, if files.Some? then files.value else FilesIn(e))
  }

  /** What the last change to `k` says, looking back from the end of the log. */
  function Latest(log: seq<Change>, k: Key): Entry {
    if log == [] then Absent
    else
      var c := log[|log| - 1];
      var before := log[..|log| - 1];
      if !Concerns(c, k) then Latest(before, k)
      else match c
        case Put(row, Some(files)) => Present(row, files)
        case Put(row, None) => Present(row, FilesIn(Latest(before, k)))
        case _ => Absent
  }

  /** The part of the database that the changes determine: a file is in it when an edge
      reaches it or it is a left-over without edges. */
  datatype View = View(messages: map<Key, MessageRow>, edges: set<Edge>, leftovers: set<string>)

  function Leftovers(t: Tables): set<string> { set id | id in t.files && !Linked(t.edges, id) }

  function ViewOf(t: Tables): View { View(t.messages, t.edges, Leftovers(t)) }

  function Links(key: Key, ids: set<string>): set<Edge> { set id | id in ids :: Edge(key, id) }

  function Change1(v: View, c: Change): View {
    match c
    case Keep => v
    case Remove(key) => View(v.messages - {key}, v.edges - EdgesOf(v.edges, key), v.leftovers)
    case Put(row, files) =>
      var key := RowKey(row);
      if files.None? then v.(messages := v.messages[key := row])
      else View(v.messages[key := row], (v.edges - EdgesOf(v.edges, key)) + Links(key, files.value),
                v.leftovers - files.value)
  }

  function Replay(v: View, log: seq<Change>): View {
    if log == [] then v else Change1(Replay(v, log[..|log| - 1]), log[|log| - 1])
  }

  const NOTHING := View(map[], {}, {})

  /** `v` is the mirror of `log`: its rows and edges are what the latest changes say. */
  ghost predicate Mirrors(v: View, log: seq<Change>) {
    && v.leftovers == {}
    && (forall k :: k in v.messages <==> Latest(log, k).Present?)
    && (forall k :: k in v.messages ==> v.messages[k] == Latest(log, k).row)
    && (forall e: Edge :: e in v.edges <==> e.file in FilesIn(Latest(log, e.key)))
  }

  lemma {:induction false} ReplayMirrors(log: seq<Change>)
    ensures Mirrors(Replay(NOTHING, log), log)
  {
    if log != [] {
      var n := |log| - 1;
      ReplayMirrors(log[..n]);
      var v, v' := Replay(NOTHING, log[..n]), Replay(NOTHING, log);
      forall k: Key ensures Latest(log, k) == if Concerns(log[n], k) then Step(Latest(log[..n], k), log[n]) else Latest(log[..n], k) {}
      forall e: Edge ensures e in v'.edges <==> e.file in FilesIn(Latest(log, e.key)) {
        assert e in v.edges <==> e.file in FilesIn(Latest(log[..n], e.key));
      }
    }
  }

  /** Two mirrors of logs that agree on every message are equal. */
  lemma {:induction false} MirrorUnique(v: View, log: seq<Change>, v': View, log': seq<Change>)
    requires Mirrors(v, log) && Mirrors(v', log')
    requires forall k :: Latest(log, k) == Latest(log', k)
    ensures v == v'
  {
  }

  // ---- convergence ----

  /** The changes to one message, in order. */
  function Only(log: seq<Change>, k: Key): seq<Change> {
    if log == [] then []
    else
      var before := Only(log[..|log| - 1], k);
      if Concerns(log[|log| - 1], k) then before + [log[|log| - 1]] else before
  }

  lemma {:induction false} LatestOfOnly(log: seq<Change>, k: Key)
    ensures Latest(Only(log, k), k) == Latest(log, k)
  {
    if log != [] {
      var n := |log| - 1;
      LatestOfOnly(log[..n], k);
      var before := Only(log[..n], k);
      if Concerns(log[n], k) { assert (before + [log[n]])[..|before|] == before; }
    }
  }

  ghost predicate SamePerMessage(log: seq<Change>, log': seq<Change>) {
    forall k :: Only(log, k) == Only(log', k)
  }

  /** Any interleaving of the per-message histories ends in the same mirror, even when
      messages share files. */
  lemma {:induction false} OrderAcrossMessagesIsIrrelevant(log: seq<Change>, log': seq<Change>)
    requires SamePerMessage(log, log')
    ensures Replay(NOTHING, log) == Replay(NOTHING, log')
  {
    forall k ensures Latest(log, k) == Latest(log', k) {
      assert Only(log, k) == Only(log', k);
      LatestOfOnly(log, k);
      LatestOfOnly(log', k);
    }
    ReplayMirrors(log);
    ReplayMirrors(log');
    MirrorUnique(Replay(NOTHING, log), log, Replay(NOTHING, log'), log');
  }

  // ---- redelivery ----

  /** `log` seen by one message, from entry `e`. */
  function Fold(e: Entry, log: seq<Change>, k: Key): Entry {
    if log == [] then e
    else
      var before := Fold(e, log[..|log| - 1], k);
      if Concerns(log[|log| - 1], k) then Step(before, log[|log| - 1]) else before
  }

  lemma {:induction false} LatestIsFold(a: seq<Change>, b: seq<Change>, k: Key)
    ensures Latest(a + b, k) == Fold(Latest(a, k), b, k)
  {
    if b == [] {
      assert a + b == a;
    } else {
      var n := |b| - 1;
      LatestIsFold(a, b[..n], k);
      assert (a + b)[..|a + b| - 1] == a + b[..n];
    }
  }

  /** A change that says everything about its message, whatever was there before. */
  predicate Settles(c: Change, k: Key) {
    Concerns(c, k) && (c.Remove? || (c.Put? && c.files.Some?))
  }

  ghost predicate HasTouch(d: seq<Change>, k: Key) { exists x :: x in d && Concerns(x, k) }
  ghost predicate HasSettling(d: seq<Change>, k: Key) { exists x :: x in d && Settles(x, k) }

  lemma {:induction false} HasLast(d: seq<Change>, k: Key)
    requires d != []
    ensures var n := |d| - 1;
      && (HasTouch(d, k) <==> HasTouch(d[..n], k) || Concerns(d[n], k))
      && (HasSettling(d, k) <==> HasSettling(d[..n], k) || Settles(d[n], k))
  {
  }

  /** When two entries, carried through the same later changes, end up equal. */
  lemma {:induction false} FoldForgets(e: Entry, e': Entry, d: seq<Change>, k: Key)
    ensures FilesIn(Fold(e, d, k)) == FilesIn(Fold(e', d, k)) <==> FilesIn(e) == FilesIn(e') || HasSettling(d, k)
    ensures Fold(e, d, k) == Fold(e', d, k)
       <==> e == e' || HasSettling(d, k) || (FilesIn(e) == FilesIn(e') && HasTouch(d, k))
  {
    if d != [] {
      FoldForgets(e, e', d[..|d| - 1], k);
      HasLast(d, k);
    }
  }

  /** Exactly when delivering `c` again between `a` and `d` leaves the mirror as it was:
      it repeats what the message already says, or a later change to the message hides it.
      In particular a duplicate that arrives before the next change to its message does. */
  lemma {:induction false} RedeliveryExact(a: seq<Change>, c: Change, d: seq<Change>, k: Key)
    requires Concerns(c, k)
    ensures Replay(NOTHING, a + [c] + d) == Replay(NOTHING, a + d)
       <==> || Step(Latest(a, k), c) == Latest(a, k)
            || HasSettling(d, k)
            || (FilesIn(Step(Latest(a, k), c)) == FilesIn(Latest(a, k)) && HasTouch(d, k))
  {
    var with, without := a + [c] + d, a + d;
    ReplayMirrors(with);
    ReplayMirrors(without);
    assert Latest(a + [c], k) == Step(Latest(a, k), c) by { assert (a + [c])[..|a|] == a; }
    LatestIsFold(a + [c], d, k);
    LatestIsFold(a, d, k);
    FoldForgets(Latest(a + [c], k), Latest(a, k), d, k);
    if Latest(with, k) == Latest(without, k) {
      forall other ensures Latest(with, other) == Latest(without, other) {
        if other != k { OthersUnmoved(a, c, d, other); }
      }
      MirrorUnique(Replay(NOTHING, with), with, Replay(NOTHING, without), without);
    }
    if Replay(NOTHING, with) == Replay(NOTHING, without) {
      MirrorTells(Replay(NOTHING, with), with, without, k);
    }
  }

  lemma {:induction false} OthersUnmoved(a: seq<Change>, c: Change, d: seq<Change>, other: Key)
    requires !Concerns(c, other)
    ensures Latest(a + [c] + d, other) == Latest(a + d, other)
  {
    assert (a + [c])[..|a|] == a;
    LatestIsFold(a + [c], d, other);
    LatestIsFold(a, d, other);
  }

  /** A mirror determines every latest entry. */
  lemma {:induction false} MirrorTells(v: View, log: seq<Change>, log': seq<Change>, k: Key)
    requires Mirrors(v, log) && Mirrors(v, log')
    ensures Latest(log, k) == Latest(log', k)
  {
    var e, e' := Latest(log, k), Latest(log', k);
    forall id ensures id in FilesIn(e) <==> id in FilesIn(e') {
      assert Edge(k, id) in v.edges <==> id in FilesIn(Latest(log, Edge(k, id).key));
      assert Edge(k, id) in v.edges <==> id in FilesIn(Latest(log', Edge(k, id).key));
    }
    assert FilesIn(e) == FilesIn(e');
    assert e.Present? <==> k in v.messages;
    assert e'.Present? <==> k in v.messages;
  }

  /** At-least-once delivery: a duplicate that arrives before the next change to the same
      message changes nothing. */
  lemma {:induction false} EarlyDuplicateIsHarmless(a: seq<Change>, c: Change, b: seq<Change>, d: seq<Change>)
    requires forall k, x :: Concerns(c, k) && x in b ==> !Concerns(x, k)
    ensures Replay(NOTHING, a + [c] + b + [c] + d) == Replay(NOTHING, a + [c] + b + d)
  {
    var pre := a + [c] + b;
    if c.Keep? {
      KeepIsNothing(pre, d);
    } else {
      var k := if c.Put? then RowKey(c.row) else c.key;
      Untouched(Latest(a + [c], k), b, k);
      LatestIsFold(a + [c], b, k);
      assert (a + [c])[..|a|] == a;
      assert Latest(pre, k) == Step(Latest(a, k), c);
      RedeliveryExact(pre, c, d, k);
    }
  }

  lemma {:induction false} Untouched(e: Entry, b: seq<Change>, k: Key)
    requires forall x :: x in b ==> !Concerns(x, k)
    ensures Fold(e, b, k) == e
  {
    if b != [] { Untouched(e, b[..|b| - 1], k); }
  }

  lemma {:induction false} KeepIsNothing(a: seq<Change>, d: seq<Change>)
    ensures Replay(NOTHING, a + [Keep] + d) == Replay(NOTHING, a + d)
  {
    forall k ensures Latest(a + [Keep] + d, k) == Latest(a + d, k) { OthersUnmoved(a, Keep, d, k); }
    ReplayMirrors(a + [Keep] + d);
    ReplayMirrors(a + d);
    MirrorUnique(Replay(NOTHING, a + [Keep] + d), a + [Keep] + d, Replay(NOTHING, a + d), a + d);
  }
}
