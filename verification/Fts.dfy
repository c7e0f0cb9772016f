/** The full-text index over `messages`: an external-content table that holds only
    postings and is kept current by three triggers. The tokenizer is arbitrary. */
module Fts {
  import opened Model
  import opened Tables

  type Tokenizer = string -> seq<string>

  datatype Posting = Posting(token: string, rowid: int)
  datatype Hit = Hit(channelId: string, ts: string, text: string)

  /** One posting for each occurrence of a token. */
  function Postings(rowid: int, tokens: seq<string>): multiset<Posting> {
    if tokens == [] then multiset{}
    else multiset{Posting(tokens[0], rowid)} + Postings(rowid, tokens[1..])
  }

  /** The index one gets by indexing every row of the table from scratch. */
  ghost function Rebuilt(tok: Tokenizer, rows: map<int, MessageRow>): multiset<Posting> {
    if !exists r :: r in rows then multiset{}
    else
      var r :| r in rows;
      Postings(r, tok(rows[r].text)) + Rebuilt(tok, rows - {r})
  }

  function PostingCount(tok: Tokenizer, rows: map<int, MessageRow>, p: Posting): nat {
    if p.rowid in rows then Postings(p.rowid, tok(rows[p.rowid].text))[p] else 0
  }

  /** A row's postings of a token are its occurrences in the row's text. */
  lemma {:induction false} PostingsOfRow(rowid: int, tokens: seq<string>, p: Posting)
    ensures Postings(rowid, tokens)[p] == if p.rowid == rowid then multiset(tokens)[p.token] else 0
    ensures p.rowid == rowid ==> (p in Postings(rowid, tokens) <==> p.token in tokens)
  {
    if tokens != [] {
      PostingsOfRow(rowid, tokens[1..], p);
      assert tokens == [tokens[0]] + tokens[1..];
    }
  }

  /** A rebuild does not depend on the order the rows are visited in. */
  lemma {:induction false} RebuiltAt(tok: Tokenizer, rows: map<int, MessageRow>, p: Posting)
    ensures Rebuilt(tok, rows)[p] == PostingCount(tok, rows, p)
    decreases rows.Keys
  {
    if exists r :: r in rows {
      var r :| r in rows && Rebuilt(tok, rows) == Postings(r, tok(rows[r].text)) + Rebuilt(tok, rows - {r});
      RebuiltAt(tok, rows - {r}, p);
      PostingsOfRow(r, tok(rows[r].text), p);
    }
  }

  /** Adding, replacing or removing one row changes the rebuilt index by that row's postings,
      and a removed row's postings are all there to remove. */
  lemma {:induction false} RebuiltWith(tok: Tokenizer, rows: map<int, MessageRow>, r: int, m: MessageRow)
    requires r !in rows
    ensures Rebuilt(tok, rows[r := m]) == Rebuilt(tok, rows) + Postings(r, tok(m.text))
  {
    forall p ensures Rebuilt(tok, rows[r := m])[p] == (Rebuilt(tok, rows) + Postings(r, tok(m.text)))[p] {
      RebuiltAt(tok, rows[r := m], p);
      RebuiltAt(tok, rows, p);
      PostingsOfRow(r, tok(m.text), p);
    }
  }

  lemma {:induction false} RebuiltWithout(tok: Tokenizer, rows: map<int, MessageRow>, r: int)
    requires r in rows
    ensures Postings(r, tok(rows[r].text)) <= Rebuilt(tok, rows)
    ensures Rebuilt(tok, rows - {r}) == Rebuilt(tok, rows) - Postings(r, tok(rows[r].text))
  {
    assert (rows - {r})[r := rows[r]] == rows;
    RebuiltWith(tok, rows - {r}, r, rows[r]);
  }

  /** Replacing a row's text: its old postings go and its new ones come. */
  lemma {:induction false} RebuiltUpdated(tok: Tokenizer, rows: map<int, MessageRow>, r: int, m: MessageRow)
    requires r in rows
    ensures Postings(r, tok(rows[r].text)) <= Rebuilt(tok, rows)
    ensures Rebuilt(tok, rows[r := m]) == Rebuilt(tok, rows) - Postings(r, tok(rows[r].text)) + Postings(r, tok(m.text))
  {
    hide Rebuilt, Postings;
    RebuiltWithout(tok, rows, r);
    RebuiltWith(tok, rows - {r}, r, m);
    assert rows[r := m] == (rows - {r})[r := m];
  }

  // ---- the table seen by key ----

  /** The primary-key index: keys and rowids correspond one to one. */
  ghost predicate KeyIndex(rows: map<int, MessageRow>, rowids: map<Key, int>) {
    && (forall k :: k in rowids ==> rowids[k] in rows && RowKey(rows[rowids[k]]) == k)
    && (forall r :: r in rows ==> RowKey(rows[r]) in rowids && rowids[RowKey(rows[r])] == r)
  }

  /** The messages table by primary key. */
  function View(rows: map<int, MessageRow>, rowids: map<Key, int>): map<Key, MessageRow>
    requires KeyIndex(rows, rowids)
  {
    map k | k in rowids :: rows[rowids[k]]
  }

  /** Storing a row at a new rowid, or over the row with its key, is an update by key. */
  lemma {:induction false} ViewWith(rows: map<int, MessageRow>, rowids: map<Key, int>, r: int, m: MessageRow)
    requires KeyIndex(rows, rowids)
    requires if RowKey(m) in rowids then rowids[RowKey(m)] == r else r !in rows
    ensures KeyIndex(rows[r := m], rowids[RowKey(m) := r])
    ensures View(rows[r := m], rowids[RowKey(m) := r]) == View(rows, rowids)[RowKey(m) := m]
  {
  }

  lemma {:induction false} ViewWithout(rows: map<int, MessageRow>, rowids: map<Key, int>, key: Key)
    requires KeyIndex(rows, rowids) && key in rowids
    ensures KeyIndex(rows - {rowids[key]}, rowids - {key})
    ensures View(rows - {rowids[key]}, rowids - {key}) == View(rows, rowids) - {key}
  {
  }

  predicate Matches(tok: Tokenizer, row: MessageRow, token: string) { token in tok(row.text) }

  /** A one-token MATCH on a current index selects the rowids a full scan selects. */
  lemma {:induction false} MatchIsScan(tok: Tokenizer, rows: map<int, MessageRow>, token: string, r: int)
    ensures Posting(token, r) in Rebuilt(tok, rows) <==> r in rows && Matches(tok, rows[r], token)
  {
    RebuiltAt(tok, rows, Posting(token, r));
    if r in rows { PostingsOfRow(r, tok(rows[r].text), Posting(token, r)); }
  }

  // ---- statements on messages, with the triggers they fire ----

  /** The messages table by rowid, its primary-key index, and messages_fts. */
  datatype Indexed = Indexed(rows: map<int, MessageRow>, rowids: map<Key, int>, index: multiset<Posting>)

  const BLANK := Indexed(map[], map[], multiset{})

  ghost predicate Current(tok: Tokenizer, x: Indexed) {
    KeyIndex(x.rows, x.rowids) && x.index == Rebuilt(tok, x.rows)
  }

  /** The next rowid is one more than the largest in use. */
  ghost predicate IsNext(used: set<int>, n: int) {
    n >= 1 && (forall r :: r in used ==> r < n) && (n == 1 || n - 1 in used)
  }

  ghost function NextRowid(used: set<int>): (n: int)
    ensures IsNext(used, n)
  {
    if !exists r :: r in used then 1
    else
      var r :| r in used;
      var n := NextRowid(used - {r});
      assert forall z :: z in used <==> z == r || z in used - {r};
      if r < n then n else r + 1
  }

  /** INSERT … ON CONFLICT (channel_id, ts) DO UPDATE, then messages_ai or messages_au. */
  ghost function Upserted(tok: Tokenizer, x: Indexed, m: MessageRow): Indexed
    requires KeyIndex(x.rows, x.rowids)
  {
    var key := RowKey(m);
    if key in x.rowids then
      var r := x.rowids[key];
      Indexed(x.rows[r := m], x.rowids, x.index - Postings(r, tok(x.rows[r].text)) + Postings(r, tok(m.text)))
    else
      var r := NextRowid(x.rows.Keys);
      Indexed(x.rows[r := m], x.rowids[key := r], x.index + Postings(r, tok(m.text)))
  }

  /** DELETE … WHERE channel_id = … AND ts = …, then messages_ad. */
  ghost function Deleted(tok: Tokenizer, x: Indexed, key: Key): Indexed
    requires KeyIndex(x.rows, x.rowids)
  {
    if key !in x.rowids then x
    else
      var r := x.rowids[key];
      Indexed(x.rows - {r}, x.rowids - {key}, x.index - Postings(r, tok(x.rows[r].text)))
  }

  /** The triggers keep a current index current, and every posting they take out is there. */
  lemma {:induction false} UpsertedCurrent(tok: Tokenizer, x: Indexed, m: MessageRow)
    requires Current(tok, x)
    ensures var y := Upserted(tok, x, m);
      Current(tok, y) && View(y.rows, y.rowids) == View(x.rows, x.rowids)[RowKey(m) := m]
    ensures RowKey(m) in x.rowids ==>
      var r := x.rowids[RowKey(m)]; Postings(r, tok(x.rows[r].text)) <= x.index
  {
    hide Rebuilt, Postings;
    var key := RowKey(m);
    if key in x.rowids {
      RebuiltUpdated(tok, x.rows, x.rowids[key], m);
      ViewWith(x.rows, x.rowids, x.rowids[key], m);
      assert x.rowids[key := x.rowids[key]] == x.rowids;
    } else {
      var r := NextRowid(x.rows.Keys);
      RebuiltWith(tok, x.rows, r, m);
      ViewWith(x.rows, x.rowids, r, m);
    }
  }

  lemma {:induction false} DeletedCurrent(tok: Tokenizer, x: Indexed, key: Key)
    requires Current(tok, x)
    ensures var y := Deleted(tok, x, key);
      Current(tok, y) && View(y.rows, y.rowids) == View(x.rows, x.rowids) - {key}
    ensures key in x.rowids ==>
      var r := x.rowids[key]; Postings(r, tok(x.rows[r].text)) <= x.index
  {
    hide Rebuilt, Postings;
    if key in x.rowids {
      RebuiltWithout(tok, x.rows, x.rowids[key]);
      ViewWithout(x.rows, x.rowids, key);
    }
  }

  lemma {:induction false} BlankCurrent(tok: Tokenizer)
    ensures Current(tok, BLANK) && View(BLANK.rows, BLANK.rowids) == map[]
  {
  }

  class Messages {
    const tok: Tokenizer
    var rows: map<int, MessageRow>     // messages, by rowid
    var rowids: map<Key, int>          // its primary-key index
    var index: multiset<Posting>       // messages_fts

    function State(): Indexed
      reads this
    {
      Indexed(rows, rowids, index)
    }

    ghost predicate Valid()
      reads this
    {
      Current(tok, State())
    }

    ghost function Table(): map<Key, MessageRow>
      requires Valid()
      reads this
    {
      View(rows, rowids)
    }

    constructor (tok: Tokenizer)
      ensures Valid() && State() == BLANK && Table() == map[] && this.tok == tok
    {
      this.tok, rows, rowids, index := tok, map[], map[], multiset{};
    }

    // The FTS5 commands: insert a row's postings, and delete them given the old text.

    method FtsInsert(rowid: int, text: string)
      modifies this`index
      ensures index == old(index) + Postings(rowid, tok(text))
    {
      index := index + Postings(rowid, tok(text));
    }

    /** Deleting postings that are not there would corrupt the index. */
    method FtsDelete(rowid: int, text: string)
      requires Postings(rowid, tok(text)) <= index
      modifies this`index
      ensures index == old(index) - Postings(rowid, tok(text))
    {
      index := index - Postings(rowid, tok(text));
    }

    /** The row first, then the trigger that the statement fires. */
    method Upsert(m: MessageRow)
      requires Valid()
      modifies this
      ensures Valid() && Table() == old(Table())[RowKey(m) := m]
      ensures State() == Upserted(tok, old(State()), m)
    {
      hide Rebuilt, Postings;
      UpsertedCurrent(tok, State(), m);
      var key := RowKey(m);
      if key in rowids {
        var r := rowids[key];
        var was := rows[r];
        rows := rows[r := m];
        FtsDelete(r, was.text);     // messages_au, first half
        FtsInsert(r, m.text);       // messages_au, second half
      } else {
        var r := Next();
        rows, rowids := rows[r := m], rowids[key := r];
        FtsInsert(r, m.text);       // messages_ai
      }
    }

    method Delete(key: Key)
      requires Valid()
      modifies this
      ensures Valid() && Table() == old(Table()) - {key}
      ensures State() == Deleted(tok, old(State()), key)
    {
      hide Rebuilt, Postings;
      DeletedCurrent(tok, State(), key);
      if key in rowids {
        var r := rowids[key];
        var was := rows[r];
        rows, rowids := rows - {r}, rowids - {key};
        FtsDelete(r, was.text);     // messages_ad
      }
    }

    method Next() returns (next: int)
      ensures next == NextRowid(rows.Keys)
    {
      next := 1;
      var rest := rows.Keys;
      while exists r :: r in rest
        invariant rest <= rows.Keys && IsNext(rows.Keys - rest, next)
        decreases rest
      {
        var r :| r in rest;
        assert rows.Keys - (rest - {r}) == (rows.Keys - rest) + {r};
        if r >= next { next := r + 1; }
        rest := rest - {r};
      }
      assert rows.Keys - rest == rows.Keys;
    }

    /** A one-token search: every hit is a stored message with the token, no message twice,
        and none is missing unless the limit (50 when not positive) was reached. */
    method Search(token: string, limit: int) returns (hits: seq<Hit>)
      requires Valid()
      ensures forall h :: h in hits ==> Scanned(tok, Table(), token, h)
      ensures forall i, j :: 0 <= i < j < |hits| ==> hits[i] != hits[j]
      ensures |hits| <= if limit <= 0 then 50 else limit
      ensures |hits| < (if limit <= 0 then 50 else limit) ==>
        forall h :: Scanned(tok, Table(), token, h) ==> h in hits
    {
      var max := limit;
      if max <= 0 { max := 50; }
      hits := [];
      var matched := set p | p in index && p.token == token :: p.rowid;
      forall r ensures r in matched <==> r in rows && Matches(tok, rows[r], token) {
        MatchIsScan(tok, rows, token, r);
        if Posting(token, r) in index { assert Posting(token, r).rowid in matched; }
      }
      var rest := matched;
      while rest != {} && |hits| < max
        invariant rest <= matched && |hits| <= max
        invariant forall h :: h in hits <==> exists r :: r in matched - rest && h == HitOf(rows[r])
        invariant forall i, j :: 0 <= i < j < |hits| ==> hits[i] != hits[j]
      {
        var r :| r in rest;
        var m := rows[r];     // JOIN messages ON rowid
        assert HitOf(m) !in hits;
        hits := hits + [HitOf(m)];
        rest := rest - {r};
      }
      forall h | h in hits ensures Scanned(tok, Table(), token, h) {
        var r :| r in matched - rest && h == HitOf(rows[r]);
      }
      forall h | |hits| < max && Scanned(tok, Table(), token, h) ensures h in hits {
        var r := rowids[Key(h.channelId, h.ts)];
        assert r in matched - rest && h == HitOf(rows[r]);
      }
    }
  }

  function HitOf(m: MessageRow): Hit { Hit(m.channelId, m.ts, m.text) }

  /** What a scan of the whole table for the token finds. */
  predicate Scanned(tok: Tokenizer, t: map<Key, MessageRow>, token: string, h: Hit) {
    var k := Key(h.channelId, h.ts);
    k in t && t[k].text == h.text && Matches(tok, t[k], token)
  }
}
