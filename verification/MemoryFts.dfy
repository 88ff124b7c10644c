/** The derived search index of orchestrator/memory_fts.py: the table, its unique index, the
    full-text shadow its triggers keep, incremental synchronization, and rebuild. */
module MemoryFts {

  type Hash = string

  /** The UNIQUE key of a chunk. */
  datatype Key = Key(path: string, para: nat)

  datatype Paragraph = Paragraph(agent: string, sha: Hash, body: string)

  datatype Row = Row(key: Key, content: Paragraph)

  /** What the full-text shadow holds for one row id. */
  datatype Shadow = Shadow(body: string, agent: string, path: string)

  /** One `<agent>/memory.md`, split into its stripped, non-empty paragraphs. */
  datatype Document = Document(agent: string, path: string, bodies: seq<string>)

  type Digest = string -> Hash

  ghost predicate CollisionFree(h: Digest) { forall a, b :: h(a) == h(b) ==> a == b }

  type Rows = map<Key, Paragraph>

  /** The table by row id, its unique index by key, the id counter, and the shadow table. */
  datatype Db = Db(rows: map<nat, Row>, ids: map<Key, nat>, last: nat, fts: map<nat, Shadow>)

  function ShadowOf(r: Row): Shadow { Shadow(r.content.body, r.content.agent, r.key.path) }

  /** The unique index and the table agree, and no id is beyond the counter. */
  ghost predicate Indexed(db: Db) {
    && (forall k | k in db.ids :: db.ids[k] in db.rows && db.rows[db.ids[k]].key == k)
    && (forall id | id in db.rows :: 0 < id <= db.last && db.rows[id].key in db.ids && db.ids[db.rows[id].key] == id)
  }

  /** What a rebuild of the shadow from its content table yields. */
  function ImageOf(rows: map<nat, Row>): map<nat, Shadow> { map id | id in rows :: ShadowOf(rows[id]) }

  /** The shadow is the image of the table: one entry for each row, with that row's text. */
  ghost predicate Mirrors(db: Db) {
    db.fts.Keys == db.rows.Keys && forall id | id in db.rows :: db.fts[id] == ShadowOf(db.rows[id])
  }

  ghost predicate Good(db: Db) { Indexed(db) && Mirrors(db) }

  function Content(db: Db): Rows { map k | k in db.ids && db.ids[k] in db.rows :: db.rows[db.ids[k]].content }

  ghost predicate ShasOk(h: Digest, c: Rows) { forall k | k in c :: c[k].sha == h(c[k].body) }

  lemma ContentKeys(db: Db)
    requires Good(db)
    ensures Content(db).Keys == db.ids.Keys
  {
  }

  // ---------------------------------------------------------------- statements with their triggers

  function InsertRow(db: Db, k: Key, p: Paragraph): Db {
    var id := db.last + 1;
    Db(db.rows[id := Row(k, p)], db.ids[k := id], id, db.fts[id := ShadowOf(Row(k, p))])
  }

  /** The update trigger takes the old entry out of the shadow and puts the new one in. */
  function UpdateRow(db: Db, k: Key, p: Paragraph): Db
    requires k in db.ids
  {
    var id := db.ids[k];
    Db(db.rows[id := Row(k, p)], db.ids, db.last, (db.fts - {id})[id := ShadowOf(Row(k, p))])
  }

  function DeleteRow(db: Db, k: Key): Db
    requires k in db.ids
  {
    Db(db.rows - {db.ids[k]}, db.ids - {k}, db.last, db.fts - {db.ids[k]})
  }

  lemma InsertKeepsGood(db: Db, k: Key, p: Paragraph)
    requires Good(db) && k !in db.ids
    ensures Good(InsertRow(db, k, p)) && Content(InsertRow(db, k, p)) == Content(db)[k := p]
  {
    hide Content, InsertRow, Indexed, Mirrors;
    InsertChangesContent(db, k, p);
    InsertKeepsIndexed(db, k, p);
    InsertKeepsMirror(db, k, p);
  }

  lemma InsertKeepsIndexed(db: Db, k: Key, p: Paragraph)
    requires Indexed(db) && k !in db.ids
    ensures Indexed(InsertRow(db, k, p))
  {
    assert db.last + 1 !in db.rows;
  }

  lemma InsertKeepsMirror(db: Db, k: Key, p: Paragraph)
    requires Mirrors(db)
    ensures Mirrors(InsertRow(db, k, p))
  {
  }

  lemma InsertChangesContent(db: Db, k: Key, p: Paragraph)
    requires Indexed(db) && k !in db.ids
    ensures Content(InsertRow(db, k, p)) == Content(db)[k := p]
  {
    assert db.last + 1 !in db.rows;
  }

  lemma UpdateKeepsGood(db: Db, k: Key, p: Paragraph)
    requires Good(db) && k in db.ids
    ensures Good(UpdateRow(db, k, p)) && Content(UpdateRow(db, k, p)) == Content(db)[k := p]
  {
    UpdateChangesContent(db, k, p);
  }

  lemma UpdateChangesContent(db: Db, k: Key, p: Paragraph)
    requires Indexed(db) && k in db.ids
    ensures Content(UpdateRow(db, k, p)) == Content(db)[k := p]
  {
  }

  lemma DeleteKeepsGood(db: Db, k: Key)
    requires Good(db) && k in db.ids
    ensures Good(DeleteRow(db, k)) && Content(DeleteRow(db, k)) == Content(db) - {k}
  {
  }

  /** Rows whose key is in `gone` are deleted; the counter stays. */
  ghost function DeleteKeys(db: Db, gone: set<Key>): Db {
    var out := set k | k in gone && k in db.ids :: db.ids[k];
    Db(db.rows - out, db.ids - gone, db.last, db.fts - out)
  }

  lemma DeleteKeysStep(db: Db, gone: set<Key>, k: Key)
    requires Good(db) && k in db.ids && k !in gone
    ensures k in DeleteKeys(db, gone).ids
    ensures DeleteRow(DeleteKeys(db, gone), k) == DeleteKeys(db, gone + {k})
  {
    var a := set l | l in gone && l in db.ids :: db.ids[l];
    var b := set l | l in gone + {k} && l in db.ids :: db.ids[l];
    assert b == a + {db.ids[k]};
    assert db.rows - a - {db.ids[k]} == db.rows - b;
    assert db.fts - a - {db.ids[k]} == db.fts - b;
    assert db.ids - gone - {k} == db.ids - (gone + {k});
  }

  // ---------------------------------------------------------------- the full scan

  function ParagraphAt(h: Digest, d: Document, i: nat): Paragraph
    requires i < |d.bodies|
  {
    Paragraph(d.agent, h(d.bodies[i]), d.bodies[i])
  }

  function DocRows(h: Digest, d: Document, n: nat): Rows
    requires n <= |d.bodies|
  {
    if n == 0 then map[] else DocRows(h, d, n - 1)[Key(d.path, n) := ParagraphAt(h, d, n - 1)]
  }

  lemma {:induction false} DocRowsKeys(h: Digest, d: Document, n: nat)
    requires n <= |d.bodies|
    ensures forall k :: k in DocRows(h, d, n) <==> k.path == d.path && 0 < k.para <= n
  {
    if n > 0 { DocRowsKeys(h, d, n - 1); }
  }

  lemma {:induction false} DocRowsAt(h: Digest, d: Document, n: nat, para: nat)
    requires 0 < para <= n <= |d.bodies|
    ensures Key(d.path, para) in DocRows(h, d, n) && DocRows(h, d, n)[Key(d.path, para)] == ParagraphAt(h, d, para - 1)
  {
    if para < n { DocRowsAt(h, d, n - 1, para); }
  }

  /** `scan_memory`: every paragraph of every document, numbered from 1 in its document. */
  function Scan(h: Digest, docs: seq<Document>): Rows {
    if docs == [] then map[]
    else
      var d := docs[|docs| - 1];
      Scan(h, docs[..|docs| - 1]) + DocRows(h, d, |d.bodies|)
  }

  function Paths(docs: seq<Document>): set<string> {
    if docs == [] then {} else Paths(docs[..|docs| - 1]) + {docs[|docs| - 1].path}
  }

  ghost predicate DistinctPaths(docs: seq<Document>) {
    docs == [] || (DistinctPaths(docs[..|docs| - 1]) && docs[|docs| - 1].path !in Paths(docs[..|docs| - 1]))
  }

  function ParagraphCount(docs: seq<Document>): nat {
    if docs == [] then 0 else ParagraphCount(docs[..|docs| - 1]) + |docs[|docs| - 1].bodies|
  }

  lemma {:induction false} ScanPaths(h: Digest, docs: seq<Document>)
    ensures forall k | k in Scan(h, docs) :: k.path in Paths(docs)
  {
    if docs != [] {
      ScanPaths(h, docs[..|docs| - 1]);
      DocRowsKeys(h, docs[|docs| - 1], |docs[|docs| - 1].bodies|);
    }
  }

  lemma {:induction false} PathAt(docs: seq<Document>, i: nat)
    requires i < |docs|
    ensures docs[i].path in Paths(docs)
  {
    if i < |docs| - 1 { PathAt(docs[..|docs| - 1], i); }
  }

  lemma {:induction false} DocRowsCount(h: Digest, d: Document, n: nat)
    requires n <= |d.bodies|
    ensures |DocRows(h, d, n)| == n
  {
    if n > 0 {
      DocRowsCount(h, d, n - 1);
      var m, k := DocRows(h, d, n - 1), Key(d.path, n);
      DocRowsKeys(h, d, n - 1);
      assert DocRows(h, d, n) == m[k := ParagraphAt(h, d, n - 1)];
    }
  }

  lemma {:induction false} ScanCount(h: Digest, docs: seq<Document>)
    requires DistinctPaths(docs)
    ensures |Scan(h, docs)| == ParagraphCount(docs)
  {
    if docs != [] {
      var front, d := docs[..|docs| - 1], docs[|docs| - 1];
      ScanCount(h, front);
      ScanPaths(h, front);
      DocRowsCount(h, d, |d.bodies|);
      DocRowsKeys(h, d, |d.bodies|);
    }
  }

  /** The scan is exact: the paragraph `para` of document `i` has its own row, with its agent
      and the digest of its text; with `ScanCount` there is no other row. */
  lemma {:induction false} ScanAt(h: Digest, docs: seq<Document>, i: nat, para: nat)
    requires DistinctPaths(docs) && i < |docs| && 0 < para <= |docs[i].bodies|
    ensures Key(docs[i].path, para) in Scan(h, docs)
    ensures Scan(h, docs)[Key(docs[i].path, para)]
            == Paragraph(docs[i].agent, h(docs[i].bodies[para - 1]), docs[i].bodies[para - 1])
  {
    var front, d := docs[..|docs| - 1], docs[|docs| - 1];
    if i < |front| {
      ScanAt(h, front, i, para);
      PathAt(front, i);
      DocRowsKeys(h, d, |d.bodies|);
    } else {
      DocRowsAt(h, d, |d.bodies|, para);
    }
  }

  // ---------------------------------------------------------------- sync

  /** One paragraph: insert it, update it when digest or agent differ, or leave its row alone. */
  function SyncParagraph(db: Db, k: Key, p: Paragraph): Db {
    if k !in db.ids then InsertRow(db, k, p)
    else if k !in Content(db) || Content(db)[k].sha != p.sha || Content(db)[k].agent != p.agent then UpdateRow(db, k, p)
    else db
  }

  /** The content ends as if the paragraph had been written, and no existing key changes id. */
  lemma SyncParagraphEffect(h: Digest, db: Db, k: Key, p: Paragraph)
    requires Good(db) && CollisionFree(h) && ShasOk(h, Content(db)) && p.sha == h(p.body)
    ensures Good(SyncParagraph(db, k, p))
    ensures Content(SyncParagraph(db, k, p)) == Content(db)[k := p]
    ensures SyncParagraph(db, k, p).ids == (if k in db.ids then db.ids else db.ids[k := db.last + 1])
  {
    if k !in db.ids {
      InsertKeepsGood(db, k, p);
    } else if Content(db)[k].sha != p.sha || Content(db)[k].agent != p.agent {
      UpdateKeepsGood(db, k, p);
    } else {
      var c := Content(db);
      assert c[k].sha == h(c[k].body) == h(p.body);
      assert c[k] == p;
      assert c[k := p] == c;
    }
  }

  /** The first `n` paragraphs of a document. */
  ghost function SyncParagraphs(h: Digest, db: Db, d: Document, n: nat): Db
    requires n <= |d.bodies|
  {
    if n == 0 then db
    else SyncParagraph(SyncParagraphs(h, db, d, n - 1), Key(d.path, n), ParagraphAt(h, d, n - 1))
  }

  /** Every key of `keys` that had an id still has that id. */
  ghost predicate IdsKept(keys: set<Key>, before: map<Key, nat>, after: map<Key, nat>) {
    forall k | k in keys && k in before :: k in after && after[k] == before[k]
  }

  lemma ShasExtend(h: Digest, c: Rows, k: Key, p: Paragraph)
    requires ShasOk(h, c) && p.sha == h(p.body)
    ensures ShasOk(h, c[k := p])
  {
  }

  /** `after` is `db` with the first `n` paragraphs of the document written, all ids kept. */
  ghost predicate Wrote(h: Digest, db: Db, d: Document, n: nat, after: Db)
    requires n <= |d.bodies|
  {
    && Good(after) && Content(after) == Content(db) + DocRows(h, d, n)
    && ShasOk(h, Content(after)) && IdsKept(db.ids.Keys, db.ids, after.ids)
  }

  lemma SyncParagraphsUnfold(h: Digest, db: Db, d: Document, n: nat)
    requires n <= |d.bodies|
    ensures SyncParagraphs(h, db, d, 0) == db
    ensures n > 0 ==>
            SyncParagraphs(h, db, d, n) ==
            SyncParagraph(SyncParagraphs(h, db, d, n - 1), Key(d.path, n), ParagraphAt(h, d, n - 1))
  {
  }

  lemma WroteNothing(h: Digest, db: Db, d: Document)
    requires Good(db) && ShasOk(h, Content(db))
    ensures Wrote(h, db, d, 0, db)
  {
    assert Content(db) + DocRows(h, d, 0) == Content(db);
  }

  lemma {:induction false} SyncParagraphsEffect(h: Digest, db: Db, d: Document, n: nat)
    requires n <= |d.bodies| && Good(db) && CollisionFree(h) && ShasOk(h, Content(db))
    ensures Wrote(h, db, d, n, SyncParagraphs(h, db, d, n))
  {
    hide *;
    SyncParagraphsUnfold(h, db, d, n);
    if n == 0 {
      WroteNothing(h, db, d);
    } else {
      SyncParagraphsEffect(h, db, d, n - 1);
      SyncParagraphsStep(h, db, d, n, SyncParagraphs(h, db, d, n - 1), SyncParagraphs(h, db, d, n));
    }
  }

  lemma SyncParagraphsStep(h: Digest, db: Db, d: Document, n: nat, prior: Db, after: Db)
    requires 0 < n <= |d.bodies| && CollisionFree(h) && Wrote(h, db, d, n - 1, prior)
    requires after == SyncParagraph(prior, Key(d.path, n), ParagraphAt(h, d, n - 1))
    ensures Wrote(h, db, d, n, after)
  {
    var k, p := Key(d.path, n), ParagraphAt(h, d, n - 1);
    SyncParagraphEffect(h, prior, k, p);
    ShasExtend(h, Content(prior), k, p);
    PlusOne(Content(db), DocRows(h, d, n - 1), k, p);
  }

  lemma PlusOne(a: Rows, b: Rows, k: Key, p: Paragraph)
    ensures a + b[k := p] == (a + b)[k := p]
  {
  }

  /** Keys of the document's path whose paragraph is no longer there. */
  ghost function Vanished(db: Db, d: Document): set<Key> {
    set k | k in db.ids && k.path == d.path && !(0 < k.para <= |d.bodies|)
  }

  ghost function SyncDocument(h: Digest, db: Db, d: Document): Db {
    DeleteKeys(SyncParagraphs(h, db, d, |d.bodies|), Vanished(db, d))
  }

  ghost function Replaced(c: Rows, h: Digest, d: Document): Rows {
    (c + DocRows(h, d, |d.bodies|)) - (set k | k in c && k.path == d.path && !(0 < k.para <= |d.bodies|))
  }

  lemma SyncDocumentEffect(h: Digest, db: Db, d: Document)
    requires Good(db) && CollisionFree(h) && ShasOk(h, Content(db))
    ensures Good(SyncDocument(h, db, d))
    ensures Content(SyncDocument(h, db, d)) == Replaced(Content(db), h, d)
    ensures ShasOk(h, Replaced(Content(db), h, d))
    ensures IdsKept(db.ids.Keys - Vanished(db, d), db.ids, SyncDocument(h, db, d).ids)
  {
    SyncParagraphsEffect(h, db, d, |d.bodies|);
    ContentKeys(db);
    SyncDocumentDrop(h, db.ids, SyncParagraphs(h, db, d, |d.bodies|), Vanished(db, d));
  }

  lemma SyncDocumentDrop(h: Digest, before: map<Key, nat>, db: Db, gone: set<Key>)
    requires Good(db) && ShasOk(h, Content(db)) && IdsKept(before.Keys, before, db.ids)
    ensures Good(DeleteKeys(db, gone)) && Content(DeleteKeys(db, gone)) == Content(db) - gone
    ensures ShasOk(h, Content(db) - gone)
    ensures IdsKept(before.Keys - gone, before, DeleteKeys(db, gone).ids)
  {
  }

  /** Keys whose document is gone. */
  ghost function Stale(db: Db, docs: seq<Document>): set<Key> {
    set k | k in db.ids && k.path !in Paths(docs)
  }

  /** The documents one after another, once stale documents are out. */
  ghost function SyncDocuments(h: Digest, db: Db, docs: seq<Document>): Db {
    if docs == [] then db
    else SyncDocument(h, SyncDocuments(h, db, docs[..|docs| - 1]), docs[|docs| - 1])
  }

  ghost function Synced(h: Digest, db: Db, docs: seq<Document>): Db {
    SyncDocuments(h, DeleteKeys(db, Stale(db, docs)), docs)
  }

  ghost function Within(c: Rows, paths: set<string>): Rows { map k | k in c && k.path in paths :: c[k] }

  lemma ReplacedWithin(c: Rows, h: Digest, d: Document, paths: set<string>)
    requires d.path !in paths
    ensures Within(Replaced(c, h, d), paths + {d.path}) == Within(c, paths) + DocRows(h, d, |d.bodies|)
  {
    DocRowsKeys(h, d, |d.bodies|);
  }

  /** Under the paths done so far, the table holds exactly the scan of those documents;
      elsewhere it holds what it held. */
  lemma {:induction false} SyncDocumentsEffect(h: Digest, db: Db, docs: seq<Document>)
    requires Good(db) && CollisionFree(h) && ShasOk(h, Content(db)) && DistinctPaths(docs)
    ensures Good(SyncDocuments(h, db, docs)) && ShasOk(h, Content(SyncDocuments(h, db, docs)))
    ensures Within(Content(SyncDocuments(h, db, docs)), Paths(docs)) == Scan(h, docs)
    ensures forall k: Key | k.path !in Paths(docs) :: k in Content(SyncDocuments(h, db, docs)) <==> k in Content(db)
  {
    if docs != [] {
      var front, d := docs[..|docs| - 1], docs[|docs| - 1];
      SyncDocumentsEffect(h, db, front);
      var prior := SyncDocuments(h, db, front);
      SyncDocumentEffect(h, prior, d);
      ReplacedWithin(Content(prior), h, d, Paths(front));
    }
  }

  /** No key of the scan loses or changes its row id while the documents go by. */
  lemma {:induction false} SyncDocumentsKeepIds(h: Digest, db: Db, docs: seq<Document>, all: seq<Document>)
    requires Good(db) && CollisionFree(h) && ShasOk(h, Content(db)) && DistinctPaths(all) && docs <= all
    ensures DistinctPaths(docs)
    ensures IdsKept(Scan(h, all).Keys, db.ids, SyncDocuments(h, db, docs).ids)
    decreases |docs|
  {
    DistinctPrefix(docs, all);
    if docs != [] {
      var front, d := docs[..|docs| - 1], docs[|docs| - 1];
      SyncDocumentsKeepIds(h, db, front, all);
      SyncDocumentsEffect(h, db, front);
      var prior := SyncDocuments(h, db, front);
      SyncDocumentEffect(h, prior, d);
      NotVanished(h, prior, all, |docs| - 1);
    }
  }

  lemma {:induction false} DistinctPrefix(docs: seq<Document>, all: seq<Document>)
    requires DistinctPaths(all) && docs <= all
    ensures DistinctPaths(docs)
    decreases |all|
  {
    if |docs| < |all| {
      DistinctPrefix(docs, all[..|all| - 1]);
    } else {
      assert docs == all;
    }
  }

  lemma {:induction false} ScanOfPath(h: Digest, docs: seq<Document>, i: nat, k: Key)
    requires DistinctPaths(docs) && i < |docs| && k in Scan(h, docs) && k.path == docs[i].path
    ensures 0 < k.para <= |docs[i].bodies|
  {
    var front, d := docs[..|docs| - 1], docs[|docs| - 1];
    DocRowsKeys(h, d, |d.bodies|);
    if i < |front| {
      PathAt(front, i);
      ScanOfPath(h, front, i, k);
    } else {
      ScanPaths(h, front);
    }
  }

  lemma NotVanished(h: Digest, db: Db, docs: seq<Document>, i: nat)
    requires DistinctPaths(docs) && i < |docs|
    ensures Vanished(db, docs[i]) !! Scan(h, docs).Keys
  {
    forall k | k in Vanished(db, docs[i]) && k in Scan(h, docs) ensures false { ScanOfPath(h, docs, i, k); }
  }

  /** Incremental synchronization equals the full scan: from any index whose digests match its
      texts, the rows end as exactly those of the scan, the shadow is still the image of the
      table, and every paragraph that was already indexed keeps its row id. */
  lemma SyncEqualsScan(h: Digest, db: Db, docs: seq<Document>)
    requires Good(db) && CollisionFree(h) && ShasOk(h, Content(db)) && DistinctPaths(docs)
    ensures Good(Synced(h, db, docs))
    ensures Content(Synced(h, db, docs)) == Scan(h, docs)
    ensures IdsKept(Scan(h, docs).Keys, db.ids, Synced(h, db, docs).ids)
    ensures ShasOk(h, Content(Synced(h, db, docs)))
  {
    hide Good, Content, Scan, IdsKept, ShasOk, DistinctPaths, Paths, Stale, DeleteKeys, SyncDocuments, Within,
        CollisionFree;
    var pruned := DeleteKeys(db, Stale(db, docs));
    PruneStale(h, db, docs);
    SyncDocumentsEffect(h, pruned, docs);
    SyncDocumentsKeepIds(h, pruned, docs, docs);
    NothingOutside(Content(SyncDocuments(h, pruned, docs)), Content(pruned), Paths(docs));
    IdsStayKept(Scan(h, docs).Keys, db.ids, pruned.ids, SyncDocuments(h, pruned, docs).ids);
  }

  lemma NothingOutside(after: Rows, before: Rows, paths: set<string>)
    requires forall k: Key | k.path !in paths :: k in after <==> k in before
    requires forall k | k in before :: k.path in paths
    ensures Within(after, paths) == after
  {
  }

  lemma IdsStayKept(keys: set<Key>, a: map<Key, nat>, b: map<Key, nat>, c: map<Key, nat>)
    requires IdsKept(keys, a, b) && IdsKept(keys, b, c)
    ensures IdsKept(keys, a, c)
  {
  }

  lemma PruneStale(h: Digest, db: Db, docs: seq<Document>)
    requires Good(db) && ShasOk(h, Content(db))
    ensures Good(DeleteKeys(db, Stale(db, docs))) && ShasOk(h, Content(DeleteKeys(db, Stale(db, docs))))
    ensures forall k | k in Content(DeleteKeys(db, Stale(db, docs))) :: k.path in Paths(docs)
    ensures IdsKept(Scan(h, docs).Keys, db.ids, DeleteKeys(db, Stale(db, docs)).ids)
  {
    ContentKeys(db);
    ScanPaths(h, docs);
  }

  // ---------------------------------------------------------------- rebuild

  function InsertParagraphs(h: Digest, db: Db, d: Document, n: nat): Db
    requires n <= |d.bodies|
  {
    if n == 0 then db else InsertRow(InsertParagraphs(h, db, d, n - 1), Key(d.path, n), ParagraphAt(h, d, n - 1))
  }

  /** Every paragraph inserted in scan order, from an empty table and a reset counter. */
  function Rebuilt(h: Digest, docs: seq<Document>): Db {
    if docs == [] then Db(map[], map[], 0, map[])
    else
      var d := docs[|docs| - 1];
      InsertParagraphs(h, Rebuilt(h, docs[..|docs| - 1]), d, |d.bodies|)
  }

  lemma {:induction false} InsertParagraphsEffect(h: Digest, db: Db, d: Document, n: nat)
    requires n <= |d.bodies| && Good(db) && (forall i | 0 < i <= n :: Key(d.path, i) !in db.ids)
    ensures Good(InsertParagraphs(h, db, d, n))
    ensures Content(InsertParagraphs(h, db, d, n)) == Content(db) + DocRows(h, d, n)
    ensures IdsKept(db.ids.Keys, db.ids, InsertParagraphs(h, db, d, n).ids)
  {
    hide Good, Content, IdsKept, InsertRow;
    if n == 0 {
      NothingInserted(db);
    } else {
      InsertParagraphsEffect(h, db, d, n - 1);
      InsertedKeys(h, db, d, n - 1);
      InsertParagraphStep(db, InsertParagraphs(h, db, d, n - 1), DocRows(h, d, n - 1), Key(d.path, n),
          ParagraphAt(h, d, n - 1));
    }
  }

  lemma NothingInserted(db: Db)
    ensures Content(db) + map[] == Content(db) && IdsKept(db.ids.Keys, db.ids, db.ids)
  {
  }

  lemma {:induction false} InsertedKeys(h: Digest, db: Db, d: Document, n: nat)
    requires n <= |d.bodies|
    ensures forall k | k in InsertParagraphs(h, db, d, n).ids :: k in db.ids || (k.path == d.path && k.para <= n)
  {
    if n > 0 { InsertedKeys(h, db, d, n - 1); }
  }

  lemma InsertParagraphStep(db: Db, prior: Db, rows: Rows, k: Key, p: Paragraph)
    requires Good(prior) && Content(prior) == Content(db) + rows && k !in prior.ids
    requires IdsKept(db.ids.Keys, db.ids, prior.ids)
    ensures Good(InsertRow(prior, k, p)) && Content(InsertRow(prior, k, p)) == Content(db) + rows[k := p]
    ensures IdsKept(db.ids.Keys, db.ids, InsertRow(prior, k, p).ids)
  {
    InsertKeepsGood(prior, k, p);
    PlusOne(Content(db), rows, k, p);
  }

  lemma {:induction false} RebuildEqualsScan(h: Digest, docs: seq<Document>)
    requires DistinctPaths(docs)
    ensures Good(Rebuilt(h, docs)) && Content(Rebuilt(h, docs)) == Scan(h, docs)
    ensures Rebuilt(h, docs).last == ParagraphCount(docs)
  {
    if docs != [] {
      var front, d := docs[..|docs| - 1], docs[|docs| - 1];
      RebuildEqualsScan(h, front);
      ScanPaths(h, front);
      ContentKeys(Rebuilt(h, front));
      InsertParagraphsEffect(h, Rebuilt(h, front), d, |d.bodies|);
      InsertedLast(h, Rebuilt(h, front), d, |d.bodies|);
    }
  }

  /** A rebuilt row's id is its position in scan order, so two rebuilds number alike. */
  lemma {:induction false} RebuildNumbersInScanOrder(h: Digest, docs: seq<Document>, i: nat, para: nat)
    requires DistinctPaths(docs) && i < |docs| && 0 < para <= |docs[i].bodies|
    ensures Key(docs[i].path, para) in Rebuilt(h, docs).ids
    ensures Rebuilt(h, docs).ids[Key(docs[i].path, para)] == ParagraphCount(docs[..i]) + para
  {
    var front, d := docs[..|docs| - 1], docs[|docs| - 1];
    RebuiltKeys(h, front);
    if i < |front| {
      RebuildNumbersInScanOrder(h, front, i, para);
      assert front[..i] == docs[..i];
      InsertParagraphsEffect(h, Rebuilt(h, front), d, |d.bodies|);
    } else {
      assert front == docs[..i];
      InsertedAt(h, Rebuilt(h, front), d, |d.bodies|, para);
    }
  }

  lemma RebuiltKeys(h: Digest, docs: seq<Document>)
    requires DistinctPaths(docs)
    ensures Good(Rebuilt(h, docs)) && Rebuilt(h, docs).last == ParagraphCount(docs)
    ensures forall k | k in Rebuilt(h, docs).ids :: k.path in Paths(docs)
  {
    RebuildEqualsScan(h, docs);
    ScanPaths(h, docs);
    ContentKeys(Rebuilt(h, docs));
  }

  lemma {:induction false} InsertedLast(h: Digest, db: Db, d: Document, n: nat)
    requires n <= |d.bodies|
    ensures InsertParagraphs(h, db, d, n).last == db.last + n
  {
    if n > 0 { InsertedLast(h, db, d, n - 1); }
  }

  lemma {:induction false} InsertedAt(h: Digest, db: Db, d: Document, n: nat, para: nat)
    requires 0 < para <= n <= |d.bodies|
    ensures Key(d.path, para) in InsertParagraphs(h, db, d, n).ids
    ensures InsertParagraphs(h, db, d, n).ids[Key(d.path, para)] == db.last + para
  {
    InsertedLast(h, db, d, n - 1);
    if para < n { InsertedAt(h, db, d, n - 1, para); }
  }

  /** Synchronization and rebuild agree on everything but row ids: the same keys, and under
      each key the same paragraph and the same searchable text. */
  lemma SyncAgreesWithRebuild(h: Digest, db: Db, docs: seq<Document>)
    requires Good(db) && CollisionFree(h) && ShasOk(h, Content(db)) && DistinctPaths(docs)
    ensures Good(Synced(h, db, docs)) && Good(Rebuilt(h, docs))
    ensures Synced(h, db, docs).ids.Keys == Rebuilt(h, docs).ids.Keys
    ensures forall k | k in Scan(h, docs) ::
              var s, r := Synced(h, db, docs), Rebuilt(h, docs);
              && k in s.ids && k in r.ids && s.rows[s.ids[k]] == r.rows[r.ids[k]] && s.fts[s.ids[k]] == r.fts[r.ids[k]]
  {
    SyncEqualsScan(h, db, docs);
    RebuildEqualsScan(h, docs);
    SameContentSameText(Synced(h, db, docs), Rebuilt(h, docs));
  }

  lemma SameContentSameText(s: Db, r: Db)
    requires Good(s) && Good(r) && Content(s) == Content(r)
    ensures s.ids.Keys == r.ids.Keys
    ensures forall k | k in s.ids :: s.rows[s.ids[k]] == r.rows[r.ids[k]] && s.fts[s.ids[k]] == r.fts[r.ids[k]]
  {
    assert s.ids.Keys == Content(s).Keys == Content(r).Keys == r.ids.Keys;
    forall k | k in s.ids ensures s.rows[s.ids[k]] == r.rows[r.ids[k]] {
      assert Content(s)[k] == Content(r)[k];
    }
  }

  /** Row `id` of the index is paragraph `para` of document `d`, in the table and to the search. */
  ghost predicate IsParagraph(h: Digest, db: Db, id: nat, d: Document, para: nat) {
    && 0 < para <= |d.bodies| && id in db.rows && id in db.fts
    && db.rows[id] == Row(Key(d.path, para), Paragraph(d.agent, h(d.bodies[para - 1]), d.bodies[para - 1]))
    && db.fts[id].body == d.bodies[para - 1] && db.fts[id].agent == d.agent && db.fts[id].path == d.path
  }

  ghost predicate HasRow(h: Digest, db: Db, d: Document, para: nat) {
    exists id :: IsParagraph(h, db, id, d, para)
  }

  ghost predicate HasSource(h: Digest, db: Db, docs: seq<Document>, id: nat) {
    exists d, para :: d in docs && IsParagraph(h, db, id, d, para)
  }

  /** What a search can find is what the files say: every paragraph has one row, with its agent,
      its number, its digest and its text, and an entry of the shadow with the same agent, path
      and text; and there is no row and no entry besides. */
  ghost predicate SaysWhatFilesSay(h: Digest, db: Db, docs: seq<Document>) {
    && (forall d, para: nat | d in docs && 0 < para <= |d.bodies| :: HasRow(h, db, d, para))
    && (forall id | id in db.rows || id in db.fts :: HasSource(h, db, docs, id))
    && (forall a, b | a in db.rows && b in db.rows && db.rows[a].key == db.rows[b].key :: a == b)
  }

  lemma {:induction false} ScanHasNoMore(h: Digest, docs: seq<Document>, k: Key)
    requires k in Scan(h, docs)
    ensures exists d :: d in docs && k.path == d.path && 0 < k.para <= |d.bodies|
  {
    var front, d := docs[..|docs| - 1], docs[|docs| - 1];
    DocRowsKeys(h, d, |d.bodies|);
    if k in DocRows(h, d, |d.bodies|) {
      assert d in docs;
    } else {
      ScanHasNoMore(h, front, k);
      var e :| e in front && k.path == e.path && 0 < k.para <= |e.bodies|;
      assert e in docs;
    }
  }

  lemma ContentAt(db: Db, k: Key)
    requires Good(db) && k in Content(db)
    ensures k in db.ids && db.ids[k] in db.rows && db.ids[k] in db.fts && db.rows[db.ids[k]] == Row(k, Content(db)[k])
    ensures db.fts[db.ids[k]].body == Content(db)[k].body && db.fts[db.ids[k]].agent == Content(db)[k].agent
    ensures db.fts[db.ids[k]].path == k.path
  {
  }

  lemma ScanRow(h: Digest, db: Db, docs: seq<Document>, i: nat, para: nat)
    requires Good(db) && DistinctPaths(docs) && Content(db) == Scan(h, docs)
    requires i < |docs| && 0 < para <= |docs[i].bodies|
    ensures Key(docs[i].path, para) in db.ids
    ensures IsParagraph(h, db, db.ids[Key(docs[i].path, para)], docs[i], para)
  {
    hide Good, Content, Scan;
    ScanAt(h, docs, i, para);
    ContentAt(db, Key(docs[i].path, para));
  }

  lemma ScanSource(h: Digest, db: Db, docs: seq<Document>, id: nat)
    requires Good(db) && DistinctPaths(docs) && Content(db) == Scan(h, docs) && (id in db.rows || id in db.fts)
    ensures HasSource(h, db, docs, id)
  {
    var k := db.rows[id].key;
    assert k in Content(db) && db.ids[k] == id;
    hide Good, Content, Scan, IsParagraph;
    ScanHasNoMore(h, docs, k);
    var d :| d in docs && k.path == d.path && 0 < k.para <= |d.bodies|;
    var i :| 0 <= i < |docs| && docs[i] == d;
    ScanRow(h, db, docs, i, k.para);
    assert Key(docs[i].path, k.para) == k;
  }

  lemma ScanIsSaid(h: Digest, db: Db, docs: seq<Document>)
    requires Good(db) && DistinctPaths(docs) && Content(db) == Scan(h, docs)
    ensures SaysWhatFilesSay(h, db, docs)
  {
    assert forall a, b | a in db.rows && b in db.rows && db.rows[a].key == db.rows[b].key :: a == b;
    hide Good, Content, Scan, IsParagraph, HasSource;
    forall d, para: nat | d in docs && 0 < para <= |d.bodies| ensures HasRow(h, db, d, para) {
      var i :| 0 <= i < |docs| && docs[i] == d;
      ScanRow(h, db, docs, i, para);
    }
    forall id | id in db.rows || id in db.fts ensures HasSource(h, db, docs, id) { ScanSource(h, db, docs, id); }
  }

  /** Synchronized or rebuilt, the index says what the files say. */
  lemma IndexSaysWhatFilesSay(h: Digest, db: Db, docs: seq<Document>)
    requires Good(db) && CollisionFree(h) && ShasOk(h, Content(db)) && DistinctPaths(docs)
    ensures SaysWhatFilesSay(h, Synced(h, db, docs), docs) && SaysWhatFilesSay(h, Rebuilt(h, docs), docs)
  {
    SyncEqualsScan(h, db, docs);
    RebuildEqualsScan(h, docs);
    ScanIsSaid(h, Synced(h, db, docs), docs);
    ScanIsSaid(h, Rebuilt(h, docs), docs);
  }

  // ---------------------------------------------------------------- the index object

  lemma VanishedArePresent(h: Digest, db: Db, d: Document)
    requires Good(db) && CollisionFree(h) && ShasOk(h, Content(db))
    ensures Good(SyncParagraphs(h, db, d, |d.bodies|))
    ensures Vanished(db, d) <= SyncParagraphs(h, db, d, |d.bodies|).ids.Keys
  {
    SyncParagraphsEffect(h, db, d, |d.bodies|);
  }

  lemma SyncedPrefix(h: Digest, db: Db, docs: seq<Document>, i: nat)
    requires Good(db) && CollisionFree(h) && ShasOk(h, Content(db)) && DistinctPaths(docs) && i <= |docs|
    ensures Good(SyncDocuments(h, db, docs[..i])) && ShasOk(h, Content(SyncDocuments(h, db, docs[..i])))
  {
    DistinctPrefix(docs[..i], docs);
    SyncDocumentsEffect(h, db, docs[..i]);
  }

  lemma RowsOfScan(h: Digest, db: Db, docs: seq<Document>)
    requires Good(db) && Content(db) == Scan(h, docs) && DistinctPaths(docs)
    ensures |db.rows| == ParagraphCount(docs)
  {
    ScanCount(h, docs);
    SameSize(db);
  }

  lemma RebuiltImage(h: Digest, docs: seq<Document>)
    requires DistinctPaths(docs)
    ensures var db := Rebuilt(h, docs);
            && Good(db) && Content(db) == Scan(h, docs) && |db.rows| == ParagraphCount(docs)
            && db.fts == ImageOf(db.rows)
  {
    RebuildEqualsScan(h, docs);
    RowsOfScan(h, Rebuilt(h, docs), docs);
    hide Content, Scan, Rebuilt, ParagraphCount, Indexed, DistinctPaths;
  }

  class MemoryFtsIndex {
    const digest: Digest
    var rows: map<nat, Row>
    var ids: map<Key, nat>
    var last: nat
    var fts: map<nat, Shadow>

    ghost function Model(): Db
      reads this
    {
      Db(rows, ids, last, fts)
    }

    constructor (digest: Digest)
      ensures this.digest == digest && Model() == Rebuilt(digest, [])
    {
      this.digest := digest;
      rows, ids, last, fts := map[], map[], 0, map[];
    }

    method Insert(k: Key, p: Paragraph)
      modifies this
      ensures Model() == InsertRow(old(Model()), k, p)
    {
      last := last + 1;
      rows, ids := rows[last := Row(k, p)], ids[k := last];
      fts := fts[last := ShadowOf(Row(k, p))];
    }

    method Update(k: Key, p: Paragraph)
      requires k in ids
      modifies this`rows, this`fts
      ensures Model() == UpdateRow(old(Model()), k, p)
    {
      var id := ids[k];
      rows := rows[id := Row(k, p)];
      fts := fts - {id};
      fts := fts[id := ShadowOf(Row(k, p))];
    }

    method Delete(k: Key)
      requires k in ids
      modifies this`rows, this`ids, this`fts
      ensures Model() == DeleteRow(old(Model()), k)
    {
      fts := fts - {ids[k]};
      rows := rows - {ids[k]};
      ids := ids - {k};
    }

    method DeleteAll(gone: set<Key>)
      requires Good(Model()) && gone <= ids.Keys
      modifies this`rows, this`ids, this`fts
      ensures Model() == DeleteKeys(old(Model()), gone)
    {
      ghost var start := Model();
      var rest := gone;
      assert gone - rest == {};
      assert DeleteKeys(start, {}) == start;
      while rest != {}
        invariant rest <= gone && Model() == DeleteKeys(start, gone - rest)
        decreases |rest|
      {
        var k :| k in rest;
        DeleteKeysStep(start, gone - rest, k);
        assert gone - (rest - {k}) == gone - rest + {k};
        Delete(k);
        rest := rest - {k};
      }
      assert gone - rest == gone;
    }

    method SyncOne(k: Key, p: Paragraph)
      modifies this
      ensures Model() == SyncParagraph(old(Model()), k, p)
    {
      if k !in ids {
        Insert(k, p);
      } else if ids[k] !in rows || rows[ids[k]].content.sha != p.sha || rows[ids[k]].content.agent != p.agent {
        Update(k, p);
      }
    }

    method SyncFile(d: Document)
      requires Good(Model()) && CollisionFree(digest) && ShasOk(digest, Content(Model()))
      modifies this
      ensures Model() == SyncDocument(digest, old(Model()), d)
    {
      ghost var start := Model();
      var prior := ids.Keys;
      for i := 0 to |d.bodies|
        invariant Model() == SyncParagraphs(digest, start, d, i)
      {
        SyncOne(Key(d.path, i + 1), ParagraphAt(digest, d, i));
      }
      var gone := set k | k in prior && k.path == d.path && !(0 < k.para <= |d.bodies|);
      VanishedArePresent(digest, start, d);
      assert gone == Vanished(start, d);
      DeleteAll(gone);
    }

    method SyncFiles(docs: seq<Document>)
      requires Good(Model()) && CollisionFree(digest) && ShasOk(digest, Content(Model())) && DistinctPaths(docs)
      modifies this
      ensures Model() == SyncDocuments(digest, old(Model()), docs)
    {
      ghost var pruned := Model();
      for i := 0 to |docs|
        invariant Model() == SyncDocuments(digest, pruned, docs[..i])
      {
        SyncedPrefix(digest, pruned, docs, i);
        assert docs[..i + 1][..i] == docs[..i];
        SyncFile(docs[i]);
      }
      assert docs[..|docs|] == docs;
    }

    method Sync(docs: seq<Document>) returns (count: nat)
      requires Good(Model()) && CollisionFree(digest) && ShasOk(digest, Content(Model())) && DistinctPaths(docs)
      modifies this
      ensures Model() == Synced(digest, old(Model()), docs)
      ensures Good(Model()) && Content(Model()) == Scan(digest, docs)
      ensures count == ParagraphCount(docs)
    {
      ghost var start := Model();
      var live := Paths(docs);
      var stale := set k | k in ids && k.path !in live;
      assert stale == Stale(start, docs);
      PruneStale(digest, start, docs);
      DeleteAll(stale);
      SyncFiles(docs);
      SyncEqualsScan(digest, start, docs);
      RowsOfScan(digest, Model(), docs);
      count := |rows|;
    }

    method InsertFile(d: Document)
      modifies this
      ensures Model() == InsertParagraphs(digest, old(Model()), d, |d.bodies|)
    {
      for n := 0 to |d.bodies|
        invariant Model() == InsertParagraphs(digest, old(Model()), d, n)
      {
        Insert(Key(d.path, n + 1), ParagraphAt(digest, d, n));
      }
    }

    method Rebuild(docs: seq<Document>) returns (count: nat)
      requires DistinctPaths(docs)
      modifies this
      ensures Model() == Rebuilt(digest, docs)
      ensures Good(Model()) && Content(Model()) == Scan(digest, docs)
      ensures count == ParagraphCount(docs)
    {
      rows, ids, last, fts := map[], map[], 0, map[];
      for i := 0 to |docs|
        invariant Model() == Rebuilt(digest, docs[..i])
      {
        assert docs[..i + 1][..i] == docs[..i];
        InsertFile(docs[i]);
      }
      assert docs[..|docs|] == docs;
      RebuiltImage(digest, docs);
      hide Good, Content, Scan, Rebuilt, ImageOf, ParagraphCount;
      fts := ImageOf(rows);
      count := |rows|;
    }
  }

  lemma {:induction false} SameSize(db: Db)
    requires Indexed(db)
    ensures |db.rows| == |Content(db)|
    decreases |db.ids|
  {
    assert Content(db).Keys == db.ids.Keys;
    Bijection(db.ids.Keys, db);
    assert (set k | k in db.ids :: db.ids[k]) == db.rows.Keys;
  }

  lemma {:induction false} Bijection(keys: set<Key>, db: Db)
    requires Indexed(db) && keys <= db.ids.Keys
    ensures |set k | k in keys :: db.ids[k]| == |keys|
  {
    var image := set k | k in keys :: db.ids[k];
    if keys != {} {
      var k :| k in keys;
      Bijection(keys - {k}, db);
      var rest := set l | l in keys - {k} :: db.ids[l];
      assert image == rest + {db.ids[k]};
      assert db.ids[k] !in rest;
    }
  }
}
