/** The database manifest of orchestrator/integrity.py: row hashes are sorted, so it fixes
    each table up to row order and nothing less. */
module Manifests {

  type Hash = nat     // a hex digest, ordered as the digests of one length are

  datatype Value = Null | Blob(hex: string) | Float(bits: string) | Integer(i: int) | Text(s: string)

  type Row = seq<Value>

  datatype Table = Table(columns: seq<string>, rows: seq<Row>)

  /** A readable database; `tables` leaves out SQLite's own `sqlite_` tables, as the manifest does. */
  datatype Database = Database(schema: seq<string>, pragmas: seq<Value>, tables: map<string, Table>)

  datatype TableManifest = TableManifest(count: nat, rowsHash: Hash, columns: seq<string>)

  datatype Manifest = Manifest(schema: seq<string>, pragmas: seq<Value>, tables: map<string, TableManifest>)

  /** The row digest and the digest of the joined list of row digests. */
  datatype Hashing = Hashing(row: Row -> Hash, list: seq<Hash> -> Hash)

  ghost predicate CollisionFree(h: Hashing) {
    && (forall a, b :: h.row(a) == h.row(b) ==> a == b)
    && (forall a, b :: h.list(a) == h.list(b) ==> a == b)
  }

  // ---------------------------------------------------------------- sorting

  ghost predicate Sorted(s: seq<Hash>) { forall i, j | 0 <= i < j < |s| :: s[i] <= s[j] }

  function Insert(x: Hash, s: seq<Hash>): (r: seq<Hash>)
    ensures multiset(r) == multiset(s) + multiset{x}
  {
    if s == [] then [x]
    else if x <= s[0] then [x] + s
    else
      assert s == [s[0]] + s[1..];
      [s[0]] + Insert(x, s[1..])
  }

  lemma {:induction false} InsertSorted(x: Hash, s: seq<Hash>)
    requires Sorted(s)
    ensures Sorted(Insert(x, s))
  {
    if s != [] && x > s[0] {
      InsertSorted(x, s[1..]);
      var rest := Insert(x, s[1..]);
      forall i | 0 <= i < |rest| ensures s[0] <= rest[i] {
        assert rest[i] in multiset(rest);
        assert rest[i] == x || rest[i] in s[1..];
      }
    }
  }

  function Sort(s: seq<Hash>): (r: seq<Hash>)
    ensures multiset(r) == multiset(s)
  {
    if s == [] then [] else
      assert s == s[..|s| - 1] + [s[|s| - 1]];
      Insert(s[|s| - 1], Sort(s[..|s| - 1]))
  }

  lemma {:induction false} SortSorts(s: seq<Hash>)
    ensures Sorted(Sort(s))
  {
    if s != [] {
      SortSorts(s[..|s| - 1]);
      InsertSorted(s[|s| - 1], Sort(s[..|s| - 1]));
    }
  }

  /** A sorted list is determined by its elements. */
  lemma {:induction false} SortedIsCanonical(a: seq<Hash>, b: seq<Hash>)
    requires Sorted(a) && Sorted(b) && multiset(a) == multiset(b)
    ensures a == b
    decreases |a|
  {
    assert |multiset(a)| == |a| && |multiset(b)| == |b|;
    if a != [] {
      assert a[0] in multiset(b) && b[0] in multiset(a);
      assert a[0] == b[0];
      assert a == [a[0]] + a[1..] && b == [b[0]] + b[1..];
      assert multiset(a[1..]) == multiset(a) - multiset{a[0]};
      SortedIsCanonical(a[1..], b[1..]);
    }
  }

  // ---------------------------------------------------------------- rows

  function RowHashes(h: Hashing, rows: seq<Row>): (r: seq<Hash>)
    ensures |r| == |rows| && forall i | 0 <= i < |rows| :: r[i] == h.row(rows[i])
  {
    if rows == [] then [] else RowHashes(h, rows[..|rows| - 1]) + [h.row(rows[|rows| - 1])]
  }

  lemma {:induction false} CountsOfHashes(h: Hashing, rows: seq<Row>, row: Row)
    requires CollisionFree(h)
    ensures multiset(RowHashes(h, rows))[h.row(row)] == multiset(rows)[row]
  {
    if rows != [] {
      var front, last := rows[..|rows| - 1], rows[|rows| - 1];
      assert rows == front + [last];
      CountsOfHashes(h, front, row);
    }
  }

  lemma {:induction false} SameRowsSameHashes(h: Hashing, a: seq<Row>, b: seq<Row>, x: Hash)
    requires CollisionFree(h) && multiset(a) == multiset(b)
    ensures multiset(RowHashes(h, a))[x] == multiset(RowHashes(h, b))[x]
  {
    if x in multiset(RowHashes(h, a)) {
      assert x in RowHashes(h, a);
      var i :| 0 <= i < |a| && RowHashes(h, a)[i] == x;
      CountsOfHashes(h, a, a[i]);
      CountsOfHashes(h, b, a[i]);
    } else if x in multiset(RowHashes(h, b)) {
      assert x in RowHashes(h, b);
      var i :| 0 <= i < |b| && RowHashes(h, b)[i] == x;
      CountsOfHashes(h, a, b[i]);
      CountsOfHashes(h, b, b[i]);
    }
  }

  function TableManifestOf(h: Hashing, t: Table): TableManifest {
    TableManifest(|t.rows|, h.list(Sort(RowHashes(h, t.rows))), t.columns)
  }

  /** Two tables have the same manifest exactly when they have the same columns and the same
      rows, counted with duplicates and in any order. */
  lemma TableManifestExact(h: Hashing, a: Table, b: Table)
    requires CollisionFree(h)
    ensures TableManifestOf(h, a) == TableManifestOf(h, b) <==>
            a.columns == b.columns && multiset(a.rows) == multiset(b.rows)
  {
    var ha, hb := RowHashes(h, a.rows), RowHashes(h, b.rows);
    if TableManifestOf(h, a) == TableManifestOf(h, b) {
      assert Sort(ha) == Sort(hb);
      assert multiset(ha) == multiset(hb);
      forall row ensures multiset(a.rows)[row] == multiset(b.rows)[row] {
        CountsOfHashes(h, a.rows, row);
        CountsOfHashes(h, b.rows, row);
      }
      assert multiset(a.rows) == multiset(b.rows);
    }
    if a.columns == b.columns && multiset(a.rows) == multiset(b.rows) {
      forall x ensures multiset(ha)[x] == multiset(hb)[x] { SameRowsSameHashes(h, a.rows, b.rows, x); }
      assert multiset(ha) == multiset(hb);
      SortSorts(ha);
      SortSorts(hb);
      SortedIsCanonical(Sort(ha), Sort(hb));
      assert |multiset(a.rows)| == |a.rows| && |multiset(b.rows)| == |b.rows|;
    }
  }

  // ---------------------------------------------------------------- databases

  function ManifestOf(h: Hashing, d: Database): Manifest {
    Manifest(d.schema, d.pragmas, TableManifests(t => TableManifestOf(h, t), d.tables))
  }

  function TableManifests(of: Table -> TableManifest, tables: map<string, Table>): (m: map<string, TableManifest>)
    ensures m.Keys == tables.Keys
  {
    map name | name in tables :: of(tables[name])
  }

  /** `_database_manifest`, the row loop of one table included. */
  method ComputeTableManifest(h: Hashing, t: Table) returns (m: TableManifest)
    ensures m == TableManifestOf(h, t)
  {
    var rowHashes: seq<Hash> := [];
    for i := 0 to |t.rows|
      invariant rowHashes == RowHashes(h, t.rows[..i])
    {
      assert t.rows[..i + 1][..i] == t.rows[..i];
      rowHashes := rowHashes + [h.row(t.rows[i])];
    }
    assert t.rows[..|t.rows|] == t.rows;
    var ordered := Sort(rowHashes);
    m := TableManifest(|rowHashes|, h.list(ordered), t.columns);
  }

  ghost predicate SameRows(a: Table, b: Table) { a.columns == b.columns && multiset(a.rows) == multiset(b.rows) }

  ghost predicate SameContent(a: Database, b: Database) {
    && a.schema == b.schema && a.pragmas == b.pragmas && a.tables.Keys == b.tables.Keys
    && forall name | name in a.tables :: SameRows(a.tables[name], b.tables[name])
  }

  lemma SameTablesExact(of: Table -> TableManifest, a: map<string, Table>, b: map<string, Table>)
    requires forall x, y :: of(x) == of(y) <==> SameRows(x, y)
    ensures TableManifests(of, a) == TableManifests(of, b) <==>
            a.Keys == b.Keys && forall name | name in a :: SameRows(a[name], b[name])
  {
    var ma, mb := TableManifests(of, a), TableManifests(of, b);
    if ma == mb {
      forall name | name in a ensures SameRows(a[name], b[name]) {
        assert ma[name] == mb[name];
      }
    }
  }

  /** Equal manifests mean equal schema, pragmas and row multisets, and conversely. */
  lemma ManifestExact(h: Hashing, a: Database, b: Database)
    requires CollisionFree(h)
    ensures ManifestOf(h, a) == ManifestOf(h, b) <==> SameContent(a, b)
  {
    var of := (t: Table) => TableManifestOf(h, t);
    forall x, y ensures of(x) == of(y) <==> SameRows(x, y) { TableManifestExact(h, x, y); }
    SameTablesExact(of, a.tables, b.tables);
    assert ManifestOf(h, a).tables == TableManifests(of, a.tables)
        && ManifestOf(h, b).tables == TableManifests(of, b.tables);
  }
}
