/** Row deduplication, incremental diffs and the target snapshot
    (scrapequeue/pipeline/dedupe.py, row_identity in scrapequeue/workers/extract.py). */
module Dedupe {
  import opened Wrappers
  import Text

  /** A cell: whether it counts as true, and its text. */
  datatype Value = Value(truthy: bool, text: string)

  type Row = map<string, Value>

  /** row_hash: any function of a row; nothing is assumed about it. */
  type Hash = Row -> string

  /** row_identity of a target, once its row_key is fixed. */
  type Key = Row -> string

  /** A target's snapshot: row key to content hash. */
  type Snapshot = map<string, string>

  datatype Error = CardinalityViolation

  // ----- identity -----

  /** The text of a cell, empty if the cell is missing or counts as false. */
  function Cell(row: Row, k: string): string {
    if k in row && row[k].truthy then row[k].text else ""
  }

  function Cells(row: Row, keys: seq<string>): seq<string> {
    if keys == [] then [] else [Cell(row, keys[0])] + Cells(row, keys[1..])
  }

  function IdentityKeys(row: Row, rowKey: seq<string>): seq<string> {
    if rowKey != [] then rowKey else Text.Sorted(row.Keys)
  }

  function Identity(row: Row, rowKey: seq<string>): string {
    Text.Join(Cells(row, IdentityKeys(row, rowKey)), '|')
  }

  /** A key cell that is missing or counts as false contributes the empty text, any other
      its own, each at its place in the key. */
  lemma KeyCells(row: Row, rowKey: seq<string>, i: nat)
    requires i < |rowKey|
    ensures |Cells(row, rowKey)| == |rowKey|
    ensures rowKey[i] !in row || !row[rowKey[i]].truthy ==> Cells(row, rowKey)[i] == ""
    ensures rowKey[i] in row && row[rowKey[i]].truthy ==> Cells(row, rowKey)[i] == row[rowKey[i]].text
    ensures |rowKey| == 1 ==> Identity(row, rowKey) == Cells(row, rowKey)[0]
  {
    CellsAt(row, rowKey, i);
    CellsAt(row, rowKey, 0);
  }

  ghost predicate DistinctNames(rowKey: seq<string>) {
    forall i, j :: 0 <= i < j < |rowKey| ==> rowKey[i] != rowKey[j]
  }

  lemma {:induction false} CellsAt(row: Row, keys: seq<string>, i: nat)
    requires i < |keys|
    ensures |Cells(row, keys)| == |keys| && Cells(row, keys)[i] == Cell(row, keys[i])
    ensures |keys| > 1 ==> |Cells(row, keys[1..])| == |keys| - 1
  {
    if |keys| > 1 {
      CellsAt(row, keys[1..], if i > 0 then i - 1 else 0);
    }
  }

  /** Any cells are the key cells of some row. */
  lemma RowWithCells(rowKey: seq<string>, cells: seq<string>) returns (row: Row)
    requires DistinctNames(rowKey) && |cells| == |rowKey| > 0
    ensures Cells(row, rowKey) == cells && forall k :: k in row <==> k in rowKey
  {
    row := map i | 0 <= i < |rowKey| :: rowKey[i] := Value(cells[i] != "", cells[i]);
    CellsAt(row, rowKey, 0);
    forall i | 0 <= i < |rowKey|
      ensures Cells(row, rowKey)[i] == cells[i]
    {
      CellsAt(row, rowKey, i);
    }
  }

  ghost predicate HasBar(cells: seq<string>) {
    exists c :: c in cells && '|' in c
  }

  /** A '|' in one of several key cells can be moved to a neighbour unseen. */
  lemma BarsCollide(a: Row, rowKey: seq<string>) returns (b: Row)
    requires DistinctNames(rowKey) && |rowKey| > 1 && HasBar(Cells(a, rowKey))
    ensures Identity(a, rowKey) == Identity(b, rowKey) && Cells(a, rowKey) != Cells(b, rowKey)
    ensures forall k :: k in b <==> k in rowKey
  {
    var cells := Cells(a, rowKey);
    CellsAt(a, rowKey, 0);
    var i :| 0 <= i < |cells| && '|' in cells[i];
    var moved := Text.SeparatorMoves(cells, i, '|');
    b := RowWithCells(rowKey, moved);
  }

  /** A row's identity tells it apart from every row with other key cells exactly if
      the key has one column or none of the row's key cells contains a '|'. */
  lemma IdentityIsFaithfulIff(a: Row, rowKey: seq<string>)
    requires DistinctNames(rowKey) && rowKey != []
    ensures (forall b :: Identity(a, rowKey) == Identity(b, rowKey) ==> Cells(a, rowKey) == Cells(b, rowKey))
            <==> |rowKey| == 1 || !HasBar(Cells(a, rowKey))
  {
    if |rowKey| > 1 && HasBar(Cells(a, rowKey)) {
      var b := BarsCollide(a, rowKey);
    } else {
      forall b | Identity(a, rowKey) == Identity(b, rowKey)
        ensures Cells(a, rowKey) == Cells(b, rowKey)
      {
        SharedIdentity(a, b, rowKey);
      }
    }
  }

  lemma SharedIdentity(a: Row, b: Row, rowKey: seq<string>)
    requires rowKey != [] && Identity(a, rowKey) == Identity(b, rowKey)
    requires |rowKey| == 1 || !HasBar(Cells(a, rowKey))
    ensures Cells(a, rowKey) == Cells(b, rowKey)
  {
    CellsAt(a, rowKey, 0);
    CellsAt(b, rowKey, 0);
    if |rowKey| > 1 {
      Text.SplitCountsParts(Cells(a, rowKey), '|');
      Text.SplitCountsParts(Cells(b, rowKey), '|');
      Text.SplitUndoesJoin(Cells(a, rowKey), '|');
      Text.SplitUndoesJoin(Cells(b, rowKey), '|');
    }
  }

  lemma SameColumns(a: Row, b: Row)
    requires b.Keys == a.Keys && a != map[]
    ensures Text.Sorted(a.Keys) != [] && Identity(b, []) == Identity(b, Text.Sorted(a.Keys))
  {
    var k :| k in a;
    assert k in Text.Sorted(a.Keys);
  }

  lemma ColumnsCollide(a: Row, columns: seq<string>) returns (b: Row)
    requires Text.StrictlySorted(columns) && |columns| > 1 && HasBar(Cells(a, columns))
    requires forall k :: k in columns <==> k in a
    ensures b.Keys == a.Keys && Identity(a, columns) == Identity(b, columns) && Cells(a, columns) != Cells(b, columns)
  {
    b := BarsCollide(a, columns);
  }

  lemma UnkeyedCollide(a: Row) returns (b: Row)
    requires |Text.Sorted(a.Keys)| > 1 && HasBar(Cells(a, Text.Sorted(a.Keys)))
    ensures b.Keys == a.Keys && Identity(a, []) == Identity(b, [])
    ensures Cells(a, Text.Sorted(a.Keys)) != Cells(b, Text.Sorted(a.Keys))
  {
    b := ColumnsCollide(a, Text.Sorted(a.Keys));
  }

  lemma UnkeyedShared(a: Row, b: Row)
    requires a != map[] && b.Keys == a.Keys && Identity(a, []) == Identity(b, [])
    requires |Text.Sorted(a.Keys)| == 1 || !HasBar(Cells(a, Text.Sorted(a.Keys)))
    ensures Cells(a, Text.Sorted(a.Keys)) == Cells(b, Text.Sorted(a.Keys))
  {
    SameColumns(a, b);
    SharedIdentity(a, b, Text.Sorted(a.Keys));
  }

  /** Without a declared key, the same holds for the rows that have the row's columns,
      and all of its cells. */
  lemma UnkeyedIdentityIsFaithfulIff(a: Row)
    requires a != map[]
    ensures (forall b: Row :: b.Keys == a.Keys && Identity(a, []) == Identity(b, []) ==>
               Cells(a, Text.Sorted(a.Keys)) == Cells(b, Text.Sorted(a.Keys)))
            <==> |a| == 1 || !HasBar(Cells(a, Text.Sorted(a.Keys)))
  {
    SameColumns(a, a);
    assert |Text.Sorted(a.Keys)| == |a|;
    if |a| != 1 && HasBar(Cells(a, Text.Sorted(a.Keys))) {
      var b := UnkeyedCollide(a);
    } else {
      forall b: Row | b.Keys == a.Keys && Identity(a, []) == Identity(b, [])
        ensures Cells(a, Text.Sorted(a.Keys)) == Cells(b, Text.Sorted(a.Keys))
      {
        UnkeyedShared(a, b);
      }
    }
  }

  /** Two rows with different key cells that collide. */
  lemma IdentitiesCanCollide() returns (a: Row, b: Row, rowKey: seq<string>)
    ensures rowKey != [] && Cells(a, rowKey) != Cells(b, rowKey) && Identity(a, rowKey) == Identity(b, rowKey)
  {
    rowKey := ["x", "y"];
    a := map["x" := Value(true, "1|2"), "y" := Value(true, "3")];
    b := map["x" := Value(true, "1"), "y" := Value(true, "2|3")];
    assert rowKey[1..] == ["y"] && rowKey[1..][1..] == [];
    assert Cells(a, rowKey) == ["1|2", "3"] && Cells(b, rowKey) == ["1", "2|3"];
    assert Cells(a, rowKey)[1..] == ["3"] && Cells(b, rowKey)[1..] == ["2|3"];
    assert Identity(a, rowKey) == "1|2" + "|" + "3" == "1|2|3";
    assert Identity(b, rowKey) == "1" + "|" + "2|3" == "1|2|3";
  }

  /** The key function of a target. */
  function KeyBy(rowKey: seq<string>): Key {
    (row: Row) => Identity(row, rowKey)
  }

  // ----- distinct keys -----

  /** The keys that occur in a list of rows. */
  function KeySet(rows: seq<Row>, key: Key): set<string> {
    if rows == [] then {} else KeySet(rows[..|rows| - 1], key) + {key(rows[|rows| - 1])}
  }

  lemma {:induction false} KeySetHas(rows: seq<Row>, key: Key, id: string)
    ensures id in KeySet(rows, key) <==> exists i :: 0 <= i < |rows| && key(rows[i]) == id
  {
    if rows != [] {
      KeySetHas(rows[..|rows| - 1], key, id);
    }
  }

  ghost predicate Distinct(rows: seq<Row>, key: Key) {
    forall i, j :: 0 <= i < j < |rows| ==> key(rows[i]) != key(rows[j])
  }

  // ----- dedupe -----

  /** The rows whose key is not in `seen` and has not occurred before. */
  function FirstOccurrences(rows: seq<Row>, key: Key, seen: set<string>): seq<Row> {
    if rows == [] then []
    else if key(rows[0]) in seen then FirstOccurrences(rows[1..], key, seen)
    else [rows[0]] + FirstOccurrences(rows[1..], key, seen + {key(rows[0])})
  }

  /** Without a declared key every row is kept. */
  function Deduped(rows: seq<Row>, rowKey: seq<string>): seq<Row> {
    if rowKey == [] then rows else FirstOccurrences(rows, KeyBy(rowKey), {})
  }

  method Dedupe(rows: seq<Row>, rowKey: seq<string>) returns (kept: seq<Row>, duplicates: nat)
    ensures kept == Deduped(rows, rowKey)
    ensures |kept| + duplicates == |rows|
    ensures rowKey == [] ==> kept == rows && duplicates == 0
  {
    if rowKey == [] {
      return rows, 0;
    }
    ghost var key := KeyBy(rowKey);
    var seen: set<string> := {};
    kept, duplicates := [], 0;
    for i := 0 to |rows|
      invariant kept + FirstOccurrences(rows[i..], key, seen) == FirstOccurrences(rows, key, {})
      invariant |kept| + duplicates == i
    {
      var id := Identity(rows[i], rowKey);
      NextOccurrence(kept, rows, key, seen, i);
      if id in seen {
        duplicates := duplicates + 1;
      } else {
        seen := seen + {id};
        kept := kept + [rows[i]];
      }
    }
  }

  lemma NextOccurrence(kept: seq<Row>, rows: seq<Row>, key: Key, seen: set<string>, i: nat)
    requires i < |rows|
    ensures kept + FirstOccurrences(rows[i..], key, seen)
            == if key(rows[i]) in seen then kept + FirstOccurrences(rows[i + 1..], key, seen)
               else kept + [rows[i]] + FirstOccurrences(rows[i + 1..], key, seen + {key(rows[i])})
  {
    assert rows[i..][0] == rows[i] && rows[i..][1..] == rows[i + 1..];
  }

  ghost predicate IsFirst(rows: seq<Row>, key: Key, i: nat)
    requires i < |rows|
  {
    forall j :: 0 <= j < i ==> key(rows[j]) != key(rows[i])
  }

  /** The rows among the first n that share their key with no earlier row. */
  ghost function Firsts(rows: seq<Row>, key: Key, n: nat): seq<Row>
    requires n <= |rows|
  {
    if n == 0 then [] else Firsts(rows, key, n - 1) + if IsFirst(rows, key, n - 1) then [rows[n - 1]] else []
  }

  lemma SeenUnlessFirst(rows: seq<Row>, key: Key, n: nat)
    requires n < |rows|
    ensures key(rows[n]) in KeySet(rows[..n], key) <==> !IsFirst(rows, key, n)
    ensures KeySet(rows[..n + 1], key) == KeySet(rows[..n], key) + {key(rows[n])}
  {
    KeySetHas(rows[..n], key, key(rows[n]));
    assert rows[..n + 1][..n] == rows[..n];
    if key(rows[n]) in KeySet(rows[..n], key) {
      var i :| 0 <= i < n && key(rows[..n][i]) == key(rows[n]);
      assert rows[..n][i] == rows[i];
    } else {
      forall j | 0 <= j < n
        ensures key(rows[j]) != key(rows[n])
      {
        assert rows[..n][j] == rows[j];
      }
    }
  }

  lemma {:induction false} FirstsFrom(rows: seq<Row>, key: Key, n: nat)
    requires n <= |rows|
    ensures Firsts(rows, key, n) + FirstOccurrences(rows[n..], key, KeySet(rows[..n], key))
            == Firsts(rows, key, |rows|)
    decreases |rows| - n
  {
    if n < |rows| {
      FirstsFrom(rows, key, n + 1);
      SeenUnlessFirst(rows, key, n);
      assert rows[n..][0] == rows[n] && rows[n..][1..] == rows[n + 1..];
      if !IsFirst(rows, key, n) {
        assert KeySet(rows[..n], key) + {key(rows[n])} == KeySet(rows[..n], key);
      }
    }
  }

  lemma DistinctAppend(front: seq<Row>, key: Key, row: Row)
    requires Distinct(front, key) && key(row) !in KeySet(front, key)
    ensures Distinct(front + [row], key)
    ensures KeySet(front + [row], key) == KeySet(front, key) + {key(row)}
  {
    KeySetHas(front, key, key(row));
    assert (front + [row])[..|front|] == front;
  }

  lemma NextFirst(rows: seq<Row>, key: Key, m: nat, before: seq<Row>)
    requires m < |rows| && before == Firsts(rows, key, m)
    requires Distinct(before, key) && KeySet(before, key) == KeySet(rows[..m], key)
    ensures Distinct(Firsts(rows, key, m + 1), key)
    ensures KeySet(Firsts(rows, key, m + 1), key) == KeySet(rows[..m + 1], key)
  {
    SeenUnlessFirst(rows, key, m);
    if IsFirst(rows, key, m) {
      DistinctAppend(before, key, rows[m]);
    } else {
      assert Firsts(rows, key, m + 1) == before;
      assert KeySet(rows[..m], key) + {key(rows[m])} == KeySet(rows[..m], key);
    }
  }

  lemma {:induction false} FirstsAreDistinct(rows: seq<Row>, key: Key, n: nat)
    requires n <= |rows|
    ensures Distinct(Firsts(rows, key, n), key)
    ensures KeySet(Firsts(rows, key, n), key) == KeySet(rows[..n], key)
  {
    if n > 0 {
      FirstsAreDistinct(rows, key, n - 1);
      NextFirst(rows, key, n - 1, Firsts(rows, key, n - 1));
    }
  }

  /** Deduplication by a declared key keeps exactly the first row of every key, in
      order; distinct keys make the later upsert well defined. */
  lemma DedupeKeepsFirsts(rows: seq<Row>, rowKey: seq<string>)
    requires rowKey != []
    ensures Deduped(rows, rowKey) == Firsts(rows, KeyBy(rowKey), |rows|)
    ensures Distinct(Deduped(rows, rowKey), KeyBy(rowKey))
    ensures KeySet(Deduped(rows, rowKey), KeyBy(rowKey)) == KeySet(rows, KeyBy(rowKey))
  {
    FirstsFrom(rows, KeyBy(rowKey), 0);
    assert rows[0..] == rows;
    FirstsAreDistinct(rows, KeyBy(rowKey), |rows|);
    assert rows[..|rows|] == rows;
  }

  // ----- diff -----

  datatype Diff = Diff(added: seq<Row>, changed: seq<Row>, removedKeys: seq<string>) {
    /** What an incremental run emits. */
    function Rows(): seq<Row> { added + changed }
  }

  function Added(rows: seq<Row>, key: Key, stored: Snapshot): seq<Row> {
    if rows == [] then []
    else Added(rows[..|rows| - 1], key, stored) + if key(rows[|rows| - 1]) !in stored then [rows[|rows| - 1]] else []
  }

  function Changed(rows: seq<Row>, key: Key, hash: Hash, stored: Snapshot): seq<Row> {
    if rows == [] then []
    else
      var last := rows[|rows| - 1];
      Changed(rows[..|rows| - 1], key, hash, stored)
      + if key(last) in stored && stored[key(last)] != hash(last) then [last] else []
  }

  function DiffOf(rows: seq<Row>, key: Key, hash: Hash, stored: Snapshot): Diff {
    Diff(Added(rows, key, stored), Changed(rows, key, hash, stored), Text.Sorted(stored.Keys - KeySet(rows, key)))
  }

  // ----- upsert -----

  /** One INSERT .. ON CONFLICT DO UPDATE per row, in order. */
  function Upserted(stored: Snapshot, rows: seq<Row>, key: Key, hash: Hash): Snapshot {
    if rows == [] then stored
    else Upserted(stored, rows[..|rows| - 1], key, hash)[key(rows[|rows| - 1]) := hash(rows[|rows| - 1])]
  }

  /** The single INSERT statement over all rows: PostgreSQL refuses to touch one
      row twice, so the statement fails when two rows share a key. */
  function StoreSnapshot(stored: Snapshot, rows: seq<Row>, key: Key, hash: Hash): Result<Snapshot, Error> {
    if |KeySet(rows, key)| == |rows| then Ok(Upserted(stored, rows, key, hash)) else Err(CardinalityViolation)
  }

  /** The target_snapshots rows of one target. */
  class SnapshotTable {
    var stored: Snapshot
    const rowKey: seq<string>
    const hash: Hash

    constructor (rowKey: seq<string>, hash: Hash)
      ensures stored == map[] && this.rowKey == rowKey && this.hash == hash
    {
      this.rowKey, this.hash := rowKey, hash;
      stored := map[];
    }

    method DiffAgainstSnapshot(rows: seq<Row>) returns (diff: Diff)
      ensures diff == DiffOf(rows, KeyBy(rowKey), hash, stored)
    {
      ghost var keyOf := KeyBy(rowKey);
      var added, changed, seen := [], [], {};
      for i := 0 to |rows|
        invariant added == Added(rows[..i], keyOf, stored)
        invariant changed == Changed(rows[..i], keyOf, hash, stored)
        invariant seen == KeySet(rows[..i], keyOf)
      {
        var key := Identity(rows[i], rowKey);
        assert keyOf(rows[i]) == key && rows[..i + 1][..i] == rows[..i];
        seen := seen + {key};
        var digest := hash(rows[i]);
        if key !in stored {
          added := added + [rows[i]];
        } else if stored[key] != digest {
          changed := changed + [rows[i]];
        }
      }
      assert rows[..|rows|] == rows;
      diff := Diff(added, changed, Text.Sorted(stored.Keys - seen));
    }

    method Store(rows: seq<Row>) returns (r: Result<(), Error>)
      modifies this
      ensures StoreSnapshot(old(stored), rows, KeyBy(rowKey), hash)
              == if r.Ok? then Ok(stored) else Err(CardinalityViolation)
      ensures r.Err? ==> r.error == CardinalityViolation && stored == old(stored)
    {
      ghost var keyOf := KeyBy(rowKey);
      var before, touched := stored, {};
      for i := 0 to |rows|
        invariant stored == Upserted(before, rows[..i], keyOf, hash)
        invariant touched == KeySet(rows[..i], keyOf) && |touched| == i
      {
        var key := Identity(rows[i], rowKey);
        StoreStep(before, rows, keyOf, hash, i);
        if key in touched {
          stored := before;
          return Err(CardinalityViolation);
        }
        touched := touched + {key};
        stored := stored[key := hash(rows[i])];
      }
      assert rows[..|rows|] == rows;
      r := Ok(());
    }
  }

  lemma {:induction false} KeySetSize(rows: seq<Row>, key: Key)
    ensures |KeySet(rows, key)| <= |rows|
    ensures |KeySet(rows, key)| == |rows| <==> Distinct(rows, key)
  {
    if rows != [] {
      var front, last := rows[..|rows| - 1], rows[|rows| - 1];
      KeySetSize(front, key);
      KeySetHas(front, key, key(last));
      if key(last) in KeySet(front, key) {
        assert KeySet(rows, key) == KeySet(front, key);
        var i :| 0 <= i < |front| && key(front[i]) == key(last);
        assert rows[i] == front[i];
      }
    }
  }

  /** One row of the statement: it adds its key, and fails the whole if it is there. */
  lemma StoreStep(before: Snapshot, rows: seq<Row>, key: Key, hash: Hash, i: nat)
    requires i < |rows|
    ensures Upserted(before, rows[..i + 1], key, hash)
            == Upserted(before, rows[..i], key, hash)[key(rows[i]) := hash(rows[i])]
    ensures KeySet(rows[..i + 1], key) == KeySet(rows[..i], key) + {key(rows[i])}
    ensures key(rows[i]) in KeySet(rows[..i], key) ==>
            StoreSnapshot(before, rows, key, hash) == Err(CardinalityViolation)
  {
    assert rows[..i + 1][..i] == rows[..i];
    if key(rows[i]) in KeySet(rows[..i], key) {
      KeySetSize(rows, key);
      SeenUnlessFirst(rows, key, i);
    }
  }

  /** The snapshot statement succeeds exactly when no two rows share a key. */
  lemma StoreSucceedsIffDistinct(stored: Snapshot, rows: seq<Row>, key: Key, hash: Hash)
    ensures StoreSnapshot(stored, rows, key, hash).Ok? <==> Distinct(rows, key)
  {
    KeySetSize(rows, key);
  }

  /** So after deduplication it never fails for a target with a declared key ... */
  lemma KeyedTargetsAlwaysStore(stored: Snapshot, rows: seq<Row>, rowKey: seq<string>, hash: Hash)
    requires rowKey != []
    ensures StoreSnapshot(stored, Deduped(rows, rowKey), KeyBy(rowKey), hash).Ok?
  {
    DedupeKeepsFirsts(rows, rowKey);
    StoreSucceedsIffDistinct(stored, Deduped(rows, rowKey), KeyBy(rowKey), hash);
  }

  /** ... and for one without it fails on any repeated row, which nothing removes. */
  lemma UnkeyedTargetsCanFail(stored: Snapshot, row: Row, hash: Hash)
    ensures StoreSnapshot(stored, Deduped([row, row], []), KeyBy([]), hash) == Err(CardinalityViolation)
  {
    StoreSucceedsIffDistinct(stored, [row, row], KeyBy([]), hash);
    assert !Distinct([row, row], KeyBy([])) by {
      assert [row, row][0] == [row, row][1];
    }
  }

  // ----- the snapshot against the history of runs -----

  lemma {:induction false} UpsertedHas(stored: Snapshot, rows: seq<Row>, key: Key, hash: Hash, id: string)
    ensures id in Upserted(stored, rows, key, hash) <==> id in stored || id in KeySet(rows, key)
    ensures id !in KeySet(rows, key) && id in stored ==> Upserted(stored, rows, key, hash)[id] == stored[id]
  {
    if rows != [] {
      UpsertedHas(stored, rows[..|rows| - 1], key, hash, id);
    }
  }

  lemma {:induction false} UpsertedAt(stored: Snapshot, rows: seq<Row>, key: Key, hash: Hash, i: nat)
    requires i < |rows| && Distinct(rows, key)
    ensures key(rows[i]) in Upserted(stored, rows, key, hash)
    ensures Upserted(stored, rows, key, hash)[key(rows[i])] == hash(rows[i])
  {
    if i < |rows| - 1 {
      var front := rows[..|rows| - 1];
      assert front[i] == rows[i];
      UpsertedAt(stored, front, key, hash, i);
    }
  }

  lemma {:induction false} AddedIs(rows: seq<Row>, key: Key, stored: Snapshot, row: Row)
    ensures row in Added(rows, key, stored) <==> row in rows && key(row) !in stored
  {
    if rows != [] {
      AddedIs(rows[..|rows| - 1], key, stored, row);
      assert rows == rows[..|rows| - 1] + [rows[|rows| - 1]];
    }
  }

  lemma {:induction false} ChangedIs(rows: seq<Row>, key: Key, hash: Hash, stored: Snapshot, row: Row)
    ensures row in Changed(rows, key, hash, stored)
            <==> row in rows && key(row) in stored && stored[key(row)] != hash(row)
  {
    if rows != [] {
      ChangedIs(rows[..|rows| - 1], key, hash, stored, row);
      assert rows == rows[..|rows| - 1] + [rows[|rows| - 1]];
    }
  }

  /** The table after a series of runs of a keyed target, each deduplicated and stored. */
  function AfterRuns(runs: seq<seq<Row>>, rowKey: seq<string>, hash: Hash): Snapshot {
    if runs == [] then map[]
    else Upserted(AfterRuns(runs[..|runs| - 1], rowKey, hash), Deduped(runs[|runs| - 1], rowKey), KeyBy(rowKey), hash)
  }

  /** The first row of a run with a given key. */
  function FirstWith(rows: seq<Row>, key: Key, id: string): Option<Row> {
    if rows == [] then None
    else if key(rows[0]) == id then Some(rows[0])
    else FirstWith(rows[1..], key, id)
  }

  /** From the raw history alone: the row that represents a key, which is the first
      row with that key in the latest run that has one. */
  function LastSeen(runs: seq<seq<Row>>, key: Key, id: string): Option<Row> {
    if runs == [] then None
    else
      var here := FirstWith(runs[|runs| - 1], key, id);
      if here.Some? then here else LastSeen(runs[..|runs| - 1], key, id)
  }

  lemma {:induction false} FirstWithIs(rows: seq<Row>, key: Key, id: string, n: nat)
    requires n < |rows| && key(rows[n]) == id && IsFirst(rows, key, n)
    ensures FirstWith(rows, key, id) == Some(rows[n])
  {
    if n > 0 {
      assert key(rows[0]) != key(rows[n]);
      assert rows[1..][n - 1] == rows[n];
      forall j | 0 <= j < n - 1
        ensures key(rows[1..][j]) != key(rows[1..][n - 1])
      {
        assert rows[1..][j] == rows[j + 1];
      }
      FirstWithIs(rows[1..], key, id, n - 1);
    }
  }

  lemma {:induction false} FirstWithNone(rows: seq<Row>, key: Key, id: string)
    ensures FirstWith(rows, key, id).Some? <==> exists i :: 0 <= i < |rows| && key(rows[i]) == id
  {
    if rows != [] {
      FirstWithNone(rows[1..], key, id);
      if key(rows[0]) != id {
        if i :| 0 <= i < |rows| && key(rows[i]) == id {
          assert rows[1..][i - 1] == rows[i];
        }
        if i :| 0 <= i < |rows[1..]| && key(rows[1..][i]) == id {
          assert rows[i + 1] == rows[1..][i];
        }
      }
    }
  }

  lemma {:induction false} FirstsHold(rows: seq<Row>, key: Key, n: nat, k: nat) returns (i: nat)
    requires n <= |rows| && k < |Firsts(rows, key, n)|
    ensures i < n && IsFirst(rows, key, i) && Firsts(rows, key, n)[k] == rows[i]
  {
    if k < |Firsts(rows, key, n - 1)| {
      i := FirstsHold(rows, key, n - 1, k);
    } else {
      i := n - 1;
    }
  }

  /** Storing a run records, for every key in it, the hash of its first row. */
  lemma StoreRecordsFirsts(stored: Snapshot, rows: seq<Row>, rowKey: seq<string>, hash: Hash, id: string)
    requires rowKey != []
    ensures var after := Upserted(stored, Deduped(rows, rowKey), KeyBy(rowKey), hash);
            var here := FirstWith(rows, KeyBy(rowKey), id);
            if here.Some? then id in after && after[id] == hash(here.value)
            else (id in after <==> id in stored) && (id in stored ==> after[id] == stored[id])
  {
    var key, kept := KeyBy(rowKey), Deduped(rows, rowKey);
    DedupeKeepsFirsts(rows, rowKey);
    UpsertedHas(stored, kept, key, hash, id);
    KeySetHas(kept, key, id);
    KeySetHas(rows, key, id);
    FirstWithNone(rows, key, id);
    if FirstWith(rows, key, id).Some? {
      var k :| 0 <= k < |kept| && key(kept[k]) == id;
      UpsertedAt(stored, kept, key, hash, k);
      var i := FirstsHold(rows, key, |rows|, k);
      FirstWithIs(rows, key, id, i);
    }
  }

  /** The snapshot is a fold of history: it maps exactly the keys ever seen, each
      to the hash it had when it was last seen. */
  lemma {:induction false} SnapshotIsHistory(runs: seq<seq<Row>>, rowKey: seq<string>, hash: Hash, id: string)
    requires rowKey != []
    ensures var stored, last := AfterRuns(runs, rowKey, hash), LastSeen(runs, KeyBy(rowKey), id);
            && (id in stored <==> last.Some?)
            && (id in stored ==> stored[id] == hash(last.value))
  {
    if runs != [] {
      var front := runs[..|runs| - 1];
      SnapshotIsHistory(front, rowKey, hash, id);
      StoreRecordsFirsts(AfterRuns(front, rowKey, hash), runs[|runs| - 1], rowKey, hash, id);
    }
  }

  /** So a diff speaks about history: a row is added iff its key is new, changed
      iff its hash differs from when its key was last seen, and the removed keys
      are, sorted, those once seen and absent now. */
  lemma DiffIsAgainstHistory(runs: seq<seq<Row>>, rows: seq<Row>, rowKey: seq<string>, hash: Hash)
    requires rowKey != []
    ensures var key := KeyBy(rowKey);
            var diff := DiffOf(rows, key, hash, AfterRuns(runs, rowKey, hash));
            && (forall row :: row in diff.added <==> row in rows && LastSeen(runs, key, key(row)).None?)
            && (forall row :: row in diff.changed <==>
                  && row in rows && LastSeen(runs, key, key(row)).Some?
                  && hash(LastSeen(runs, key, key(row)).value) != hash(row))
            && (forall id :: id in diff.removedKeys <==>
                  LastSeen(runs, key, id).Some? && forall i :: 0 <= i < |rows| ==> key(rows[i]) != id)
            && Text.StrictlySorted(diff.removedKeys)
  {
    var key, stored := KeyBy(rowKey), AfterRuns(runs, rowKey, hash);
    var diff := DiffOf(rows, key, hash, stored);
    forall row
      ensures row in diff.added <==> row in rows && LastSeen(runs, key, key(row)).None?
      ensures row in diff.changed <==>
                && row in rows && LastSeen(runs, key, key(row)).Some?
                && hash(LastSeen(runs, key, key(row)).value) != hash(row)
    {
      AddedIs(rows, key, stored, row);
      ChangedIs(rows, key, hash, stored, row);
      SnapshotIsHistory(runs, rowKey, hash, key(row));
    }
    forall id
      ensures id in diff.removedKeys <==>
                LastSeen(runs, key, id).Some? && forall i :: 0 <= i < |rows| ==> key(rows[i]) != id
    {
      SnapshotIsHistory(runs, rowKey, hash, id);
      KeySetHas(rows, key, id);
    }
  }

  /** The diff is a sufficient patch: storing only what it emits gives the same
      snapshot as storing every row. */
  lemma DiffIsSufficientPatch(stored: Snapshot, rows: seq<Row>, key: Key, hash: Hash)
    requires Distinct(rows, key)
    ensures Distinct(DiffOf(rows, key, hash, stored).Rows(), key)
    ensures Upserted(stored, DiffOf(rows, key, hash, stored).Rows(), key, hash) == Upserted(stored, rows, key, hash)
  {
    var patch := DiffOf(rows, key, hash, stored).Rows();
    PatchIsDistinct(rows, key, hash, stored);
    var less, more := Upserted(stored, patch, key, hash), Upserted(stored, rows, key, hash);
    forall id
      ensures id in less <==> id in more
      ensures id in less ==> less[id] == more[id]
    {
      PatchedAlike(stored, rows, key, hash, id);
    }
  }

  lemma PatchedAlike(stored: Snapshot, rows: seq<Row>, key: Key, hash: Hash, id: string)
    requires Distinct(rows, key) && Distinct(DiffOf(rows, key, hash, stored).Rows(), key)
    ensures var less := Upserted(stored, DiffOf(rows, key, hash, stored).Rows(), key, hash);
            var more := Upserted(stored, rows, key, hash);
            && (id in less <==> id in more)
            && (id in less ==> less[id] == more[id])
  {
    var patch := DiffOf(rows, key, hash, stored).Rows();
    UpsertedHas(stored, patch, key, hash, id);
    UpsertedHas(stored, rows, key, hash, id);
    KeySetHas(patch, key, id);
    KeySetHas(rows, key, id);
    if k :| 0 <= k < |patch| && key(patch[k]) == id {
      PatchRowIsRow(stored, rows, key, hash, k);
      var j :| 0 <= j < |rows| && rows[j] == patch[k];
    }
    if i :| 0 <= i < |rows| && key(rows[i]) == id {
      UpsertedAt(stored, rows, key, hash, i);
      PatchRecords(stored, rows, key, hash, i);
    }
  }

  /** A row that the patch leaves out is in the snapshot already, with its hash. */
  lemma LeftOutIsStored(stored: Snapshot, rows: seq<Row>, key: Key, hash: Hash, i: nat)
    requires i < |rows| && key(rows[i]) !in KeySet(DiffOf(rows, key, hash, stored).Rows(), key)
    ensures key(rows[i]) in stored && stored[key(rows[i])] == hash(rows[i])
  {
    var diff := DiffOf(rows, key, hash, stored);
    AddedIs(rows, key, stored, rows[i]);
    ChangedIs(rows, key, hash, stored, rows[i]);
    if rows[i] in diff.Rows() {
      KeySetHas(diff.Rows(), key, key(rows[i]));
    }
  }

  /** After the patch the snapshot has every row's hash. */
  lemma PatchRecords(stored: Snapshot, rows: seq<Row>, key: Key, hash: Hash, i: nat)
    requires i < |rows| && Distinct(rows, key) && Distinct(DiffOf(rows, key, hash, stored).Rows(), key)
    ensures var less := Upserted(stored, DiffOf(rows, key, hash, stored).Rows(), key, hash);
            key(rows[i]) in less && less[key(rows[i])] == hash(rows[i])
  {
    var patch, id := DiffOf(rows, key, hash, stored).Rows(), key(rows[i]);
    UpsertedHas(stored, patch, key, hash, id);
    KeySetHas(patch, key, id);
    if id in KeySet(patch, key) {
      var k :| 0 <= k < |patch| && key(patch[k]) == id;
      PatchRowIsRow(stored, rows, key, hash, k);
      var j :| 0 <= j < |rows| && rows[j] == patch[k];
      UpsertedAt(stored, patch, key, hash, k);
    } else {
      LeftOutIsStored(stored, rows, key, hash, i);
    }
  }

  lemma PatchRowIsRow(stored: Snapshot, rows: seq<Row>, key: Key, hash: Hash, k: nat)
    requires k < |DiffOf(rows, key, hash, stored).Rows()|
    ensures var diff := DiffOf(rows, key, hash, stored);
            diff.Rows()[k] in rows && (diff.Rows()[k] in diff.added || diff.Rows()[k] in diff.changed)
  {
    var diff := DiffOf(rows, key, hash, stored);
    var row := diff.Rows()[k];
    assert row in diff.added || row in diff.changed;
    AddedIs(rows, key, stored, row);
    ChangedIs(rows, key, hash, stored, row);
  }

  lemma {:induction false} PartsAreDistinct(rows: seq<Row>, key: Key, hash: Hash, stored: Snapshot)
    requires Distinct(rows, key)
    ensures Distinct(Added(rows, key, stored), key) && Distinct(Changed(rows, key, hash, stored), key)
  {
    if rows != [] {
      var front, last := rows[..|rows| - 1], rows[|rows| - 1];
      PartsAreDistinct(front, key, hash, stored);
      forall row | row in Added(front, key, stored) || row in Changed(front, key, hash, stored)
        ensures key(row) != key(last)
      {
        AddedIs(front, key, stored, row);
        ChangedIs(front, key, hash, stored, row);
        var i :| 0 <= i < |front| && front[i] == row;
        assert rows[i] == row;
      }
    }
  }

  lemma PatchIsDistinct(rows: seq<Row>, key: Key, hash: Hash, stored: Snapshot)
    requires Distinct(rows, key)
    ensures Distinct(DiffOf(rows, key, hash, stored).Rows(), key)
  {
    var diff := DiffOf(rows, key, hash, stored);
    PartsAreDistinct(rows, key, hash, stored);
    forall a, b | a in diff.added && b in diff.changed
      ensures key(a) != key(b)
    {
      AddedIs(rows, key, stored, a);
      ChangedIs(rows, key, hash, stored, b);
    }
    var patch := diff.Rows();
    forall i, j | 0 <= i < j < |patch|
      ensures key(patch[i]) != key(patch[j])
    {
      if i < |diff.added| <= j {
        assert patch[i] in diff.added && patch[j] in diff.changed;
      }
    }
  }

  /** Once stored, the same rows are neither added nor changed. */
  lemma DiffAfterStoreIsEmpty(stored: Snapshot, rows: seq<Row>, key: Key, hash: Hash)
    requires Distinct(rows, key)
    ensures DiffOf(rows, key, hash, Upserted(stored, rows, key, hash)).Rows() == []
  {
    var after := Upserted(stored, rows, key, hash);
    var diff := DiffOf(rows, key, hash, after);
    if diff.Rows() != [] {
      var row := diff.Rows()[0];
      assert row in diff.added || row in diff.changed;
      AddedIs(rows, key, after, row);
      ChangedIs(rows, key, hash, after, row);
      var i :| 0 <= i < |rows| && rows[i] == row;
      UpsertedAt(stored, rows, key, hash, i);
    }
  }

  // ----- the order of a diff -----

  /** `picked` are the rows at these ascending places, which are the ones that `wanted` holds for. */
  ghost predicate PickedInOrder(rows: seq<Row>, picked: seq<Row>, places: seq<nat>, wanted: Row -> bool) {
    && |places| == |picked|
    && (forall a, b :: 0 <= a < b < |places| ==> places[a] < places[b])
    && (forall a :: 0 <= a < |places| ==> places[a] < |rows| && picked[a] == rows[places[a]] && wanted(picked[a]))
    && (forall i :: 0 <= i < |rows| && wanted(rows[i]) ==> i in places)
  }

  lemma PickedAppends(rows: seq<Row>, picked: seq<Row>, places: seq<nat>, wanted: Row -> bool, row: Row)
    returns (all: seq<nat>)
    requires PickedInOrder(rows, picked, places, wanted)
    ensures PickedInOrder(rows + [row], picked + if wanted(row) then [row] else [], all, wanted)
  {
    all := places + if wanted(row) then [|rows|] else [];
    forall i | 0 <= i < |rows + [row]| && wanted((rows + [row])[i])
      ensures i in all
    {
      if i < |rows| {
        assert rows[i] == (rows + [row])[i];
      } else {
        assert all[|places|] == i;
      }
    }
  }

  lemma {:induction false} AddedInOrder(rows: seq<Row>, key: Key, stored: Snapshot) returns (places: seq<nat>)
    ensures PickedInOrder(rows, Added(rows, key, stored), places, (row: Row) => key(row) !in stored)
  {
    places := [];
    if rows != [] {
      var front, last := rows[..|rows| - 1], rows[|rows| - 1];
      assert rows == front + [last];
      var before := AddedInOrder(front, key, stored);
      places := PickedAppends(front, Added(front, key, stored), before, (row: Row) => key(row) !in stored, last);
    }
  }

  lemma {:induction false} ChangedInOrder(rows: seq<Row>, key: Key, hash: Hash, stored: Snapshot)
      returns (places: seq<nat>)
    ensures PickedInOrder(rows, Changed(rows, key, hash, stored), places,
                          (row: Row) => key(row) in stored && stored[key(row)] != hash(row))
  {
    places := [];
    if rows != [] {
      var front, last := rows[..|rows| - 1], rows[|rows| - 1];
      assert rows == front + [last];
      var before := ChangedInOrder(front, key, hash, stored);
      places := PickedAppends(front, Changed(front, key, hash, stored), before,
                              (row: Row) => key(row) in stored && stored[key(row)] != hash(row), last);
    }
  }

  /** An incremental run emits every new row once, in row order, and then every changed
      row once, in row order. */
  lemma EmittedInOrder(rows: seq<Row>, key: Key, hash: Hash, stored: Snapshot)
    returns (n: nat, newOnes: seq<nat>, changed: seq<nat>)
    ensures var emitted := DiffOf(rows, key, hash, stored).Rows();
            && n <= |emitted|
            && PickedInOrder(rows, emitted[..n], newOnes, (row: Row) => key(row) !in stored)
            && PickedInOrder(rows, emitted[n..], changed, (row: Row) => key(row) in stored
              && stored[key(row)] != hash(row))
  {
    n := |Added(rows, key, stored)|;
    newOnes := AddedInOrder(rows, key, stored);
    changed := ChangedInOrder(rows, key, hash, stored);
    var emitted := DiffOf(rows, key, hash, stored).Rows();
    assert emitted[..n] == Added(rows, key, stored) && emitted[n..] == Changed(rows, key, hash, stored);
  }

  /** Rows that are all in the snapshot with their hashes leave nothing to emit. */
  lemma UnchangedDiffIsEmpty(rows: seq<Row>, key: Key, hash: Hash, stored: Snapshot)
    requires forall i :: 0 <= i < |rows| ==> key(rows[i]) in stored && stored[key(rows[i])] == hash(rows[i])
    ensures DiffOf(rows, key, hash, stored).Rows() == []
  {
    var emitted := DiffOf(rows, key, hash, stored).Rows();
    if emitted != [] {
      var row := emitted[0];
      assert row in Added(rows, key, stored) || row in Changed(rows, key, hash, stored);
      AddedIs(rows, key, stored, row);
      ChangedIs(rows, key, hash, stored, row);
    }
  }
}
