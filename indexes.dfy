/** `getIndexes`, as the V6, Sequelize6 and Sequelize5 generators write it
    (lib/V6/Model/Table.php:305-328, lib/Sequelize6/Model/Table.php:228-251,
    lib/Sequelize5/Model/Table.php:155-169): one record per index that is an
    index or unique, in index order. The V6 and Sequelize6 generators also
    drop an index over a foreign-key column unless foreign-key fields or
    associations are generated; Sequelize5 keeps every index, which is the
    filter with `keepForeign` set. */
module Indexes {
  import opened Records
  import opened Schema

  /** The `array_reduce` over the index's columns: some column of the index
      has a foreign key. */
  function IsForeignIndex(cols: seq<Column>): (r: bool)
    ensures r <==> exists i :: 0 <= i < |cols| && |cols[i].foreignKeys| > 0
    decreases |cols|
  {
    if cols == [] then false
    else
      var init := cols[..|cols| - 1];
      var rest := IsForeignIndex(init);
      assert rest ==> exists i :: 0 <= i < |cols| && |cols[i].foreignKeys| > 0 by {
        if rest {
          var i :| 0 <= i < |init| && |init[i].foreignKeys| > 0;
          assert cols[i] == init[i];
        }
      }
      assert (exists i :: 0 <= i < |cols| && |cols[i].foreignKeys| > 0) ==> rest || |cols[|cols| - 1].foreignKeys| > 0 by {
        if exists i :: 0 <= i < |cols| && |cols[i].foreignKeys| > 0 {
          var i :| 0 <= i < |cols| && |cols[i].foreignKeys| > 0;
          if i < |cols| - 1 {
            assert init[i] == cols[i];
          }
        }
      }
      rest || |cols[|cols| - 1].foreignKeys| > 0
  }

  /** Whether the loop writes a record for the index. `keepForeign` is the
      configuration's foreign-key-fields or associations flag. */
  predicate Emitted(keepForeign: bool, ix: Index) {
    (keepForeign || !IsForeignIndex(ix.columns)) && (ix.isIndex || ix.isUnique)
  }

  /** The column names of an index, as serialised strings. */
  function NameValues(names: seq<string>): (r: seq<Value>)
    ensures |r| == |names| && forall i :: 0 <= i < |names| ==> r[i] == Str(names[i])
  {
    seq(|names|, i requires 0 <= i < |names| => Str(names[i]))
  }

  /** The record of one index: its name, its column names as an inline list,
      and `unique` true for a unique index, `null` otherwise. */
  function IndexRecord(ix: Index): seq<Entry> {
    [Entry("name", Some(Str(ix.name))),
     Entry("fields", Some(Js(List(NameValues(ColumnNames(ix.columns))), false, false))),
     Entry("unique", if ix.isUnique then Some(Bool(true)) else None)]
  }

  /** The record holds `name`, `fields` and `unique`, in this order, with
      `unique` true for a unique index and `null` otherwise; no key is
      repeated, so the array literal of its pairs is the record itself. */
  lemma IndexRecordShape(ix: Index)
    ensures var r := IndexRecord(ix);
      && Keys(r) == ["name", "fields", "unique"]
      && HasKey(r, "name") && HasKey(r, "fields") && HasKey(r, "unique")
      && At(r, "name") == Some(Str(ix.name))
      && At(r, "fields") == Some(Js(List(NameValues(ColumnNames(ix.columns))), false, false))
      && (At(r, "unique") == Some(Bool(true)) <==> ix.isUnique)
      && (At(r, "unique") == None <==> !ix.isUnique)
      && DistinctKeys(r) && Literal(r) == r
  {
    var r := IndexRecord(ix);
    LiteralOfDistinct(r);
    assert r[1].key == "fields" && r[2].key == "unique";
    assert IndexOf(r, "fields") == 1;
    assert IndexOf(r, "unique") == 2;
  }

  /** The list `getIndexes` returns. */
  function IndexRecords(keepForeign: bool, indices: seq<Index>): (r: seq<Value>)
    ensures |r| <= |indices|
    decreases |indices|
  {
    if indices == [] then []
    else
      var last := indices[|indices| - 1];
      IndexRecords(keepForeign, indices[..|indices| - 1])
        + (if Emitted(keepForeign, last) then [Dict(IndexRecord(last))] else [])
  }

  /** The `array_reduce` over the columns of one index, as a loop. */
  method ForeignIndexOf(cols: seq<Column>) returns (isForeignIndex: bool)
    ensures isForeignIndex == IsForeignIndex(cols)
  {
    isForeignIndex := false;
    var j := 0;
    while j < |cols|
      invariant 0 <= j <= |cols|
      invariant isForeignIndex == IsForeignIndex(cols[..j])
    {
      assert cols[..j + 1][..j] == cols[..j];
      isForeignIndex := isForeignIndex || |cols[j].foreignKeys| > 0;
      j := j + 1;
    }
    assert cols[..j] == cols;
  }

  /** No index, no record; all indices, all records. */
  lemma IndexRecordsBounds(keepForeign: bool, indices: seq<Index>)
    ensures IndexRecords(keepForeign, indices[..0]) == []
    ensures IndexRecords(keepForeign, indices[..|indices|]) == IndexRecords(keepForeign, indices)
  {
    assert indices[..0] == [];
    assert indices[..|indices|] == indices;
  }

  /** The loop of `getIndexes`. */
  method GetIndexes(keepForeign: bool, indices: seq<Index>) returns (result: seq<Value>)
    ensures result == IndexRecords(keepForeign, indices)
  {
    IndexRecordsBounds(keepForeign, indices);
    result := [];
    var i := 0;
    while i < |indices|
      invariant 0 <= i <= |indices|
      invariant result == IndexRecords(keepForeign, indices[..i])
    {
      var index := indices[i];
      var isForeignIndex := ForeignIndexOf(index.columns);
      assert indices[..i + 1][..i] == indices[..i];
      if keepForeign || !isForeignIndex {
        if index.isIndex || index.isUnique {
          result := result + [Dict(IndexRecord(index))];
        }
      }
      i := i + 1;
    }
  }

  /** The records of consecutive index lists follow each other: the output
      keeps index order. */
  lemma {:induction false} IndexRecordsAppend(keepForeign: bool, a: seq<Index>, b: seq<Index>)
    ensures IndexRecords(keepForeign, a + b) == IndexRecords(keepForeign, a) + IndexRecords(keepForeign, b)
    decreases |b|
  {
    if b == [] {
      assert a + b == a;
    } else {
      var bi := b[..|b| - 1];
      assert (a + b)[..|a + b| - 1] == a + bi;
      assert (a + b)[|a + b| - 1] == b[|b| - 1];
      IndexRecordsAppend(keepForeign, a, bi);
    }
  }

  /** The record of the index at position `i` when it is emitted. */
  predicate RecordAt(keepForeign: bool, indices: seq<Index>, i: int, v: Value)
    requires 0 <= i < |indices|
  {
    Emitted(keepForeign, indices[i]) && v == Dict(IndexRecord(indices[i]))
  }

  /** Every record is that of an emitted index of the list. */
  lemma {:induction false} IndexRecordsSound(keepForeign: bool, indices: seq<Index>, v: Value)
    requires v in IndexRecords(keepForeign, indices)
    ensures exists i :: 0 <= i < |indices| && RecordAt(keepForeign, indices, i, v)
    decreases |indices|
  {
    var n := |indices| - 1;
    var init := indices[..n];
    var last := indices[n];
    var tail := if Emitted(keepForeign, last) then [Dict(IndexRecord(last))] else [];
    assert IndexRecords(keepForeign, indices) == IndexRecords(keepForeign, init) + tail;
    if v in tail {
      assert RecordAt(keepForeign, indices, n, v);
    } else {
      IndexRecordsSound(keepForeign, init, v);
      var i :| 0 <= i < |init| && RecordAt(keepForeign, init, i, v);
      assert init[i] == indices[i];
      assert RecordAt(keepForeign, indices, i, v);
    }
  }

  /** Every emitted index has its record in the list. */
  lemma {:induction false} IndexRecordsComplete(keepForeign: bool, indices: seq<Index>, i: nat)
    requires i < |indices| && Emitted(keepForeign, indices[i])
    ensures Dict(IndexRecord(indices[i])) in IndexRecords(keepForeign, indices)
    decreases |indices|
  {
    var n := |indices| - 1;
    var init := indices[..n];
    var tail := if Emitted(keepForeign, indices[n]) then [Dict(IndexRecord(indices[n]))] else [];
    assert IndexRecords(keepForeign, indices) == IndexRecords(keepForeign, init) + tail;
    if i < n {
      assert init[i] == indices[i];
      IndexRecordsComplete(keepForeign, init, i);
    } else {
      assert tail == [Dict(IndexRecord(indices[i]))];
    }
  }

  /** A record is in the list exactly when it is that of an emitted index. */
  lemma IndexRecordsMembers(keepForeign: bool, indices: seq<Index>, v: Value)
    ensures v in IndexRecords(keepForeign, indices) <==>
      exists i :: 0 <= i < |indices| && RecordAt(keepForeign, indices, i, v)
  {
    if v in IndexRecords(keepForeign, indices) {
      IndexRecordsSound(keepForeign, indices, v);
    }
    if exists i :: 0 <= i < |indices| && RecordAt(keepForeign, indices, i, v) {
      var i :| 0 <= i < |indices| && RecordAt(keepForeign, indices, i, v);
      IndexRecordsComplete(keepForeign, indices, i);
    }
  }

  /** No record at all exactly when no index is emitted. */
  lemma {:induction false} IndexRecordsEmpty(keepForeign: bool, indices: seq<Index>)
    ensures IndexRecords(keepForeign, indices) == [] <==> forall i :: 0 <= i < |indices| ==> !Emitted(keepForeign, indices[i])
    decreases |indices|
  {
    if indices != [] {
      var n := |indices| - 1;
      IndexRecordsEmpty(keepForeign, indices[..n]);
      if IndexRecords(keepForeign, indices) == [] {
        forall i | 0 <= i < |indices| ensures !Emitted(keepForeign, indices[i]) {
          if i < n {
            assert indices[..n][i] == indices[i];
          }
        }
      }
    }
  }

  /** An index over a foreign-key column is dropped unless foreign keys are
      kept; any other index is emitted exactly when it is an index or unique. */
  lemma ForeignIndexDropped(keepForeign: bool, ix: Index, i: nat)
    requires i < |ix.columns| && |ix.columns[i].foreignKeys| > 0
    ensures Emitted(keepForeign, ix) <==> keepForeign && (ix.isIndex || ix.isUnique)
  {
  }

  /** The `indexes` entry of the options: the list, or `null` when it is empty. */
  function IndexesEntry(records: seq<Value>): (r: Option<Value>)
    ensures r.None? <==> records == []
    ensures r.Some? ==> r.value == List(records)
  {
    if |records| > 0 then Some(List(records)) else None
  }
}
