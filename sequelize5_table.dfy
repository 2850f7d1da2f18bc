/** The Sequelize5 generator's table model (lib/Sequelize5/Model/Table.php):
    a plain attribute record per column keyed by the raw column name, every
    index that is an index or unique, and the `tableName`/`indexes` head of
    the options object. */
module Sequelize5Table {
  import opened Records
  import opened Schema
  import opened Fields
  import opened Indexes

  // --------------------------------------------------------------- fields

  /** The type string of a column: the converter's type with its size
      suffix, and no BOOLEAN promotion or enum parameters. */
  function TypeOf(env: Env, col: Column): string {
    SizedType(env.getType(col), col)
  }

  /** The record of one column: its type, then `primaryKey` for a primary
      column, then `autoIncrement` for an auto-increment column or else
      `allowNull` false for a not-null one. */
  function Attributes(env: Env, col: Column): seq<Entry> {
    [Entry("type", Some(TypeObject(TypeOf(env, col))))]
      + Piece(col.primary, "primaryKey", Some(Bool(true)))
      + Piece(col.autoIncrement, "autoIncrement", Some(Bool(true)))
      + Piece(!col.autoIncrement && col.notNull, "allowNull", Some(Bool(false)))
  }

  /** The flags of a column record: `primaryKey` is there (true) exactly for
      a primary column, `autoIncrement` (true) exactly for an auto-increment
      one, `allowNull` (false) exactly for a not-null column that is not
      auto-increment; nothing else but the type is written. */
  lemma AttributesFlags(env: Env, col: Column)
    ensures var r := Attributes(env, col);
      && DistinctKeys(r) && r[0] == Entry("type", Some(TypeObject(TypeOf(env, col))))
      && (HasKey(r, "primaryKey") <==> col.primary)
      && (col.primary ==> At(r, "primaryKey") == Some(Bool(true)))
      && (HasKey(r, "autoIncrement") <==> col.autoIncrement)
      && (col.autoIncrement ==> At(r, "autoIncrement") == Some(Bool(true)))
      && (HasKey(r, "allowNull") <==> !col.autoIncrement && col.notNull)
      && (!col.autoIncrement && col.notNull ==> At(r, "allowNull") == Some(Bool(false)))
      && (forall k :: HasKey(r, k) ==> k in {"type", "primaryKey", "autoIncrement", "allowNull"})
  {
    var r := Attributes(env, col);
    var p := Piece(col.primary, "primaryKey", Some(Bool(true)));
    if col.primary {
      assert r[1].key == "primaryKey";
      assert IndexOf(r, "primaryKey") == 1;
    }
    if col.autoIncrement {
      assert r[1 + |p|].key == "autoIncrement";
      assert IndexOf(r, "autoIncrement") == 1 + |p|;
    }
    if !col.autoIncrement && col.notNull {
      assert r[1 + |p|].key == "allowNull";
      assert IndexOf(r, "allowNull") == 1 + |p|;
    }
  }

  /** An auto-increment column never gets `allowNull`, whatever its not-null flag. */
  lemma AutoIncrementNeverAllowNull(env: Env, col: Column)
    requires col.autoIncrement
    ensures !HasKey(Attributes(env, col), "allowNull")
  {
    AttributesFlags(env, col);
  }

  /** The body of the loop of `getFields` for one column: the record is
      built key by key. */
  method ColumnAttributes(env: Env, column: Column) returns (c: seq<Entry>)
    ensures c == Attributes(env, column)
  {
    var ty := TypeOf(env, column);
    c := [Entry("type", Some(TypeObject(ty)))];
    if column.primary {
      PutShape(c, "primaryKey", Some(Bool(true)));
      c := Put(c, "primaryKey", Some(Bool(true)));
    }
    assert c == [Entry("type", Some(TypeObject(ty)))] + Piece(column.primary, "primaryKey", Some(Bool(true)));
    if column.autoIncrement {
      assert !HasKey(c, "autoIncrement");
      PutShape(c, "autoIncrement", Some(Bool(true)));
      c := Put(c, "autoIncrement", Some(Bool(true)));
    } else if column.notNull {
      assert !HasKey(c, "allowNull");
      PutShape(c, "allowNull", Some(Bool(false)));
      c := Put(c, "allowNull", Some(Bool(false)));
    }
  }

  /** The pairs `getFields` assigns, in column order: every column's record
      under its raw name, foreign-key columns included. */
  function FieldPairs(env: Env, cols: seq<Column>): (r: seq<Entry>)
    ensures |r| == |cols|
    decreases |cols|
  {
    if cols == [] then []
    else
      var last := cols[|cols| - 1];
      FieldPairs(env, cols[..|cols| - 1]) + [Entry(last.name, Some(Dict(Attributes(env, last))))]
  }

  /** The pair of a column sits at the column's position. */
  lemma {:induction false} FieldPairsAt(env: Env, cols: seq<Column>, i: nat)
    requires i < |cols|
    ensures FieldPairs(env, cols)[i] == Entry(cols[i].name, Some(Dict(Attributes(env, cols[i]))))
    decreases |cols|
  {
    if i < |cols| - 1 {
      FieldPairsAt(env, cols[..|cols| - 1], i);
    }
  }

  /** One turn of the loop of `getFields`: the column's record is assigned
      under its raw name. */
  method FieldStep(env: Env, cols: seq<Column>, i: nat, result0: seq<Entry>) returns (result: seq<Entry>)
    requires i < |cols| && result0 == Literal(FieldPairs(env, cols[..i]))
    ensures result == Literal(FieldPairs(env, cols[..i + 1]))
  {
    var column := cols[i];
    var c := ColumnAttributes(env, column);
    var e := Entry(column.name, Some(Dict(c)));
    assert cols[..i + 1][..i] == cols[..i];
    assert FieldPairs(env, cols[..i + 1]) == FieldPairs(env, cols[..i]) + [e];
    LiteralSnoc(FieldPairs(env, cols[..i]), e);
    result := Put(result0, e.key, e.value);
  }

  /** No column, no pair; all columns, all pairs. */
  lemma FieldPairsBounds(env: Env, cols: seq<Column>)
    ensures FieldPairs(env, cols[..0]) == []
    ensures FieldPairs(env, cols[..|cols|]) == FieldPairs(env, cols)
  {
    assert cols[..0] == [];
    assert cols[..|cols|] == cols;
  }

  /** `getFields`. */
  method GetFields(env: Env, t: Table) returns (result: seq<Entry>)
    ensures result == Literal(FieldPairs(env, t.columns))
  {
    FieldPairsBounds(env, t.columns);
    result := [];
    var i := 0;
    while i < |t.columns|
      invariant 0 <= i <= |t.columns|
      invariant result == Literal(FieldPairs(env, t.columns[..i]))
    {
      result := FieldStep(env, t.columns, i, result);
      i := i + 1;
    }
  }

  /** With distinct column names, the fields object holds exactly one entry
      per column, in column order, under the raw column name. */
  lemma FieldsOnePerColumn(env: Env, cols: seq<Column>)
    requires forall i, j :: 0 <= i < j < |cols| ==> cols[i].name != cols[j].name
    ensures var r := Literal(FieldPairs(env, cols));
      && |r| == |cols|
      && forall i :: 0 <= i < |cols| ==> r[i] == Entry(cols[i].name, Some(Dict(Attributes(env, cols[i]))))
  {
    var p := FieldPairs(env, cols);
    forall i | 0 <= i < |cols| ensures p[i] == Entry(cols[i].name, Some(Dict(Attributes(env, cols[i])))) {
      FieldPairsAt(env, cols, i);
    }
    LiteralOfDistinct(p);
  }

  /** No column is skipped: the fields object has a key exactly for each
      column name of the table. */
  lemma FieldsKeys(env: Env, cols: seq<Column>, k: string)
    ensures HasKey(Literal(FieldPairs(env, cols)), k) <==> exists i :: 0 <= i < |cols| && cols[i].name == k
  {
    var p := FieldPairs(env, cols);
    if HasKey(p, k) {
      var i :| 0 <= i < |p| && p[i].key == k;
      FieldPairsAt(env, cols, i);
    }
    if exists i :: 0 <= i < |cols| && cols[i].name == k {
      var i :| 0 <= i < |cols| && cols[i].name == k;
      FieldPairsAt(env, cols, i);
      assert p[i].key == k;
    }
  }

  // -------------------------------------------------------------- indexes

  /** `getIndexes`: every index that is an index or unique, in index order;
      unlike the other generators, an index over a foreign-key column is kept. */
  method GetIndexes(t: Table) returns (result: seq<Value>)
    ensures result == IndexRecords(true, t.indices)
  {
    result := Indexes.GetIndexes(true, t.indices);
  }

  // -------------------------------------------------------------- options

  /** `asOptions`: the table's raw name and its index list, or `null` when
      no index is emitted, with the table properties merged over them. */
  function AsOptions(t: Table, tableProp: seq<Entry>): seq<Entry> {
    Merge([Entry("tableName", Some(Str(t.info.rawName))),
           Entry("indexes", IndexesEntry(IndexRecords(true, t.indices)))], tableProp)
  }

  /** `tableName` and `indexes` come first whatever the table properties
      hold; unless a property overrides it, `indexes` is `null` exactly when
      no index of the table is an index or unique, and the index list
      otherwise; a property that names either key wins. */
  lemma AsOptionsShape(t: Table, tableProp: seq<Entry>)
    ensures var r := AsOptions(t, tableProp);
      && |r| >= 2 && r[0].key == "tableName" && r[1].key == "indexes"
      && (!HasKey(tableProp, "indexes") ==>
            && HasKey(r, "indexes")
            && (At(r, "indexes") == None <==> forall i :: 0 <= i < |t.indices| ==> !(t.indices[i].isIndex || t.indices[i].isUnique))
            && (At(r, "indexes") != None ==> At(r, "indexes") == Some(List(IndexRecords(true, t.indices)))))
      && (!HasKey(tableProp, "tableName") ==> HasKey(r, "tableName") && At(r, "tableName") == Some(Str(t.info.rawName)))
      && (HasKey(tableProp, "indexes") ==> HasKey(r, "indexes") && At(r, "indexes") == LastValue(tableProp, "indexes"))
  {
    var head := [Entry("tableName", Some(Str(t.info.rawName))),
                 Entry("indexes", IndexesEntry(IndexRecords(true, t.indices)))];
    MergeKeepsPositions(head, tableProp);
    assert head[1].key == "indexes";
    assert IndexOf(head, "indexes") == 1;
    if !HasKey(tableProp, "indexes") {
      MergeKeeps(head, tableProp, "indexes");
      IndexRecordsEmpty(true, t.indices);
    }
    if !HasKey(tableProp, "tableName") {
      MergeKeeps(head, tableProp, "tableName");
    }
    if HasKey(tableProp, "indexes") {
      MergeLastWins(head, tableProp, "indexes");
    }
  }

  /** The formatter's `getTableProp`, with the decoded contents of the
      table-property file as an input (`None` when the file is missing,
      unreadable or not valid JSON): three defaults, with a non-empty decoded
      object merged over them. */
  function TableProp(decoded: Option<seq<Entry>>): seq<Entry> {
    var defaults := [Entry("timestamps", Some(Bool(false))),
                     Entry("underscored", Some(Bool(false))),
                     Entry("syncOnAssociation", Some(Bool(false)))];
    if decoded.Some? && decoded.value != [] then Merge(defaults, decoded.value) else defaults
  }

  /** Without a property file the options are exactly the table name, the
      index entry and the three false defaults, in this order. */
  lemma OptionsWithoutPropertyFile(t: Table)
    ensures AsOptions(t, TableProp(None)) ==
      [Entry("tableName", Some(Str(t.info.rawName))),
       Entry("indexes", IndexesEntry(IndexRecords(true, t.indices))),
       Entry("timestamps", Some(Bool(false))),
       Entry("underscored", Some(Bool(false))),
       Entry("syncOnAssociation", Some(Bool(false)))]
  {
    var head := [Entry("tableName", Some(Str(t.info.rawName))),
                 Entry("indexes", IndexesEntry(IndexRecords(true, t.indices)))];
    var defaults := TableProp(None);
    var all := head + defaults;
    assert all[2].key == "timestamps" && all[3].key == "underscored" && all[4].key == "syncOnAssociation";
    assert DistinctKeys(all);
    MergeOfDistinct(head, defaults);
  }

  /** The three defaults are always there, each false unless the file sets it. */
  lemma TablePropDefaults(decoded: Option<seq<Entry>>, k: string)
    requires k in {"timestamps", "underscored", "syncOnAssociation"}
    ensures HasKey(TableProp(decoded), k)
    ensures (decoded.None? || !HasKey(decoded.value, k)) ==> At(TableProp(decoded), k) == Some(Bool(false))
    ensures decoded.Some? && HasKey(decoded.value, k) ==> At(TableProp(decoded), k) == LastValue(decoded.value, k)
  {
    var defaults := TableProp(None);
    assert defaults[1].key == "underscored" && defaults[2].key == "syncOnAssociation";
    assert IndexOf(defaults, "underscored") == 1 && IndexOf(defaults, "syncOnAssociation") == 2;
    if decoded.Some? && decoded.value != [] {
      if HasKey(decoded.value, k) {
        MergeLastWins(defaults, decoded.value, k);
      } else {
        MergeKeeps(defaults, decoded.value, k);
      }
    }
  }
}
