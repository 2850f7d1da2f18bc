/** The Sequelize 7 converter (lib/V7/DatatypeConverter.php): four overrides
    registered on top of the base table, and the SQLite collapse of sized
    text and blob types. */
module V7DatatypeConverter {
  import opened DatatypeConverter

  /** The database dialect option; only SQLite changes the converter's output. */
  datatype Dialect = NoDialect | Db2 | Ibmi | MariaDb | MsSql | MySql | Postgres | Snowflake | Sqlite

  /** The entries `setup` registers after the parent's. */
  const Overrides: map<Tag, string> := map[Date := "DATEONLY", DateF := "DATEONLY", Time := "TIME", TimeF := "TIME"]

  /** What the converter's table holds for a tag after `setup`. */
  function V7Registered(t: Tag): (r: string)
    ensures t == Date || t == DateF ==> r == "DATEONLY"
    ensures t == Time || t == TimeF ==> r == "TIME"
    ensures t != Date && t != DateF && t != Time && t != TimeF ==> r == Registered(t)
  {
    if t in Overrides then Overrides[t] else Registered(t)
  }

  predicate SizeCollapsedBlob(key: Tag) { key in {TinyBlob, MediumBlob, LongBlob} }

  predicate SizeCollapsedText(key: Tag) { key in {TinyText, MediumText, LongText} }

  /** `transformDataType`, with the converter's table and dialect as inputs. */
  function TransformDataType(dialect: Dialect, table: map<Tag, string>, key: Tag, dataType: string): (r: string)
    requires Blob in table && Text in table
    ensures dialect == Sqlite && SizeCollapsedBlob(key) ==> r == table[Blob]
    ensures dialect == Sqlite && SizeCollapsedText(key) ==> r == table[Text]
    ensures dialect != Sqlite || !(SizeCollapsedBlob(key) || SizeCollapsedText(key)) ==> r == dataType
  {
    var blobbed := if dialect == Sqlite && SizeCollapsedBlob(key) then table[Blob] else dataType;
    if dialect == Sqlite && SizeCollapsedText(key) then table[Text] else blobbed
  }

  /** Transforming an already transformed type changes nothing. */
  lemma TransformIdempotent(dialect: Dialect, table: map<Tag, string>, key: Tag, dataType: string)
    requires Blob in table && Text in table
    ensures var once := TransformDataType(dialect, table, key, dataType);
      TransformDataType(dialect, table, key, once) == once
  {
  }

  /** The table once `setup` has registered the parent's entries and the overrides. */
  function SetupTable(): (m: map<Tag, string>)
    ensures forall t: Tag :: t in m && m[t] == V7Registered(t)
  {
    Register(RegisteredTable(), Overrides)
  }

  /** Under SQLite every sized text tag reads as the plain TEXT type, and every
      sized blob tag as plain BLOB, once `setup` has run. */
  lemma SqliteCollapsesSizes(key: Tag, dataType: string)
    requires SizeCollapsedBlob(key) || SizeCollapsedText(key)
    ensures TransformDataType(Sqlite, SetupTable(), key, dataType) == (if SizeCollapsedBlob(key) then "BLOB" else "TEXT")
  {
    SetupPlainTypes();
  }

  /** After `setup`, the plain blob and text tags read BLOB and TEXT. */
  lemma SetupPlainTypes()
    ensures Blob in SetupTable() && SetupTable()[Blob] == "BLOB"
    ensures Text in SetupTable() && SetupTable()[Text] == "TEXT"
  {
    var base := RegisteredTable();
    assert Blob in base && base[Blob] == Registered(Blob) == "BLOB";
    assert Text in base && base[Text] == Registered(Text) == "TEXT";
    assert Blob !in Overrides.Keys && Text !in Overrides.Keys;
    assert SetupTable() == Register(base, Overrides);
  }

  /** The converter object: its table is filled by `Setup`. */
  class Converter {
    var dataTypes: map<Tag, string>
    const dialect: Dialect

    constructor (dialect: Dialect)
      ensures this.dialect == dialect && dataTypes == map[]
    {
      this.dialect := dialect;
      dataTypes := map[];
    }

    /** The parent's registration, then the four overrides. */
    method Setup()
      modifies this
      ensures dataTypes == Register(Register(old(dataTypes), RegisteredTable()), Overrides)
      ensures forall t: Tag :: t in dataTypes && dataTypes[t] == V7Registered(t)
    {
      dataTypes := Register(dataTypes, RegisteredTable());
      dataTypes := Register(dataTypes, Overrides);
    }

    /** `transformDataType` on the converter's own dialect and table: under
        SQLite a sized blob or text tag reads the table's plain BLOB or TEXT
        entry, which after `Setup` is "BLOB" or "TEXT"; any other tag, or
        any other dialect, keeps the given type. */
    function Transform(key: Tag, dataType: string): (r: string)
      reads this
      requires Blob in dataTypes && Text in dataTypes
      ensures dialect == Sqlite && SizeCollapsedBlob(key) ==> r == dataTypes[Blob]
      ensures dialect == Sqlite && SizeCollapsedText(key) ==> r == dataTypes[Text]
      ensures dialect != Sqlite || !(SizeCollapsedBlob(key) || SizeCollapsedText(key)) ==> r == dataType
      ensures dataTypes == SetupTable() && dialect == Sqlite && SizeCollapsedBlob(key) ==> r == "BLOB"
      ensures dataTypes == SetupTable() && dialect == Sqlite && SizeCollapsedText(key) ==> r == "TEXT"
    {
      SetupPlainTypes();
      TransformDataType(dialect, dataTypes, key, dataType)
    }
  }
}
