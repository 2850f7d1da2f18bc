/** The schema datatype tags and the registration table that maps each tag to
    a Sequelize `DataTypes` member (lib/DatatypeConverter.php). */
module DatatypeConverter {

  /** The schema datatypes the table registers: the MySQL types and the
      MySQL Workbench user types (prefixed `User`). */
  datatype Tag =
    | TinyInt | SmallInt | MediumInt | Int | BigInt | Float | Double | Decimal
    | Char | NChar | VarChar | NVarChar | Json | Binary | VarBinary
    | TinyText | Text | MediumText | LongText
    | TinyBlob | Blob | MediumBlob | LongBlob
    | DateTime | DateTimeF | Date | DateF | Time | TimeF | Timestamp | TimestampF | Year
    | Geometry | LineString | Polygon | MultiPoint | MultiLineString | MultiPolygon | GeometryCollection
    | Bit | Enum | Set
    | UserBoolean | UserBool | UserFixed | UserFloat4 | UserFloat8
    | UserInt1 | UserInt2 | UserInt3 | UserInt4 | UserInt8 | UserInteger
    | UserLongVarBinary | UserLongVarChar | UserLong | UserMiddleInt
    | UserNumeric | UserDec | UserCharacter

  /** Every tag the table registers. */
  const AllTags: set<Tag> := {
    TinyInt, SmallInt, MediumInt, Int, BigInt, Float, Double, Decimal,
    Char, NChar, VarChar, NVarChar, Json, Binary, VarBinary,
    TinyText, Text, MediumText, LongText,
    TinyBlob, Blob, MediumBlob, LongBlob,
    DateTime, DateTimeF, Date, DateF, Time, TimeF, Timestamp, TimestampF, Year,
    Geometry, LineString, Polygon, MultiPoint, MultiLineString, MultiPolygon, GeometryCollection,
    Bit, Enum, Set,
    UserBoolean, UserBool, UserFixed, UserFloat4, UserFloat8,
    UserInt1, UserInt2, UserInt3, UserInt4, UserInt8, UserInteger,
    UserLongVarBinary, UserLongVarChar, UserLong, UserMiddleInt,
    UserNumeric, UserDec, UserCharacter}

  lemma AllTagsComplete(t: Tag)
    ensures t in AllTags
  {
    match t
    case TinyInt =>
    case SmallInt =>
    case MediumInt =>
    case Int =>
    case BigInt =>
    case Float =>
    case Double =>
    case Decimal =>
    case Char =>
    case NChar =>
    case VarChar =>
    case NVarChar =>
    case Json =>
    case Binary =>
    case VarBinary =>
    case TinyText =>
    case Text =>
    case MediumText =>
    case LongText =>
    case TinyBlob =>
    case Blob =>
    case MediumBlob =>
    case LongBlob =>
    case DateTime =>
    case DateTimeF =>
    case Date =>
    case DateF =>
    case Time =>
    case TimeF =>
    case Timestamp =>
    case TimestampF =>
    case Year =>
    case Geometry =>
    case LineString =>
    case Polygon =>
    case MultiPoint =>
    case MultiLineString =>
    case MultiPolygon =>
    case GeometryCollection =>
    case Bit =>
    case Enum =>
    case Set =>
    case UserBoolean =>
    case UserBool =>
    case UserFixed =>
    case UserFloat4 =>
    case UserFloat8 =>
    case UserInt1 =>
    case UserInt2 =>
    case UserInt3 =>
    case UserInt4 =>
    case UserInt8 =>
    case UserInteger =>
    case UserLongVarBinary =>
    case UserLongVarChar =>
    case UserLong =>
    case UserMiddleInt =>
    case UserNumeric =>
    case UserDec =>
    case UserCharacter =>
  }

  /** The registered type of a tag: the table `setup` registers. */
  function Registered(t: Tag): (r: string)
    ensures r != ""
  {
    match t
    case TinyInt => "TINYINT"
    case SmallInt => "SMALLINT"
    case MediumInt => "MEDIUMINT"
    case Int => "INTEGER"
    case BigInt => "BIGINT"
    case Float => "FLOAT"
    case Double => "DOUBLE"
    case Decimal => "DECIMAL"
    case Char => "STRING"
    case NChar => "STRING"
    case VarChar => "STRING"
    case NVarChar => "STRING"
    case Json => "JSON"
    case Binary => "BLOB"
    case VarBinary => "BLOB"
    case TinyText => "TEXT('tiny')"
    case Text => "TEXT"
    case MediumText => "TEXT('medium')"
    case LongText => "TEXT('long')"
    case TinyBlob => "BLOB('tiny')"
    case Blob => "BLOB"
    case MediumBlob => "BLOB('medium')"
    case LongBlob => "BLOB('long')"
    case DateTime => "DATE"
    case DateTimeF => "DATE"
    case Date => "DATE"
    case DateF => "DATE"
    case Time => "DATE"
    case TimeF => "DATE"
    case Timestamp => "DATE"
    case TimestampF => "DATE"
    case Year => "INTEGER"
    case Geometry => "GEOMETRY"
    case LineString => "STRING"
    case Polygon => "STRING"
    case MultiPoint => "STRING"
    case MultiLineString => "STRING"
    case MultiPolygon => "STRING"
    case GeometryCollection => "STRING"
    case Bit => "INTEGER"
    case Enum => "ENUM"
    case Set => "STRING"
    case UserBoolean => "BOOLEAN"
    case UserBool => "BOOLEAN"
    case UserFixed => "INTEGER"
    case UserFloat4 => "INTEGER"
    case UserFloat8 => "INTEGER"
    case UserInt1 => "INTEGER"
    case UserInt2 => "INTEGER"
    case UserInt3 => "INTEGER"
    case UserInt4 => "INTEGER"
    case UserInt8 => "INTEGER"
    case UserInteger => "INTEGER"
    case UserLongVarBinary => "STRING"
    case UserLongVarChar => "STRING"
    case UserLong => "INTEGER"
    case UserMiddleInt => "INTEGER"
    case UserNumeric => "INTEGER"
    case UserDec => "INTEGER"
    case UserCharacter => "STRING"
  }

  /** The character types, native and user, register as STRING. */
  lemma RegisteredStrings(t: Tag)
    ensures t in {Char, NChar, VarChar, NVarChar, LineString, Polygon, MultiPoint, MultiLineString,
                  MultiPolygon, GeometryCollection, Set, UserLongVarBinary, UserLongVarChar, UserCharacter}
            <==> Registered(t) == "STRING"
  {
  }

  /** The temporal types register as DATE. */
  lemma RegisteredDates(t: Tag)
    ensures t in {DateTime, DateTimeF, Date, DateF, Time, TimeF, Timestamp, TimestampF} <==> Registered(t) == "DATE"
  {
  }

  /** INT, YEAR, BIT and the numeric user types register as INTEGER. */
  lemma RegisteredIntegers(t: Tag)
    ensures t in {Int, Year, Bit, UserFixed, UserFloat4, UserFloat8, UserInt1, UserInt2, UserInt3,
                  UserInt4, UserInt8, UserInteger, UserLong, UserMiddleInt, UserNumeric, UserDec}
            <==> Registered(t) == "INTEGER"
  {
  }

  /** Only TEXT registers as the plain text type. */
  lemma RegisteredText(t: Tag)
    ensures Registered(t) == "TEXT" <==> t == Text
  {
  }

  /** Each sized text type belongs to its own tag. */
  lemma RegisteredTinyText(t: Tag)
    ensures Registered(t) == "TEXT('tiny')" <==> t == TinyText
  {
  }

  lemma RegisteredMediumText(t: Tag)
    ensures Registered(t) == "TEXT('medium')" <==> t == MediumText
  {
  }

  lemma RegisteredLongText(t: Tag)
    ensures Registered(t) == "TEXT('long')" <==> t == LongText
  {
  }

  /** The binary strings and BLOB register as the plain blob type. */
  lemma RegisteredBlob(t: Tag)
    ensures Registered(t) == "BLOB" <==> t in {Binary, VarBinary, Blob}
  {
  }

  /** Each sized blob type belongs to its own tag. */
  lemma RegisteredTinyBlob(t: Tag)
    ensures Registered(t) == "BLOB('tiny')" <==> t == TinyBlob
  {
  }

  lemma RegisteredMediumBlob(t: Tag)
    ensures Registered(t) == "BLOB('medium')" <==> t == MediumBlob
  {
  }

  lemma RegisteredLongBlob(t: Tag)
    ensures Registered(t) == "BLOB('long')" <==> t == LongBlob
  {
  }

  /** The two boolean user types register as BOOLEAN. */
  lemma RegisteredBoolean(t: Tag)
    ensures Registered(t) == "BOOLEAN" <==> t in {UserBoolean, UserBool}
  {
  }

  /** Only ENUM registers as ENUM. */
  lemma RegisteredEnum(t: Tag)
    ensures Registered(t) == "ENUM" <==> t == Enum
  {
  }

  /** The registration table as the converter stores it. */
  function RegisteredTable(): (m: map<Tag, string>)
    ensures forall t: Tag :: t in m && m[t] == Registered(t)
  {
    forall t: Tag ensures t in AllTags { AllTagsComplete(t); }
    map t | t in AllTags :: Registered(t)
  }

  /** The base class's `register`: each given entry overwrites the table's. */
  function Register(table: map<Tag, string>, entries: map<Tag, string>): (r: map<Tag, string>)
    ensures r.Keys == table.Keys + entries.Keys
    ensures forall t :: t in entries ==> r[t] == entries[t]
    ensures forall t :: t in table && t !in entries ==> r[t] == table[t]
  {
    table + entries
  }
}
