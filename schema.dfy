/** The parsed schema graph the generator reads, the configuration and
    base-class helpers it consults, and the counts over foreign-key lists
    that the association logic is specified with. */
module Schema {
  import opened Records
  import opened Strings
  import opened DatatypeConverter

  /** The naming strategies of the configuration. */
  datatype Strategy = AsIs | CamelCase | PascalCase | SnakeCase

  /** Configuration flags, plus the base-class helpers that are not part of
      this model, as uninterpreted functions:
      `baseNaming` is the parent `getNaming($name, $strategy)` (a `None`
      strategy is PHP `null`), `pluralize` the parent `pluralize`, `getType`
      the converter's `getType($column)`, and `boolDefault` PHP's `(bool)`
      cast of a rendered raw JS default value. */
  datatype Env = Env(
    namingStrategy: Strategy,
    foreignKeyFields: bool,    // generate foreign-key fields
    associations: bool,        // generate association methods
    associationAlias: bool,    // always emit an alias
    baseNaming: (string, Option<Strategy>) -> string,
    pluralize: string -> string,
    getType: Column -> string,
    boolDefault: string -> bool)

  /** What a foreign key sees of a table at either end: names, its column
      names, and the owning model names of its own local foreign keys (what
      `countFkOwnerReferences` counts on it). */
  datatype TableInfo = TableInfo(
    modelName: string,
    rawName: string,
    name: string,
    columnNames: seq<string>,
    localFkOwners: seq<string>)

  /** A foreign key: local column (name and not-null flag) in the owning
      table, referenced column in the referenced table. A `None` rule is a
      missing parameter. `ignored` is the base class's ignore test for the
      list the key is found in. */
  datatype ForeignKey = ForeignKey(
    localColumn: string,
    localNotNull: bool,
    foreignColumn: string,
    owning: TableInfo,
    referenced: TableInfo,
    manyToOne: bool,
    updateRule: Option<string>,
    deleteRule: Option<string>,
    ignored: bool)

  datatype Column = Column(
    name: string,
    columnType: Tag,
    length: int,
    precision: int,
    scale: int,
    explicitParams: string,
    notNull: bool,
    primary: bool,
    unique: bool,
    autoIncrement: bool,
    defaultValue: Option<string>,
    foreignKeys: seq<ForeignKey>)

  datatype Index = Index(name: string, columns: seq<Column>, isUnique: bool, isIndex: bool)

  /** A many-to-many relation injected into a table: the junction's key to
      this table, its key to the other table, and the other table. */
  datatype M2MRelation = M2MRelation(reference: ForeignKey, target: ForeignKey, refTable: TableInfo)

  /** A table: `localFks` are the keys that reference it, `foreignFks` the keys it owns. */
  datatype Table = Table(
    info: TableInfo,
    columns: seq<Column>,
    indices: seq<Index>,
    localFks: seq<ForeignKey>,
    foreignFks: seq<ForeignKey>,
    m2m: seq<M2MRelation>)

  function ColumnNames(cols: seq<Column>): (r: seq<string>)
    ensures |r| == |cols| && forall i :: 0 <= i < |cols| ==> r[i] == cols[i].name
  {
    seq(|cols|, i requires 0 <= i < |cols| => cols[i].name)
  }

  function OwnerNames(fks: seq<ForeignKey>): (r: seq<string>)
    ensures |r| == |fks| && forall i :: 0 <= i < |fks| ==> r[i] == fks[i].owning.modelName
  {
    seq(|fks|, i requires 0 <= i < |fks| => fks[i].owning.modelName)
  }

  /** A table's own snapshot agrees with its lists, and column names are distinct. */
  ghost predicate Valid(t: Table) {
    && t.info.columnNames == ColumnNames(t.columns)
    && t.info.localFkOwners == OwnerNames(t.localFks)
    && forall i, j :: 0 <= i < j < |t.columns| ==> t.columns[i].name != t.columns[j].name
  }

  /** The keys of a list that are not ignored, in order. */
  function Active(fks: seq<ForeignKey>): (r: seq<ForeignKey>)
    ensures |r| <= |fks|
    ensures forall fk :: fk in r <==> fk in fks && !fk.ignored
    decreases |fks|
  {
    if fks == [] then []
    else
      var init := fks[..|fks| - 1];
      var last := fks[|fks| - 1];
      assert fks == init + [last];
      Active(init) + (if last.ignored then [] else [last])
  }

  /** How often `m` occurs in `s`. */
  function Occurrences(s: seq<string>, m: string): nat
    decreases |s|
  {
    if s == [] then 0 else Occurrences(s[..|s| - 1], m) + (if s[|s| - 1] == m then 1 else 0)
  }

  /** Keys owned by model `m`, ignored ones included. */
  function CountOwnedBy(fks: seq<ForeignKey>, m: string): nat
    decreases |fks|
  {
    if fks == [] then 0
    else CountOwnedBy(fks[..|fks| - 1], m) + (if fks[|fks| - 1].owning.modelName == m then 1 else 0)
  }

  /** Keys not ignored and owned by model `m`. */
  function CountActiveOwnedBy(fks: seq<ForeignKey>, m: string): nat
    decreases |fks|
  {
    if fks == [] then 0
    else
      var last := fks[|fks| - 1];
      CountActiveOwnedBy(fks[..|fks| - 1], m) + (if !last.ignored && last.owning.modelName == m then 1 else 0)
  }

  /** Keys not ignored and referencing model `m`. */
  function CountActiveReferencing(fks: seq<ForeignKey>, m: string): nat
    decreases |fks|
  {
    if fks == [] then 0
    else
      var last := fks[|fks| - 1];
      CountActiveReferencing(fks[..|fks| - 1], m) + (if !last.ignored && last.referenced.modelName == m then 1 else 0)
  }

  /** The count `getConstraints` keeps for model `m` on table `t`: the
      table's non-ignored local keys owned by `m` plus its non-ignored
      foreign keys referencing `m`. */
  function ConstraintCount(t: Table, m: string): nat {
    CountActiveOwnedBy(t.localFks, m) + CountActiveReferencing(t.foreignFks, m)
  }

  /** Counting owners over keys is counting their owner names. */
  lemma {:induction false} CountOwnedByIsOccurrences(fks: seq<ForeignKey>, m: string)
    ensures CountOwnedBy(fks, m) == Occurrences(OwnerNames(fks), m)
    decreases |fks|
  {
    if fks != [] {
      CountOwnedByIsOccurrences(fks[..|fks| - 1], m);
      assert OwnerNames(fks)[..|fks| - 1] == OwnerNames(fks[..|fks| - 1]);
    }
  }

  /** Ignored keys are in the first count and not in the second. */
  lemma {:induction false} ActiveCountBounded(fks: seq<ForeignKey>, m: string)
    ensures CountActiveOwnedBy(fks, m) <= CountOwnedBy(fks, m)
    ensures (forall i :: 0 <= i < |fks| ==> !fks[i].ignored) ==> CountActiveOwnedBy(fks, m) == CountOwnedBy(fks, m)
    decreases |fks|
  {
    if fks != [] {
      ActiveCountBounded(fks[..|fks| - 1], m);
    }
  }

  /** A key at position `i` owned by `m` is counted. */
  lemma {:induction false} OwnedAtCounted(fks: seq<ForeignKey>, i: nat, m: string)
    requires i < |fks| && fks[i].owning.modelName == m
    ensures CountOwnedBy(fks, m) >= 1
    ensures !fks[i].ignored ==> CountActiveOwnedBy(fks, m) >= 1
    decreases |fks|
  {
    if i < |fks| - 1 {
      OwnedAtCounted(fks[..|fks| - 1], i, m);
    }
  }

  /** Two keys at distinct positions owned by `m` count twice. */
  lemma {:induction false} TwoOwnedCounted(fks: seq<ForeignKey>, i: nat, j: nat, m: string)
    requires i < j < |fks|
    requires fks[i].owning.modelName == m && fks[j].owning.modelName == m
    ensures CountOwnedBy(fks, m) >= 2
    ensures !fks[i].ignored && !fks[j].ignored ==> CountActiveOwnedBy(fks, m) >= 2
    decreases |fks|
  {
    var init := fks[..|fks| - 1];
    if j < |fks| - 1 {
      TwoOwnedCounted(init, i, j, m);
    } else {
      OwnedAtCounted(init, i, m);
    }
  }

  /** A key at position `i` referencing `m` is counted. */
  lemma {:induction false} ReferencingAtCounted(fks: seq<ForeignKey>, i: nat, m: string)
    requires i < |fks| && fks[i].referenced.modelName == m && !fks[i].ignored
    ensures CountActiveReferencing(fks, m) >= 1
    decreases |fks|
  {
    if i < |fks| - 1 {
      ReferencingAtCounted(fks[..|fks| - 1], i, m);
    }
  }

  /** Two keys at distinct positions referencing `m` count twice. */
  lemma {:induction false} TwoReferencingCounted(fks: seq<ForeignKey>, i: nat, j: nat, m: string)
    requires i < j < |fks|
    requires fks[i].referenced.modelName == m && fks[j].referenced.modelName == m
    requires !fks[i].ignored && !fks[j].ignored
    ensures CountActiveReferencing(fks, m) >= 2
    decreases |fks|
  {
    var init := fks[..|fks| - 1];
    if j < |fks| - 1 {
      TwoReferencingCounted(init, i, j, m);
    } else {
      ReferencingAtCounted(init, i, m);
    }
  }

  /** The `Js` object for a type expression: `getJSObject('DataTypes.X', true, true)`,
      with a falsy type ("" or "0") rendered as `STRING.BINARY`. */
  function TypeObject(t: string): (v: Value)
    ensures v.Js? && v.raw && v.multiline && v.content.Str?
    ensures Truthy(t) ==> v.content.s == "DataTypes." + t
    ensures !Truthy(t) ==> v.content.s == "DataTypes.STRING.BINARY"
  {
    Js(Str("DataTypes." + (if Truthy(t) then t else "STRING.BINARY")), true, true)
  }

  /** An optional string as a record value: a missing rule parameter or an
      alias dropped to null is `null`. */
  function Nullable(s: Option<string>): Option<Value> {
    match s
    case None => None
    case Some(v) => Some(Str(v))
  }

  /** PHP truthiness of an optional string. */
  predicate TruthyOpt(s: Option<string>) {
    s.Some? && s.value != "" && s.value != "0"
  }

  /** The association methods the generator emits. */
  datatype Kind = HasMany | HasOne | BelongsTo | BelongsToMany

  /** One emitted association: `<model>.<kind>(sequelize.models.<target>, <options>)`,
      after a `// <comment>` line. */
  datatype Association = Association(kind: Kind, comment: string, target: string, options: seq<Entry>)
}
