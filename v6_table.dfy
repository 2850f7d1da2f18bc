/** The V6 generator's table model (lib/V6/Model/Table.php): the fields
    object, the constraint map, the owner count, the association records and
    the order and aliases `writeAssociations` emits them with. The V7
    generator inherits all of it and overrides only the three record
    builders, which is why `writeAssociations` is modelled over a `Builders`
    value. */
module V6Table {
  import opened Records
  import opened Schema
  import opened Fields
  import opened V6Column

  /** The generator's settings: the record keys `getFields` writes, which the
      V7 generator reassigns in `init`, and the naming of association aliases. */
  class Settings {
    var attributeFieldKey: string
    var referencesModelKey: string
    const associationNaming: Strategy := PascalCase

    constructor ()
      ensures attributeFieldKey == "field" && referencesModelKey == "model"
    {
      attributeFieldKey := "field";
      referencesModelKey := "model";
    }
  }

  // --------------------------------------------------------------- naming

  /** The strategy `getNaming` hands to the parent, as written: the promotion
      is guarded by `!$strategy` and then by `$strategy` being camelCase,
      which cannot both hold, so the strategy always passes through. */
  function NamingStrategyAsWritten(env: Env, strategy: Option<Strategy>, isModel: bool): (r: Option<Strategy>)
    ensures r == strategy
  {
    if strategy.None? then
      if strategy == Some(CamelCase) && isModel then Some(PascalCase) else strategy
    else strategy
  }

  /** The strategy `getNaming` hands to the parent, as its documentation
      intends and as the Sequelize6 generator does it: a model name under the
      configured camelCase strategy is PascalCased. An explicit strategy
      passes through. */
  function NamingStrategy(env: Env, strategy: Option<Strategy>, isModel: bool): (r: Option<Strategy>)
    ensures strategy.Some? ==> r == strategy
    ensures strategy.None? ==> (r == Some(PascalCase) <==> isModel && env.namingStrategy == CamelCase)
    ensures strategy.None? && r != Some(PascalCase) ==> r == None
  {
    if strategy.None? && isModel && env.namingStrategy == CamelCase then Some(PascalCase) else strategy
  }

  /** `getNaming($name, $strategy, $isModel)`. */
  function Naming(env: Env, name: string, strategy: Option<Strategy>, isModel: bool): string {
    env.baseNaming(name, NamingStrategy(env, strategy, isModel))
  }

  /** The written test never promotes: under the camelCase configuration a
      model name without a strategy still reaches the parent with none. */
  lemma NamingPromotionDead(env: Env)
    requires env.namingStrategy == CamelCase
    ensures NamingStrategyAsWritten(env, None, true) == None
    ensures NamingStrategy(env, None, true) == Some(PascalCase)
  {
  }

  /** Every call of the V6 generator either passes the PascalCase association
      naming or is not about a model, and there the two readings agree, so
      the dead branch changes no output. */
  lemma NamingCallSitesAgree(env: Env, strategy: Option<Strategy>, isModel: bool)
    requires strategy == Some(PascalCase) || !isModel
    ensures NamingStrategyAsWritten(env, strategy, isModel) == NamingStrategy(env, strategy, isModel)
  {
  }

  // --------------------------------------------------------------- fields

  /** The V6 pieces of `getFields`: foreign-key columns are skipped unless
      foreign-key fields are generated, the V6 type derivation, the V6
      uniqueness test, references name the raw table, and names go through
      `getNaming` without a strategy. */
  function V6Flavour(env: Env, fieldKey: string, modelKey: string, indices: seq<Index>): FieldFlavour {
    FieldFlavour(
      fieldKey, modelKey, !env.foreignKeyFields,
      (col: Column) => V6Type(env.getType(col), col),
      (col: Column) => IsUnique(col, indices),
      env.boolDefault,
      (fk: ForeignKey) => fk.referenced.rawName,
      (n: string) => Naming(env, n, None, false))
  }

  /** `getFields` with the keys the settings hold. */
  method GetFields(env: Env, s: Settings, t: Table) returns (result: seq<Entry>)
    ensures result == Literal(FieldEntries(V6Flavour(env, s.attributeFieldKey, s.referencesModelKey, t.indices), t.columns))
  {
    result := BuildFields(V6Flavour(env, s.attributeFieldKey, s.referencesModelKey, t.indices), t.columns);
  }

  // ---------------------------------------------------------- constraints

  /** `$constraints[$m]`: a model counted at most once is constrained. */
  predicate Constrained(t: Table, m: string) {
    ConstraintCount(t, m) <= 1
  }

  /** `getConstraints`: one key per model counted, mapped to whether it was
      counted exactly once. */
  method GetConstraints(t: Table) returns (constraints: map<string, bool>)
    ensures forall m :: m in constraints <==> ConstraintCount(t, m) >= 1
    ensures forall m :: m in constraints ==> constraints[m] == Constrained(t, m)
  {
    var counts := CountLocalOwners(t.localFks);
    counts := CountForeignReferenced(t, counts);
    constraints := map m | m in counts :: counts[m] <= 1;
  }

  /** `counts` holds the non-ignored owner counts of the first `i` local keys. */
  ghost predicate OwnersTallied(counts: map<string, nat>, fks: seq<ForeignKey>, i: nat)
    requires i <= |fks|
  {
    forall m :: (m in counts <==> CountActiveOwnedBy(fks[..i], m) >= 1)
      && (m in counts ==> counts[m] == CountActiveOwnedBy(fks[..i], m))
  }

  /** `counts` holds the owner counts plus the non-ignored references of the
      first `j` foreign keys. */
  ghost predicate ReferencesTallied(counts: map<string, nat>, t: Table, j: nat)
    requires j <= |t.foreignFks|
  {
    forall m :: (m in counts <==> CountActiveOwnedBy(t.localFks, m) + CountActiveReferencing(t.foreignFks[..j], m) >= 1)
      && (m in counts ==> counts[m] == CountActiveOwnedBy(t.localFks, m) + CountActiveReferencing(t.foreignFks[..j], m))
  }

  /** `$constraints[$model]` set to 1 or incremented. */
  function Tally(counts: map<string, nat>, model: string): (r: map<string, nat>)
    ensures forall m :: m in r <==> m in counts || m == model
    ensures forall m :: m in r ==> r[m] == (if m in counts then counts[m] else 0) + (if m == model then 1 else 0)
  {
    if model !in counts then counts[model := 1] else counts[model := counts[model] + 1]
  }

  /** One turn of the first loop of `getConstraints`. */
  method OwnerStep(fks: seq<ForeignKey>, i: nat, counts0: map<string, nat>) returns (counts: map<string, nat>)
    requires i < |fks| && OwnersTallied(counts0, fks, i)
    ensures OwnersTallied(counts, fks, i + 1)
  {
    var local := fks[i];
    assert fks[..i + 1][..i] == fks[..i];
    counts := counts0;
    if !local.ignored {
      counts := Tally(counts, local.owning.modelName);
    }
  }

  /** The first loop of `getConstraints`: non-ignored local keys by owner. */
  method CountLocalOwners(fks: seq<ForeignKey>) returns (counts: map<string, nat>)
    ensures forall m :: m in counts <==> CountActiveOwnedBy(fks, m) >= 1
    ensures forall m :: m in counts ==> counts[m] == CountActiveOwnedBy(fks, m)
  {
    assert fks[..0] == [] && fks[..|fks|] == fks;
    counts := map[];
    var i := 0;
    while i < |fks|
      invariant 0 <= i <= |fks|
      invariant OwnersTallied(counts, fks, i)
    {
      counts := OwnerStep(fks, i, counts);
      i := i + 1;
    }
  }

  /** One turn of the second loop of `getConstraints`. */
  method ReferenceStep(t: Table, j: nat, counts0: map<string, nat>) returns (counts: map<string, nat>)
    requires j < |t.foreignFks| && ReferencesTallied(counts0, t, j)
    ensures ReferencesTallied(counts, t, j + 1)
  {
    var foreign := t.foreignFks[j];
    assert t.foreignFks[..j + 1][..j] == t.foreignFks[..j];
    counts := counts0;
    if !foreign.ignored {
      counts := Tally(counts, foreign.referenced.modelName);
    }
  }

  /** The second loop of `getConstraints`: non-ignored foreign keys by
      referenced model, added to the owner counts. */
  method CountForeignReferenced(t: Table, owners: map<string, nat>) returns (counts: map<string, nat>)
    requires forall m :: m in owners <==> CountActiveOwnedBy(t.localFks, m) >= 1
    requires forall m :: m in owners ==> owners[m] == CountActiveOwnedBy(t.localFks, m)
    ensures forall m :: m in counts <==> ConstraintCount(t, m) >= 1
    ensures forall m :: m in counts ==> counts[m] == ConstraintCount(t, m)
  {
    assert t.foreignFks[..0] == [] && t.foreignFks[..|t.foreignFks|] == t.foreignFks;
    counts := owners;
    var j := 0;
    while j < |t.foreignFks|
      invariant 0 <= j <= |t.foreignFks|
      invariant ReferencesTallied(counts, t, j)
    {
      counts := ReferenceStep(t, j, counts);
      j := j + 1;
    }
  }

  /** Two keys owned by the same model make it unconstrained. */
  lemma SharedOwnerUnconstrained(t: Table, i: nat, j: nat)
    requires i < j < |t.localFks| && !t.localFks[i].ignored && !t.localFks[j].ignored
    requires t.localFks[i].owning.modelName == t.localFks[j].owning.modelName
    ensures !Constrained(t, t.localFks[i].owning.modelName)
  {
    TwoOwnedCounted(t.localFks, i, j, t.localFks[i].owning.modelName);
  }

  /** Two keys referencing the same model make it unconstrained. */
  lemma SharedReferenceUnconstrained(t: Table, i: nat, j: nat)
    requires i < j < |t.foreignFks| && !t.foreignFks[i].ignored && !t.foreignFks[j].ignored
    requires t.foreignFks[i].referenced.modelName == t.foreignFks[j].referenced.modelName
    ensures !Constrained(t, t.foreignFks[i].referenced.modelName)
  {
    TwoReferencingCounted(t.foreignFks, i, j, t.foreignFks[i].referenced.modelName);
  }

  /** A model that both owns a key to this table and is referenced by one of
      its keys is unconstrained. */
  lemma BothWaysUnconstrained(t: Table, i: nat, j: nat)
    requires i < |t.localFks| && j < |t.foreignFks| && !t.localFks[i].ignored && !t.foreignFks[j].ignored
    requires t.localFks[i].owning.modelName == t.foreignFks[j].referenced.modelName
    ensures !Constrained(t, t.localFks[i].owning.modelName)
  {
    OwnedAtCounted(t.localFks, i, t.localFks[i].owning.modelName);
    ReferencingAtCounted(t.foreignFks, j, t.localFks[i].owning.modelName);
  }

  /** `countFkOwnerReferences` on a table: how many of its local keys the
      model owns. */
  method CountFkOwnerReferences(info: TableInfo, modelName: string) returns (count: nat)
    ensures count == Occurrences(info.localFkOwners, modelName)
  {
    count := 0;
    var i := 0;
    while i < |info.localFkOwners|
      invariant 0 <= i <= |info.localFkOwners|
      invariant count == Occurrences(info.localFkOwners[..i], modelName)
    {
      assert info.localFkOwners[..i + 1][..i] == info.localFkOwners[..i];
      if info.localFkOwners[i] == modelName {
        count := count + 1;
      }
      i := i + 1;
    }
    assert info.localFkOwners[..i] == info.localFkOwners;
  }

  /** On a valid table the owner count counts the local keys the model owns,
      ignored ones included, and so bounds the count of those not ignored. */
  lemma OwnerCountOfTable(t: Table, m: string)
    requires Valid(t)
    ensures Occurrences(t.info.localFkOwners, m) == CountOwnedBy(t.localFks, m)
    ensures CountActiveOwnedBy(t.localFks, m) <= Occurrences(t.info.localFkOwners, m)
  {
    CountOwnedByIsOccurrences(t.localFks, m);
    ActiveCountBounded(t.localFks, m);
  }

  // -------------------------------------------------------------- aliases

  function RelatedBy(model: string, column: string): string {
    model + "_related_by_" + column
  }

  /** An alias equal to the target model is dropped unless aliases are always emitted. */
  function DropAlias(env: Env, alias: string, target: string): (r: Option<string>)
    ensures r.None? <==> alias == target && !env.associationAlias
    ensures r.Some? ==> r.value == alias
  {
    if alias == target && !env.associationAlias then None else Some(alias)
  }

  /** The alias of the association for a key referencing this table, before
      the drop: the owner's related-by name when the owner holds several keys
      to this table, the owner's plural otherwise. */
  function LocalAliasName(env: Env, t: Table, fk: ForeignKey): string {
    var target := fk.owning.modelName;
    if Occurrences(t.info.localFkOwners, target) > 1
    then env.pluralize(Naming(env, RelatedBy(target, fk.localColumn), Some(PascalCase), true))
    else env.pluralize(target)
  }

  function LocalAlias(env: Env, t: Table, fk: ForeignKey): Option<string> {
    DropAlias(env, LocalAliasName(env, t, fk), fk.owning.modelName)
  }

  /** The local alias is dropped exactly when it is the owner's own name and
      aliases are not always emitted; it is never dropped when they are. */
  lemma LocalAliasRule(env: Env, t: Table, fk: ForeignKey)
    ensures var r := LocalAlias(env, t, fk);
      && (r.None? <==> LocalAliasName(env, t, fk) == fk.owning.modelName && !env.associationAlias)
      && (r.Some? ==> r.value == LocalAliasName(env, t, fk))
      && (env.associationAlias ==> r.Some?)
    ensures Occurrences(t.info.localFkOwners, fk.owning.modelName) > 1 ==>
      LocalAliasName(env, t, fk) == env.pluralize(Naming(env, RelatedBy(fk.owning.modelName, fk.localColumn), Some(PascalCase), true))
    ensures Occurrences(t.info.localFkOwners, fk.owning.modelName) <= 1 ==>
      LocalAliasName(env, t, fk) == env.pluralize(fk.owning.modelName)
  {
  }

  /** The inverse alias: this model's related-by name for a shared owner,
      `<model>_fk` when the owner has a column named like this model, and
      otherwise this model's name only when aliases are always emitted. */
  function LocalInverse(env: Env, t: Table, fk: ForeignKey): Option<string> {
    var model := t.info.modelName;
    if Occurrences(t.info.localFkOwners, fk.owning.modelName) > 1 then
      Some(Naming(env, RelatedBy(model, fk.localColumn), Some(PascalCase), true))
    else if model in fk.owning.columnNames then Some(Naming(env, model + "_fk", Some(PascalCase), true))
    else if env.associationAlias then Some(model)
    else None
  }

  /** The inverse is missing exactly when the owner holds one key to this
      table, has no column named like this model and aliases are not always
      emitted; each of the three other cases gives its own name. */
  lemma LocalInverseRule(env: Env, t: Table, fk: ForeignKey)
    ensures LocalInverse(env, t, fk).None? <==>
      (Occurrences(t.info.localFkOwners, fk.owning.modelName) <= 1
       && t.info.modelName !in fk.owning.columnNames && !env.associationAlias)
    ensures Occurrences(t.info.localFkOwners, fk.owning.modelName) > 1 ==>
      LocalInverse(env, t, fk) == Some(Naming(env, RelatedBy(t.info.modelName, fk.localColumn), Some(PascalCase), true))
    ensures Occurrences(t.info.localFkOwners, fk.owning.modelName) <= 1 && t.info.modelName in fk.owning.columnNames ==>
      LocalInverse(env, t, fk) == Some(Naming(env, t.info.modelName + "_fk", Some(PascalCase), true))
    ensures Occurrences(t.info.localFkOwners, fk.owning.modelName) <= 1 && t.info.modelName !in fk.owning.columnNames ==>
      LocalInverse(env, t, fk) == (if env.associationAlias then Some(t.info.modelName) else None)
  {
  }

  /** The alias of the association for a key this table owns, before the
      drop: the related-by name when the referenced table has several keys
      owned by this model, else `<target>_fk` when this table has a column
      named like the target, else the target itself. */
  function ForeignAliasName(env: Env, t: Table, fk: ForeignKey): string {
    var target := fk.referenced.modelName;
    if Occurrences(fk.referenced.localFkOwners, t.info.modelName) > 1
    then Naming(env, RelatedBy(target, fk.localColumn), Some(PascalCase), true)
    else if target in fk.owning.columnNames then Naming(env, target + "_fk", Some(PascalCase), true)
    else target
  }

  function ForeignAlias(env: Env, t: Table, fk: ForeignKey): Option<string> {
    DropAlias(env, ForeignAliasName(env, t, fk), fk.referenced.modelName)
  }

  /** Without a shared owner or a clashing column the foreign alias is the
      target itself, and so it is dropped unless aliases are always emitted;
      an alias that differs from the target is always kept. */
  lemma ForeignAliasRule(env: Env, t: Table, fk: ForeignKey)
    ensures var r := ForeignAlias(env, t, fk);
      && (r.None? <==> ForeignAliasName(env, t, fk) == fk.referenced.modelName && !env.associationAlias)
      && (r.Some? ==> r.value == ForeignAliasName(env, t, fk))
      && (env.associationAlias ==> r.Some?)
    ensures Occurrences(fk.referenced.localFkOwners, t.info.modelName) > 1 ==>
      ForeignAliasName(env, t, fk) == Naming(env, RelatedBy(fk.referenced.modelName, fk.localColumn), Some(PascalCase), true)
    ensures Occurrences(fk.referenced.localFkOwners, t.info.modelName) <= 1 && fk.referenced.modelName !in fk.owning.columnNames ==>
      ForeignAliasName(env, t, fk) == fk.referenced.modelName
    ensures Occurrences(fk.referenced.localFkOwners, t.info.modelName) <= 1 && fk.referenced.modelName !in fk.owning.columnNames ==>
      (ForeignAlias(env, t, fk).None? <==> !env.associationAlias)
    ensures Occurrences(fk.referenced.localFkOwners, t.info.modelName) <= 1 && fk.referenced.modelName in fk.owning.columnNames ==>
      ForeignAliasName(env, t, fk) == Naming(env, fk.referenced.modelName + "_fk", Some(PascalCase), true)
  {
  }

  // -------------------------------------------------------------- records

  /** The `foreignKey` block: the named local column, the column itself, and
      whether it may be null. */
  function ForeignKeyBlock(env: Env, fk: ForeignKey): seq<Entry> {
    [Entry("name", Some(Str(Naming(env, fk.localColumn, None, false)))),
     Entry("field", Some(Str(fk.localColumn))),
     Entry("allowNull", Some(Bool(!fk.localNotNull)))]
  }

  /** `getAssociationMany`. */
  function AssociationMany(env: Env, fk: ForeignKey, alias: Option<string>, constrained: bool): seq<Entry> {
    [Entry("foreignKey", Some(Dict(ForeignKeyBlock(env, fk)))),
     Entry("onUpdate", if constrained then Nullable(fk.updateRule) else None),
     Entry("onDelete", if constrained then Nullable(fk.deleteRule) else None),
     Entry("targetKey", Some(Str(Naming(env, fk.foreignColumn, None, false)))),
     Entry("as", Nullable(alias)),
     Entry("constraints", if constrained then None else Some(Bool(false)))]
  }

  /** `getAssociationOne`: the V6 generator builds the same record as for
      the many side; the inverse is not used. */
  function AssociationOne(env: Env, fk: ForeignKey, alias: Option<string>, inverse: Option<string>, constrained: bool): seq<Entry> {
    AssociationMany(env, fk, alias, constrained)
  }

  /** The `foreignKey` block holds the name, the column and `allowNull`, the
      negation of the local column's not-null flag. */
  lemma ForeignKeyBlockShape(env: Env, fk: ForeignKey)
    ensures var b := ForeignKeyBlock(env, fk);
      && Keys(b) == ["name", "field", "allowNull"] && DistinctKeys(b)
      && HasKey(b, "allowNull") && At(b, "allowNull") == Some(Bool(!fk.localNotNull))
  {
    var b := ForeignKeyBlock(env, fk);
    assert b[2].key == "allowNull";
    assert IndexOf(b, "allowNull") == 2;
  }

  /** The one/many record: its keys in order, the rules passed through and
      `constraints` null when constrained, the rules null and `constraints`
      false otherwise. */
  lemma AssociationManyShape(env: Env, fk: ForeignKey, alias: Option<string>, constrained: bool)
    ensures var r := AssociationMany(env, fk, alias, constrained);
      && Keys(r) == ["foreignKey", "onUpdate", "onDelete", "targetKey", "as", "constraints"]
      && DistinctKeys(r) && Literal(r) == r
      && HasKey(r, "onUpdate") && HasKey(r, "onDelete") && HasKey(r, "constraints") && HasKey(r, "as")
      && At(r, "onUpdate") == (if constrained then Nullable(fk.updateRule) else None)
      && At(r, "onDelete") == (if constrained then Nullable(fk.deleteRule) else None)
      && (At(r, "constraints") == Some(Bool(false)) <==> !constrained)
      && (At(r, "constraints") == None <==> constrained)
      && At(r, "as") == Nullable(alias)
  {
    var r := AssociationMany(env, fk, alias, constrained);
    LiteralOfDistinct(r);
    assert r[1].key == "onUpdate" && r[2].key == "onDelete" && r[4].key == "as" && r[5].key == "constraints";
    assert IndexOf(r, "onUpdate") == 1 && IndexOf(r, "onDelete") == 2;
    assert IndexOf(r, "as") == 4 && IndexOf(r, "constraints") == 5;
  }

  /** `getAssociationThrough`: the junction table, the reference key's local
      column and rules, the target key and the plural PascalCase name of the
      other table. */
  function AssociationThrough(env: Env, rel: M2MRelation): seq<Entry> {
    [Entry("through", Some(Str(rel.reference.owning.rawName))),
     Entry("foreignKey", Some(Dict([Entry("name", Some(Str(rel.reference.localColumn)))]))),
     Entry("onUpdate", Nullable(rel.reference.updateRule)),
     Entry("onDelete", Nullable(rel.reference.deleteRule)),
     Entry("targetKey", Some(Str(Naming(env, rel.target.foreignColumn, None, false)))),
     Entry("as", Some(Str(env.pluralize(Naming(env, rel.refTable.modelName, Some(PascalCase), true)))))]
  }

  /** The through record: its keys in order, the rules of the reference key
      unconditionally, and the junction table's raw name. */
  lemma AssociationThroughShape(env: Env, rel: M2MRelation)
    ensures var r := AssociationThrough(env, rel);
      && Keys(r) == ["through", "foreignKey", "onUpdate", "onDelete", "targetKey", "as"]
      && DistinctKeys(r) && Literal(r) == r
      && HasKey(r, "through") && At(r, "through") == Some(Str(rel.reference.owning.rawName))
      && HasKey(r, "onUpdate") && At(r, "onUpdate") == Nullable(rel.reference.updateRule)
      && HasKey(r, "onDelete") && At(r, "onDelete") == Nullable(rel.reference.deleteRule)
      && !HasKey(r, "constraints")
  {
    var r := AssociationThrough(env, rel);
    LiteralOfDistinct(r);
    assert r[2].key == "onUpdate" && r[3].key == "onDelete";
    assert IndexOf(r, "onUpdate") == 2 && IndexOf(r, "onDelete") == 3;
  }

  // --------------------------------------------------------- associations

  /** The three record builders `writeAssociations` calls; a subclass may
      override them. */
  datatype Builders = Builders(
    one: (ForeignKey, Option<string>, Option<string>, bool) -> seq<Entry>,
    many: (ForeignKey, Option<string>, bool) -> seq<Entry>,
    through: M2MRelation -> seq<Entry>)

  function V6Builders(env: Env): Builders {
    Builders(
      (fk, alias, inverse, constrained) => AssociationOne(env, fk, alias, inverse, constrained),
      (fk, alias, constrained) => AssociationMany(env, fk, alias, constrained),
      rel => AssociationThrough(env, rel))
  }

  /** Builders that never return an empty record, so that the
      `if (!$options) continue` test never skips an association. */
  ghost predicate NonEmptyRecords(b: Builders) {
    && (forall fk, alias, inverse, c :: b.one(fk, alias, inverse, c) != [])
    && (forall fk, alias, c :: b.many(fk, alias, c) != [])
    && (forall rel :: b.through(rel) != [])
  }

  lemma V6BuildersNonEmpty(env: Env)
    ensures NonEmptyRecords(V6Builders(env))
  {
  }

  /** The association for a key referencing this table: hasMany when many to
      one, hasOne otherwise, with the owner as target. */
  function LocalAssociation(env: Env, b: Builders, t: Table, fk: ForeignKey): Association {
    var target := fk.owning.modelName;
    Association(
      if fk.manyToOne then HasMany else HasOne,
      if fk.manyToOne then "1 <=> N" else "1 <=> 1",
      target,
      b.one(fk, LocalAlias(env, t, fk), LocalInverse(env, t, fk), Constrained(t, target)))
  }

  /** The association for a key this table owns: always belongsTo, with the
      referenced model as target. */
  function ForeignAssociation(env: Env, b: Builders, t: Table, fk: ForeignKey): Association {
    var target := fk.referenced.modelName;
    Association(BelongsTo, if fk.manyToOne then "N <=> 1" else "1 <=> 1", target,
      b.many(fk, ForeignAlias(env, t, fk), Constrained(t, target)))
  }

  function ThroughAssociation(b: Builders, rel: M2MRelation): Association {
    Association(BelongsToMany, "N <=> N", rel.refTable.modelName, b.through(rel))
  }

  /** The first loop: a key is skipped when ignored or when its record is empty. */
  function LocalAssociations(env: Env, b: Builders, t: Table, fks: seq<ForeignKey>): seq<Association>
    decreases |fks|
  {
    if fks == [] then []
    else
      var last := fks[|fks| - 1];
      LocalAssociations(env, b, t, fks[..|fks| - 1])
        + (if !last.ignored && LocalAssociation(env, b, t, last).options != [] then [LocalAssociation(env, b, t, last)] else [])
  }

  /** The second loop. */
  function ForeignAssociations(env: Env, b: Builders, t: Table, fks: seq<ForeignKey>): seq<Association>
    decreases |fks|
  {
    if fks == [] then []
    else
      var last := fks[|fks| - 1];
      ForeignAssociations(env, b, t, fks[..|fks| - 1])
        + (if !last.ignored && ForeignAssociation(env, b, t, last).options != [] then [ForeignAssociation(env, b, t, last)] else [])
  }

  /** The third loop. */
  function ThroughAssociations(b: Builders, rels: seq<M2MRelation>): seq<Association>
    decreases |rels|
  {
    if rels == [] then []
    else
      var last := rels[|rels| - 1];
      ThroughAssociations(b, rels[..|rels| - 1])
        + (if b.through(last) != [] then [ThroughAssociation(b, last)] else [])
  }

  /** What `writeAssociations` emits, in order. */
  function Associations(env: Env, b: Builders, t: Table): seq<Association> {
    LocalAssociations(env, b, t, t.localFks) + ForeignAssociations(env, b, t, t.foreignFks) + ThroughAssociations(b, t.m2m)
  }

  /** The constraint map as `getConstraints` returns it. */
  ghost predicate ConstraintMap(t: Table, constraints: map<string, bool>) {
    && (forall m :: m in constraints <==> ConstraintCount(t, m) >= 1)
    && (forall m :: m in constraints ==> constraints[m] == Constrained(t, m))
  }

  /** The alias of a local key, worked out step by step. */
  method LocalAliasOf(env: Env, t: Table, fk: ForeignKey) returns (alias: Option<string>, inverse: Option<string>)
    ensures alias == LocalAlias(env, t, fk) && inverse == LocalInverse(env, t, fk)
  {
    var model := t.info.modelName;
    var target := fk.owning.modelName;
    var related := fk.localColumn;
    var count := CountFkOwnerReferences(t.info, target);
    if count > 1 {
      alias := Some(env.pluralize(Naming(env, RelatedBy(target, related), Some(PascalCase), true)));
    } else {
      alias := Some(env.pluralize(target));
    }
    if alias == Some(target) && !env.associationAlias {
      alias := None;
    }
    if count > 1 {
      inverse := Some(Naming(env, RelatedBy(model, related), Some(PascalCase), true));
    } else if model in fk.owning.columnNames {
      inverse := Some(Naming(env, model + "_fk", Some(PascalCase), true));
    } else {
      inverse := if env.associationAlias then Some(model) else None;
    }
  }

  /** The alias of a foreign key, worked out step by step. */
  method ForeignAliasOf(env: Env, t: Table, fk: ForeignKey) returns (alias: Option<string>)
    ensures alias == ForeignAlias(env, t, fk)
  {
    var target := fk.referenced.modelName;
    var related := fk.localColumn;
    var count := CountFkOwnerReferences(fk.referenced, t.info.modelName);
    if count > 1 {
      alias := Some(Naming(env, RelatedBy(target, related), Some(PascalCase), true));
    } else if target in fk.owning.columnNames {
      alias := Some(Naming(env, target + "_fk", Some(PascalCase), true));
    } else {
      alias := Some(target);
    }
    if alias == Some(target) && !env.associationAlias {
      alias := None;
    }
  }

  /** One more key adds at most its own association. */
  lemma LocalAssociationsSnoc(env: Env, b: Builders, t: Table, fks: seq<ForeignKey>, i: nat)
    requires i < |fks|
    ensures LocalAssociations(env, b, t, fks[..i + 1]) == LocalAssociations(env, b, t, fks[..i])
      + (if !fks[i].ignored && LocalAssociation(env, b, t, fks[i]).options != [] then [LocalAssociation(env, b, t, fks[i])] else [])
  {
    assert fks[..i + 1][..i] == fks[..i];
  }

  lemma ForeignAssociationsSnoc(env: Env, b: Builders, t: Table, fks: seq<ForeignKey>, i: nat)
    requires i < |fks|
    ensures ForeignAssociations(env, b, t, fks[..i + 1]) == ForeignAssociations(env, b, t, fks[..i])
      + (if !fks[i].ignored && ForeignAssociation(env, b, t, fks[i]).options != [] then [ForeignAssociation(env, b, t, fks[i])] else [])
  {
    assert fks[..i + 1][..i] == fks[..i];
  }

  /** The body of the first loop for the key at position `i`: its record and
      kind. */
  method LocalStep(env: Env, b: Builders, t: Table, constraints: map<string, bool>, i: nat) returns (a: Association)
    requires ConstraintMap(t, constraints)
    requires i < |t.localFks| && !t.localFks[i].ignored
    ensures a == LocalAssociation(env, b, t, t.localFks[i])
  {
    var fk := t.localFks[i];
    var target := fk.owning.modelName;
    var alias, inverse := LocalAliasOf(env, t, fk);
    OwnedAtCounted(t.localFks, i, target);
    var options := b.one(fk, alias, inverse, constraints[target]);
    var kind, comment := HasOne, "1 <=> 1";
    if fk.manyToOne {
      kind, comment := HasMany, "1 <=> N";
    }
    a := Association(kind, comment, target, options);
  }

  /** The first loop of `writeAssociations` (1 <=> N references). */
  method WriteLocalAssociations(env: Env, b: Builders, t: Table, constraints: map<string, bool>) returns (out: seq<Association>)
    requires ConstraintMap(t, constraints)
    ensures out == LocalAssociations(env, b, t, t.localFks)
  {
    out := [];
    var i := 0;
    while i < |t.localFks|
      invariant 0 <= i <= |t.localFks|
      invariant out == LocalAssociations(env, b, t, t.localFks[..i])
    {
      LocalAssociationsSnoc(env, b, t, t.localFks, i);
      if t.localFks[i].ignored {
        i := i + 1;
        continue;
      }
      var a := LocalStep(env, b, t, constraints, i);
      if a.options == [] {
        i := i + 1;
        continue;
      }
      out := out + [a];
      i := i + 1;
    }
    assert t.localFks[..i] == t.localFks;
  }

  /** The body of the second loop for the key at position `j`. */
  method ForeignStep(env: Env, b: Builders, t: Table, constraints: map<string, bool>, j: nat) returns (a: Association)
    requires ConstraintMap(t, constraints)
    requires j < |t.foreignFks| && !t.foreignFks[j].ignored
    ensures a == ForeignAssociation(env, b, t, t.foreignFks[j])
  {
    var fk := t.foreignFks[j];
    var target := fk.referenced.modelName;
    var alias := ForeignAliasOf(env, t, fk);
    ReferencingAtCounted(t.foreignFks, j, target);
    var options := b.many(fk, alias, constraints[target]);
    var comment := if fk.manyToOne then "N <=> 1" else "1 <=> 1";
    a := Association(BelongsTo, comment, target, options);
  }

  /** The second loop of `writeAssociations` (N <=> 1 references). */
  method WriteForeignAssociations(env: Env, b: Builders, t: Table, constraints: map<string, bool>) returns (out: seq<Association>)
    requires ConstraintMap(t, constraints)
    ensures out == ForeignAssociations(env, b, t, t.foreignFks)
  {
    out := [];
    var j := 0;
    while j < |t.foreignFks|
      invariant 0 <= j <= |t.foreignFks|
      invariant out == ForeignAssociations(env, b, t, t.foreignFks[..j])
    {
      ForeignAssociationsSnoc(env, b, t, t.foreignFks, j);
      if t.foreignFks[j].ignored {
        j := j + 1;
        continue;
      }
      var a := ForeignStep(env, b, t, constraints, j);
      if a.options == [] {
        j := j + 1;
        continue;
      }
      out := out + [a];
      j := j + 1;
    }
    assert t.foreignFks[..j] == t.foreignFks;
  }

  /** The third loop of `writeAssociations` (N <=> N associations). */
  method WriteThroughAssociations(b: Builders, rels: seq<M2MRelation>) returns (out: seq<Association>)
    ensures out == ThroughAssociations(b, rels)
  {
    out := [];
    var k := 0;
    while k < |rels|
      invariant 0 <= k <= |rels|
      invariant out == ThroughAssociations(b, rels[..k])
    {
      var relation := rels[k];
      assert rels[..k + 1][..k] == rels[..k];
      var options := b.through(relation);
      if options == [] {
        k := k + 1;
        continue;
      }
      out := out + [Association(BelongsToMany, "N <=> N", relation.refTable.modelName, options)];
      k := k + 1;
    }
    assert rels[..k] == rels;
  }

  /** `writeAssociations`: the local keys, then the foreign keys, then the
      many-to-many relations. */
  method WriteAssociations(env: Env, b: Builders, t: Table) returns (out: seq<Association>)
    ensures out == Associations(env, b, t)
  {
    var constraints := GetConstraints(t);
    var locals := WriteLocalAssociations(env, b, t, constraints);
    var foreigns := WriteForeignAssociations(env, b, t, constraints);
    var throughs := WriteThroughAssociations(b, t.m2m);
    out := locals + foreigns + throughs;
  }

  // ------------------------------------------------------ what is emitted

  /** With builders that never return an empty record, the first loop emits
      exactly one association per key that is not ignored, in key order. */
  lemma {:induction false} LocalAssociationsOfActive(env: Env, b: Builders, t: Table, fks: seq<ForeignKey>)
    requires NonEmptyRecords(b)
    ensures |LocalAssociations(env, b, t, fks)| == |Active(fks)|
    ensures forall k :: 0 <= k < |Active(fks)| ==>
      LocalAssociations(env, b, t, fks)[k] == LocalAssociation(env, b, t, Active(fks)[k])
    decreases |fks|
  {
    if fks != [] {
      var init := fks[..|fks| - 1];
      var last := fks[|fks| - 1];
      LocalAssociationsOfActive(env, b, t, init);
      assert Active(fks) == Active(init) + (if last.ignored then [] else [last]);
      assert LocalAssociation(env, b, t, last).options != [];
      var r := LocalAssociations(env, b, t, fks);
      var ri := LocalAssociations(env, b, t, init);
      assert r == ri + (if last.ignored then [] else [LocalAssociation(env, b, t, last)]);
    }
  }

  /** The same for the second loop. */
  lemma {:induction false} ForeignAssociationsOfActive(env: Env, b: Builders, t: Table, fks: seq<ForeignKey>)
    requires NonEmptyRecords(b)
    ensures |ForeignAssociations(env, b, t, fks)| == |Active(fks)|
    ensures forall k :: 0 <= k < |Active(fks)| ==>
      ForeignAssociations(env, b, t, fks)[k] == ForeignAssociation(env, b, t, Active(fks)[k])
    decreases |fks|
  {
    if fks != [] {
      var init := fks[..|fks| - 1];
      var last := fks[|fks| - 1];
      ForeignAssociationsOfActive(env, b, t, init);
      assert Active(fks) == Active(init) + (if last.ignored then [] else [last]);
      assert ForeignAssociation(env, b, t, last).options != [];
      var r := ForeignAssociations(env, b, t, fks);
      var ri := ForeignAssociations(env, b, t, init);
      assert r == ri + (if last.ignored then [] else [ForeignAssociation(env, b, t, last)]);
    }
  }

  /** The third loop emits one association per relation, in relation order. */
  lemma {:induction false} ThroughAssociationsOfAll(b: Builders, rels: seq<M2MRelation>)
    requires NonEmptyRecords(b)
    ensures |ThroughAssociations(b, rels)| == |rels|
    ensures forall k :: 0 <= k < |rels| ==> ThroughAssociations(b, rels)[k] == ThroughAssociation(b, rels[k])
    decreases |rels|
  {
    if rels != [] {
      var init := rels[..|rels| - 1];
      ThroughAssociationsOfAll(b, init);
      assert b.through(rels[|rels| - 1]) != [];
    }
  }

  /** An emitted local association is that of a key of the list that is not
      ignored. */
  lemma {:induction false} LocalAssociationsFrom(env: Env, b: Builders, t: Table, fks: seq<ForeignKey>)
    ensures forall a :: a in LocalAssociations(env, b, t, fks) ==>
      exists i :: 0 <= i < |fks| && !fks[i].ignored && a == LocalAssociation(env, b, t, fks[i])
    decreases |fks|
  {
    if fks != [] {
      var init := fks[..|fks| - 1];
      LocalAssociationsFrom(env, b, t, init);
      forall a | a in LocalAssociations(env, b, t, fks)
        ensures exists i :: 0 <= i < |fks| && !fks[i].ignored && a == LocalAssociation(env, b, t, fks[i])
      {
        if a in LocalAssociations(env, b, t, init) {
          var i :| 0 <= i < |init| && !init[i].ignored && a == LocalAssociation(env, b, t, init[i]);
          assert fks[i] == init[i];
        }
      }
    }
  }

  /** An emitted foreign association is that of a key of the list that is
      not ignored. */
  lemma {:induction false} ForeignAssociationsFrom(env: Env, b: Builders, t: Table, fks: seq<ForeignKey>)
    ensures forall a :: a in ForeignAssociations(env, b, t, fks) ==>
      exists i :: 0 <= i < |fks| && !fks[i].ignored && a == ForeignAssociation(env, b, t, fks[i])
    decreases |fks|
  {
    if fks != [] {
      var init := fks[..|fks| - 1];
      ForeignAssociationsFrom(env, b, t, init);
      forall a | a in ForeignAssociations(env, b, t, fks)
        ensures exists i :: 0 <= i < |fks| && !fks[i].ignored && a == ForeignAssociation(env, b, t, fks[i])
      {
        if a in ForeignAssociations(env, b, t, init) {
          var i :| 0 <= i < |init| && !init[i].ignored && a == ForeignAssociation(env, b, t, init[i]);
          assert fks[i] == init[i];
        }
      }
    }
  }

  /** Kinds of the three loops' associations. */
  lemma {:induction false} LocalKinds(env: Env, b: Builders, t: Table, fks: seq<ForeignKey>)
    ensures forall k :: 0 <= k < |LocalAssociations(env, b, t, fks)| ==>
      LocalAssociations(env, b, t, fks)[k].kind == HasMany || LocalAssociations(env, b, t, fks)[k].kind == HasOne
    decreases |fks|
  {
    if fks != [] {
      LocalKinds(env, b, t, fks[..|fks| - 1]);
    }
  }

  /** With builders that never return an empty record, the association of
      the k-th non-ignored local key is hasMany exactly when that key is many
      to one, and hasOne otherwise. */
  lemma LocalKindsByKey(env: Env, b: Builders, t: Table, fks: seq<ForeignKey>)
    requires NonEmptyRecords(b)
    ensures |LocalAssociations(env, b, t, fks)| == |Active(fks)|
    ensures forall k :: 0 <= k < |Active(fks)| ==>
      LocalAssociations(env, b, t, fks)[k].kind == (if Active(fks)[k].manyToOne then HasMany else HasOne)
  {
    LocalAssociationsOfActive(env, b, t, fks);
  }

  lemma {:induction false} ForeignKinds(env: Env, b: Builders, t: Table, fks: seq<ForeignKey>)
    ensures forall k :: 0 <= k < |ForeignAssociations(env, b, t, fks)| ==>
      ForeignAssociations(env, b, t, fks)[k].kind == BelongsTo
    decreases |fks|
  {
    if fks != [] {
      ForeignKinds(env, b, t, fks[..|fks| - 1]);
    }
  }

  lemma {:induction false} ThroughKinds(b: Builders, rels: seq<M2MRelation>)
    ensures forall k :: 0 <= k < |ThroughAssociations(b, rels)| ==>
      ThroughAssociations(b, rels)[k].kind == BelongsToMany
    decreases |rels|
  {
    if rels != [] {
      ThroughKinds(b, rels[..|rels| - 1]);
    }
  }

  /** The output order: first the hasMany/hasOne associations, then the
      belongsTo ones, then the belongsToMany ones. */
  lemma AssociationsOrder(env: Env, b: Builders, t: Table)
    ensures var l := |LocalAssociations(env, b, t, t.localFks)|;
      var f := |ForeignAssociations(env, b, t, t.foreignFks)|;
      var out := Associations(env, b, t);
      && (forall k :: 0 <= k < l ==> out[k].kind == HasMany || out[k].kind == HasOne)
      && (forall k :: l <= k < l + f ==> out[k].kind == BelongsTo)
      && (forall k :: l + f <= k < |out| ==> out[k].kind == BelongsToMany)
  {
    var ls := LocalAssociations(env, b, t, t.localFks);
    var fs := ForeignAssociations(env, b, t, t.foreignFks);
    var ts := ThroughAssociations(b, t.m2m);
    LocalKinds(env, b, t, t.localFks);
    ForeignKinds(env, b, t, t.foreignFks);
    ThroughKinds(b, t.m2m);
    OrderOfConcat(ls, fs, ts);
  }

  /** Kinds of a concatenation of three association lists, by position. */
  lemma OrderOfConcat(ls: seq<Association>, fs: seq<Association>, ts: seq<Association>)
    requires forall k :: 0 <= k < |ls| ==> ls[k].kind == HasMany || ls[k].kind == HasOne
    requires forall k :: 0 <= k < |fs| ==> fs[k].kind == BelongsTo
    requires forall k :: 0 <= k < |ts| ==> ts[k].kind == BelongsToMany
    ensures var out := ls + fs + ts;
      && (forall k :: 0 <= k < |ls| ==> out[k].kind == HasMany || out[k].kind == HasOne)
      && (forall k :: |ls| <= k < |ls| + |fs| ==> out[k].kind == BelongsTo)
      && (forall k :: |ls| + |fs| <= k < |out| ==> out[k].kind == BelongsToMany)
  {
    var out := ls + fs + ts;
    forall k | |ls| <= k < |ls| + |fs| ensures out[k].kind == BelongsTo {
      assert out[k] == fs[k - |ls|];
    }
    forall k | |ls| + |fs| <= k < |out| ensures out[k].kind == BelongsToMany {
      assert out[k] == ts[k - |ls| - |fs|];
    }
  }

  /** With the V6 records, every non-ignored key and every relation yields
      exactly one association. */
  lemma V6AssociationCount(env: Env, t: Table)
    ensures |Associations(env, V6Builders(env), t)| == |Active(t.localFks)| + |Active(t.foreignFks)| + |t.m2m|
  {
    V6BuildersNonEmpty(env);
    LocalAssociationsOfActive(env, V6Builders(env), t, t.localFks);
    ForeignAssociationsOfActive(env, V6Builders(env), t, t.foreignFks);
    ThroughAssociationsOfAll(V6Builders(env), t.m2m);
  }

  /** The V6 record of a local key: unconstrained, that is `constraints`
      false and both rules null, exactly when its owner is counted more than
      once; the alias is the local alias. */
  lemma V6LocalRecord(env: Env, t: Table, fk: ForeignKey)
    ensures var o := LocalAssociation(env, V6Builders(env), t, fk).options;
      var c := Constrained(t, fk.owning.modelName);
      && HasKey(o, "constraints") && HasKey(o, "onUpdate") && HasKey(o, "onDelete") && HasKey(o, "as")
      && (At(o, "constraints") == Some(Bool(false)) <==> ConstraintCount(t, fk.owning.modelName) > 1)
      && At(o, "onUpdate") == (if c then Nullable(fk.updateRule) else None)
      && At(o, "onDelete") == (if c then Nullable(fk.deleteRule) else None)
      && At(o, "as") == Nullable(LocalAlias(env, t, fk))
  {
    AssociationManyShape(env, fk, LocalAlias(env, t, fk), Constrained(t, fk.owning.modelName));
  }

  /** The V6 record of a foreign key, likewise with the referenced model. */
  lemma V6ForeignRecord(env: Env, t: Table, fk: ForeignKey)
    ensures var o := ForeignAssociation(env, V6Builders(env), t, fk).options;
      var c := Constrained(t, fk.referenced.modelName);
      && HasKey(o, "constraints") && HasKey(o, "onUpdate") && HasKey(o, "onDelete") && HasKey(o, "as")
      && (At(o, "constraints") == Some(Bool(false)) <==> ConstraintCount(t, fk.referenced.modelName) > 1)
      && At(o, "onUpdate") == (if c then Nullable(fk.updateRule) else None)
      && At(o, "onDelete") == (if c then Nullable(fk.deleteRule) else None)
      && At(o, "as") == Nullable(ForeignAlias(env, t, fk))
  {
    AssociationManyShape(env, fk, ForeignAlias(env, t, fk), Constrained(t, fk.referenced.modelName));
  }

  // --------------------------------------------------------- many to many

  /** `injectManyToMany`: the table `fk1` references gets a relation through
      `fk1`'s table to the table `fk2` references. */
  function InjectManyToMany(referenced: Table, fk1: ForeignKey, fk2: ForeignKey): (r: Table)
    requires referenced.info == fk1.referenced
    ensures r.info == referenced.info && r.columns == referenced.columns && r.indices == referenced.indices
    ensures r.localFks == referenced.localFks && r.foreignFks == referenced.foreignFks
    ensures |r.m2m| == |referenced.m2m| + 1 && r.m2m[..|referenced.m2m|] == referenced.m2m
    ensures r.m2m[|referenced.m2m|] == M2MRelation(fk1, fk2, fk2.referenced)
  {
    referenced.(m2m := referenced.m2m + [M2MRelation(fk1, fk2, fk2.referenced)])
  }

  /** The key loops read of a table only its snapshot and its key lists. */
  lemma {:induction false} SameKeysSameLocal(env: Env, b: Builders, t1: Table, t2: Table, fks: seq<ForeignKey>)
    requires t1.info == t2.info && t1.localFks == t2.localFks && t1.foreignFks == t2.foreignFks
    ensures LocalAssociations(env, b, t1, fks) == LocalAssociations(env, b, t2, fks)
    decreases |fks|
  {
    if fks != [] {
      SameKeysSameLocal(env, b, t1, t2, fks[..|fks| - 1]);
      var last := fks[|fks| - 1];
      assert Constrained(t1, last.owning.modelName) == Constrained(t2, last.owning.modelName);
      assert LocalAssociation(env, b, t1, last) == LocalAssociation(env, b, t2, last);
    }
  }

  lemma {:induction false} SameKeysSameForeign(env: Env, b: Builders, t1: Table, t2: Table, fks: seq<ForeignKey>)
    requires t1.info == t2.info && t1.localFks == t2.localFks && t1.foreignFks == t2.foreignFks
    ensures ForeignAssociations(env, b, t1, fks) == ForeignAssociations(env, b, t2, fks)
    decreases |fks|
  {
    if fks != [] {
      SameKeysSameForeign(env, b, t1, t2, fks[..|fks| - 1]);
      var last := fks[|fks| - 1];
      assert Constrained(t1, last.referenced.modelName) == Constrained(t2, last.referenced.modelName);
      assert ForeignAssociation(env, b, t1, last) == ForeignAssociation(env, b, t2, last);
    }
  }

  /** An injected relation adds its belongsToMany after everything the table
      emitted before, and changes nothing else. */
  lemma InjectAddsThrough(env: Env, b: Builders, referenced: Table, fk1: ForeignKey, fk2: ForeignKey)
    requires referenced.info == fk1.referenced
    ensures var rel := M2MRelation(fk1, fk2, fk2.referenced);
      Associations(env, b, InjectManyToMany(referenced, fk1, fk2)) ==
        Associations(env, b, referenced) + (if b.through(rel) != [] then [ThroughAssociation(b, rel)] else [])
  {
    var r := InjectManyToMany(referenced, fk1, fk2);
    assert r.m2m[..|r.m2m| - 1] == referenced.m2m;
    SameKeysSameLocal(env, b, r, referenced, r.localFks);
    SameKeysSameForeign(env, b, r, referenced, r.foreignFks);
  }
}
