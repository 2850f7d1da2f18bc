/** The V7 generator's table model (lib/V7/Model/Table.php). It inherits
    everything from the V6 generator and changes two things: the record keys
    `getFields` writes, and the shape of the three association records. */
module V7Table {
  import opened Records
  import opened Schema
  import opened Fields
  import opened V6Table

  /** `init`: attributes name their column with `columnName` and references
      name their table with `tableName`. */
  method Init(s: Settings)
    modifies s
    ensures s.attributeFieldKey == "columnName" && s.referencesModelKey == "tableName"
  {
    s.attributeFieldKey := "columnName";
    s.referencesModelKey := "tableName";
  }

  /** After `init`, the `references` block of a column with foreign keys
      names the raw table of its last key under `tableName`. */
  lemma V7References(env: Env, t: Table, col: Column)
    requires |col.foreignKeys| > 0
    ensures var fl := V6Flavour(env, "columnName", "tableName", t.indices);
      var r := Attributes(fl, col);
      var last := col.foreignKeys[|col.foreignKeys| - 1];
      && HasKey(r, "references")
      && At(r, "references") == Some(Dict([Entry("tableName", Some(Str(last.referenced.rawName))),
                                           Entry("key", Some(Str(Naming(env, last.foreignColumn, None, false))))]))
  {
    var fl := V6Flavour(env, "columnName", "tableName", t.indices);
    ReferencesOfColumn(fl, col);
  }

  /** The rules of a one/many record, nested in its `foreignKey` block: the
      key's rules when constrained, null otherwise. */
  function V7ForeignKeyBlock(env: Env, fk: ForeignKey, constrained: bool): seq<Entry> {
    [Entry("name", Some(Str(Naming(env, fk.localColumn, None, false)))),
     Entry("field", Some(Str(fk.localColumn))),
     Entry("allowNull", Some(Bool(!fk.localNotNull))),
     Entry("onUpdate", if constrained then Nullable(fk.updateRule) else None),
     Entry("onDelete", if constrained then Nullable(fk.deleteRule) else None)]
  }

  /** `getAssociationOne`. */
  function V7AssociationOne(env: Env, fk: ForeignKey, alias: Option<string>, inverse: Option<string>, constrained: bool): seq<Entry> {
    var key := Naming(env, fk.foreignColumn, None, false);
    [Entry("foreignKey", Some(Dict(V7ForeignKeyBlock(env, fk, constrained)))),
     Entry("sourceKey", Some(Str(key))),
     Entry("targetKey", Some(Str(key))),
     Entry("as", Nullable(alias)),
     Entry("inverse", if TruthyOpt(inverse) then Some(Dict([Entry("as", Some(Str(inverse.value)))])) else None),
     Entry("foreignKeyConstraints", if constrained then None else Some(Bool(false)))]
  }

  /** `getAssociationMany`. */
  function V7AssociationMany(env: Env, fk: ForeignKey, alias: Option<string>, constrained: bool): seq<Entry> {
    [Entry("foreignKey", Some(Dict(V7ForeignKeyBlock(env, fk, constrained)))),
     Entry("targetKey", Some(Str(Naming(env, fk.foreignColumn, None, false)))),
     Entry("as", Nullable(alias)),
     Entry("foreignKeyConstraints", if constrained then None else Some(Bool(false)))]
  }

  /** `getAssociationThrough`. */
  function V7AssociationThrough(env: Env, rel: M2MRelation): seq<Entry> {
    [Entry("through", Some(Str(rel.reference.owning.rawName))),
     Entry("foreignKey", Some(Dict([Entry("name", Some(Str(rel.reference.localColumn))),
                                    Entry("onUpdate", Nullable(rel.reference.updateRule)),
                                    Entry("onDelete", Nullable(rel.reference.deleteRule))]))),
     Entry("targetKey", Some(Str(Naming(env, rel.target.foreignColumn, None, false)))),
     Entry("as", Some(Str(env.pluralize(Naming(env, rel.refTable.modelName, Some(PascalCase), true)))))]
  }

  /** The nested block: the V6 block's three entries, then the rules, which
      pass through exactly when constrained. */
  lemma V7ForeignKeyBlockShape(env: Env, fk: ForeignKey, constrained: bool)
    ensures var b := V7ForeignKeyBlock(env, fk, constrained);
      && Keys(b) == ["name", "field", "allowNull", "onUpdate", "onDelete"]
      && DistinctKeys(b) && Literal(b) == b
      && b[..3] == ForeignKeyBlock(env, fk)
      && HasKey(b, "onUpdate") && HasKey(b, "onDelete")
      && At(b, "onUpdate") == (if constrained then Nullable(fk.updateRule) else None)
      && At(b, "onDelete") == (if constrained then Nullable(fk.deleteRule) else None)
  {
    var b := V7ForeignKeyBlock(env, fk, constrained);
    LiteralOfDistinct(b);
    assert b[3].key == "onUpdate" && b[4].key == "onDelete";
    assert IndexOf(b, "onUpdate") == 3 && IndexOf(b, "onDelete") == 4;
  }

  /** The one-side record's keys: no `constraints` key and no top-level rule. */
  lemma V7AssociationOneShape(env: Env, fk: ForeignKey, alias: Option<string>, inverse: Option<string>, constrained: bool)
    ensures var r := V7AssociationOne(env, fk, alias, inverse, constrained);
      && Keys(r) == ["foreignKey", "sourceKey", "targetKey", "as", "inverse", "foreignKeyConstraints"]
      && DistinctKeys(r) && Literal(r) == r
      && !HasKey(r, "constraints") && !HasKey(r, "onUpdate") && !HasKey(r, "onDelete")
  {
    LiteralOfDistinct(V7AssociationOne(env, fk, alias, inverse, constrained));
  }

  /** The one-side record's values: `sourceKey` equals `targetKey`, the
      inverse is `{as: inverse}` exactly when the inverse is truthy, and
      `foreignKeyConstraints` is false exactly when unconstrained. */
  lemma V7AssociationOneValues(env: Env, fk: ForeignKey, alias: Option<string>, inverse: Option<string>, constrained: bool)
    ensures var r := V7AssociationOne(env, fk, alias, inverse, constrained);
      && HasKey(r, "sourceKey") && HasKey(r, "targetKey") && HasKey(r, "inverse") && HasKey(r, "foreignKeyConstraints")
      && At(r, "sourceKey") == At(r, "targetKey")
      && (TruthyOpt(inverse) ==> At(r, "inverse") == Some(Dict([Entry("as", Some(Str(inverse.value)))])))
      && (At(r, "inverse") == None <==> !TruthyOpt(inverse))
      && (At(r, "foreignKeyConstraints") == Some(Bool(false)) <==> !constrained)
      && (At(r, "foreignKeyConstraints") == None <==> constrained)
  {
    var r := V7AssociationOne(env, fk, alias, inverse, constrained);
    assert r[1].key == "sourceKey" && r[2].key == "targetKey" && r[4].key == "inverse" && r[5].key == "foreignKeyConstraints";
    assert IndexOf(r, "sourceKey") == 1 && IndexOf(r, "targetKey") == 2;
    assert IndexOf(r, "inverse") == 4 && IndexOf(r, "foreignKeyConstraints") == 5;
  }

  /** The one-side record's nested `foreignKey` block, its target key (the
      named referenced column) and its alias. */
  lemma V7AssociationOneKeyValues(env: Env, fk: ForeignKey, alias: Option<string>, inverse: Option<string>, constrained: bool)
    ensures var r := V7AssociationOne(env, fk, alias, inverse, constrained);
      && HasKey(r, "foreignKey") && At(r, "foreignKey") == Some(Dict(V7ForeignKeyBlock(env, fk, constrained)))
      && HasKey(r, "targetKey") && At(r, "targetKey") == Some(Str(Naming(env, fk.foreignColumn, None, false)))
      && HasKey(r, "as") && At(r, "as") == Nullable(alias)
  {
    var r := V7AssociationOne(env, fk, alias, inverse, constrained);
    assert r[0].key == "foreignKey" && r[2].key == "targetKey" && r[3].key == "as";
    assert IndexOf(r, "foreignKey") == 0 && IndexOf(r, "targetKey") == 2 && IndexOf(r, "as") == 3;
  }

  /** The many-side record: no `sourceKey`, no `inverse`, no `constraints`
      and no top-level rule. */
  lemma V7AssociationManyShape(env: Env, fk: ForeignKey, alias: Option<string>, constrained: bool)
    ensures var r := V7AssociationMany(env, fk, alias, constrained);
      && Keys(r) == ["foreignKey", "targetKey", "as", "foreignKeyConstraints"]
      && DistinctKeys(r) && Literal(r) == r
      && HasKey(r, "foreignKey") && At(r, "foreignKey") == Some(Dict(V7ForeignKeyBlock(env, fk, constrained)))
      && HasKey(r, "foreignKeyConstraints")
      && (At(r, "foreignKeyConstraints") == Some(Bool(false)) <==> !constrained)
      && (At(r, "foreignKeyConstraints") == None <==> constrained)
      && !HasKey(r, "sourceKey") && !HasKey(r, "inverse") && !HasKey(r, "constraints")
      && !HasKey(r, "onUpdate") && !HasKey(r, "onDelete")
  {
    var r := V7AssociationMany(env, fk, alias, constrained);
    LiteralOfDistinct(r);
    assert r[3].key == "foreignKeyConstraints";
    assert IndexOf(r, "foreignKeyConstraints") == 3;
  }

  /** The through record: the junction table's raw name, and a `foreignKey`
      block holding the reference key's column and both of its rules. */
  lemma V7AssociationThroughShape(env: Env, rel: M2MRelation)
    ensures var r := V7AssociationThrough(env, rel);
      && Keys(r) == ["through", "foreignKey", "targetKey", "as"]
      && DistinctKeys(r) && Literal(r) == r
      && HasKey(r, "through") && At(r, "through") == Some(Str(rel.reference.owning.rawName))
      && HasKey(r, "foreignKey")
      && At(r, "foreignKey") == Some(Dict([Entry("name", Some(Str(rel.reference.localColumn))),
                                           Entry("onUpdate", Nullable(rel.reference.updateRule)),
                                           Entry("onDelete", Nullable(rel.reference.deleteRule))]))
      && !HasKey(r, "onUpdate") && !HasKey(r, "onDelete")
  {
    var r := V7AssociationThrough(env, rel);
    LiteralOfDistinct(r);
    assert r[1].key == "foreignKey";
    assert IndexOf(r, "foreignKey") == 1;
  }

  function V7Builders(env: Env): Builders {
    Builders(
      (fk, alias, inverse, constrained) => V7AssociationOne(env, fk, alias, inverse, constrained),
      (fk, alias, constrained) => V7AssociationMany(env, fk, alias, constrained),
      rel => V7AssociationThrough(env, rel))
  }

  lemma V7BuildersNonEmpty(env: Env)
    ensures NonEmptyRecords(V7Builders(env))
  {
  }

  /** Only the records differ: the V7 generator emits the same associations
      as the V6 one, of the same kinds, to the same targets, in the same
      order. */
  lemma V7LikeV6(env: Env, t: Table)
    ensures var v6 := Associations(env, V6Builders(env), t);
      var v7 := Associations(env, V7Builders(env), t);
      && |v7| == |v6|
      && forall k :: 0 <= k < |v6| ==>
           v7[k].kind == v6[k].kind && v7[k].target == v6[k].target && v7[k].comment == v6[k].comment
  {
    var b6, b7 := V6Builders(env), V7Builders(env);
    V6BuildersNonEmpty(env);
    V7BuildersNonEmpty(env);
    LocalAssociationsOfActive(env, b6, t, t.localFks);
    LocalAssociationsOfActive(env, b7, t, t.localFks);
    ForeignAssociationsOfActive(env, b6, t, t.foreignFks);
    ForeignAssociationsOfActive(env, b7, t, t.foreignFks);
    ThroughAssociationsOfAll(b6, t.m2m);
    ThroughAssociationsOfAll(b7, t.m2m);
    var l6, f6, m6 := LocalAssociations(env, b6, t, t.localFks), ForeignAssociations(env, b6, t, t.foreignFks), ThroughAssociations(b6, t.m2m);
    var l7, f7, m7 := LocalAssociations(env, b7, t, t.localFks), ForeignAssociations(env, b7, t, t.foreignFks), ThroughAssociations(b7, t.m2m);
    assert SameHeadsAll(l6, l7);
    assert SameHeadsAll(f6, f7);
    assert SameHeadsAll(m6, m7);
    SameHeadsConcat(l6, f6, m6, l7, f7, m7);
  }

  /** Two association lists that agree in everything but the records. */
  predicate SameHeadsAll(a: seq<Association>, b: seq<Association>) {
    |a| == |b| && forall k :: 0 <= k < |a| ==>
      b[k].kind == a[k].kind && b[k].target == a[k].target && b[k].comment == a[k].comment
  }

  lemma SameHeadsConcat(a1: seq<Association>, a2: seq<Association>, a3: seq<Association>,
                        b1: seq<Association>, b2: seq<Association>, b3: seq<Association>)
    requires SameHeadsAll(a1, b1) && SameHeadsAll(a2, b2) && SameHeadsAll(a3, b3)
    ensures SameHeadsAll(a1 + a2 + a3, b1 + b2 + b3)
  {
    var a, b := a1 + a2 + a3, b1 + b2 + b3;
    forall k | 0 <= k < |a| ensures b[k].kind == a[k].kind && b[k].target == a[k].target && b[k].comment == a[k].comment {
      if k < |a1| {
      } else if k < |a1| + |a2| {
        assert a[k] == a2[k - |a1|] && b[k] == b2[k - |a1|];
      } else {
        assert a[k] == a3[k - |a1| - |a2|] && b[k] == b3[k - |a1| - |a2|];
      }
    }
  }
}
