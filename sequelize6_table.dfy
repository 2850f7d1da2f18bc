/** The Sequelize6 generator's table model (lib/Sequelize6/Model/Table.php):
    its own naming, the alias taken apart from the local column name by
    `extractForeignAlias`, the association records, and the blank line that
    separates emitted associations. The constraint map and the index list
    are computed exactly as the V6 generator does it. */
module Sequelize6Table {
  import opened Records
  import opened Strings
  import opened Schema
  import opened Fields
  import opened Indexes
  import V6Table

  // --------------------------------------------------------------- naming

  /** The strategy `getNaming` hands to the parent: the configured one when
      none is given, PascalCase for a model name under the camelCase
      configuration. */
  function NamingStrategy(env: Env, strategy: Option<Strategy>, isModel: bool): (r: Strategy)
    ensures strategy.Some? ==> r == strategy.value
    ensures strategy.None? && isModel && env.namingStrategy == CamelCase ==> r == PascalCase
    ensures strategy.None? && !(isModel && env.namingStrategy == CamelCase) ==> r == env.namingStrategy
  {
    if strategy.Some? then strategy.value
    else if env.namingStrategy == CamelCase && isModel then PascalCase
    else env.namingStrategy
  }

  /** `getNaming($name, $strategy, $isModel)`. */
  function Naming(env: Env, name: string, strategy: Option<Strategy>, isModel: bool): string {
    env.baseNaming(name, Some(NamingStrategy(env, strategy, isModel)))
  }

  /** Where the V6 generator's intended promotion applies, both generators
      pick the same strategy; otherwise the V6 one leaves the choice to the
      parent, which this one makes explicit. */
  lemma NamingAgreesWithV6(env: Env, strategy: Option<Strategy>, isModel: bool)
    ensures V6Table.NamingStrategy(env, strategy, isModel).Some? ==>
      V6Table.NamingStrategy(env, strategy, isModel) == Some(NamingStrategy(env, strategy, isModel))
    ensures V6Table.NamingStrategy(env, strategy, isModel).None? ==>
      strategy.None? && NamingStrategy(env, strategy, isModel) == env.namingStrategy
  {
  }

  // ------------------------------------------------------ alias extraction

  predicate StartsWith(s: string, p: string) {
    |p| <= |s| && s[..|p|] == p
  }

  /** The first substitution: every leftmost occurrence of `<table>_<column>`,
      or failing that of `<column>`, is removed. */
  function StripAll(s: string, table: string, column: string): (r: string)
    ensures |r| <= |s|
    decreases |s|
  {
    if s == [] then []
    else if StartsWith(s, table + "_" + column) then StripAll(s[|table + "_" + column|..], table, column)
    else if column != [] && StartsWith(s, column) then StripAll(s[|column|..], table, column)
    else [s[0]] + StripAll(s[1..], table, column)
  }

  /** The second substitution: one leading and one trailing underscore go. */
  function TrimUnderscores(s: string): (r: string)
    ensures |r| <= |s|
  {
    var lead := |s| > 0 && s[0] == '_';
    var rest := if lead then s[1..] else s;
    if |rest| > 0 && rest[|rest| - 1] == '_' then rest[..|rest| - 1] else rest
  }

  /** `extractForeignAlias`. */
  function ExtractForeignAlias(columnName: string, table: string, column: string): (r: string)
    ensures |r| <= |columnName|
  {
    TrimUnderscores(StripAll(columnName, table, column))
  }

  /** A column named exactly like the referenced column, with or without the
      table prefix, leaves no alias. */
  lemma ExtractStandardName(table: string, column: string)
    ensures ExtractForeignAlias(column, table, column) == ""
    ensures ExtractForeignAlias(table + "_" + column, table, column) == ""
  {
    var full := table + "_" + column;
    assert StartsWith(full, full);
    assert full[|full|..] == [];
    if column != [] {
      assert !StartsWith(column, full);
      assert StartsWith(column, column);
      assert column[|column|..] == [];
    }
  }

  /** No occurrence of the referenced column anywhere in `s`. */
  predicate Free(s: string, column: string) {
    forall i :: 0 <= i <= |s| ==> !StartsWith(s[i..], column)
  }

  /** No match of the pattern starts in the first `n` characters of `s`. */
  predicate Unmatched(s: string, n: nat, table: string, column: string)
    requires n <= |s|
  {
    forall i :: 0 <= i < n ==> !StartsWith(s[i..], table + "_" + column) && !(column != [] && StartsWith(s[i..], column))
  }

  /** Characters no match starts at are kept as they are. */
  lemma {:induction false} StripSkip(s: string, n: nat, table: string, column: string)
    requires n <= |s| && Unmatched(s, n, table, column)
    ensures StripAll(s, table, column) == s[..n] + StripAll(s[n..], table, column)
    decreases n
  {
    if n == 0 {
      assert s[..0] == [] && s[0..] == s;
    } else {
      var m := n - 1;
      assert Unmatched(s, m, table, column);
      StripSkip(s, m, table, column);
      var t := s[m..];
      assert !StartsWith(t, table + "_" + column) && !(column != [] && StartsWith(t, column));
      StripKeep(t, table, column);
      assert t[1..] == s[n..];
      assert s[..m] + [t[0]] == s[..n];
    }
  }

  /** A first character no match starts at is kept. */
  lemma StripKeep(t: string, table: string, column: string)
    requires t != [] && !StartsWith(t, table + "_" + column) && !(column != [] && StartsWith(t, column))
    ensures StripAll(t, table, column) == [t[0]] + StripAll(t[1..], table, column)
  {
  }

  /** A `<table>_<column>` match at a position is a `<column>` match a
      little further on. */
  lemma QualifiedContainsColumn(s: string, table: string, column: string)
    ensures StartsWith(s, table + "_" + column) ==> |table| + 1 <= |s| && StartsWith(s[|table| + 1..], column)
  {
    var p := table + "_" + column;
    if StartsWith(s, p) {
      assert s[|table| + 1..][..|column|] == s[..|p|][|table| + 1..];
      assert p[|table| + 1..] == column;
    }
  }

  /** A name free of the referenced column is not matched anywhere. */
  lemma FreeUnmatched(s: string, table: string, column: string)
    requires Free(s, column)
    ensures Unmatched(s, |s|, table, column)
  {
    forall i | 0 <= i < |s|
      ensures !StartsWith(s[i..], table + "_" + column) && !(column != [] && StartsWith(s[i..], column))
    {
      QualifiedContainsColumn(s[i..], table, column);
      if |table| + 1 <= |s[i..]| {
        assert s[i..][|table| + 1..] == s[i + |table| + 1..];
      }
    }
  }

  /** A column name that does not mention the referenced column and neither
      starts nor ends with an underscore is its own alias. */
  lemma ExtractFree(s: string, table: string, column: string)
    requires Free(s, column)
    requires s == [] || (s[0] != '_' && s[|s| - 1] != '_')
    ensures ExtractForeignAlias(s, table, column) == s
  {
    FreeUnmatched(s, table, column);
    StripSkip(s, |s|, table, column);
    assert s[..|s|] == s && s[|s|..] == [];
  }

  /** The underscore left behind by a match at either end of the alias goes. */
  lemma TrimSeparator(alias: string)
    requires alias != []
    ensures alias[0] != '_' ==> TrimUnderscores(alias + "_") == alias
    ensures alias[|alias| - 1] != '_' ==> TrimUnderscores("_" + alias) == alias
  {
    assert (alias + "_")[0] == alias[0];
    assert (alias + "_")[..|alias|] == alias;
    assert ("_" + alias)[1..] == alias;
  }

  /** The `<alias>_<table>_<column>` form: the alias is recovered when no
      match starts inside it or at its underscore. */
  lemma ExtractAliasFirst(alias: string, table: string, column: string)
    requires alias != [] && alias[0] != '_'
    requires Unmatched(alias + "_" + table + "_" + column, |alias| + 1, table, column)
    ensures ExtractForeignAlias(alias + "_" + table + "_" + column, table, column) == alias
  {
    var a := alias + "_";
    var p := table + "_" + column;
    var s := a + p;
    assert s == alias + "_" + table + "_" + column;
    StripSkip(s, |a|, table, column);
    assert s[..|a|] == a && s[|a|..] == p;
    StripQualified(table, column);
    assert a + [] == a;
    TrimSeparator(alias);
  }

  /** A name that is exactly `<table>_<column>` is removed whole. */
  lemma StripQualified(table: string, column: string)
    ensures StripAll(table + "_" + column, table, column) == []
  {
    var full := table + "_" + column;
    assert StartsWith(full, full);
    assert full[|full|..] == [];
  }

  /** The `<table>_<column>_<alias>` form: the alias is recovered when no
      match starts inside it or at its underscore. */
  lemma ExtractAliasLast(alias: string, table: string, column: string)
    requires alias != [] && alias[|alias| - 1] != '_'
    requires Unmatched("_" + alias, |alias| + 1, table, column)
    ensures ExtractForeignAlias(table + "_" + column + "_" + alias, table, column) == alias
  {
    var p := table + "_" + column;
    var s := p + "_" + alias;
    assert StartsWith(s, p);
    assert s[|p|..] == "_" + alias;
    StripSkip("_" + alias, |alias| + 1, table, column);
    assert ("_" + alias)[..|alias| + 1] == "_" + alias;
    assert ("_" + alias)[|alias| + 1..] == [];
    assert StripAll(s, table, column) == "_" + alias;
    TrimSeparator(alias);
  }

  /** A name that is exactly the referenced column is removed whole. */
  lemma StripColumn(table: string, column: string)
    ensures StripAll(column, table, column) == []
  {
    if column != [] {
      assert !StartsWith(column, table + "_" + column);
      assert StartsWith(column, column);
      assert column[|column|..] == [];
    }
  }

  /** The `<alias>_<column>` form, without the table prefix: the alias is
      recovered when no match starts inside it or at its underscore. */
  lemma ExtractAliasBeforeColumn(alias: string, table: string, column: string)
    requires alias != [] && alias[0] != '_'
    requires Unmatched(alias + "_" + column, |alias| + 1, table, column)
    ensures ExtractForeignAlias(alias + "_" + column, table, column) == alias
  {
    var a := alias + "_";
    var s := a + column;
    assert s == alias + "_" + column;
    StripSkip(s, |a|, table, column);
    assert s[..|a|] == a && s[|a|..] == column;
    StripColumn(table, column);
    assert a + [] == a;
    TrimSeparator(alias);
  }

  /** The `<column>_<alias>` form, without the table prefix: the alias is
      recovered when the whole name does not start with the qualified
      pattern and no match starts inside the alias or at its underscore. */
  lemma ExtractAliasAfterColumn(alias: string, table: string, column: string)
    requires alias != [] && alias[|alias| - 1] != '_'
    requires !StartsWith(column + "_" + alias, table + "_" + column)
    requires Unmatched("_" + alias, |alias| + 1, table, column)
    ensures ExtractForeignAlias(column + "_" + alias, table, column) == alias
  {
    var rest := "_" + alias;
    var s := column + rest;
    assert s == column + "_" + alias;
    StripSkip(rest, |alias| + 1, table, column);
    assert rest[..|alias| + 1] == rest && rest[|alias| + 1..] == [];
    assert StripAll(rest, table, column) == rest;
    if column != [] {
      assert StartsWith(s, column);
      assert s[|column|..] == rest;
    } else {
      assert s == rest;
    }
    assert StripAll(s, table, column) == rest;
    TrimSeparator(alias);
  }

  // -------------------------------------------------------------- aliases

  /** The alias of a 1 <=> ? association, before the drop: an alias taken
      from the local column names the owner through the referenced model,
      otherwise the owner's own plural. */
  function LocalAliasName(env: Env, fk: ForeignKey): string {
    var owner := fk.owning.modelName;
    var plain := env.pluralize(Naming(env, owner, None, true));
    if Truthy(fk.localColumn) then
      var related := ExtractForeignAlias(fk.localColumn, fk.referenced.name, fk.foreignColumn);
      if Truthy(related) then env.pluralize(Naming(env, related + "_" + fk.referenced.modelName + "_" + owner, None, true))
      else plain
    else plain
  }

  function LocalAlias(env: Env, fk: ForeignKey): Option<string> {
    var a := LocalAliasName(env, fk);
    if a == "" || a == fk.owning.modelName then None else Some(a)
  }

  /** The local alias is null exactly when it is empty or the owner's name;
      a column without an alias in its name falls back to the owner's plural. */
  lemma LocalAliasRule(env: Env, fk: ForeignKey)
    ensures LocalAlias(env, fk).None? <==> LocalAliasName(env, fk) == "" || LocalAliasName(env, fk) == fk.owning.modelName
    ensures LocalAlias(env, fk).Some? ==> LocalAlias(env, fk).value == LocalAliasName(env, fk)
    ensures var related := ExtractForeignAlias(fk.localColumn, fk.referenced.name, fk.foreignColumn);
      Truthy(fk.localColumn) && Truthy(related) ==>
        LocalAliasName(env, fk) == env.pluralize(Naming(env, related + "_" + fk.referenced.modelName + "_" + fk.owning.modelName, None, true))
    ensures var related := ExtractForeignAlias(fk.localColumn, fk.referenced.name, fk.foreignColumn);
      !(Truthy(fk.localColumn) && Truthy(related)) ==>
        LocalAliasName(env, fk) == env.pluralize(Naming(env, fk.owning.modelName, None, true))
    ensures fk.localColumn == fk.foreignColumn || fk.localColumn == fk.referenced.name + "_" + fk.foreignColumn ==>
      LocalAliasName(env, fk) == env.pluralize(Naming(env, fk.owning.modelName, None, true))
  {
    ExtractStandardName(fk.referenced.name, fk.foreignColumn);
  }

  /** The alias of an N <=> ? association: none for an unnamed column,
      otherwise the extracted alias before the referenced model's name, or
      that name alone, named as a model and dropped when it is that name. */
  function ForeignAlias(env: Env, fk: ForeignKey): Option<string> {
    var target := fk.referenced.modelName;
    if !Truthy(fk.localColumn) then None
    else
      var related := ExtractForeignAlias(fk.localColumn, fk.referenced.name, fk.foreignColumn);
      var name := if Truthy(related) then related + "_" + target else target;
      var a := Naming(env, name, None, true);
      if a == target then None else Some(a)
  }

  /** The foreign alias is null exactly when the column is unnamed or the
      named alias is the referenced model's name; a column named in the
      standard way names the referenced model alone. */
  lemma ForeignAliasRule(env: Env, fk: ForeignKey)
    ensures var related := ExtractForeignAlias(fk.localColumn, fk.referenced.name, fk.foreignColumn);
      var a := Naming(env, if Truthy(related) then related + "_" + fk.referenced.modelName else fk.referenced.modelName, None, true);
      && (ForeignAlias(env, fk).None? <==> !Truthy(fk.localColumn) || a == fk.referenced.modelName)
      && (ForeignAlias(env, fk).Some? ==> ForeignAlias(env, fk).value == a)
    ensures Truthy(fk.localColumn) && (fk.localColumn == fk.foreignColumn || fk.localColumn == fk.referenced.name + "_" + fk.foreignColumn) ==>
      (ForeignAlias(env, fk).None? <==> Naming(env, fk.referenced.modelName, None, true) == fk.referenced.modelName)
  {
    ExtractStandardName(fk.referenced.name, fk.foreignColumn);
  }

  /** The local alias, worked out as the source does. */
  method LocalAliasOf(env: Env, fk: ForeignKey) returns (alias: Option<string>)
    ensures alias == LocalAlias(env, fk)
  {
    var owner := fk.owning.modelName;
    var a := "";
    if Truthy(fk.localColumn) {
      var related := ExtractForeignAlias(fk.localColumn, fk.referenced.name, fk.foreignColumn);
      if Truthy(related) {
        a := env.pluralize(Naming(env, related + "_" + fk.referenced.modelName + "_" + owner, None, true));
      } else {
        a := env.pluralize(Naming(env, owner, None, true));
      }
    } else {
      a := env.pluralize(Naming(env, owner, None, true));
    }
    alias := if a == "" || a == owner then None else Some(a);
  }

  /** The foreign alias, worked out as the source does. */
  method ForeignAliasOf(env: Env, fk: ForeignKey) returns (alias: Option<string>)
    ensures alias == ForeignAlias(env, fk)
  {
    var target := fk.referenced.modelName;
    alias := None;
    if Truthy(fk.localColumn) {
      var related := ExtractForeignAlias(fk.localColumn, fk.referenced.name, fk.foreignColumn);
      if !Truthy(related) {
        related := target;
      } else {
        related := related + "_" + target;
      }
      var a := Naming(env, related, None, true);
      alias := if a == target then None else Some(a);
    }
  }

  // -------------------------------------------------------------- records

  function ForeignKeyBlock(env: Env, fk: ForeignKey): seq<Entry> {
    [Entry("name", Some(Str(Naming(env, fk.localColumn, None, false)))),
     Entry("allowNull", Some(Bool(!fk.localNotNull)))]
  }

  /** The options of a 1 <=> ? association; `constrained` is the map entry
      not being `false`. */
  function LocalRecord(env: Env, fk: ForeignKey, alias: Option<string>, constrained: bool): seq<Entry> {
    [Entry("foreignKey", Some(Dict(ForeignKeyBlock(env, fk)))),
     Entry("onUpdate", if constrained then Nullable(fk.updateRule) else None),
     Entry("onDelete", if constrained then Nullable(fk.deleteRule) else None),
     Entry("targetKey", Some(Str(Naming(env, fk.foreignColumn, None, false)))),
     Entry("as", Nullable(alias)),
     Entry("constraints", if constrained then None else Some(Bool(false)))]
  }

  /** The pairs of the N <=> ? options literal as written: `onUpdate` twice,
      the second time with the delete rule. */
  function ForeignPairs(env: Env, fk: ForeignKey, alias: Option<string>, constrained: bool): seq<Entry> {
    [Entry("foreignKey", Some(Dict(ForeignKeyBlock(env, fk)))),
     Entry("onUpdate", if constrained then Nullable(fk.updateRule) else None),
     Entry("onUpdate", if constrained then Nullable(fk.deleteRule) else None),
     Entry("targetKey", Some(Str(Naming(env, fk.foreignColumn, None, false)))),
     Entry("as", Nullable(alias)),
     Entry("constraints", if constrained then None else Some(Bool(false)))]
  }

  /** The array that literal builds. */
  function ForeignRecord(env: Env, fk: ForeignKey, alias: Option<string>, constrained: bool): seq<Entry> {
    Literal(ForeignPairs(env, fk, alias, constrained))
  }

  /** The options of an N <=> M association. */
  function ThroughRecord(env: Env, rel: M2MRelation): seq<Entry> {
    [Entry("through", Some(Str(rel.reference.owning.rawName))),
     Entry("foreignKey", Some(Dict([Entry("name", Some(Str(rel.reference.localColumn)))]))),
     Entry("onUpdate", Nullable(rel.reference.updateRule)),
     Entry("onDelete", Nullable(rel.reference.deleteRule)),
     Entry("targetKey", Some(Str(Naming(env, rel.target.foreignColumn, None, false)))),
     Entry("as", Some(Str(env.pluralize(Naming(env, rel.refTable.modelName, None, true)))))]
  }

  /** The 1 <=> ? record: rules and `constraints` null when constrained,
      rules null and `constraints` false otherwise. */
  lemma LocalRecordShape(env: Env, fk: ForeignKey, alias: Option<string>, constrained: bool)
    ensures var r := LocalRecord(env, fk, alias, constrained);
      && Keys(r) == ["foreignKey", "onUpdate", "onDelete", "targetKey", "as", "constraints"]
      && DistinctKeys(r) && Literal(r) == r
      && HasKey(r, "onUpdate") && HasKey(r, "onDelete") && HasKey(r, "constraints")
      && At(r, "onUpdate") == (if constrained then Nullable(fk.updateRule) else None)
      && At(r, "onDelete") == (if constrained then Nullable(fk.deleteRule) else None)
      && (At(r, "constraints") == Some(Bool(false)) <==> !constrained)
      && (At(r, "constraints") == None <==> constrained)
  {
    var r := LocalRecord(env, fk, alias, constrained);
    LiteralOfDistinct(r);
    assert r[1].key == "onUpdate" && r[2].key == "onDelete" && r[5].key == "constraints";
    assert IndexOf(r, "onUpdate") == 1 && IndexOf(r, "onDelete") == 2;
    assert IndexOf(r, "constraints") == 5;
  }

  /** The belongsTo record has no `onDelete`: its one `onUpdate`, in the
      first position, holds the delete rule when constrained and null
      otherwise, because the later duplicate wins. */
  lemma ForeignRecordShape(env: Env, fk: ForeignKey, alias: Option<string>, constrained: bool)
    ensures var r := ForeignRecord(env, fk, alias, constrained);
      && r == [Entry("foreignKey", Some(Dict(ForeignKeyBlock(env, fk)))),
               Entry("onUpdate", if constrained then Nullable(fk.deleteRule) else None),
               Entry("targetKey", Some(Str(Naming(env, fk.foreignColumn, None, false)))),
               Entry("as", Nullable(alias)),
               Entry("constraints", if constrained then None else Some(Bool(false)))]
      && Keys(r) == ["foreignKey", "onUpdate", "targetKey", "as", "constraints"]
      && !HasKey(r, "onDelete")
      && HasKey(r, "onUpdate") && At(r, "onUpdate") == (if constrained then Nullable(fk.deleteRule) else None)
  {
    var p := ForeignPairs(env, fk, alias, constrained);
    var shaped := [p[0], p[2], p[3], p[4], p[5]];
    assert shaped[1].key == "onUpdate" && shaped[2].key == "targetKey";
    assert shaped[3].key == "as" && shaped[4].key == "constraints";
    assert DistinctKeys(shaped);
    assert p == [p[0], p[1], p[2]] + [p[3], p[4], p[5]];
    assert shaped == [p[0], p[2]] + [p[3], p[4], p[5]];
    LiteralRepeatedSecond(p[0], p[1], p[2], [p[3], p[4], p[5]]);
    var r := ForeignRecord(env, fk, alias, constrained);
    assert IndexOf(r, "onUpdate") == 1;
  }

  /** The N <=> M record: the junction table's raw name and the reference
      key's rules, unconditionally. */
  lemma ThroughRecordShape(env: Env, rel: M2MRelation)
    ensures var r := ThroughRecord(env, rel);
      && Keys(r) == ["through", "foreignKey", "onUpdate", "onDelete", "targetKey", "as"]
      && DistinctKeys(r) && Literal(r) == r
      && HasKey(r, "through") && At(r, "through") == Some(Str(rel.reference.owning.rawName))
      && HasKey(r, "onUpdate") && At(r, "onUpdate") == Nullable(rel.reference.updateRule)
      && HasKey(r, "onDelete") && At(r, "onDelete") == Nullable(rel.reference.deleteRule)
  {
    var r := ThroughRecord(env, rel);
    LiteralOfDistinct(r);
    assert r[2].key == "onUpdate" && r[3].key == "onDelete";
    assert IndexOf(r, "onUpdate") == 2 && IndexOf(r, "onDelete") == 3;
  }

  // --------------------------------------------------------- associations

  function LocalAssociation(env: Env, t: Table, fk: ForeignKey): Association {
    Association(
      if fk.manyToOne then HasMany else HasOne,
      if fk.manyToOne then "1 <=> N association" else "1 <=> 1 association",
      fk.owning.modelName,
      LocalRecord(env, fk, LocalAlias(env, fk), V6Table.Constrained(t, fk.owning.modelName)))
  }

  function ForeignAssociation(env: Env, t: Table, fk: ForeignKey): Association {
    Association(
      BelongsTo,
      if fk.manyToOne then "N <=> 1 association" else "1 <=> 1 association",
      fk.referenced.modelName,
      ForeignRecord(env, fk, ForeignAlias(env, fk), V6Table.Constrained(t, fk.referenced.modelName)))
  }

  function ThroughAssociation(env: Env, rel: M2MRelation): Association {
    Association(BelongsToMany, "N <=> M association", rel.refTable.modelName, ThroughRecord(env, rel))
  }

  /** The first loop: every key that is not ignored, in order. */
  function LocalAssociations(env: Env, t: Table, fks: seq<ForeignKey>): seq<Association>
    decreases |fks|
  {
    if fks == [] then []
    else
      var last := fks[|fks| - 1];
      LocalAssociations(env, t, fks[..|fks| - 1]) + (if last.ignored then [] else [LocalAssociation(env, t, last)])
  }

  /** The second loop. */
  function ForeignAssociations(env: Env, t: Table, fks: seq<ForeignKey>): seq<Association>
    decreases |fks|
  {
    if fks == [] then []
    else
      var last := fks[|fks| - 1];
      ForeignAssociations(env, t, fks[..|fks| - 1]) + (if last.ignored then [] else [ForeignAssociation(env, t, last)])
  }

  /** The first loop writes one association per key that is not ignored. */
  lemma {:induction false} LocalAssociationsCount(env: Env, t: Table, fks: seq<ForeignKey>)
    ensures |LocalAssociations(env, t, fks)| == |Active(fks)|
    decreases |fks|
  {
    if fks != [] {
      LocalAssociationsCount(env, t, fks[..|fks| - 1]);
    }
  }

  /** The same for the second loop. */
  lemma {:induction false} ForeignAssociationsCount(env: Env, t: Table, fks: seq<ForeignKey>)
    ensures |ForeignAssociations(env, t, fks)| == |Active(fks)|
    decreases |fks|
  {
    if fks != [] {
      ForeignAssociationsCount(env, t, fks[..|fks| - 1]);
    }
  }

  /** No key, no association; all keys, the whole loop. */
  lemma LocalAssociationsBounds(env: Env, t: Table, fks: seq<ForeignKey>, prefix: seq<Association>)
    ensures prefix + LocalAssociations(env, t, fks[..0]) == prefix
    ensures LocalAssociations(env, t, fks[..|fks|]) == LocalAssociations(env, t, fks)
  {
    assert fks[..0] == [];
    assert fks[..|fks|] == fks;
    assert prefix + [] == prefix;
  }

  lemma ForeignAssociationsBounds(env: Env, t: Table, fks: seq<ForeignKey>, prefix: seq<Association>)
    ensures prefix + ForeignAssociations(env, t, fks[..0]) == prefix
    ensures ForeignAssociations(env, t, fks[..|fks|]) == ForeignAssociations(env, t, fks)
  {
    assert fks[..0] == [];
    assert fks[..|fks|] == fks;
    assert prefix + [] == prefix;
  }

  /** The third loop: every relation. */
  function ThroughAssociations(env: Env, rels: seq<M2MRelation>): (r: seq<Association>)
    ensures |r| == |rels|
    ensures forall k :: 0 <= k < |rels| ==> r[k] == ThroughAssociation(env, rels[k])
  {
    seq(|rels|, k requires 0 <= k < |rels| => ThroughAssociation(env, rels[k]))
  }

  function Associations(env: Env, t: Table): seq<Association> {
    LocalAssociations(env, t, t.localFks) + ForeignAssociations(env, t, t.foreignFks) + ThroughAssociations(env, t.m2m)
  }

  /** An association as written, with whether a blank line precedes it. */
  datatype Emission = Emission(blankBefore: bool, association: Association)

  /** `out` writes `assocs` in order, with a blank line before all but the first. */
  predicate Separated(out: seq<Emission>, assocs: seq<Association>) {
    |out| == |assocs| && forall k :: 0 <= k < |out| ==> out[k] == Emission(k > 0, assocs[k])
  }

  lemma SeparatedSnoc(out: seq<Emission>, assocs: seq<Association>, a: Association)
    requires Separated(out, assocs)
    ensures Separated(out + [Emission(|out| > 0, a)], assocs + [a])
  {
  }

  lemma LocalAssociationsSnoc(env: Env, t: Table, fks: seq<ForeignKey>, i: nat)
    requires i < |fks|
    ensures LocalAssociations(env, t, fks[..i + 1]) == LocalAssociations(env, t, fks[..i])
      + (if fks[i].ignored then [] else [LocalAssociation(env, t, fks[i])])
  {
    assert fks[..i + 1][..i] == fks[..i];
  }

  lemma ForeignAssociationsSnoc(env: Env, t: Table, fks: seq<ForeignKey>, i: nat)
    requires i < |fks|
    ensures ForeignAssociations(env, t, fks[..i + 1]) == ForeignAssociations(env, t, fks[..i])
      + (if fks[i].ignored then [] else [ForeignAssociation(env, t, fks[i])])
  {
    assert fks[..i + 1][..i] == fks[..i];
  }

  /** The body of the first loop for the key at position `i`. */
  method LocalStep(env: Env, t: Table, constraints: map<string, bool>, i: nat) returns (a: Association)
    requires V6Table.ConstraintMap(t, constraints)
    requires i < |t.localFks| && !t.localFks[i].ignored
    ensures a == LocalAssociation(env, t, t.localFks[i])
  {
    var fk := t.localFks[i];
    var owner := fk.owning.modelName;
    var alias := LocalAliasOf(env, fk);
    OwnedAtCounted(t.localFks, i, owner);
    var constrained := !(constraints[owner] == false);
    var options := LocalRecord(env, fk, alias, constrained);
    var kind, comment := HasOne, "1 <=> 1 association";
    if fk.manyToOne {
      kind, comment := HasMany, "1 <=> N association";
    }
    a := Association(kind, comment, owner, options);
  }

  /** The body of the second loop for the key at position `j`. */
  method ForeignStep(env: Env, t: Table, constraints: map<string, bool>, j: nat) returns (a: Association)
    requires V6Table.ConstraintMap(t, constraints)
    requires j < |t.foreignFks| && !t.foreignFks[j].ignored
    ensures a == ForeignAssociation(env, t, t.foreignFks[j])
  {
    var fk := t.foreignFks[j];
    var target := fk.referenced.modelName;
    var alias := ForeignAliasOf(env, fk);
    ReferencingAtCounted(t.foreignFks, j, target);
    var constrained := !(constraints[target] == false);
    var options := ForeignRecord(env, fk, alias, constrained);
    var comment := if fk.manyToOne then "N <=> 1 association" else "1 <=> 1 association";
    a := Association(BelongsTo, comment, target, options);
  }

  /** One turn of the first loop: the key at position `i` is written unless
      it is ignored, after a blank line unless it is the first association. */
  method LocalTurn(env: Env, t: Table, constraints: map<string, bool>, i: nat, out0: seq<Emission>, firstAssociation0: bool, ghost prefix: seq<Association>)
    returns (out: seq<Emission>, firstAssociation: bool)
    requires V6Table.ConstraintMap(t, constraints) && i < |t.localFks|
    requires Separated(out0, prefix + LocalAssociations(env, t, t.localFks[..i])) && firstAssociation0 == (|out0| == 0)
    ensures Separated(out, prefix + LocalAssociations(env, t, t.localFks[..i + 1])) && firstAssociation == (|out| == 0)
  {
    LocalAssociationsSnoc(env, t, t.localFks, i);
    out, firstAssociation := out0, firstAssociation0;
    if !t.localFks[i].ignored {
      var a := LocalStep(env, t, constraints, i);
      SeparatedSnoc(out, prefix + LocalAssociations(env, t, t.localFks[..i]), a);
      assert prefix + LocalAssociations(env, t, t.localFks[..i + 1]) == prefix + LocalAssociations(env, t, t.localFks[..i]) + [a];
      out := out + [Emission(!firstAssociation, a)];
      firstAssociation := false;
    }
  }

  /** One turn of the second loop. */
  method ForeignTurn(env: Env, t: Table, constraints: map<string, bool>, j: nat, out0: seq<Emission>, firstAssociation0: bool, ghost prefix: seq<Association>)
    returns (out: seq<Emission>, firstAssociation: bool)
    requires V6Table.ConstraintMap(t, constraints) && j < |t.foreignFks|
    requires Separated(out0, prefix + ForeignAssociations(env, t, t.foreignFks[..j])) && firstAssociation0 == (|out0| == 0)
    ensures Separated(out, prefix + ForeignAssociations(env, t, t.foreignFks[..j + 1])) && firstAssociation == (|out| == 0)
  {
    ForeignAssociationsSnoc(env, t, t.foreignFks, j);
    out, firstAssociation := out0, firstAssociation0;
    if !t.foreignFks[j].ignored {
      var a := ForeignStep(env, t, constraints, j);
      SeparatedSnoc(out, prefix + ForeignAssociations(env, t, t.foreignFks[..j]), a);
      assert prefix + ForeignAssociations(env, t, t.foreignFks[..j + 1]) == prefix + ForeignAssociations(env, t, t.foreignFks[..j]) + [a];
      out := out + [Emission(!firstAssociation, a)];
      firstAssociation := false;
    }
  }

  /** The first loop of `writeAssociations`, after `out0` was written for
      `prefix`; `firstAssociation` is true until something is written. */
  method WriteLocalAssociations(env: Env, t: Table, constraints: map<string, bool>, out0: seq<Emission>, ghost prefix: seq<Association>)
    returns (out: seq<Emission>)
    requires V6Table.ConstraintMap(t, constraints) && Separated(out0, prefix)
    ensures Separated(out, prefix + LocalAssociations(env, t, t.localFks))
  {
    var firstAssociation := |out0| == 0;
    out := out0;
    var i := 0;
    LocalAssociationsBounds(env, t, t.localFks, prefix);
    while i < |t.localFks|
      invariant 0 <= i <= |t.localFks|
      invariant Separated(out, prefix + LocalAssociations(env, t, t.localFks[..i]))
      invariant firstAssociation == (|out| == 0)
    {
      out, firstAssociation := LocalTurn(env, t, constraints, i, out, firstAssociation, prefix);
      i := i + 1;
    }
  }

  /** The second loop of `writeAssociations`. */
  method WriteForeignAssociations(env: Env, t: Table, constraints: map<string, bool>, out0: seq<Emission>, ghost prefix: seq<Association>)
    returns (out: seq<Emission>)
    requires V6Table.ConstraintMap(t, constraints) && Separated(out0, prefix)
    ensures Separated(out, prefix + ForeignAssociations(env, t, t.foreignFks))
  {
    var firstAssociation := |out0| == 0;
    out := out0;
    var j := 0;
    ForeignAssociationsBounds(env, t, t.foreignFks, prefix);
    while j < |t.foreignFks|
      invariant 0 <= j <= |t.foreignFks|
      invariant Separated(out, prefix + ForeignAssociations(env, t, t.foreignFks[..j]))
      invariant firstAssociation == (|out| == 0)
    {
      out, firstAssociation := ForeignTurn(env, t, constraints, j, out, firstAssociation, prefix);
      j := j + 1;
    }
  }

  /** The third loop of `writeAssociations`. */
  method WriteThroughAssociations(env: Env, t: Table, out0: seq<Emission>, ghost prefix: seq<Association>)
    returns (out: seq<Emission>)
    requires Separated(out0, prefix)
    ensures Separated(out, prefix + ThroughAssociations(env, t.m2m))
  {
    var firstAssociation := |out0| == 0;
    out := out0;
    var k := 0;
    while k < |t.m2m|
      invariant 0 <= k <= |t.m2m|
      invariant Separated(out, prefix + ThroughAssociations(env, t.m2m[..k]))
      invariant firstAssociation == (|out| == 0)
    {
      var relation := t.m2m[k];
      var a := Association(BelongsToMany, "N <=> M association", relation.refTable.modelName, ThroughRecord(env, relation));
      SeparatedSnoc(out, prefix + ThroughAssociations(env, t.m2m[..k]), a);
      assert prefix + ThroughAssociations(env, t.m2m[..k + 1]) == prefix + ThroughAssociations(env, t.m2m[..k]) + [a];
      out := out + [Emission(!firstAssociation, a)];
      firstAssociation := false;
      k := k + 1;
    }
    assert t.m2m[..k] == t.m2m;
  }

  /** `writeAssociations`: the three loops in order, with a blank line before
      every association but the first. */
  method WriteAssociations(env: Env, t: Table) returns (out: seq<Emission>)
    ensures Separated(out, Associations(env, t))
  {
    var constraints := V6Table.GetConstraints(t);
    out := WriteLocalAssociations(env, t, constraints, [], []);
    ghost var locals := LocalAssociations(env, t, t.localFks);
    assert [] + locals == locals;
    out := WriteForeignAssociations(env, t, constraints, out, locals);
    ghost var keyed := locals + ForeignAssociations(env, t, t.foreignFks);
    out := WriteThroughAssociations(env, t, out, keyed);
  }

  /** Every key that is not ignored and every relation is written: unlike
      the V6 generator, no association is skipped for an empty record. */
  lemma AssociationCount(env: Env, t: Table)
    ensures |Associations(env, t)| == |Active(t.localFks)| + |Active(t.foreignFks)| + |t.m2m|
  {
    LocalAssociationsCount(env, t, t.localFks);
    ForeignAssociationsCount(env, t, t.foreignFks);
  }

  /** The association of a key is unconstrained exactly when the key's model
      is counted more than once. */
  lemma LocalConstraint(env: Env, t: Table, fk: ForeignKey)
    ensures var r := LocalAssociation(env, t, fk).options;
      HasKey(r, "constraints") &&
      (At(r, "constraints") == Some(Bool(false)) <==> ConstraintCount(t, fk.owning.modelName) > 1)
  {
    LocalRecordShape(env, fk, LocalAlias(env, fk), V6Table.Constrained(t, fk.owning.modelName));
  }

  // --------------------------------------------------------------- fields

  /** The Sequelize6 pieces of `getFields`: foreign-key columns are skipped
      unless foreign-key fields are generated, the type has no BOOLEAN
      promotion, uniqueness is the column's own flag, a boolean default is
      the cast of an object and so always true, and references name the
      model. */
  function Flavour(env: Env): FieldFlavour {
    FieldFlavour(
      "field", "model", !env.foreignKeyFields,
      (col: Column) => Sequelize6Type(env.getType(col), col),
      (col: Column) => col.unique,
      (_: string) => true,
      (fk: ForeignKey) => fk.referenced.modelName,
      (n: string) => Naming(env, n, None, false))
  }

  method GetFields(env: Env, t: Table) returns (result: seq<Entry>)
    ensures result == Literal(FieldEntries(Flavour(env), t.columns))
  {
    result := BuildFields(Flavour(env), t.columns);
  }

  /** A boolean default is always written as true. */
  lemma BooleanDefaultTrue(env: Env, col: Column)
    requires col.defaultValue.Some? && Sequelize6Type(env.getType(col), col) == "BOOLEAN"
    ensures DefaultOf(Flavour(env), col) == Some(Bool(true))
  {
  }

  /** `getIndexes`: an index over a foreign-key column is kept when
      foreign-key fields or associations are generated. */
  method GetIndexes(env: Env, t: Table) returns (result: seq<Value>)
    ensures result == IndexRecords(env.foreignKeyFields || env.associations, t.indices)
  {
    result := Indexes.GetIndexes(env.foreignKeyFields || env.associations, t.indices);
  }
}
