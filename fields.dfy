/** The attribute records `getFields` builds, one per column, shared by the
    V6 and Sequelize6 generators (lib/V6/Model/Table.php:238-303 and
    lib/Sequelize6/Model/Table.php:161-226 differ only in the pieces a
    `FieldFlavour` carries), and the type-string derivation of all three
    generators. */
module Fields {
  import opened Records
  import opened Strings
  import opened DatatypeConverter
  import opened Schema

  // ---------------------------------------------------------------- types

  /** The size suffix all three generators append: `(precision, scale)` for
      decimal columns, `(length)` for other columns with a positive length.
      The numbers can be read back from the suffix. */
  function SizedType(base: string, col: Column): (r: string)
    ensures col.columnType == Decimal ==>
      exists p, s :: r == base + "(" + p + ", " + s + ")" && IsIntText(p) && IsIntText(s)
        && ParseInt(p) == col.precision && ParseInt(s) == col.scale
    ensures col.columnType != Decimal && col.length > 0 ==>
      exists n :: r == base + "(" + n + ")" && IsIntText(n) && ParseInt(n) == col.length
    ensures col.columnType != Decimal && col.length <= 0 ==> r == base
  {
    if col.columnType == Decimal then
      IntRoundTrip(col.precision);
      IntRoundTrip(col.scale);
      base + "(" + IntToString(col.precision) + ", " + IntToString(col.scale) + ")"
    else if col.length > 0 then
      IntRoundTrip(col.length);
      base + "(" + IntToString(col.length) + ")"
    else base
  }

  /** The Sequelize6 type: an enum carries its explicit parameters. */
  function Sequelize6Type(base: string, col: Column): (r: string)
    ensures col.columnType == Enum ==> r == base + col.explicitParams
    ensures col.columnType != Enum ==> r == SizedType(base, col)
  {
    if col.columnType == Enum then base + col.explicitParams else SizedType(base, col)
  }

  /** The V6 type: `tinyint(1)` is promoted to BOOLEAN, with no suffix. */
  function V6Type(base: string, col: Column): (r: string)
    ensures col.columnType == TinyInt && col.precision == 1 ==> r == "BOOLEAN"
    ensures !(col.columnType == TinyInt && col.precision == 1) ==> r == Sequelize6Type(base, col)
  {
    if col.columnType == TinyInt && col.precision == 1 then "BOOLEAN" else Sequelize6Type(base, col)
  }

  /** The three type derivations agree except on tinyint(1) and enum columns. */
  lemma TypeFlavoursAgree(base: string, col: Column)
    ensures col.columnType != Enum && col.columnType != TinyInt ==>
      V6Type(base, col) == Sequelize6Type(base, col) == SizedType(base, col)
    ensures col.columnType == Enum ==> V6Type(base, col) == Sequelize6Type(base, col) == base + col.explicitParams
    ensures col.columnType == TinyInt && col.precision != 1 ==> V6Type(base, col) == SizedType(base, col)
  {
  }

  // ------------------------------------------------------- default values

  /** A DATE default: a call ending in `)` becomes `sequelize.fn` of the
      value without its last two characters, any other value
      `sequelize.literal` of the value. */
  function DateDefault(v: string): (r: Value)
    ensures r.Js? && !r.multiline && r.raw && r.content.Str?
    ensures !EndsWith(v, ')') ==> r.content.s == "sequelize.literal('" + v + "')"
    ensures EndsWith(v, ')') && |v| >= 2 ==> r.content.s == "sequelize.fn('" + v[..|v| - 2] + "')"
    ensures v == ")" ==> r.content.s == "sequelize.fn('')"
  {
    if EndsWith(v, ')') then Js(Str("sequelize.fn('" + DropLastTwo(v) + "')"), false, true)
    else Js(Str("sequelize.literal('" + v + "')"), false, true)
  }

  /** A default that is a call without arguments becomes the call of that function. */
  lemma DateDefaultOfCall(f: string)
    ensures DateDefault(f + "()") == Js(Str("sequelize.fn('" + f + "')"), false, true)
  {
    assert (f + "()")[..|f|] == f;
  }

  /** The `defaultValue` entry for a column of type `ty`; `boolValue` is what the
      generator's `(bool)` cast makes of a BOOLEAN default. */
  function DefaultEntry(ty: string, v: string, boolValue: bool): Value {
    if ty == "DATE" then DateDefault(v)
    else if ty == "BOOLEAN" then Bool(boolValue)
    else Js(Str(v), true, true)
  }

  // --------------------------------------------------- attribute records

  /** What differs between the generators that share `getFields`: the record
      keys, whether foreign-key columns are skipped, the type derivation, the
      uniqueness test, the `(bool)` cast of a BOOLEAN default, the model a
      reference names, and the naming of column names. */
  datatype FieldFlavour = FieldFlavour(
    fieldKey: string,
    modelKey: string,
    skipFkColumns: bool,
    typeOf: Column -> string,
    uniqueOf: Column -> bool,
    boolDefault: string -> bool,
    referencedModel: ForeignKey -> string,
    naming: string -> string)

  /** Keys the record writes itself; the column-name key is none of them. */
  predicate PlainKey(k: string) {
    k !in {"type", "primaryKey", "unique", "autoIncrement", "allowNull", "defaultValue",
           "references", "onUpdate", "onDelete"}
  }

  /** The value the `defaultValue` key takes, when the column has a default. */
  function DefaultOf(fl: FieldFlavour, col: Column): Option<Value> {
    match col.defaultValue
    case None => None
    case Some(v) => Some(DefaultEntry(fl.typeOf(col), v, fl.boolDefault(v)))
  }

  /** The record before its foreign keys are visited. The source's
      `if autoIncrement ... elseif notNull` is the two guarded assignments. */
  function BaseAttributes(fl: FieldFlavour, col: Column): seq<Entry> {
    var c1 := Put([Entry("type", Some(TypeObject(fl.typeOf(col))))], fl.fieldKey, Some(Str(col.name)));
    var c2 := PutIf(c1, col.primary, "primaryKey", Some(Bool(true)));
    var c3 := PutIf(c2, fl.uniqueOf(col), "unique", Some(Bool(true)));
    var c4 := PutIf(c3, col.autoIncrement, "autoIncrement", Some(Bool(true)));
    var c5 := PutIf(c4, !col.autoIncrement && col.notNull, "allowNull", Some(Bool(false)));
    PutIf(c5, col.defaultValue.Some?, "defaultValue", DefaultOf(fl, col))
  }

  /** The keys a record before its foreign keys can hold. */
  function BaseKeys(fl: FieldFlavour): set<string> {
    {"type", fl.fieldKey, "primaryKey", "unique", "autoIncrement", "allowNull", "defaultValue"}
  }

  function RuleOf(fk: ForeignKey, update: bool): Option<string> {
    if update then fk.updateRule else fk.deleteRule
  }

  function RuleKey(update: bool): string {
    if update then "onUpdate" else "onDelete"
  }

  /** One visit of a foreign key: the references block names its model and
      key, and a truthy rule is written upper-cased beside it. */
  function RefStep(fl: FieldFlavour, refs: seq<Entry>, c: seq<Entry>, fk: ForeignKey): (seq<Entry>, seq<Entry>) {
    var refs1 := Put(Put(refs, fl.modelKey, Some(Str(fl.referencedModel(fk)))), "key", Some(Str(fl.naming(fk.foreignColumn))));
    var c1 := if TruthyOpt(fk.updateRule) then Put(c, "onUpdate", Some(Str(Upper(fk.updateRule.value)))) else c;
    var c2 := if TruthyOpt(fk.deleteRule) then Put(c1, "onDelete", Some(Str(Upper(fk.deleteRule.value)))) else c1;
    (refs1, c2)
  }

  /** The visits of all foreign keys of a column, in order. */
  function RefFold(fl: FieldFlavour, fks: seq<ForeignKey>, refs: seq<Entry>, c: seq<Entry>): (r: (seq<Entry>, seq<Entry>))
    decreases |fks|
  {
    if fks == [] then (refs, c)
    else
      var (refs1, c1) := RefStep(fl, refs, c, fks[0]);
      RefFold(fl, fks[1..], refs1, c1)
  }

  /** A record with foreign keys: an empty references block is assigned, the
      keys are visited, and the block they built replaces it. */
  function WithReferences(fl: FieldFlavour, fks: seq<ForeignKey>, base: seq<Entry>): seq<Entry> {
    var (refs, c) := RefFold(fl, fks, [], Put(base, "references", Some(Dict([]))));
    Put(c, "references", Some(Dict(refs)))
  }

  /** The attribute record of a column (`$c`). */
  function Attributes(fl: FieldFlavour, col: Column): seq<Entry> {
    var base := BaseAttributes(fl, col);
    if |col.foreignKeys| > 0 then WithReferences(fl, col.foreignKeys, base) else base
  }

  /** The references block after visiting some keys: the model key and `key`. */
  function RefPair(fl: FieldFlavour, fk: ForeignKey): seq<Entry> {
    [Entry(fl.modelKey, Some(Str(fl.referencedModel(fk)))), Entry("key", Some(Str(fl.naming(fk.foreignColumn))))]
  }

  /** The references block names the model and key of the LAST foreign key. */
  lemma {:induction false} RefFoldLastReference(fl: FieldFlavour, fks: seq<ForeignKey>, refs: seq<Entry>, c: seq<Entry>)
    requires fl.modelKey != "key"
    requires refs == [] || (|refs| == 2 && refs[0].key == fl.modelKey && refs[1].key == "key")
    requires fks != []
    ensures RefFold(fl, fks, refs, c).0 == RefPair(fl, fks[|fks| - 1])
    decreases |fks|
  {
    var fk := fks[0];
    var (refs1, c1) := RefStep(fl, refs, c, fk);
    var e1 := Entry(fl.modelKey, Some(Str(fl.referencedModel(fk))));
    var e2 := Entry("key", Some(Str(fl.naming(fk.foreignColumn))));
    var p := Put(refs, fl.modelKey, e1.value);
    PutShape(refs, fl.modelKey, e1.value);
    PutShape(p, "key", e2.value);
    if refs == [] {
      assert p == [e1];
      assert !HasKey(p, "key");
    } else {
      assert IndexOf(refs, fl.modelKey) == 0;
      assert p == refs[0 := e1];
      assert p[1].key == "key";
      assert IndexOf(p, "key") == 1;
    }
    assert refs1 == RefPair(fl, fk);
    if |fks| > 1 {
      RefFoldLastReference(fl, fks[1..], refs1, c1);
    }
  }

  /** The rule the last key with a truthy rule of this kind carries. */
  function LastTruthyRule(fks: seq<ForeignKey>, update: bool): Option<string>
    decreases |fks|
  {
    if fks == [] then None
    else
      var later := LastTruthyRule(fks[1..], update);
      if later.Some? then later
      else if TruthyOpt(RuleOf(fks[0], update)) then RuleOf(fks[0], update)
      else None
  }

  /** The rules one visit writes into the record, and nothing else. */
  lemma RefStepRules(fl: FieldFlavour, refs: seq<Entry>, c: seq<Entry>, fk: ForeignKey, update: bool)
    ensures var c' := RefStep(fl, refs, c, fk).1;
      && (forall k :: HasKey(c', k) <==> HasKey(c, k) || (k == "onUpdate" && TruthyOpt(fk.updateRule))
                                                    || (k == "onDelete" && TruthyOpt(fk.deleteRule)))
      && (forall k :: k != "onUpdate" && k != "onDelete" && HasKey(c, k) ==> At(c', k) == At(c, k))
      && (TruthyOpt(RuleOf(fk, update)) ==> At(c', RuleKey(update)) == Some(Str(Upper(RuleOf(fk, update).value))))
      && (!TruthyOpt(RuleOf(fk, update)) && HasKey(c, RuleKey(update)) ==> At(c', RuleKey(update)) == At(c, RuleKey(update)))
  {
    var c1 := if TruthyOpt(fk.updateRule) then Put(c, "onUpdate", Some(Str(Upper(fk.updateRule.value)))) else c;
    if TruthyOpt(fk.updateRule) { PutFacts(c, "onUpdate", Some(Str(Upper(fk.updateRule.value)))); }
    if TruthyOpt(fk.deleteRule) { PutFacts(c1, "onDelete", Some(Str(Upper(fk.deleteRule.value)))); }
  }

  /** Visiting the keys writes the last truthy rule of each kind, upper-cased,
      and changes no other key of the record. */
  lemma {:induction false} RefFoldRules(fl: FieldFlavour, fks: seq<ForeignKey>, refs: seq<Entry>, c: seq<Entry>, update: bool)
    ensures var c' := RefFold(fl, fks, refs, c).1;
      && (forall k :: HasKey(c', k) <==> HasKey(c, k) || (k == "onUpdate" && LastTruthyRule(fks, true).Some?)
                                                    || (k == "onDelete" && LastTruthyRule(fks, false).Some?))
      && (forall k :: k != "onUpdate" && k != "onDelete" && HasKey(c, k) ==> At(c', k) == At(c, k))
      && (LastTruthyRule(fks, update).Some? ==> At(c', RuleKey(update)) == Some(Str(Upper(LastTruthyRule(fks, update).value))))
      && (LastTruthyRule(fks, update).None? && HasKey(c, RuleKey(update)) ==> At(c', RuleKey(update)) == At(c, RuleKey(update)))
    decreases |fks|
  {
    if fks != [] {
      var (refs1, c1) := RefStep(fl, refs, c, fks[0]);
      RefStepRules(fl, refs, c, fks[0], true);
      RefStepRules(fl, refs, c, fks[0], false);
      RefStepRules(fl, refs, c, fks[0], update);
      RefFoldRules(fl, fks[1..], refs1, c1, update);
      if LastTruthyRule(fks[1..], update).None? && TruthyOpt(RuleOf(fks[0], update)) {
        assert HasKey(c1, RuleKey(update));
      }
    }
  }

  /** The record before the foreign keys, written out: type, column name, then
      each flag present exactly when the column has it, in this order. */
  lemma BaseAttributesExplicit(fl: FieldFlavour, col: Column)
    requires PlainKey(fl.fieldKey)
    ensures BaseAttributes(fl, col) ==
      [Entry("type", Some(TypeObject(fl.typeOf(col)))), Entry(fl.fieldKey, Some(Str(col.name)))]
      + Piece(col.primary, "primaryKey", Some(Bool(true)))
      + Piece(fl.uniqueOf(col), "unique", Some(Bool(true)))
      + Piece(col.autoIncrement, "autoIncrement", Some(Bool(true)))
      + Piece(!col.autoIncrement && col.notNull, "allowNull", Some(Bool(false)))
      + Piece(col.defaultValue.Some?, "defaultValue", DefaultOf(fl, col))
    ensures KeysIn(BaseAttributes(fl, col), BaseKeys(fl))
  {
    var fk := fl.fieldKey;
    var c0 := [Entry("type", Some(TypeObject(fl.typeOf(col))))];
    var s0 := {"type"};
    PutIfAppends(c0, true, fk, Some(Str(col.name)), s0);
    var c1 := PutIf(c0, true, fk, Some(Str(col.name)));
    var s1 := s0 + {fk};
    assert c1 == [Entry("type", Some(TypeObject(fl.typeOf(col)))), Entry(fk, Some(Str(col.name)))];
    PutIfAppends(c1, col.primary, "primaryKey", Some(Bool(true)), s1);
    var c2 := PutIf(c1, col.primary, "primaryKey", Some(Bool(true)));
    var s2 := s1 + {"primaryKey"};
    PutIfAppends(c2, fl.uniqueOf(col), "unique", Some(Bool(true)), s2);
    var c3 := PutIf(c2, fl.uniqueOf(col), "unique", Some(Bool(true)));
    var s3 := s2 + {"unique"};
    PutIfAppends(c3, col.autoIncrement, "autoIncrement", Some(Bool(true)), s3);
    var c4 := PutIf(c3, col.autoIncrement, "autoIncrement", Some(Bool(true)));
    var s4 := s3 + {"autoIncrement"};
    PutIfAppends(c4, !col.autoIncrement && col.notNull, "allowNull", Some(Bool(false)), s4);
    var c5 := PutIf(c4, !col.autoIncrement && col.notNull, "allowNull", Some(Bool(false)));
    var s5 := s4 + {"allowNull"};
    PutIfAppends(c5, col.defaultValue.Some?, "defaultValue", DefaultOf(fl, col), s5);
    assert s5 + {"defaultValue"} == BaseKeys(fl);
    assert BaseAttributes(fl, col) == PutIf(c5, col.defaultValue.Some?, "defaultValue", DefaultOf(fl, col));
  }

  /** Adding the references to a record without rules leaves the last key's
      reference and the last truthy rule of each kind. */
  lemma RefsOnRecord(fl: FieldFlavour, fks: seq<ForeignKey>, base: seq<Entry>)
    requires fl.modelKey != "key" && fks != []
    requires !HasKey(base, "onUpdate") && !HasKey(base, "onDelete")
    ensures var r := WithReferences(fl, fks, base);
      var last := fks[|fks| - 1];
      && HasKey(r, "references") && At(r, "references") == Some(Dict(RefPair(fl, last)))
      && (HasKey(r, "onUpdate") <==> LastTruthyRule(fks, true).Some?)
      && (LastTruthyRule(fks, true).Some? ==> At(r, "onUpdate") == Some(Str(Upper(LastTruthyRule(fks, true).value))))
      && (HasKey(r, "onDelete") <==> LastTruthyRule(fks, false).Some?)
      && (LastTruthyRule(fks, false).Some? ==> At(r, "onDelete") == Some(Str(Upper(LastTruthyRule(fks, false).value))))
  {
    var c6 := Put(base, "references", Some(Dict([])));
    PutFacts(base, "references", Some(Dict([])));
    RefFoldLastReference(fl, fks, [], c6);
    RefFoldRules(fl, fks, [], c6, true);
    RefFoldRules(fl, fks, [], c6, false);
    var (refs, c) := RefFold(fl, fks, [], c6);
    PutFacts(c, "references", Some(Dict(refs)));
  }

  /** A key outside a record's key set is not in the record. */
  lemma KeysInLacks(d: seq<Entry>, s: set<string>, k: string)
    requires KeysIn(d, s) && k !in s
    ensures !HasKey(d, k)
  {
  }

  /** The references block and rules of a column with foreign keys. */
  lemma ReferencesOfColumn(fl: FieldFlavour, col: Column)
    requires PlainKey(fl.fieldKey) && fl.modelKey != "key" && |col.foreignKeys| > 0
    ensures var r := Attributes(fl, col);
      var last := col.foreignKeys[|col.foreignKeys| - 1];
      && HasKey(r, "references") && At(r, "references") == Some(Dict(RefPair(fl, last)))
      && (HasKey(r, "onUpdate") <==> LastTruthyRule(col.foreignKeys, true).Some?)
      && (LastTruthyRule(col.foreignKeys, true).Some? ==> At(r, "onUpdate") == Some(Str(Upper(LastTruthyRule(col.foreignKeys, true).value))))
      && (HasKey(r, "onDelete") <==> LastTruthyRule(col.foreignKeys, false).Some?)
      && (LastTruthyRule(col.foreignKeys, false).Some? ==> At(r, "onDelete") == Some(Str(Upper(LastTruthyRule(col.foreignKeys, false).value))))
  {
    var base := BaseAttributes(fl, col);
    BaseAttributesExplicit(fl, col);
    KeysInLacks(base, BaseKeys(fl), "onUpdate");
    KeysInLacks(base, BaseKeys(fl), "onDelete");
    RefsOnRecord(fl, col.foreignKeys, base);
  }

  // ------------------------------------------------------------ the loop

  predicate Skipped(fl: FieldFlavour, col: Column) {
    fl.skipFkColumns && |col.foreignKeys| > 0
  }

  /** The record builder of a flavour, as a function of the column. */
  function AttributesOf(fl: FieldFlavour): Column -> seq<Entry> {
    col => Attributes(fl, col)
  }

  /** The pairs a loop over the columns assigns, in column order, given the
      record each column gets: a column that is not skipped is keyed by its
      named name. */
  function Pairs(fl: FieldFlavour, record: Column -> seq<Entry>, cols: seq<Column>): (r: seq<Entry>)
    ensures |r| <= |cols|
    decreases |cols|
  {
    if cols == [] then []
    else
      var last := cols[|cols| - 1];
      Pairs(fl, record, cols[..|cols| - 1])
        + (if Skipped(fl, last) then [] else [Entry(fl.naming(last.name), Some(Dict(record(last))))])
  }

  /** The pairs `getFields` assigns. */
  function FieldEntries(fl: FieldFlavour, cols: seq<Column>): seq<Entry> {
    Pairs(fl, AttributesOf(fl), cols)
  }

  /** The pairs of one more column follow those of the columns before it. */
  lemma PairsSnoc(fl: FieldFlavour, record: Column -> seq<Entry>, cols: seq<Column>, i: nat)
    requires i < |cols|
    ensures Pairs(fl, record, cols[..i + 1]) == Pairs(fl, record, cols[..i])
      + (if Skipped(fl, cols[i]) then [] else [Entry(fl.naming(cols[i].name), Some(Dict(record(cols[i]))))])
  {
    assert cols[..i + 1][..i] == cols[..i];
  }

  /** A column that is not skipped and whose named name is `k`. */
  predicate KeyedBy(fl: FieldFlavour, col: Column, k: string) {
    !Skipped(fl, col) && fl.naming(col.name) == k
  }

  /** A key of the result belongs to a column that is not skipped, and every
      such column's key is there. */
  lemma {:induction false} PairsKeys(fl: FieldFlavour, record: Column -> seq<Entry>, cols: seq<Column>, k: string)
    ensures HasKey(Pairs(fl, record, cols), k) <==> exists i :: 0 <= i < |cols| && KeyedBy(fl, cols[i], k)
    decreases |cols|
  {
    if cols != [] {
      var n := |cols| - 1;
      var init := cols[..n];
      PairsKeys(fl, record, init, k);
      var ri := Pairs(fl, record, init);
      var r := Pairs(fl, record, cols);
      if HasKey(r, k) {
        var j :| 0 <= j < |r| && r[j].key == k;
        if j < |ri| {
          assert ri[j].key == k;
          var i :| 0 <= i < |init| && KeyedBy(fl, init[i], k);
          assert cols[i] == init[i];
        } else {
          assert KeyedBy(fl, cols[n], k);
        }
      }
      if exists i :: 0 <= i < |cols| && KeyedBy(fl, cols[i], k) {
        var i :| 0 <= i < |cols| && KeyedBy(fl, cols[i], k);
        if i < n {
          assert init[i] == cols[i];
          var j :| 0 <= j < |ri| && ri[j].key == k;
          assert r[j].key == k;
        } else {
          assert r[|ri|].key == k;
        }
      }
    }
  }

  /** The fields object has a key exactly for each column that is not skipped. */
  lemma FieldEntriesKeys(fl: FieldFlavour, cols: seq<Column>, k: string)
    ensures HasKey(Literal(FieldEntries(fl, cols)), k) <==> exists i :: 0 <= i < |cols| && KeyedBy(fl, cols[i], k)
  {
    PairsKeys(fl, AttributesOf(fl), cols, k);
  }

  /** A column that is not skipped and whose key no later column takes
      again finds its own record under its key: a later column with the
      same named name would overwrite it. */
  lemma {:induction false} PairsValue(fl: FieldFlavour, record: Column -> seq<Entry>, cols: seq<Column>, i: nat)
    requires i < |cols| && !Skipped(fl, cols[i])
    requires forall j :: i < j < |cols| ==> !KeyedBy(fl, cols[j], fl.naming(cols[i].name))
    ensures HasKey(Literal(Pairs(fl, record, cols)), fl.naming(cols[i].name))
    ensures At(Literal(Pairs(fl, record, cols)), fl.naming(cols[i].name)) == Some(Dict(record(cols[i])))
    decreases |cols|
  {
    var n := |cols| - 1;
    var init := cols[..n];
    var k := fl.naming(cols[i].name);
    var e := Entry(fl.naming(cols[n].name), Some(Dict(record(cols[n]))));
    PairsSnoc(fl, record, cols, n);
    assert cols[..n + 1] == cols;
    var before := Pairs(fl, record, init);
    if i == n {
      assert Pairs(fl, record, cols) == before + [e];
      LiteralSnoc(before, e);
      PutAt(Literal(before), k, e.value);
    } else {
      assert init[i] == cols[i];
      forall j | i < j < |init| ensures !KeyedBy(fl, init[j], k) {
        assert init[j] == cols[j];
      }
      PairsValue(fl, record, init, i);
      if Skipped(fl, cols[n]) {
        assert Pairs(fl, record, cols) == before;
      } else {
        assert Pairs(fl, record, cols) == before + [e];
        assert e.key != k;
        LiteralSnoc(before, e);
        PutOther(Literal(before), e.key, e.value, k);
      }
    }
  }

  /** The fields object holds, under a column's key, that column's attribute
      record, unless a later column takes the same key. */
  lemma FieldEntriesValue(fl: FieldFlavour, cols: seq<Column>, i: nat)
    requires i < |cols| && !Skipped(fl, cols[i])
    requires forall j :: i < j < |cols| ==> !KeyedBy(fl, cols[j], fl.naming(cols[i].name))
    ensures HasKey(Literal(FieldEntries(fl, cols)), fl.naming(cols[i].name))
    ensures At(Literal(FieldEntries(fl, cols)), fl.naming(cols[i].name)) == Some(Dict(Attributes(fl, cols[i])))
  {
    PairsValue(fl, AttributesOf(fl), cols, i);
  }

  /** The body of `getFields` for one column that is not skipped: the base
      record, then a visit of each of its foreign keys. */
  method ColumnAttributes(fl: FieldFlavour, column: Column) returns (c: seq<Entry>)
    ensures c == AttributesOf(fl)(column)
  {
    var ty := fl.typeOf(column);
    c := [Entry("type", Some(TypeObject(ty)))];
    c := Put(c, fl.fieldKey, Some(Str(column.name)));
    if column.primary {
      c := Put(c, "primaryKey", Some(Bool(true)));
    }
    if fl.uniqueOf(column) {
      c := Put(c, "unique", Some(Bool(true)));
    }
    if column.autoIncrement {
      c := Put(c, "autoIncrement", Some(Bool(true)));
    } else if column.notNull {
      c := Put(c, "allowNull", Some(Bool(false)));
    }
    if column.defaultValue.Some? {
      var v := column.defaultValue.value;
      c := Put(c, "defaultValue", Some(DefaultEntry(ty, v, fl.boolDefault(v))));
    }
    assert c == BaseAttributes(fl, column);
    if |column.foreignKeys| > 0 {
      c := Put(c, "references", Some(Dict([])));
      var refs: seq<Entry> := [];
      var fks := column.foreignKeys;
      ghost var final := RefFold(fl, fks, refs, c);
      var j := 0;
      while j < |fks|
        invariant 0 <= j <= |fks|
        invariant RefFold(fl, fks[j..], refs, c) == final
      {
        var fk := fks[j];
        refs := Put(refs, fl.modelKey, Some(Str(fl.referencedModel(fk))));
        refs := Put(refs, "key", Some(Str(fl.naming(fk.foreignColumn))));
        if TruthyOpt(fk.updateRule) {
          c := Put(c, "onUpdate", Some(Str(Upper(fk.updateRule.value))));
        }
        if TruthyOpt(fk.deleteRule) {
          c := Put(c, "onDelete", Some(Str(Upper(fk.deleteRule.value))));
        }
        assert fks[j..][1..] == fks[j + 1..];
        j := j + 1;
      }
      assert fks[j..] == [];
      c := Put(c, "references", Some(Dict(refs)));
    }
  }

  /** One turn of the loop of `getFields`: the column at position `i` is
      skipped, or its record is assigned under its named name. */
  method FieldStep(fl: FieldFlavour, cols: seq<Column>, i: nat, result0: seq<Entry>) returns (result: seq<Entry>)
    requires i < |cols| && result0 == Literal(FieldEntries(fl, cols[..i]))
    ensures result == Literal(FieldEntries(fl, cols[..i + 1]))
  {
    var column := cols[i];
    PairsSnoc(fl, AttributesOf(fl), cols, i);
    if fl.skipFkColumns && |column.foreignKeys| > 0 {
      assert FieldEntries(fl, cols[..i + 1]) == FieldEntries(fl, cols[..i]);
      return result0;
    }
    var c := ColumnAttributes(fl, column);
    var e := Entry(fl.naming(column.name), Some(Dict(c)));
    assert FieldEntries(fl, cols[..i + 1]) == FieldEntries(fl, cols[..i]) + [e];
    LiteralSnoc(FieldEntries(fl, cols[..i]), e);
    result := Put(result0, e.key, e.value);
  }

  /** No column, no pair; all columns, all pairs. */
  lemma FieldEntriesBounds(fl: FieldFlavour, cols: seq<Column>)
    ensures FieldEntries(fl, cols[..0]) == []
    ensures FieldEntries(fl, cols[..|cols|]) == FieldEntries(fl, cols)
  {
    assert cols[..0] == [];
    assert cols[..|cols|] == cols;
  }

  /** `getFields`: the record of every column that is not skipped, keyed by
      the named column name. */
  method BuildFields(fl: FieldFlavour, cols: seq<Column>) returns (result: seq<Entry>)
    ensures result == Literal(FieldEntries(fl, cols))
  {
    FieldEntriesBounds(fl, cols);
    result := [];
    var i := 0;
    while i < |cols|
      invariant 0 <= i <= |cols|
      invariant result == Literal(FieldEntries(fl, cols[..i]))
    {
      result := FieldStep(fl, cols, i, result);
      i := i + 1;
    }
  }
}
