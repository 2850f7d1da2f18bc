# A Dafny model of the Sequelize exporter's table logic

The Sequelize exporter reads a parsed MySQL Workbench schema graph of tables,
columns, indices and foreign keys. For each table it writes a Sequelize model
definition. This project models the part of that exporter that decides what
goes into a definition:

- the attribute records `getFields` builds;
- the index records `getIndexes` keeps;
- the constraint map;
- the association kinds, aliases, option records and their order, as
  `writeAssociations` emits them;
- the datatype registration tables;
- the rule that decides a column's uniqueness.

The model covers all four generators of the repository:

- **V6**, the canonical one;
- **V7**, which inherits from V6 and overrides the record keys and the
  association record shapes;
- **Sequelize6**, the older variant, which picks aliases with
  `extractForeignAlias`;
- **Sequelize5**, which writes fields, indexes and table options only.

Everything is modelled on values *before* JavaScript serialisation. A PHP array
is an ordered list of `Entry(key, value)` pairs (`Records`):

- an assignment `$a[k] = v` replaces the first entry with key `k` in place,
  or appends one;
- `array_merge` is a fold of assignments;
- an array literal is the assignment of its pairs in order, so a key written
  twice keeps its first position and its last value.

The serialiser's `getJSObject` is an opaque value tag carrying its raw and
multiline flags.

The base-class helpers that are not part of this model are uninterpreted
functions of an `Env` value:

- the parent `getNaming`;
- `pluralize`;
- the converter's `getType`;
- PHP's `(bool)` cast of a rendered default.

`Env` also holds the configuration flags. Where the source changes state step
by step, the model is imperative:

- the loops of `getFields`, `getIndexes`, `getConstraints`,
  `countFkOwnerReferences` and `writeAssociations` are methods with loop
  invariants, each proved equal to a specification function;
- the V7 generator's `init` and the V7 converter's `setup` update the fields
  of a class.

The modules:

| file | module | models |
|---|---|---|
| records.dfy | `Records` | PHP ordered arrays: assignment, `array_merge`, array literals |
| strings.dfy | `Strings` | `sprintf('%s')` of integers, `strtoupper`, truthiness, `substr` |
| schema.dfy | `Schema` | the schema graph, the configuration and base helpers, key counts |
| datatype_converter.dfy | `DatatypeConverter` | lib/DatatypeConverter.php |
| v7_datatype_converter.dfy | `V7DatatypeConverter` | lib/V7/DatatypeConverter.php |
| v6_column.dfy | `V6Column` | lib/V6/Model/Column.php |
| fields.dfy | `Fields` | the `getFields` shared by the V6 and Sequelize6 generators |
| indexes.dfy | `Indexes` | the `getIndexes` of all three generators |
| v6_table.dfy | `V6Table` | lib/V6/Model/Table.php |
| v7_table.dfy | `V7Table` | lib/V7/Model/Table.php |
| sequelize6_table.dfy | `Sequelize6Table` | lib/Sequelize6/Model/Table.php |
| sequelize5_table.dfy | `Sequelize5Table` | lib/Sequelize5/Model/Table.php and `getTableProp` of lib/Formatter.php |

Where the code and its documentation disagree, the model follows the code:

- `getConstraints` counts only the table's own local and foreign keys, not
  keys across the whole schema.
- `countFkOwnerReferences` counts ignored keys too.
- The Sequelize6 `belongsTo` options literal writes `onUpdate` twice. The model
  keeps the later value in the first position, as PHP does.

One exception: the V6 `getNaming` as written never promotes a camelCase
model name to PascalCase (see Findings). `V6Table.NamingStrategyAsWritten`
models that code; `V6Table.Naming` uses the documented promotion,
`V6Table.NamingStrategy`, as the corrected definition. The output is the
same either way: `V6Table.NamingCallSitesAgree` shows that at every call
site in the generator the written and the documented tests pick the same
strategy.

## Model

| member | source | states |
|---|---|---|
| DatatypeConverter.AllTagsComplete | lib/DatatypeConverter.php:36-97 | every datatype tag is one of the tags the table registers |
| DatatypeConverter.Registered | lib/DatatypeConverter.php:34-98 | the registered type of every tag is a non-empty type name, so `setup` is a total table |
| DatatypeConverter.RegisteredStrings | lib/DatatypeConverter.php:45-96 | a tag registers STRING exactly when it is a character type, a geometry type other than GEOMETRY, SET, or a character user type |
| DatatypeConverter.RegisteredDates | lib/DatatypeConverter.php:60-67 | a tag registers DATE exactly when it is DATETIME, DATE, TIME or TIMESTAMP, plain or `_F` |
| DatatypeConverter.RegisteredIntegers | lib/DatatypeConverter.php:40-95 | a tag registers INTEGER exactly when it is INT, YEAR, BIT or an integer-like or numeric user type (FIXED, FLOAT4, FLOAT8, INT1-INT8, INTEGER, LONG, MIDDLEINT, NUMERIC, DEC) |
| DatatypeConverter.RegisteredText | lib/DatatypeConverter.php:53 | a tag registers TEXT exactly when it is TEXT |
| DatatypeConverter.RegisteredTinyText | lib/DatatypeConverter.php:52 | a tag registers TEXT('tiny') exactly when it is TINYTEXT |
| DatatypeConverter.RegisteredMediumText | lib/DatatypeConverter.php:54 | a tag registers TEXT('medium') exactly when it is MEDIUMTEXT |
| DatatypeConverter.RegisteredLongText | lib/DatatypeConverter.php:55 | a tag registers TEXT('long') exactly when it is LONGTEXT |
| DatatypeConverter.RegisteredBlob | lib/DatatypeConverter.php:50-57 | a tag registers BLOB exactly when it is BINARY, VARBINARY or BLOB |
| DatatypeConverter.RegisteredTinyBlob | lib/DatatypeConverter.php:56 | a tag registers BLOB('tiny') exactly when it is TINYBLOB |
| DatatypeConverter.RegisteredMediumBlob | lib/DatatypeConverter.php:58 | a tag registers BLOB('medium') exactly when it is MEDIUMBLOB |
| DatatypeConverter.RegisteredLongBlob | lib/DatatypeConverter.php:59 | a tag registers BLOB('long') exactly when it is LONGBLOB |
| DatatypeConverter.RegisteredBoolean | lib/DatatypeConverter.php:79-80 | a tag registers BOOLEAN exactly when it is one of the user types BOOLEAN and BOOL |
| DatatypeConverter.RegisteredEnum | lib/DatatypeConverter.php:77 | a tag registers ENUM exactly when it is ENUM |
| DatatypeConverter.RegisteredTable | lib/DatatypeConverter.php:36-97 | the table as a map holds every tag, each with its registered type |
| DatatypeConverter.Register | lib/DatatypeConverter.php:36 | registering entries keeps the old keys, adds the new ones, and overwrites the old value of every registered key while leaving the rest alone |
| V7DatatypeConverter.V7Registered | lib/V7/DatatypeConverter.php:34-43 | after setup, DATE and DATE_F read DATEONLY, TIME and TIME_F read TIME, and every other tag keeps its base type |
| V7DatatypeConverter.SetupPlainTypes | lib/V7/DatatypeConverter.php:34-43 | after setup BLOB and TEXT still read their base types BLOB and TEXT |
| V7DatatypeConverter.TransformDataType | lib/V7/DatatypeConverter.php:45-61 | under SQLite a sized blob tag becomes the registered BLOB type and a sized text tag the registered TEXT type; in every other case the input comes back unchanged |
| V7DatatypeConverter.TransformIdempotent | lib/V7/DatatypeConverter.php:45-61 | transforming an already transformed type changes nothing |
| V7DatatypeConverter.SetupTable | lib/V7/DatatypeConverter.php:34-43 | the table after setup holds every tag, with its V7 type |
| V7DatatypeConverter.SqliteCollapsesSizes | lib/V7/DatatypeConverter.php:51-57 | with the setup table under SQLite, every sized blob tag reads BLOB and every sized text tag reads TEXT |
| V7DatatypeConverter.Converter.constructor | lib/V7/DatatypeConverter.php:34 | a new converter has its dialect and an empty table |
| V7DatatypeConverter.Converter.Setup | lib/V7/DatatypeConverter.php:34-43 | `setup` registers the parent table and then the four overrides over the old table; afterwards every tag maps to its V7 type |
| V7DatatypeConverter.Converter.Transform | lib/V7/DatatypeConverter.php:45-61 | on the converter's own dialect and table: under SQLite a sized blob tag reads the table's BLOB entry and a sized text tag its TEXT entry, which once the table is the setup table are "BLOB" and "TEXT"; any other tag or dialect keeps the given type |
| V6Column.AnySingleUnique | lib/V6/Model/Column.php:44-48 | the early-returning scan succeeds exactly when some index is unique and consists of exactly this column |
| V6Column.IsUnique | lib/V6/Model/Column.php:41-52 | false whenever the column's unique flag is off; true exactly when the flag is on and some unique single-column index is on this column |
| V6Column.MultiColumnIndexIrrelevant | lib/V6/Model/Column.php:45 | adding an index that does not have exactly one column never changes the answer |
| V6Column.OrderIndependent | lib/V6/Model/Column.php:44-49 | two index lists with the same multiset give the same answer |
| Strings.IntToString | lib/V6/Model/Table.php:254-256 | `sprintf('%s')` of an integer is non-empty and starts with '-' exactly for negative numbers |
| Strings.IntRoundTrip | lib/V6/Model/Table.php:254-256 | the rendered integer is a signed decimal text that parses back to the integer |
| Strings.Upper | lib/V6/Model/Table.php:292 | `strtoupper` keeps the length and upper-cases each ASCII letter in place |
| Strings.UpperIdempotent | lib/V6/Model/Table.php:292-295 | upper-casing twice is upper-casing once |
| Strings.DropLastTwo | lib/V6/Model/Table.php:276 | `substr($v, 0, -2)` followed by the last two characters is the value; a shorter value gives "" |
| Records.PutShape | lib/V6/Model/Table.php:258-299 | an assignment to an existing key replaces that entry in place and keeps the length; to a new key it appends |
| Records.MergeLastWins | lib/Formatter.php:84 | after `array_merge`, a key of the second array holds its last value there |
| Records.MergeKeeps | lib/Formatter.php:84 | a key only the first array has keeps its value through `array_merge` |
| Records.MergeKeepsPositions | lib/Sequelize5/Model/Table.php:105-115 | `array_merge` keeps the first array's keys, in their positions, at its front |
| Records.MergeOfDistinct | lib/Sequelize5/Model/Table.php:105-115 | merging arrays with no shared key is concatenating them |
| Records.LiteralOfDistinct | lib/V6/Model/Table.php:510-554 | an array literal with no repeated key is its own pair list |
| Records.LiteralRepeatedSecond | lib/Sequelize6/Model/Table.php:416-429 | in a literal whose third pair repeats the second pair's key, the second pair's position takes the third pair's value, and the third pair disappears |
| Schema.Active | lib/V6/Model/Table.php:380-383 | the keys that are not ignored are exactly those of the list that are not ignored, and there are no more of them than keys |
| Schema.CountOwnedByIsOccurrences | lib/V6/Model/Table.php:359-368 | counting the keys a model owns is counting its name among the owner names |
| Schema.ActiveCountBounded | lib/V6/Model/Table.php:330-368 | the non-ignored count of a model's keys is at most the count of all its keys, and equal when no key is ignored |
| Schema.OwnedAtCounted | lib/V6/Model/Table.php:333-340 | a key owned by a model counts for that model |
| Schema.TwoOwnedCounted | lib/V6/Model/Table.php:333-340 | two keys owned by a model count for it twice |
| Schema.ReferencingAtCounted | lib/V6/Model/Table.php:342-349 | a non-ignored key referencing a model counts for that model |
| Schema.TwoReferencingCounted | lib/V6/Model/Table.php:342-349 | two non-ignored keys referencing a model count for it twice |
| Schema.TypeObject | lib/V6/Model/Table.php:259 | the type object is a raw multiline `DataTypes.<type>`, or `DataTypes.STRING.BINARY` when the type is falsy |
| Fields.SizedType | lib/Sequelize5/Model/Table.php:133-140 | a decimal gets a `(p, s)` suffix whose two numbers read back as precision and scale; any other column with a positive length gets `(n)`, with n reading back as the length; otherwise the type is unchanged |
| Fields.Sequelize6Type | lib/Sequelize6/Model/Table.php:171-178 | an enum gets its explicit parameters; every other column is sized |
| Fields.V6Type | lib/V6/Model/Table.php:247-257 | tinyint(1) becomes BOOLEAN with no suffix; everything else is typed as in the Sequelize6 generator |
| Fields.TypeFlavoursAgree | lib/V6/Model/Table.php:247-257 | the three generators give the same type except for tinyint(1) and, in the Sequelize5 generator, enum |
| Fields.DateDefault | lib/V6/Model/Table.php:274-277 | a DATE default ending in ')' becomes `sequelize.fn` of the value without its last two characters; any other value becomes `sequelize.literal` of the value; the result is a raw, single-line string object |
| Fields.DateDefaultOfCall | lib/V6/Model/Table.php:275-276 | a default like `NOW()` becomes `sequelize.fn('NOW')` |
| Fields.BaseAttributesExplicit | lib/V6/Model/Table.php:258-283 | before the foreign keys, the record holds the type and the column name, then `primaryKey`, `unique`, `autoIncrement` and (only without auto-increment) `allowNull` false, then `defaultValue`, each present exactly when the column has it, in this order |
| Fields.RefFoldLastReference | lib/V6/Model/Table.php:288-290 | after visiting the foreign keys, the references block names the model and key of the last one |
| Fields.RefStepRules | lib/V6/Model/Table.php:291-296 | one visit writes each truthy rule of the key, upper-cased, and changes no other key |
| Fields.RefFoldRules | lib/V6/Model/Table.php:288-297 | visiting the keys leaves, for each rule kind, the last truthy rule upper-cased; a rule kind no key sets stays as it was; no other key changes |
| Fields.RefsOnRecord | lib/V6/Model/Table.php:285-298 | on a record without rules, `onUpdate` and `onDelete` are present exactly when some key has a truthy rule of that kind |
| Fields.ReferencesOfColumn | lib/V6/Model/Table.php:285-298 | a column with foreign keys has its references block naming the last key, and exactly the last truthy rules, upper-cased |
| Fields.Pairs | lib/V6/Model/Table.php:242-245 | the loop assigns at most one pair per column |
| Fields.PairsSnoc | lib/V6/Model/Table.php:242-299 | one more column adds its own pair, keyed by its named name, unless the column is skipped |
| Fields.PairsKeys | lib/V6/Model/Table.php:243-245 | a key is assigned exactly when some column that is not skipped is named so |
| Fields.FieldEntriesKeys | lib/V6/Model/Table.php:238-303 | the fields object has a key exactly for each column that is not skipped, keyed by its named name |
| Fields.PairsValue | lib/V6/Model/Table.php:242-302 | a column that is not skipped, and whose key no later column takes, finds its own record under its key in the assigned array |
| Fields.FieldEntriesValue | lib/V6/Model/Table.php:242-302 | the fields object holds, under each such column's named name, that column's attribute record |
| Fields.ColumnAttributes | lib/V6/Model/Table.php:258-298 | the step-by-step record of one column is its attribute record |
| Fields.BuildFields | lib/V6/Model/Table.php:238-303 | the loop returns the array that assigning every pair in order gives |
| Fields.FieldStep | lib/V6/Model/Table.php:238-303 | one turn of the loop skips a foreign-key column when such columns are skipped and otherwise assigns the column's record under its named key, keeping the result equal to the literal of the pairs so far |
| Indexes.IsForeignIndex | lib/Sequelize6/Model/Table.php:232-234 | the `array_reduce` is true exactly when some column of the index has a foreign key |
| Indexes.NameValues | lib/Sequelize6/Model/Table.php:243 | the column names, in order, as strings |
| Indexes.IndexRecordShape | lib/Sequelize6/Model/Table.php:241-245 | an index record is `name`, `fields` and `unique`, with `unique` true exactly for a unique index and null otherwise |
| Indexes.IndexRecords | lib/Sequelize6/Model/Table.php:228-251 | there are no more records than indices |
| Indexes.GetIndexes | lib/V6/Model/Table.php:305-328 | the loop returns one record per emitted index, in index order |
| Indexes.ForeignIndexOf | lib/Sequelize6/Model/Table.php:232-234 | the reduction over an index's columns is true exactly when some column has a foreign key |
| Indexes.IndexRecordsSound | lib/Sequelize5/Model/Table.php:155-169 | every record in the output is the record of an emitted index |
| Indexes.IndexRecordsComplete | lib/Sequelize5/Model/Table.php:155-169 | every emitted index has its record in the output |
| Indexes.IndexRecordsAppend | lib/Sequelize6/Model/Table.php:231-248 | the records of two index lists in a row are the records of the first list followed by those of the second |
| Indexes.IndexRecordsMembers | lib/Sequelize5/Model/Table.php:155-169 | a record is in the output exactly when it is the record of an emitted index |
| Indexes.IndexRecordsEmpty | lib/Sequelize5/Model/Table.php:111 | the list is empty exactly when no index is emitted |
| Indexes.ForeignIndexDropped | lib/Sequelize6/Model/Table.php:236-240 | an index over a foreign-key column is emitted exactly when foreign keys are kept and it is an index or unique |
| Indexes.IndexesEntry | lib/Sequelize5/Model/Table.php:111 | the `indexes` option is null exactly when the list is empty, and the list otherwise |
| V6Table.Settings.constructor | lib/V6/Model/Table.php:52-53 | the generator starts with the `field` and `model` keys |
| V6Table.NamingStrategyAsWritten | lib/V6/Model/Table.php:594-603 | as written, the strategy handed to the parent is always the given one |
| V6Table.NamingStrategy | lib/V6/Model/Table.php:594-603 | as documented, an explicit strategy passes through; without one, a model name under the camelCase configuration is PascalCased, and in every other case no strategy is handed on |
| V6Table.NamingPromotionDead | lib/V6/Model/Table.php:596-600 | under the camelCase configuration, the written test hands a model name on with no strategy, where the documented behaviour promotes it |
| V6Table.NamingCallSitesAgree | lib/V6/Model/Table.php:290-552 | at every call site of the generator (PascalCase alias naming, or not a model name) the written and the documented test agree |
| V6Table.GetFields | lib/V6/Model/Table.php:238-303 | `getFields` with the settings' keys returns the fields object of the V6 flavour |
| V6Table.GetConstraints | lib/V6/Model/Table.php:330-357 | the map has exactly one key per model whose count is at least one; a model maps to true exactly when it is counted once. The same holds for lib/Sequelize6/Model/Table.php:253-278 |
| V6Table.CountLocalOwners | lib/V6/Model/Table.php:333-342 | the first loop counts each model's non-ignored local keys, with a key exactly for the models counted |
| V6Table.CountForeignReferenced | lib/V6/Model/Table.php:343-352 | the second loop adds the non-ignored foreign keys referencing each model |
| V6Table.Tally | lib/V6/Model/Table.php:336-340 | setting a missing model to 1 or incrementing a present one adds one to that model's count and leaves the other models alone |
| V6Table.OwnerStep | lib/V6/Model/Table.php:334-341 | one turn of the first loop keeps the map equal to the counts of the non-ignored local keys seen so far |
| V6Table.ReferenceStep | lib/V6/Model/Table.php:344-351 | one turn of the second loop keeps the map equal to the owner counts plus the non-ignored references seen so far |
| V6Table.SharedOwnerUnconstrained | lib/V6/Model/Table.php:330-357 | a model owning two non-ignored local keys is unconstrained |
| V6Table.SharedReferenceUnconstrained | lib/V6/Model/Table.php:330-357 | a model referenced by two non-ignored foreign keys is unconstrained |
| V6Table.BothWaysUnconstrained | lib/V6/Model/Table.php:330-357 | a model that both owns a local key and is referenced by a foreign key is unconstrained |
| V6Table.CountFkOwnerReferences | lib/V6/Model/Table.php:359-368 | the loop counts the table's local keys owned by the model |
| V6Table.OwnerCountOfTable | lib/V6/Model/Table.php:359-368 | that count includes ignored keys, so it is at least the non-ignored count |
| V6Table.DropAlias | lib/V6/Model/Table.php:397-398 | an alias becomes null exactly when it equals the target model and aliases are not always emitted; otherwise it is kept |
| V6Table.LocalAliasRule | lib/V6/Model/Table.php:388-398 | with a shared owner, the local alias is the pluralised named related-by form; otherwise it is the pluralised owner model; either way it is dropped exactly by the null rule |
| V6Table.LocalInverseRule | lib/V6/Model/Table.php:400-406 | with a shared owner the inverse is this model's named related-by form; else, when the owner has a column named like this model, the named `<model>_fk`; else this model's name when aliases are always emitted, and missing otherwise, so it is missing exactly in that last case |
| V6Table.ForeignAliasRule | lib/V6/Model/Table.php:448-460 | with a shared owner on the referenced table it uses the related-by form; else a target that is a column of the owning table gives the named target key; else it is the bare target; then the null rule applies |
| V6Table.ForeignKeyBlockShape | lib/V6/Model/Table.php:515-519 | the `foreignKey` block is name, field and `allowNull`, with `allowNull` the negation of the local column's not-null flag |
| V6Table.AssociationManyShape | lib/V6/Model/Table.php:510-540 | unconstrained: `onUpdate` and `onDelete` are null and `constraints` is false; constrained: the rules pass through and `constraints` is null |
| V6Table.AssociationThroughShape | lib/V6/Model/Table.php:542-554 | the through record names the junction table and the reference key, with that key's rules |
| V6Table.V6BuildersNonEmpty | lib/V6/Model/Table.php:408-410 | the V6 records are never empty, so the skip on an empty record never fires |
| V6Table.LocalAliasOf | lib/V6/Model/Table.php:388-406 | the step-by-step reassignment of `$as` and `$inverse` gives the local alias and inverse |
| V6Table.ForeignAliasOf | lib/V6/Model/Table.php:448-460 | the step-by-step reassignment of `$as` gives the foreign alias |
| V6Table.LocalAssociationsSnoc | lib/V6/Model/Table.php:379-431 | one more local key adds at most its own association |
| V6Table.ForeignAssociationsSnoc | lib/V6/Model/Table.php:437-484 | one more foreign key adds at most its own association |
| V6Table.LocalStep | lib/V6/Model/Table.php:384-418 | the body of the first loop builds the key's association |
| V6Table.WriteLocalAssociations | lib/V6/Model/Table.php:379-431 | the first loop emits the local associations |
| V6Table.ForeignStep | lib/V6/Model/Table.php:441-471 | the body of the second loop builds the key's association |
| V6Table.WriteForeignAssociations | lib/V6/Model/Table.php:437-484 | the second loop emits the foreign associations |
| V6Table.WriteThroughAssociations | lib/V6/Model/Table.php:490-505 | the third loop emits the many-to-many associations |
| V6Table.WriteAssociations | lib/V6/Model/Table.php:370-508 | `writeAssociations` emits the local, then the foreign, then the many-to-many associations |
| V6Table.LocalAssociationsOfActive | lib/V6/Model/Table.php:379-431 | with non-empty records, the first loop emits exactly one association per non-ignored key, in key order |
| V6Table.ForeignAssociationsOfActive | lib/V6/Model/Table.php:437-484 | the same for the second loop |
| V6Table.ThroughAssociationsOfAll | lib/V6/Model/Table.php:490-505 | the third loop emits one association per relation, in relation order |
| V6Table.LocalAssociationsFrom | lib/V6/Model/Table.php:380-383 | every emitted local association belongs to a key that is not ignored: ignored keys emit nothing |
| V6Table.ForeignAssociationsFrom | lib/V6/Model/Table.php:438-441 | every emitted foreign association belongs to a key that is not ignored |
| V6Table.LocalKinds | lib/V6/Model/Table.php:412-418 | every local association is hasMany or hasOne |
| V6Table.LocalKindsByKey | lib/V6/Model/Table.php:412-418 | with records that are never empty, the association of the k-th non-ignored local key is hasMany exactly when that key is many-to-one, and hasOne otherwise |
| V6Table.ForeignKinds | lib/V6/Model/Table.php:466-471 | a foreign key always emits belongsTo |
| V6Table.ThroughKinds | lib/V6/Model/Table.php:490-505 | a relation always emits belongsToMany |
| V6Table.AssociationsOrder | lib/V6/Model/Table.php:370-508 | the output is all hasMany/hasOne, then all belongsTo, then all belongsToMany |
| V6Table.OrderOfConcat | lib/V6/Model/Table.php:370-508 | the kind of each position in a concatenation of three kind-uniform lists |
| V6Table.V6AssociationCount | lib/V6/Model/Table.php:370-508 | the V6 generator emits one association per non-ignored key and per relation |
| V6Table.V6LocalRecord | lib/V6/Model/Table.php:400-418 | the record of a local key is unconstrained exactly when the owner model's map entry is false |
| V6Table.V6ForeignRecord | lib/V6/Model/Table.php:462-471 | the record of a foreign key is unconstrained exactly when the referenced model's map entry is false |
| V6Table.InjectManyToMany | lib/V6/Model/Table.php:563-572 | the referenced table gets one more relation, appended after the old ones, and nothing else changes |
| V6Table.SameKeysSameLocal | lib/V6/Model/Table.php:379-431 | the first loop reads only the table's snapshot and key lists |
| V6Table.SameKeysSameForeign | lib/V6/Model/Table.php:437-484 | the second loop reads only the table's snapshot and key lists |
| V6Table.InjectAddsThrough | lib/V6/Model/Table.php:563-572 | an injected relation adds its belongsToMany after everything the table emitted before |
| V7Table.Init | lib/V7/Model/Table.php:33-38 | after `init`, attributes use `columnName` and references use `tableName` |
| V7Table.V7References | lib/V7/Model/Table.php:33-38 | after `init`, a column with foreign keys names the raw table of its last key under `tableName` |
| V7Table.V7ForeignKeyBlockShape | lib/V7/Model/Table.php:43-51 | the nested block is the V6 block followed by `onUpdate` and `onDelete`, which pass through when constrained and are null otherwise |
| V7Table.V7AssociationOneShape | lib/V7/Model/Table.php:40-56 | the one-side record has no `constraints` key and no top-level rule |
| V7Table.V7AssociationOneValues | lib/V7/Model/Table.php:40-56 | `sourceKey` equals `targetKey`; `inverse` is `{as: inverse}` exactly when the inverse is truthy and null otherwise; `foreignKeyConstraints` is false exactly when unconstrained and null otherwise |
| V7Table.V7AssociationOneKeyValues | lib/V7/Model/Table.php:42-53 | the `foreignKey` entry is the nested block with the named local column and the gated rules, `targetKey` is the named referenced column, and `as` is the alias |
| V7Table.V7AssociationManyShape | lib/V7/Model/Table.php:58-72 | the many-side record has no `sourceKey`, no `inverse`, no `constraints` and no top-level rule; its rules are nested in `foreignKey` |
| V7Table.V7AssociationThroughShape | lib/V7/Model/Table.php:74-86 | `through` is the junction table's raw name, and `foreignKey` holds the reference key's column and both its rules |
| V7Table.V7BuildersNonEmpty | lib/V7/Model/Table.php:40-86 | the V7 records are never empty |
| V7Table.V7LikeV6 | lib/V7/Model/Table.php:40-86 | the V7 generator emits the same associations as the V6 one (same kinds, targets and comments, in the same order); only the records differ |
| V7Table.SameHeadsConcat | lib/V6/Model/Table.php:370-508 | that agreement carries over to the concatenation of the three loops |
| Sequelize6Table.NamingStrategy | lib/Sequelize6/Model/Table.php:519-529 | an explicit strategy passes through; otherwise the configured one is used, and camelCase is promoted to PascalCase for a model name |
| Sequelize6Table.NamingAgreesWithV6 | lib/Sequelize6/Model/Table.php:519-529 | where the V6 documentation promotes, both generators promote; elsewhere the Sequelize6 generator hands on the configured strategy |
| Sequelize6Table.StripAll | lib/Sequelize6/Model/Table.php:282-286 | removing every leftmost match of `T_C`, or failing that `C`, never lengthens the name |
| Sequelize6Table.TrimUnderscores | lib/Sequelize6/Model/Table.php:289-293 | removing one leading and one trailing underscore never lengthens the name |
| Sequelize6Table.ExtractForeignAlias | lib/Sequelize6/Model/Table.php:280-296 | the alias is never longer than the column name |
| Sequelize6Table.ExtractStandardName | lib/Sequelize6/Model/Table.php:282-293 | a column named exactly `C` or `T_C` yields "" |
| Sequelize6Table.StripSkip | lib/Sequelize6/Model/Table.php:282-286 | characters no match starts at are kept |
| Sequelize6Table.QualifiedContainsColumn | lib/Sequelize6/Model/Table.php:283 | a `T_C` match contains a `C` match after `T_` |
| Sequelize6Table.FreeUnmatched | lib/Sequelize6/Model/Table.php:283 | a name that does not mention `C` has no match |
| Sequelize6Table.ExtractFree | lib/Sequelize6/Model/Table.php:280-296 | a name that does not mention `C`, and neither starts nor ends with '_', comes back unchanged |
| Sequelize6Table.TrimSeparator | lib/Sequelize6/Model/Table.php:289-293 | the underscore a match leaves at either end of the alias is removed |
| Sequelize6Table.ExtractAliasFirst | lib/Sequelize6/Model/Table.php:280-296 | `<alias>_T_C` gives back the alias when no match starts inside it |
| Sequelize6Table.ExtractAliasLast | lib/Sequelize6/Model/Table.php:280-296 | `T_C_<alias>` gives back the alias when the alias holds no match |
| Sequelize6Table.ExtractAliasBeforeColumn | lib/Sequelize6/Model/Table.php:280-296 | `<alias>_C`, the form without the table part, gives back the alias when no match starts inside the alias or at its underscore |
| Sequelize6Table.ExtractAliasAfterColumn | lib/Sequelize6/Model/Table.php:280-296 | `C_<alias>` gives back the alias when the name does not start with `T_C` and no match starts at the underscore or inside the alias |
| Sequelize6Table.LocalAliasRule | lib/Sequelize6/Model/Table.php:318-337 | the local alias is null exactly when it is "" or the owner model; with a non-empty extraction it is the pluralised named `alias_mappedBy_owner`, otherwise the pluralised named owner; a standard column name always takes the owner form |
| Sequelize6Table.ForeignAliasRule | lib/Sequelize6/Model/Table.php:395-414 | an unnamed column has no alias; an empty extraction falls back to the referenced model and a non-empty one gives `alias_refModel`; after naming, the alias is null exactly when it equals the referenced model |
| Sequelize6Table.LocalAliasOf | lib/Sequelize6/Model/Table.php:318-337 | the step-by-step alias is the local alias |
| Sequelize6Table.ForeignAliasOf | lib/Sequelize6/Model/Table.php:395-414 | the step-by-step alias is the foreign alias |
| Sequelize6Table.LocalRecordShape | lib/Sequelize6/Model/Table.php:339-352 | `constraints` is false exactly when the map entry is false and null otherwise; the rules are null in the false case and pass through otherwise |
| Sequelize6Table.ForeignRecordShape | lib/Sequelize6/Model/Table.php:416-429 | the belongsTo record has no `onDelete`: its single `onUpdate`, in the first position, holds the delete rule, or null when unconstrained |
| Sequelize6Table.ThroughRecordShape | lib/Sequelize6/Model/Table.php:458-467 | the N <=> M record names the junction table's raw name and the reference key's rules |
| Sequelize6Table.LocalAssociationsCount | lib/Sequelize6/Model/Table.php:305-378 | the first loop emits exactly one association per non-ignored key |
| Sequelize6Table.ForeignAssociationsCount | lib/Sequelize6/Model/Table.php:381-452 | the second loop emits exactly one association per non-ignored key |
| Sequelize6Table.ThroughAssociations | lib/Sequelize6/Model/Table.php:455-478 | the third loop emits each relation's association, in order |
| Sequelize6Table.SeparatedSnoc | lib/Sequelize6/Model/Table.php:369-377 | writing one more association, with a blank line exactly when something was written before, keeps the output separated |
| Sequelize6Table.LocalAssociationsSnoc | lib/Sequelize6/Model/Table.php:305-378 | one more local key adds at most its own association |
| Sequelize6Table.ForeignAssociationsSnoc | lib/Sequelize6/Model/Table.php:381-452 | one more foreign key adds at most its own association |
| Sequelize6Table.LocalStep | lib/Sequelize6/Model/Table.php:310-366 | the body of the first loop builds the key's association |
| Sequelize6Table.ForeignStep | lib/Sequelize6/Model/Table.php:386-440 | the body of the second loop builds the key's association |
| Sequelize6Table.LocalTurn | lib/Sequelize6/Model/Table.php:305-378 | one turn of the first loop keeps the output separated and the flag true exactly while nothing has been written |
| Sequelize6Table.ForeignTurn | lib/Sequelize6/Model/Table.php:381-452 | one turn of the second loop does the same |
| Sequelize6Table.WriteLocalAssociations | lib/Sequelize6/Model/Table.php:305-378 | the first loop writes the local associations after what was written before, separated |
| Sequelize6Table.WriteForeignAssociations | lib/Sequelize6/Model/Table.php:381-452 | the second loop does the same with the foreign associations |
| Sequelize6Table.WriteThroughAssociations | lib/Sequelize6/Model/Table.php:455-478 | the third loop does the same with the relations |
| Sequelize6Table.WriteAssociations | lib/Sequelize6/Model/Table.php:298-480 | all associations are written, in order, with a blank line before every one except the first, across all three kinds |
| Sequelize6Table.AssociationCount | lib/Sequelize6/Model/Table.php:298-480 | every non-ignored key and every relation is written |
| Sequelize6Table.LocalConstraint | lib/Sequelize6/Model/Table.php:339-352 | a local association is unconstrained exactly when the owner model's map entry is false |
| Sequelize6Table.GetFields | lib/Sequelize6/Model/Table.php:161-226 | `getFields` returns the fields object of the Sequelize6 flavour |
| Sequelize6Table.BooleanDefaultTrue | lib/Sequelize6/Model/Table.php:199-200 | a BOOLEAN default is always true, because an object cast to bool is true |
| Sequelize6Table.GetIndexes | lib/Sequelize6/Model/Table.php:228-251 | an index over a foreign-key column is kept when foreign-key fields or associations are generated |
| Sequelize5Table.AttributesFlags | lib/Sequelize5/Model/Table.php:132-148 | the record starts with the type; `primaryKey` is there (true) exactly for a primary column; `autoIncrement` is there (true) exactly for an auto-increment column; `allowNull` is there (false) exactly for a not-null column without auto-increment; no other key |
| Sequelize5Table.AutoIncrementNeverAllowNull | lib/Sequelize5/Model/Table.php:144-148 | an auto-increment column never gets `allowNull` |
| Sequelize5Table.ColumnAttributes | lib/Sequelize5/Model/Table.php:132-148 | the step-by-step `$c` is the column's record |
| Sequelize5Table.FieldPairs | lib/Sequelize5/Model/Table.php:131-150 | one pair per column: foreign-key columns are not skipped |
| Sequelize5Table.FieldPairsAt | lib/Sequelize5/Model/Table.php:149 | the pair of a column sits at its position and is keyed by its raw name |
| Sequelize5Table.GetFields | lib/Sequelize5/Model/Table.php:129-153 | the loop returns the array that assigning every pair in order gives |
| Sequelize5Table.FieldStep | lib/Sequelize5/Model/Table.php:131-150 | one turn of the loop assigns the column's record under its raw name, keeping the result equal to the literal of the pairs so far |
| Sequelize5Table.FieldsOnePerColumn | lib/Sequelize5/Model/Table.php:129-153 | with distinct column names, the fields object has exactly one entry per column, in column order |
| Sequelize5Table.FieldsKeys | lib/Sequelize5/Model/Table.php:129-153 | the fields object has a key exactly for each raw column name |
| Sequelize5Table.GetIndexes | lib/Sequelize5/Model/Table.php:155-169 | every index that is an index or unique gets its record, in index order, foreign or not |
| Sequelize5Table.AsOptionsShape | lib/Sequelize5/Model/Table.php:105-115 | `tableName` and `indexes` come first; without an override, `indexes` is null exactly when no index is emitted and the list otherwise |
| Sequelize5Table.OptionsWithoutPropertyFile | lib/Sequelize5/Model/Table.php:105-115 | without a property file the options are the table name, the index entry and the three false defaults, in this order |
| Sequelize5Table.TablePropDefaults | lib/Formatter.php:75-89 | `timestamps`, `underscored` and `syncOnAssociation` are always present, false unless the file sets them, and the file's value otherwise |

## Left out

- I/O: the writer, `writeTable`/`writeBody`, the printed text and the log calls are not modelled. Associations are modelled as the kind, target, comment and option record that each generator hands to the writer.
- The JavaScript serialiser is an external library, and its quoting and null omission are not modelled. `getJSObject` is an opaque value carrying its raw and multiline flags.
- The base-class `getNaming`, `pluralize`, `getType`, `register` and the ignore tests are not part of this model. They are uninterpreted functions or input flags of `Env` and `ForeignKey`.
- Fields.DefaultEntry: PHP's `(bool)` cast of a rendered BOOLEAN default in the V6 generator depends on the serialiser, so it is an uninterpreted function. The Sequelize6 generator casts the object itself, which is always true (`Sequelize6Table.BooleanDefaultTrue`).
- Sequelize5Table.TablePropDefaults: `getTableProp` reads and decodes a file, and that is not modelled; the decoded JSON object is an input. PHP's renumbering of integer keys in `array_merge` is not modelled either.
- Sequelize6Table.ExtractForeignAlias: table and column names are put into the pattern unescaped. The model treats them as literal text, so regular-expression metacharacters in names are not modelled. The `$` anchor's match before a trailing newline is not modelled.
- Sequelize6Table.TrimUnderscores: the contract states only the length bound. The removed characters are pinned down by `Sequelize6Table.TrimSeparator` and the extraction lemmas.
- V6Table.ForeignAliasRule: PHP's loose `in_array` comparison is modelled as string equality.
- V6Table.LocalInverseRule: the same loose `in_array` test on the owner's column names is modelled as string equality.
- V6Column.IsUnique: the source compares the index's column with `=== $this`, object identity; the model compares columns by value, so two distinct columns equal in every field are not told apart.
- Sequelize5Table.TablePropDefaults: a property file whose JSON decodes to a truthy scalar makes PHP's `array_merge` throw a TypeError; the model's decoded input is always an object, so that error path is not modelled.
- V6Table.InjectManyToMany: the claim that the relation is appended after the old ones assumes that the parent class's `setManyToManyRelation` appends; that method is not part of this model. It is also implemented on values. The relation is appended to a copy of the referenced table, so aliasing of the shared table object is not modelled.
- V7Table.V7References: it covers the references block. The rest of the V7 fields object is the V6 one with the `columnName` key, via `V6Table.GetFields`.
- The Sequelize6 generator's own `injectManyToMany` is not modelled. The model's relations are given directly as the table's `m2m` list.
- The configuration classes under lib/Configuration are not modelled. The only option the converter reads is the dialect, modelled as SQLite or other.
- Integers are unbounded. Column lengths, precisions and scales are PHP integers well inside 64 bits.

## Findings

| source | as written | input that shows it | evidently intended | confidence | as-written member | corrected member |
|---|---|---|---|---|---|---|
| lib/V6/Model/Table.php:596-600 | the camelCase-to-PascalCase promotion is guarded by `!$strategy` and then by `$strategy` being camelCase, which cannot both hold, so it never fires | namingStrategy camelCase, `getNaming($name, null, true)`: the parent receives no strategy | as the doc comment and the Sequelize6 generator say, a model name under the camelCase configuration is PascalCased | not executed | V6Table.NamingStrategyAsWritten | V6Table.NamingStrategy |
