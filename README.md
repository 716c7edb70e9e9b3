# go-jsonstruct, modelled in Dafny

go-jsonstruct infers a Go type declaration from a stream of decoded JSON or
YAML documents. Every document is folded into a tree of accumulators: one
counter per kind of value, plus child accumulators for array elements and
object properties. From that tree the library synthesises a Go type:
- a scalar type, a pointer type or `interface{}`/`any` for scalar positions
- `[]T` for arrays
- a struct for objects, with one field per property and struct tags
- a `map[string]T` fallback for objects with keys that cannot become fields

The repository carries two revisions of this core side by side. The model
keeps both, in parallel modules:

| revision | accumulator | synthesis | naming |
|---|---|---|---|
| newer (`value.go`, `maps.go`, `jsonstruct.go`) | `ValueSummary` (pure) and `ValueTree` (the heap tree of `*value` nodes) | `ValueType` (pure) and `ValueRender` (over the heap tree) | `ExportName` |
| older (`observedvalue.go`, `generator.go`, `fieldnamer.go`) | `ObservedSummary` and `ObservedTree` | `GeneratorType` and `GeneratorCode` (the `Generator` class, `NewGenerator`, `GoCode`) | `FieldNaming` |

Shared modules:
- `Decoded`: the decoded document (`any`) and the two parsers the accumulators consult.
- `Components`: `SplitComponents`.
- `Sorting`: Go's string order and an in-place sort.
- `Maps`: `allKeys` and `sortedKeys`.
- `Syntax`: tags, field lines, `isUnparseableProperty`, `%q`.
- `GeneratorOptions`: the Generator's settings and options.
- `Text`: ASCII case mapping, `strings.Split` and `strings.Join`.
- `Wrappers`: `Option`, standing for nil pointers and nil maps.

## How the model is built

Each accumulator node is a class whose fields the methods update in place:
`ValueTree.Value` and `ObservedTree.ObservedValue`.
- Each class has a ghost footprint `Repr` and a validity predicate.
- A ghost `Model()` maps the node to a datatype: `Summary` or `Observed`.
- `Value.Observe` and `ObservedValue.Merge` are proved to produce exactly the
  state given by the pure functions `ValueSummary.Observe` and
  `ObservedSummary.Merge`.
- The invariants of the tree are proved about those functions.

Type synthesis follows the same pattern. It runs as methods over the heap tree,
building strings and an import set. The methods are proved equal to ghost
functions on the datatypes (`TypeOf`, `ObjectTypeOf`, `StructBody`,
`FieldsOf`), and the properties of the synthesised types are lemmas about
those functions.

## Where the tests and the code disagree

The model follows the code in every case below.
- `fieldnamer_test.go:15-16` expects `FOO_BAR` to be named `FooBar`. The
  older field namer keeps every rune of a non-abbreviation word after the
  first as it is (fieldnamer.go:49-53), so it produces `FOOBAR`
  (`FieldNaming.ShoutingSnakeCase`). The newer `DefaultExportNameFunc` adds
  the all-upper case (jsonstruct.go:40-42) and gives `FooBar`
  (`ExportName.ShoutingSnakeCase`). `FieldNaming.NamersAgree` proves that
  this is the only place where the two namers differ.
- The older `ObservedValue` struct has no `Empty` field (observedvalue.go:13-26),
  but `GoType` reads `o.Empty` (generator.go:222-330). The model gives
  `Observed` an `empty` counter that `Merge` never changes, so it stays 0.
  `ObservedSummary.Consistent` records this.
- In the newer `observe`, a string counts as a time only while every earlier
  string did (value.go:96-101); `ValueSummary.TimesFrozen` states this. The
  older `Merge` counts every time-like string (`ObservedSummary.TimeCounts`).
  So a time followed by a non-time string gives `string` in both revisions.
- The default case of the newer `goType` is `any`, the older one's is
  `interface{}`.

## Model

| member | source | states |
|---|---|---|
| Components.SplitComponents | jsonstruct.go:64-73 | splits on `-` if present, else on `_`, else by the camel-case splitter; rejoining the pieces with the separator gives the name back and no piece holds the separator |
| Components.ConcatNonEmpty | jsonstruct.go:36-37 | dropping empty components does not change their concatenation |
| Components.SnakePair | fieldnamer.go:60-69 | `a_b` with no separators in `a` or `b` splits into exactly `[a, b]` |
| ExportName.ExportComponent | jsonstruct.go:35-47 | one component: same length and same runes up to case; an abbreviation is upper-cased; an all-upper word keeps its first rune and lower-cases the rest; any other word gets its first rune upper-cased |
| ExportName.Sanitize | jsonstruct.go:50-54 | same length; every rune may appear in an identifier; identifier runes are kept and every other rune becomes `_` |
| ExportName.ExportNameOf | jsonstruct.go:32-60 | the export name is non-empty, every rune is a letter, digit or `_`, and the first rune is a letter or `_`; it is the sanitised joined name, with `_` in front exactly when the joined name starts with a digit |
| ExportName.DefaultExportNameFunc | jsonstruct.go:32-60 | the in-place component loop, join and in-place sanitising loop compute ExportNameOf |
| ExportName.JoinedOnlyRecases | jsonstruct.go:34-49 | the joined name equals the concatenated components up to case |
| ExportName.EmptyComponentsVanish | jsonstruct.go:36-37 | empty components contribute nothing to the joined name |
| ExportName.SanitizeIdentifier | jsonstruct.go:50-54 | sanitising a string of identifier runes changes nothing |
| ExportName.IdentifierUnchanged | jsonstruct.go:55-59 | a joined name that is already an identifier and does not start with a digit is the export name |
| ExportName.DigitPrefixed | jsonstruct.go:56-58 | a joined name starting with a digit gets `_` in front |
| ExportName.DoubleHyphen | generator_test.go:1072-1081 | `int--key` is exported as `IntKey` |
| ExportName.ShoutingSnakeCase | jsonstruct.go:40-42 | `FOO_BAR` joins to `FooBar` |
| ExportName.GpsAltitude | generator_test.go:784-809 | with `GPS` added to the abbreviations, `gpsAltitude` is exported as `GPSAltitude` |
| FieldNaming.FieldComponent | fieldnamer.go:44-53 | one component: same runes up to case; an abbreviation is upper-cased; any other word gets its first rune upper-cased and keeps the rest |
| FieldNaming.FieldName | fieldnamer.go:41-56 | the in-place component loop and join compute FieldNameOf for the abbreviation-handling namer |
| FieldNaming.FieldComponentsInPlace | fieldnamer.go:43-54 | after the loop every component is its FieldComponent |
| FieldNaming.FieldNameOnlyRecases | fieldnamer.go:41-56 | the field name equals the concatenated components up to case |
| FieldNaming.SnakePairNamed | fieldnamer.go:41-56 | `a_b` is named by the two named components, joined |
| FieldNaming.SnakeCase | fieldnamer_test.go:13 | `foo_bar` is named `FooBar` |
| FieldNaming.CamelCase | fieldnamer_test.go:14 | `fooBar`, split into `foo` and `Bar`, is named `FooBar` |
| FieldNaming.ShoutingSnakeCase | fieldnamer.go:49-53 | `FOO_BAR` is named `FOOBAR` |
| FieldNaming.Abbreviation | fieldnamer_test.go:11 | `id` is named `ID` |
| FieldNaming.NamersAgree | fieldnamer.go:44-53 | the older and newer namers agree on every component except upper-case words that are not abbreviations |
| Sorting.LessIrreflexive | maps.go:16-20 | no string sorts before itself |
| Sorting.LessAsymmetric | maps.go:16-20 | string order is asymmetric |
| Sorting.LessTransitive | maps.go:16-20 | string order is transitive |
| Sorting.LessTotal | maps.go:16-20 | any two distinct strings are ordered |
| Sorting.Sort | maps.go:18 | the in-place sort leaves the array sorted and a permutation of its old contents |
| Sorting.InsertDown | maps.go:18 | one insertion step extends the sorted prefix and keeps the multiset |
| Sorting.SwapNeighbours | maps.go:18 | exchanging two neighbours keeps the multiset |
| Sorting.SortedOf | maps.go:16-20 | the keys of a set in ascending order: strictly sorted, the same elements, the same size |
| Sorting.StrictlySortedUnique | maps.go:16-20 | two strictly sorted sequences with the same elements are equal, so sorted keys are unique |
| Maps.AllKeys | maps.go:8-14 | every key exactly once, whatever order the map is iterated in |
| Maps.SortedKeys | maps.go:16-20 | the keys exactly once, strictly ascending, equal to SortedOf of the key set |
| Maps.SortedKeysUnique | maps.go:16-20 | a sorted permutation of distinct keys is the ascending enumeration of the set |
| Syntax.FieldOmitEmpty | generator.go:288-296 | Never gives false, Always gives true, Auto gives what was observed |
| Syntax.IsUnparsableProperty | generator.go:342-344 | true exactly when the key holds a space, a double quote or a comma |
| Syntax.UnparsableOfSpec | generator.go:281-285 | the commented keys are exactly the unparsable keys, and they keep ascending order |
| Syntax.EscapeHasNoBareQuote | generator.go:313 | every double quote in a `%q` body is escaped |
| Syntax.StructIsNoMap | generator.go:315-325 | a struct type text never reads as a map type |
| Syntax.StructTextStarts | generator.go:280 | the struct text starts with `struct`, and its pointer with `*struct` |
| Syntax.HasSpacedKeyIn | value.go:222-228 | the loop finds a key with a space exactly when one exists |
| Syntax.CommentsLoop | generator.go:312-314 | one comment line per unparsable key, in order |
| GeneratorOptions.Applied | generator.go:48-138 | each option writes its own setting and no other; every option but WithAddStructTagName sets its field to its argument (WithStructTagName to a one-name list); WithAddStructTagName appends one |
| GeneratorOptions.ConfigureSnoc | generator.go:153-155 | options are applied first to last |
| GeneratorOptions.LastWins | generator.go:48-138 | of two options writing one setting, the later wins, except WithAddStructTagName |
| GeneratorOptions.OtherOptionsKeep | generator.go:141-157 | options for other settings leave a setting at its value |
| GeneratorOptions.AddedTagNames | generator.go:112-116 | added tag names follow the existing ones in the order they were added |
| GeneratorCode.Generator.constructor | generator.go:141-157 | NewGenerator: the defaults, then every option in order |
| GeneratorCode.Generator.Apply | generator.go:48-138 | calling one option changes the settings as Applied says |
| GeneratorCode.Generator.ApplyTagNames | generator.go:98-116 | the three tag-name options, as Applied says |
| GeneratorCode.Generator.ApplyText | generator.go:76-87 | the comment, package-name and type-name options, as Applied says |
| GeneratorCode.Generator.ApplyOther | generator.go:48-73 | the remaining options, as Applied says |
| GeneratorCode.CommentOf | generator.go:162-164 | empty exactly for an empty comment; otherwise `// `, the comment and a newline |
| GeneratorCode.Generator.GoCode | generator.go:160-188 | the buffer is comment, package clause, sorted import block, type comment and type line for the root's type; formatted exactly when goFormat is set |
| GeneratorCode.ImportOrder | generator.go:166-179 | the import list is empty, one path, or `encoding/json` before `time` |
| GeneratorCode.CodeImports | generator.go:166-179 | the generated source imports only `encoding/json` and `time`, each once, in ascending order |
| GeneratorCode.ImportLines2 | generator.go:174-178 | the text of a two-path import block |
| GeneratorCode.UnformattedWhenGoFormatOff | generator.go:184-186 | a last WithGoFormat(false) returns the raw source whatever the formatter does |
| GeneratorCode.CountersOfModel | generator.go:191-214 | the counters read from the node are those of its Observed state |
| GeneratorCode.Generator.GoTypeOf | generator.go:191-339 | the type and imports computed over the heap tree are those TypeOf gives for its Observed state |
| GeneratorCode.Generator.ObjectGoTypeOf | generator.go:248-325 | the object case over the heap tree, as ObjectTypeOf |
| GeneratorCode.Generator.MapGoTypeOf | generator.go:263-273 | the map fallback over the heap tree, as ObjectTypeOf |
| GeneratorCode.Generator.StructGoTypeOf | generator.go:274-325 | the struct case over the heap tree, as ObjectTypeOf |
| GeneratorCode.Generator.KeyShape | generator.go:249-269 | whether any property was seen, and whether any key holds a space |
| GeneratorCode.Generator.StructBodyOf | generator.go:274-315 | the struct text over the heap tree, as StructBody |
| GeneratorCode.Generator.FieldsLoop | generator.go:282-311 | the field lines of the parsable keys in the given order, as FieldsOf |
| GeneratorCode.Generator.FieldOf | generator.go:287-310 | one field line: field name, child type and tag |
| GeneratorCode.Generator.NameOf | generator.go:310 | the field namer's name for the key |
| GeneratorCode.Generator.TagOf | generator.go:298-308 | one `name:"key[,omitempty]"` entry per tag name, space-separated, in backquotes |
| GeneratorType.DistinctTypes | generator.go:193-214 | at most 7, and 0 exactly when no kind was observed |
| GeneratorType.CountersDecide | generator.go:216-337 | the case chosen and the childless cases depend on the counters only |
| GeneratorType.NothingObservedIsAny | generator.go:336-337 | with no kind observed the type is `interface{}`, omitted exactly when the parent was observed |
| GeneratorType.NullableNeverOmitted | generator.go:225-247 | a scalar kind seen together with null gives a pointer type that is never omitted |
| GeneratorType.MixedNumbers | generator.go:235-241 | floats mixed with ints give `float64`, or `json.Number` with its import when useJSONNumber is set |
| GeneratorType.ImportsKnown | generator.go:191-339 | GoType only ever adds `encoding/json` and `time` |
| GeneratorType.TimeOnlyForTimes | generator.go:326-328 | `time.Time` exactly when strings are the only kind and all of them are times |
| GeneratorType.TimeRuleExactly | generator.go:326 | the time case is chosen exactly under its condition |
| GeneratorType.ScalarTime | generator.go:223-337 | among the childless cases only the time case gives `time.Time` |
| GeneratorType.ObjectTypeShape | generator.go:248-325 | the object case gives `struct…`, `*struct…` or `map[string]…` |
| GeneratorType.MapFallback | generator.go:263-273 | with properties seen, a map exactly when some key holds a space and skipping is off |
| GeneratorType.StructWrapping | generator.go:316-325 | a plain struct exactly when the parent was not observed or always held an object; otherwise a pointer, omitted as the source decides |
| GeneratorType.EmptyObject | generator.go:251-262 | with no property seen: `*struct{}` exactly when null was seen or some parent lacked the object |
| GeneratorType.StructKeyOrder | generator.go:274-314 | fields in strictly ascending key order, and the comments name exactly the unparsable keys in order |
| GeneratorType.ScalarOmittedWhenMissing | generator.go:223-232 | in a merged tree a single scalar kind is omitted exactly when some parent observation lacked it |
| GeneratorType.TimesAreTime | generator.go:326-328 | two time strings give `time.Time` and the time import |
| GeneratorType.TimeThenString | generator.go:329-330 | a time string followed by a non-time string gives `string` |
| ObservedSummary.Merge | observedvalue.go:29-73 | exactly one observation more |
| ObservedSummary.MergeNone | observedvalue.go:30-32 | a nil receiver merges like a fresh node |
| ObservedSummary.MergeCounts | observedvalue.go:34-72 | exactly the counter of the value's kind grows by one; `empty` never changes |
| ObservedSummary.MergeArrayElements | observedvalue.go:35-42 | any array creates the element node, which sees one more value per element; other kinds leave it alone |
| ObservedSummary.TimeCounts | observedvalue.go:60-64 | every string that parses as a time counts in `times` |
| ObservedSummary.NullOnlyCountsNull | observedvalue.go:49-50 | null bumps only `nulls` and `observations` |
| ObservedSummary.NumberCounts | observedvalue.go:65-70 | a number literal counts as an int exactly when it parses as an int64, else as a float64 |
| ObservedSummary.MergeScalar | observedvalue.go:43-70 | Merge of a scalar, counter by counter |
| ObservedSummary.SumUpdate | observedvalue.go:51-59 | replacing one per-key node changes the sum of per-key observations by the difference |
| ObservedSummary.ConsistentIsLinked | generator.go:218-273 | a consistent tree has every child GoType follows |
| ObservedSummary.MergeConsistent | observedvalue.go:29-73 | Merge keeps every tree invariant: kinds and times bounded, children present, and the all-properties node in balance with the per-key nodes |
| ObservedTree.ObservedValue.constructor | observedvalue.go:31 | a fresh node models Empty |
| ObservedTree.ObservedValue.Merge | observedvalue.go:29-73 | the node's new state is ObservedSummary.Merge of its old state; a nil receiver is replaced by a fresh node |
| ObservedTree.ObservedValue.Add | observedvalue.go:33-72 | the body of Merge on a non-nil node |
| ObservedTree.ObservedValue.AddArray | observedvalue.go:35-42 | the array case, in place |
| ObservedTree.ObservedValue.AddElements | observedvalue.go:39-41 | the element loop merges each element into the shared element node |
| ObservedTree.ObservedValue.AddObject | observedvalue.go:51-59 | the object case, in place |
| ObservedTree.ObservedValue.AddProperties | observedvalue.go:56-58 | the property loop, as MergeProperties |
| ObservedTree.ObservedValue.AddOther | observedvalue.go:43-70 | the scalar cases, in place |
| ValueSummary.Observe | value.go:46-110 | exactly one observation more |
| ValueSummary.ObserveNone | value.go:47-49 | a nil receiver observes like a fresh node |
| ValueSummary.ObserveCounts | value.go:51-108 | exactly the counter of the value's kind grows by one; `empties` grows exactly for false, 0, 0.0, "", empty arrays and empty objects |
| ValueSummary.ObserveArrayElements | value.go:52-62 | any array creates the element node, which sees one more value per element; other kinds leave it alone |
| ValueSummary.TimesFrozen | value.go:96-101 | once a non-time string was seen, `times` never changes |
| ValueSummary.NullOnlyCountsNull | value.go:78-79 | null bumps only `nulls` and `observations` |
| ValueSummary.NumberCounts | value.go:102-107 | a number literal counts as an int exactly when it parses as an int64, else as a float64, and is never empty |
| ValueSummary.ObserveScalar | value.go:63-107 | observe of a scalar, counter by counter |
| ValueSummary.SumUpdate | value.go:88-91 | replacing one per-key node changes the sum of per-key observations by the difference |
| ValueSummary.ConsistentIsLinked | value.go:140-235 | a consistent tree has every child goType follows |
| ValueSummary.ObserveConsistent | value.go:46-110 | observe keeps every tree invariant: kinds, empties and times bounded, children present, and the all-properties node in balance with the per-key nodes |
| ValueTree.Value.constructor | value.go:48 | a fresh node models Empty |
| ValueTree.Value.Observe | value.go:46-110 | the node's new state is ValueSummary.Observe of its old state; a nil receiver is replaced by a fresh node |
| ValueTree.Value.Add | value.go:50-108 | the body of observe on a non-nil node |
| ValueTree.Value.AddArray | value.go:52-62 | the array case, in place |
| ValueTree.Value.AddElements | value.go:60-62 | the element loop observes each element into the shared element node |
| ValueTree.Value.AddObject | value.go:80-91 | the object case, in place |
| ValueTree.Value.AddProperties | value.go:87-90 | the property loop, as ObserveProperties |
| ValueTree.Value.AddOther | value.go:63-107 | the scalar cases, in place |
| ValueType.DistinctTypes | value.go:115-136 | at most 7, and 0 exactly when no kind was observed |
| ValueType.CountersDecide | value.go:139-321 | the case chosen and the childless cases depend on the counters only |
| ValueType.NothingObservedIsAny | value.go:316-320 | with no kind observed the type is `any`, omitted exactly when the parent was observed |
| ValueType.NullableNeverOmitted | value.go:153-197 | a scalar kind seen together with null gives a pointer type that is never omitted |
| ValueType.MixedNumbers | value.go:175-187 | floats mixed with ints give `float64`, or `json.Number` with its import |
| ValueType.ImportsKnown | value.go:113-322 | goType only ever adds `encoding/json` and `time` |
| ValueType.TimeOnlyForTimes | value.go:296-301 | `time.Time` exactly when strings are the only kind and all of them are times |
| ValueType.TimeRuleExactly | value.go:296 | the time case is chosen exactly under its condition |
| ValueType.ObjectTypeShape | value.go:198-295 | the object case gives `struct…`, `*struct…` or `map[string]…` |
| ValueType.MapFallback | value.go:222-235 | with properties seen, a map exactly when some key holds a space and skipping is off |
| ValueType.StructWrapping | value.go:276-295 | a plain struct exactly when the parent was not observed or always held an object; otherwise a pointer, omitted as the source decides |
| ValueType.EmptyObject | value.go:201-221 | with no property seen: `*struct{}` exactly when null was seen or some parent lacked the object |
| ValueType.StructKeyOrder | value.go:236-274 | fields in strictly ascending key order, and the comments name exactly the unparsable keys in order |
| ValueType.TimeThenEmptyString | generator_test.go:753-766 | a time followed by "" gives `string`, never omitted |
| ValueType.FalseThenNull | value.go:153-156 | `false` then null gives `*bool`, not omitted |
| ValueType.FloatThenInt | value.go:175-187 | `0.0` then `0` gives `float64`, or `json.Number` with its import |
| ValueRender.CountersOfModel | value.go:113-136 | the counters read from the node are those of its Summary |
| ValueRender.GoTypeOf | value.go:113-322 | the type and imports computed over the heap tree are those TypeOf gives for its Summary |
| ValueRender.ObjectGoTypeOf | value.go:198-295 | the object case over the heap tree, as ObjectTypeOf |
| ValueRender.MapGoTypeOf | value.go:222-235 | the map fallback over the heap tree, as ObjectTypeOf |
| ValueRender.StructGoTypeOf | value.go:236-295 | the struct case over the heap tree, as ObjectTypeOf |
| ValueRender.KeyShape | value.go:201-228 | whether any property was seen, and whether any key holds a space |
| ValueRender.StructBodyOf | value.go:236-275 | the struct text over the heap tree, as StructBody |
| ValueRender.FieldsLoop | value.go:240-271 | the field lines of the parsable keys in the given order, as FieldsOf |
| ValueRender.FieldOf | value.go:241-270 | one field line: exported name, child type and tag |

## Left out

- Decoding and the command-line tool are not part of this model: observejson.go, observeyaml.go and cmd/gojsonstruct/main.go. The decoded document is the `Decoded.Any` datatype.
- `ObservedValue.Observe` (observedvalue.go:76-92) is left out: its decoder loop reads documents until end of file, and that I/O is not modelled. `Merge`, which it calls per document, is modelled.
- `format.Source` is a function parameter `formatSource` that may fail; Go's formatter itself is not modelled.
- `time.Parse(time.RFC3339Nano, s)` and `json.Number.Int64` are predicates in `Decoded.Parsers`; `camelcase.Split` is a function parameter.
- `unicode.ToUpper`, `ToLower`, `IsLetter` and `IsDigit` are modelled on ASCII only. Other runes are treated as caseless, and as neither letters nor digits.
- Floating-point numbers carry only whether they equal zero, the one thing the accumulators read.
- A decoded object is a sequence of properties in the order Go happens to iterate the map. Any order is allowed, so the contracts hold for every order. A sequence may also repeat a key, which a Go map never does; the contracts hold for those sequences too, so this only widens the inputs.
- ValueRender.FieldOf: value.go renders struct tags through the structtag package (value.go:256-268). The model uses the same explicit `name:"key[,omitempty]"` format as generator.go (generator.go:298-308), which writes the same text only when the tag names are distinct and non-empty and the key needs no escaping. Where they differ:
  - `structtag` quotes the key with `%q`, so a key holding a backslash or a control rune is escaped in value.go (`a\b` becomes `json:"a\\b"`) but written as it is in the model.
  - `structtag`'s `Set` replaces an entry with the same key, so in value.go a repeated tag name gives one entry, where the model writes one entry per name.
  - `Set` refuses an empty tag name, which the model writes as `:"key"`.
- `%q` is modelled on ASCII: quotes, backslashes and control characters are escaped; other runes are written as they are.
- The `FieldNamer` interface is a datatype. Its only variants are the abbreviation-handling namer and `CustomFieldNamer`, which carries any name function.
- The newer generator's exported name function is a parameter of `ValueType.GenerateOptions`. `ExportName.DefaultExportNameFunc` models the default one.
- ExportName.ExportNameOf: requires a non-empty joined name, because the source indexes its first rune and panics on names such as "" or "-".
- GeneratorCode.Generator.GoCode: requires a node in the linked shape every merged tree has (`ObservedSummary.MergeConsistent` and `ConsistentIsLinked`). A nil root pointer, on which the source would crash, is not modelled.
- GoCode's `importsSlice` is built by a map loop and `sort.Strings` (generator.go:168-173). The model reuses `Maps.SortedKeys`, which does the same: collect the keys, then sort them.
- Go's integer counters are `int` and never overflow in practice; the model uses unbounded naturals.
