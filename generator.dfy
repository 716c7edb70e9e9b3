/**
 * generator.go, the Generator: its fields, NewGenerator and its options,
 * GoType over an `ObservedValue` tree, and GoCode, which writes the package
 * clause, the imports and the type declaration into a buffer and hands it to
 * the formatter.
 */
module GeneratorCode {
  import opened Wrappers
  import opened Text
  import opened Sorting
  import opened Syntax
  import opened ObservedSummary
  import opened ObservedTree
  import opened FieldNaming
  import opened GeneratorOptions
  import opened GeneratorType
  import Maps

  /** `"%s"` and a newline: one line of the import block. */
  function ImportLine(path: string): string {
    "\"" + path + "\"\n"
  }

  /** The import block for the import paths in ascending order; none at all when there are no imports. */
  function ImportBlock(sorted: seq<string>): string {
    if |sorted| == 0 then ""
    else "import (\n" + Concat(seq(|sorted|, i requires 0 <= i < |sorted| => ImportLine(sorted[i]))) + ")\n"
  }

  /** A `// …` line, written only when the comment is not empty. */
  function CommentOf(comment: string): (line: string)
    ensures line == "" <==> comment == ""
    ensures comment != "" ==> |line| == |comment| + 4 && line[..3] == "// " && line[3..|line| - 1] == comment && line[|line| - 1] == '\n'
  {
    if comment != "" then "// " + comment + "\n" else ""
  }

  /** The declaration that ends the source: `type <name> <type>`. */
  function TypeLine(c: Config, typeStr: string): string {
    "type " + c.typeName + " " + typeStr + "\n"
  }

  /** The unformatted source GoCode writes for a type and the imports it needs. */
  ghost function RawCode(c: Config, typeStr: string, imports: set<string>): string {
    CommentOf(c.packageComment) + "package " + c.packageName + "\n" + ImportBlock(SortedOf(imports))
    + CommentOf(c.typeComment) + TypeLine(c, typeStr)
  }

  /**
   * GoCode: the raw source for the root's type, or what the formatter makes of
   * it when formatting is on; the formatter (format.Source) fails with None.
   */
  ghost function CodeOf(c: Config, m: Observed, camelSplit: string -> seq<string>, formatSource: string -> Option<string>): Option<string>
    requires Linked(m)
  {
    var (t, imports) := TypeOf(m, 0, c, camelSplit);
    var raw := RawCode(c, t.typeStr, imports);
    if c.goFormat then formatSource(raw) else Some(raw)
  }

  /** The only import lists GoCode can write: none, one of the two packages, or both in ascending order. */
  lemma ImportOrder(imports: set<string>)
    requires imports <= {"encoding/json", "time"}
    ensures SortedOf(imports) ==
      if imports == {} then []
      else if imports == {"encoding/json"} then ["encoding/json"]
      else if imports == {"time"} then ["time"]
      else ["encoding/json", "time"]
  {
    if imports == {"encoding/json"} {
      SortedSingleton("encoding/json");
    } else if imports == {"time"} {
      SortedSingleton("time");
    } else if imports != {} {
      assert imports == {"encoding/json", "time"};
      JsonBeforeTime();
      SortedPair("encoding/json", "time");
    }
  }

  lemma JsonBeforeTime()
    ensures Less("encoding/json", "time")
  {
    assert "encoding/json"[0] == 'e' && "time"[0] == 't';
  }

  /** A single import path is its own ascending order. */
  lemma SortedSingleton(x: string)
    ensures SortedOf({x}) == [x]
  {
    StrictlySortedUnique(SortedOf({x}), [x]);
  }

  /** Two import paths in ascending order. */
  lemma SortedPair(x: string, y: string)
    requires Less(x, y)
    ensures SortedOf({x, y}) == [x, y]
  {
    StrictlySortedUnique(SortedOf({x, y}), [x, y]);
  }

  /** The lines of a one-path import block. */
  lemma ImportLines1(path: string)
    ensures ImportBlock([path]) == "import (\n\"" + path + "\"\n)\n"
  {
    var lines := seq(1, i requires 0 <= i < 1 => ImportLine([path][i]));
    assert lines == [ImportLine(path)];
    assert Concat(lines) == ImportLine(path) + Concat([]);
  }

  /** The lines of a two-path import block. */
  lemma ImportLines2(first: string, second: string)
    ensures ImportBlock([first, second]) == "import (\n\"" + first + "\"\n\"" + second + "\"\n)\n"
  {
    var lines := seq(2, i requires 0 <= i < 2 => ImportLine([first, second][i]));
    assert lines == [ImportLine(first), ImportLine(second)];
    assert lines[1..] == [ImportLine(second)];
    assert Concat(lines) == ImportLine(first) + (ImportLine(second) + Concat([]));
  }

  /** The generated source imports at most encoding/json and time, each once and in ascending order. */
  lemma CodeImports(c: Config, m: Observed, camelSplit: string -> seq<string>)
    requires Linked(m)
    ensures SortedOf(TypeOf(m, 0, c, camelSplit).1) in {[], ["encoding/json"], ["time"], ["encoding/json", "time"]}
  {
    ImportsKnown(m, 0, c, camelSplit);
    ImportOrder(TypeOf(m, 0, c, camelSplit).1);
  }

  /** A last WithGoFormat(false) makes GoCode return the unformatted source, whatever the formatter would do. */
  lemma UnformattedWhenGoFormatOff(options: seq<GeneratorOption>, m: Observed, camelSplit: string -> seq<string>,
                                   formatSource: string -> Option<string>)
    requires Linked(m)
    ensures var c := Configure(DefaultConfig, options + [WithGoFormat(false)]);
      CodeOf(c, m, camelSplit, formatSource) == Some(RawCode(c, TypeOf(m, 0, c, camelSplit).0.typeStr, TypeOf(m, 0, c, camelSplit).1))
  {
    ConfigureSnoc(DefaultConfig, options, WithGoFormat(false));
  }

  /** The counters of `v`, its children left out. */
  function CountersOf(v: ObservedValue): (c: Observed)
    reads v
    ensures c.allArrayElementValues.None? && c.allObjectPropertyValues.None? && c.objectPropertyValue.NilMap?
  {
    Observed(v.observations, v.arrays, v.bools, v.float64s, v.ints, v.nulls, v.objects, v.strings, v.times, v.empty,
             None, None, NilMap)
  }

  /** The counters of `v` are those of its Observed state. */
  lemma CountersOfModel(v: ObservedValue)
    requires v.Valid()
    ensures CountersOf(v) == Counters(v.Model())
  {
  }

  /** Maps with the same keys agree on whether a key has a space. */
  lemma SpacedKeys(props: map<string, ObservedValue>, observed: map<string, Observed>)
    requires props.Keys == observed.Keys
    ensures (exists k :: k in props && ' ' in k) <==> HasSpacedKey(observed)
  {
    if exists k :: k in props && ' ' in k {
      var k :| k in props && ' ' in k;
      assert k in observed;
    }
  }

  /** A Generator: the settings the options write. */
  class Generator {
    var omitEmptyOption: OmitEmptyOption
    var fieldNamer: FieldNamer
    var skipUnparseableProperties: bool
    var packageComment: string
    var packageName: string
    var typeComment: string
    var typeName: string
    var structTagNames: seq<string>
    var intType: string
    var useJSONNumber: bool
    var goFormat: bool

    /** The fields as one value. */
    function Settings(): Config
      reads this
    {
      Config(omitEmptyOption, fieldNamer, skipUnparseableProperties, packageComment, packageName,
             typeComment, typeName, structTagNames, intType, useJSONNumber, goFormat)
    }

    /** NewGenerator: the defaults, then each option in turn. */
    constructor (options: seq<GeneratorOption>)
      ensures Settings() == Configure(DefaultConfig, options)
    {
      omitEmptyOption := OmitEmptyAuto;
      fieldNamer := DefaultFieldNamer;
      skipUnparseableProperties := true;
      packageComment, packageName := "", "main";
      typeComment, typeName := "", "T";
      structTagNames := ["json"];
      intType := "int";
      useJSONNumber := false;
      goFormat := true;
      new;
      for i := 0 to |options|
        invariant Settings() == Configure(DefaultConfig, options[..i])
      {
        ConfigureSnoc(DefaultConfig, options[..i], options[i]);
        assert options[..i + 1] == options[..i] + [options[i]];
        Apply(options[i]);
      }
      assert options[..|options|] == options;
    }

    /** Calling one GeneratorOption on the Generator. */
    method Apply(option: GeneratorOption)
      modifies this
      ensures Settings() == Applied(old(Settings()), option)
    {
      if SettingOf(option) == StructTagNamesSetting {
        ApplyTagNames(option);
      } else if SettingOf(option) in {PackageCommentSetting, PackageNameSetting, TypeCommentSetting, TypeNameSetting} {
        ApplyText(option);
      } else {
        ApplyOther(option);
      }
    }

    /** WithStructTagName, WithStructTagNames and WithAddStructTagName. */
    method ApplyTagNames(option: GeneratorOption)
      requires SettingOf(option) == StructTagNamesSetting
      modifies this
      ensures Settings() == Applied(old(Settings()), option)
    {
      match option
      case WithStructTagName(name) => structTagNames := [name];
      case WithStructTagNames(names) => structTagNames := names;
      case WithAddStructTagName(name) => structTagNames := structTagNames + [name];
    }

    /** The options that set the comments, the package name or the type name. */
    method ApplyText(option: GeneratorOption)
      requires SettingOf(option) in {PackageCommentSetting, PackageNameSetting, TypeCommentSetting, TypeNameSetting}
      modifies this
      ensures Settings() == Applied(old(Settings()), option)
    {
      match option
      case WithPackageComment(comment) => packageComment := comment;
      case WithPackageName(name) => packageName := name;
      case WithTypeComment(comment) => typeComment := comment;
      case WithTypeName(name) => typeName := name;
    }

    /** The remaining options, each setting one field. */
    method ApplyOther(option: GeneratorOption)
      requires SettingOf(option) !in {StructTagNamesSetting, PackageCommentSetting, PackageNameSetting, TypeCommentSetting, TypeNameSetting}
      modifies this
      ensures Settings() == Applied(old(Settings()), option)
    {
      match option
      case WithFieldNamer(namer) => fieldNamer := namer;
      case WithGoFormat(format) => goFormat := format;
      case WithIntType(t) => intType := t;
      case WithOmitEmpty(option) => omitEmptyOption := option;
      case WithSkipUnparseableProperties(skip) => skipUnparseableProperties := skip;
      case WithUseJSONNumber(use) => useJSONNumber := use;
    }

    /**
     * GoCode: the comment, package clause, sorted imports, type comment and
     * declaration written into a buffer, then formatted when goFormat is set.
     */
    method GoCode(observedValue: ObservedValue, ghost m: Observed, camelSplit: string -> seq<string>,
                  formatSource: string -> Option<string>) returns (code: Option<string>)
      requires observedValue.Valid() && m == observedValue.Model() && Linked(m)
      ensures code == CodeOf(Settings(), m, camelSplit, formatSource)
    {
      var buffer := CommentOf(packageComment);
      buffer := buffer + "package " + packageName + "\n";
      var goType, imports := GoTypeOf(observedValue, m, 0, {}, camelSplit);
      assert imports == TypeOf(m, 0, Settings(), camelSplit).1;
      if |imports| > 0 {
        var importsMap := map path | path in imports :: true;
        assert importsMap.Keys == imports;
        var importsSlice := Maps.SortedKeys(importsMap);
        buffer := buffer + ImportBlock(importsSlice);
      } else {
        assert |SortedOf(imports)| == 0;
      }
      buffer := buffer + CommentOf(typeComment) + TypeLine(Settings(), goType.typeStr);
      assert buffer == RawCode(Settings(), goType.typeStr, imports);
      if !goFormat {
        return Some(buffer);
      }
      code := formatSource(buffer);
    }

    /** GoType: the type of node `v`, whose state is `m`, below a parent observed `observations` times; `imports` gains what it needs. */
    method GoTypeOf(v: ObservedValue, ghost m: Observed, observations: nat, imports: set<string>, camelSplit: string -> seq<string>)
      returns (t: GoType, importsOut: set<string>)
      requires v.Valid() && m == v.Model() && Linked(m)
      ensures t == TypeOf(m, observations, Settings(), camelSplit).0
      ensures importsOut == imports + TypeOf(m, observations, Settings(), camelSplit).1
      decreases v.Repr, 5
    {
      var c := CountersOf(v);
      CountersOfModel(v);
      CountersDecide(m, observations, Settings(), camelSplit);
      match RuleOf(c) {
        case ArrayRule =>
          v.ElementsChild();
          LinkedChildren(m);
          var element, added := GoTypeOf(v.allArrayElementValues, m.allArrayElementValues.value, 0, imports, camelSplit);
          t := GoType("[]" + element.typeStr, c.arrays + c.nulls < observations && c.empty == 0);
          importsOut := added;
        case ObjectRule =>
          TypeOfObject(m, observations, Settings(), camelSplit);
          t, importsOut := ObjectGoTypeOf(v, m, observations, imports, camelSplit);
        case _ =>
          TypeOfScalar(m, observations, Settings(), camelSplit);
          var (r, added) := ScalarType(c, observations, Settings(), camelSplit);
          t, importsOut := r, imports + added;
      }
    }

    /** The object case: empty struct, map fallback or struct. */
    method ObjectGoTypeOf(v: ObservedValue, ghost m: Observed, observations: nat, imports: set<string>, camelSplit: string -> seq<string>)
      returns (t: GoType, importsOut: set<string>)
      requires v.Valid() && m == v.Model() && Linked(m)
      ensures t == ObjectTypeOf(m, observations, Settings(), camelSplit).0
      ensures importsOut == imports + ObjectTypeOf(m, observations, Settings(), camelSplit).1
      decreases v.Repr, 4
    {
      var empty, spaced := KeyShape(v, m);
      if empty {
        var c := CountersOf(v);
        CountersOfModel(v);
        ObjectTypeEmpty(m, observations, Settings(), camelSplit);
        t, importsOut := EmptyStructType(c, observations), imports;
      } else if spaced && !skipUnparseableProperties {
        t, importsOut := MapGoTypeOf(v, m, observations, imports, camelSplit);
      } else {
        t, importsOut := StructGoTypeOf(v, m, observations, imports, camelSplit);
      }
    }

    /** An object with a key holding a space, unparseable properties not skipped: a map of the merged property type. */
    method MapGoTypeOf(v: ObservedValue, ghost m: Observed, observations: nat, imports: set<string>, camelSplit: string -> seq<string>)
      returns (t: GoType, importsOut: set<string>)
      requires v.Valid() && m == v.Model() && Linked(m)
      requires PropsOf(m) != map[] && HasSpacedKey(PropsOf(m)) && !skipUnparseableProperties
      ensures t == ObjectTypeOf(m, observations, Settings(), camelSplit).0
      ensures importsOut == imports + ObjectTypeOf(m, observations, Settings(), camelSplit).1
      decreases v.Repr, 3
    {
      var c := CountersOf(v);
      CountersOfModel(v);
      ObjectTypeMap(m, observations, Settings(), camelSplit);
      v.AllChild();
      var value, added := GoTypeOf(v.allObjectPropertyValues, m.allObjectPropertyValues.value, 0, imports, camelSplit);
      t := GoType("map[string]" + value.typeStr, c.objects + c.nulls < observations);
      importsOut := added;
    }

    /** An object rendered as a struct, a pointer to one when it may be missing. */
    method StructGoTypeOf(v: ObservedValue, ghost m: Observed, observations: nat, imports: set<string>, camelSplit: string -> seq<string>)
      returns (t: GoType, importsOut: set<string>)
      requires v.Valid() && m == v.Model() && Linked(m)
      requires PropsOf(m) != map[] && !(HasSpacedKey(PropsOf(m)) && !skipUnparseableProperties)
      ensures t == ObjectTypeOf(m, observations, Settings(), camelSplit).0
      ensures importsOut == imports + ObjectTypeOf(m, observations, Settings(), camelSplit).1
      decreases v.Repr, 3
    {
      var c := CountersOf(v);
      CountersOfModel(v);
      ObjectTypeStruct(m, observations, Settings(), camelSplit);
      var body;
      body, importsOut := StructBodyOf(v, m, imports, camelSplit);
      t := StructWrap(c, observations, body);
    }

    /** Whether any property was seen, and whether a key holds a space. */
    method KeyShape(v: ObservedValue, ghost m: Observed) returns (empty: bool, spaced: bool)
      requires v.Valid() && m == v.Model()
      ensures empty <==> PropsOf(m) == map[]
      ensures spaced <==> HasSpacedKey(PropsOf(m))
    {
      v.PropKeys();
      empty := |v.Props()| == 0;
      spaced := HasSpacedKeyIn(v.Props());
      SpacedKeys(v.Props(), PropsOf(m));
    }

    /** The struct text: one field line per parseable key in ascending order, then one comment per unparseable key. */
    method StructBodyOf(v: ObservedValue, ghost m: Observed, imports: set<string>, camelSplit: string -> seq<string>)
      returns (body: string, importsOut: set<string>)
      requires v.Valid() && m == v.Model() && Linked(m) && m.objectPropertyValue.Made?
      ensures body == StructBody(m, Settings(), camelSplit).0
      ensures importsOut == imports + StructBody(m, Settings(), camelSplit).1
      decreases v.Repr, 2
    {
      var properties := Maps.SortedKeys(v.Props());
      v.PropKeys();
      assert v.Props().Keys == m.objectPropertyValue.m.Keys;
      Maps.SortedKeysIn(properties, m.objectPropertyValue.m);
      var fields, added := FieldsLoop(v, m, properties, imports, camelSplit);
      var comments := CommentsLoop(UnparsableOf(properties));
      body := StructText(fields, comments);
      importsOut := added;
    }

    /** The loop over the sorted keys: field lines for the parseable ones. */
    method FieldsLoop(v: ObservedValue, ghost m: Observed, properties: seq<string>, imports: set<string>, camelSplit: string -> seq<string>)
      returns (fields: string, importsOut: set<string>)
      requires v.Valid() && m == v.Model() && Linked(m) && m.objectPropertyValue.Made?
      requires forall k :: k in properties ==> k in m.objectPropertyValue.m
      ensures fields == FieldsOf(m, properties, Settings(), camelSplit).0
      ensures importsOut == imports + FieldsOf(m, properties, Settings(), camelSplit).1
      decreases v.Repr, 1
    {
      fields := "";
      importsOut := imports;
      var i := 0;
      while i < |properties|
        invariant 0 <= i <= |properties|
        invariant fields == FieldsOf(m, properties[..i], Settings(), camelSplit).0
        invariant importsOut == imports + FieldsOf(m, properties[..i], Settings(), camelSplit).1
      {
        var property := properties[i];
        assert properties[..i + 1][..i] == properties[..i];
        if !IsUnparsableProperty(property) {
          var line;
          line, importsOut := FieldOf(v, m, property, importsOut, camelSplit);
          fields := fields + line;
        }
        i := i + 1;
      }
      assert properties[..i] == properties;
    }

    /** One field line: the field namer's name, the child's type and the tag. */
    method FieldOf(v: ObservedValue, ghost m: Observed, property: string, imports: set<string>, camelSplit: string -> seq<string>)
      returns (line: string, importsOut: set<string>)
      requires v.Valid() && m == v.Model() && Linked(m) && m.objectPropertyValue.Made? && property in m.objectPropertyValue.m
      ensures line == Field(property, TypeOf(m.objectPropertyValue.m[property], m.objects, Settings(), camelSplit).0, Settings(), camelSplit)
      ensures importsOut == imports + TypeOf(m.objectPropertyValue.m[property], m.objects, Settings(), camelSplit).1
      decreases v.Repr, 0
    {
      var c := CountersOf(v);
      CountersOfModel(v);
      v.PropKeys();
      v.PropChild(property);
      LinkedChildren(m);
      var goType, more := GoTypeOf(v.Props()[property], m.objectPropertyValue.m[property], c.objects, imports, camelSplit);
      var omitEmpty := FieldOmitEmpty(omitEmptyOption, goType.omitEmpty);
      var tag := TagOf(property, omitEmpty);
      var name := NameOf(property, camelSplit);
      line := FieldLine(name, goType.typeStr, tag);
      importsOut := more;
    }

    /** `g.fieldNamer.FieldName(k)`. */
    method NameOf(property: string, camelSplit: string -> seq<string>) returns (name: string)
      ensures name == FieldNameOf(fieldNamer, property, camelSplit)
    {
      match fieldNamer {
        case AbbreviationHandlingFieldNamer(abbreviations) =>
          name := FieldName(abbreviations, property, camelSplit);
        case CustomFieldNamer(fieldName) =>
          name := fieldName(property);
      }
    }

    /** The tag loop: one entry per struct tag name, a space before all but the first, in backquotes. */
    method TagOf(key: string, omitEmpty: bool) returns (tag: string)
      ensures tag == Tag(structTagNames, key, omitEmpty)
    {
      var names := structTagNames;
      ghost var entries := seq(|names|, i requires 0 <= i < |names| => TagEntry(names[i], key, omitEmpty));
      tag := "`";
      for i := 0 to |names|
        invariant tag == "`" + Join(entries[..i], " ")
      {
        assert entries[..i + 1] == entries[..i] + [entries[i]];
        if i != 0 {
          JoinSnoc(entries[..i], entries[i], " ");
          tag := tag + " ";
        } else {
          assert entries[..1] == [entries[0]];
        }
        tag := tag + TagEntry(names[i], key, omitEmpty);
      }
      assert entries[..|names|] == entries;
      tag := tag + "`";
    }
  }
}
