/**
 * generator.go, the Generator's settings: the options a Generator is built
 * with, each a setter of one field, applied in order over the defaults of
 * NewGenerator.
 */
module GeneratorOptions {
  import opened Syntax
  import opened FieldNaming

  /** The fields of a Generator. */
  datatype Config = Config(
    omitEmptyOption: OmitEmptyOption,
    fieldNamer: FieldNamer,
    skipUnparseableProperties: bool,
    packageComment: string,
    packageName: string,
    typeComment: string,
    typeName: string,
    structTagNames: seq<string>,
    intType: string,
    useJSONNumber: bool,
    goFormat: bool)

  /** The GeneratorOption constructors, one case per `With…` function. */
  datatype GeneratorOption =
    | WithFieldNamer(fieldNamer: FieldNamer)
    | WithGoFormat(goFormat: bool)
    | WithIntType(intType: string)
    | WithOmitEmpty(omitEmptyOption: OmitEmptyOption)
    | WithPackageComment(packageComment: string)
    | WithPackageName(packageName: string)
    | WithSkipUnparseableProperties(skipUnparseableProperties: bool)
    | WithStructTagName(structTagName: string)
    | WithStructTagNames(structTagNames: seq<string>)
    | WithAddStructTagName(addedName: string)
    | WithTypeComment(typeComment: string)
    | WithTypeName(typeName: string)
    | WithUseJSONNumber(useJSONNumber: bool)

  /** The Generator NewGenerator starts from, before any option. */
  const DefaultConfig := Config(
    omitEmptyOption := OmitEmptyAuto,
    fieldNamer := DefaultFieldNamer,
    skipUnparseableProperties := true,
    packageComment := "",
    packageName := "main",
    typeComment := "",
    typeName := "T",
    structTagNames := ["json"],
    intType := "int",
    useJSONNumber := false,
    goFormat := true)

  /** The field of a Generator an option writes. */
  datatype Setting =
    | FieldNamerSetting | GoFormatSetting | IntTypeSetting | OmitEmptySetting | PackageCommentSetting
    | PackageNameSetting | SkipSetting | StructTagNamesSetting | TypeCommentSetting | TypeNameSetting
    | UseJSONNumberSetting

  function SettingOf(option: GeneratorOption): Setting {
    match option
    case WithFieldNamer(_) => FieldNamerSetting
    case WithGoFormat(_) => GoFormatSetting
    case WithIntType(_) => IntTypeSetting
    case WithOmitEmpty(_) => OmitEmptySetting
    case WithPackageComment(_) => PackageCommentSetting
    case WithPackageName(_) => PackageNameSetting
    case WithSkipUnparseableProperties(_) => SkipSetting
    case WithStructTagName(_) => StructTagNamesSetting
    case WithStructTagNames(_) => StructTagNamesSetting
    case WithAddStructTagName(_) => StructTagNamesSetting
    case WithTypeComment(_) => TypeCommentSetting
    case WithTypeName(_) => TypeNameSetting
    case WithUseJSONNumber(_) => UseJSONNumberSetting
  }

  /** Two configurations agree on every field but possibly `setting`. */
  ghost predicate AgreeExcept(c: Config, d: Config, setting: Setting) {
    && (setting != FieldNamerSetting ==> c.fieldNamer == d.fieldNamer)
    && (setting != GoFormatSetting ==> c.goFormat == d.goFormat)
    && (setting != IntTypeSetting ==> c.intType == d.intType)
    && (setting != OmitEmptySetting ==> c.omitEmptyOption == d.omitEmptyOption)
    && (setting != PackageCommentSetting ==> c.packageComment == d.packageComment)
    && (setting != PackageNameSetting ==> c.packageName == d.packageName)
    && (setting != SkipSetting ==> c.skipUnparseableProperties == d.skipUnparseableProperties)
    && (setting != StructTagNamesSetting ==> c.structTagNames == d.structTagNames)
    && (setting != TypeCommentSetting ==> c.typeComment == d.typeComment)
    && (setting != TypeNameSetting ==> c.typeName == d.typeName)
    && (setting != UseJSONNumberSetting ==> c.useJSONNumber == d.useJSONNumber)
  }

  /**
   * Calling the option on a Generator: every option but WithAddStructTagName
   * overwrites its field with its argument; WithStructTagName leaves exactly
   * one tag name; WithAddStructTagName appends one. No other field changes.
   */
  function Applied(c: Config, option: GeneratorOption): (r: Config)
    ensures AgreeExcept(c, r, SettingOf(option))
    ensures option.WithAddStructTagName? ==> r.structTagNames == c.structTagNames + [option.addedName]
    ensures option.WithStructTagName? ==> r.structTagNames == [option.structTagName]
    ensures option.WithStructTagNames? ==> r.structTagNames == option.structTagNames
    ensures option.WithFieldNamer? ==> r.fieldNamer == option.fieldNamer
    ensures option.WithGoFormat? ==> r.goFormat == option.goFormat
    ensures option.WithIntType? ==> r.intType == option.intType
    ensures option.WithOmitEmpty? ==> r.omitEmptyOption == option.omitEmptyOption
    ensures option.WithPackageComment? ==> r.packageComment == option.packageComment
    ensures option.WithPackageName? ==> r.packageName == option.packageName
    ensures option.WithSkipUnparseableProperties? ==> r.skipUnparseableProperties == option.skipUnparseableProperties
    ensures option.WithTypeComment? ==> r.typeComment == option.typeComment
    ensures option.WithTypeName? ==> r.typeName == option.typeName
    ensures option.WithUseJSONNumber? ==> r.useJSONNumber == option.useJSONNumber
  {
    match option
    case WithFieldNamer(fieldNamer) => c.(fieldNamer := fieldNamer)
    case WithGoFormat(goFormat) => c.(goFormat := goFormat)
    case WithIntType(intType) => c.(intType := intType)
    case WithOmitEmpty(omitEmptyOption) => c.(omitEmptyOption := omitEmptyOption)
    case WithPackageComment(packageComment) => c.(packageComment := packageComment)
    case WithPackageName(packageName) => c.(packageName := packageName)
    case WithSkipUnparseableProperties(skip) => c.(skipUnparseableProperties := skip)
    case WithStructTagName(name) => c.(structTagNames := [name])
    case WithStructTagNames(names) => c.(structTagNames := names)
    case WithAddStructTagName(name) => c.(structTagNames := c.structTagNames + [name])
    case WithTypeComment(typeComment) => c.(typeComment := typeComment)
    case WithTypeName(typeName) => c.(typeName := typeName)
    case WithUseJSONNumber(useJSONNumber) => c.(useJSONNumber := useJSONNumber)
  }

  /** NewGenerator's loop: the options applied one after the other, first to last. */
  function Configure(c: Config, options: seq<GeneratorOption>): Config
    decreases |options|
  {
    if |options| == 0 then c else Configure(Applied(c, options[0]), options[1..])
  }

  /** One more option at the end is applied last, to what the others made. */
  lemma {:induction false} ConfigureSnoc(c: Config, options: seq<GeneratorOption>, option: GeneratorOption)
    ensures Configure(c, options + [option]) == Applied(Configure(c, options), option)
    decreases |options|
  {
    if |options| > 0 {
      assert (options + [option])[1..] == options[1..] + [option];
      ConfigureSnoc(Applied(c, options[0]), options[1..], option);
    }
  }

  /** An option that overwrites its field makes any earlier setting of that field irrelevant: the last one wins. */
  lemma LastWins(c: Config, earlier: GeneratorOption, later: GeneratorOption)
    requires SettingOf(earlier) == SettingOf(later) && !later.WithAddStructTagName?
    ensures Applied(Applied(c, earlier), later) == Applied(c, later)
  {
  }

  /** The options apart from those of one field leave that field as it was. */
  lemma {:induction false} OtherOptionsKeep(c: Config, options: seq<GeneratorOption>, setting: Setting)
    requires forall i :: 0 <= i < |options| ==> SettingOf(options[i]) != setting
    ensures KeptSetting(c, Configure(c, options), setting)
    decreases |options|
  {
    if |options| > 0 {
      OtherOptionsKeep(Applied(c, options[0]), options[1..], setting);
    }
  }

  /** `d` has the same value as `c` for `setting`. */
  ghost predicate KeptSetting(c: Config, d: Config, setting: Setting) {
    match setting
    case FieldNamerSetting => c.fieldNamer == d.fieldNamer
    case GoFormatSetting => c.goFormat == d.goFormat
    case IntTypeSetting => c.intType == d.intType
    case OmitEmptySetting => c.omitEmptyOption == d.omitEmptyOption
    case PackageCommentSetting => c.packageComment == d.packageComment
    case PackageNameSetting => c.packageName == d.packageName
    case SkipSetting => c.skipUnparseableProperties == d.skipUnparseableProperties
    case StructTagNamesSetting => c.structTagNames == d.structTagNames
    case TypeCommentSetting => c.typeComment == d.typeComment
    case TypeNameSetting => c.typeName == d.typeName
    case UseJSONNumberSetting => c.useJSONNumber == d.useJSONNumber
  }

  /** Added tag names follow the ones already set, in the order they were added. */
  lemma {:induction false} AddedTagNames(c: Config, names: seq<string>)
    ensures Configure(c, seq(|names|, i requires 0 <= i < |names| => WithAddStructTagName(names[i]))).structTagNames
         == c.structTagNames + names
    decreases |names|
  {
    var adds := seq(|names|, i requires 0 <= i < |names| => WithAddStructTagName(names[i]));
    if |names| > 0 {
      var rest := seq(|names| - 1, i requires 0 <= i < |names| - 1 => WithAddStructTagName(names[1..][i]));
      assert adds[1..] == rest;
      AddedTagNames(Applied(c, adds[0]), names[1..]);
      assert [names[0]] + names[1..] == names;
    }
  }
}
