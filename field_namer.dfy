/**
 * fieldnamer.go: the older revision's field namer. A FieldNamer turns a JSON
 * property into a Go field name; the default one capitalises each component
 * of the property and upper-cases the well-known abbreviations.
 */
module FieldNaming {
  import opened Text
  import opened Components
  import ExportName

  /** WellKnownAbbreviations */
  const WellKnownAbbreviations: map<string, bool> := map[
    "API" := true, "DB" := true, "HTTP" := true, "ID" := true, "JSON" := true,
    "SQL" := true, "URI" := true, "URL" := true, "XML" := true]

  /**
   * The FieldNamer interface: the abbreviation-handling namer of this file, or
   * any other implementation, given by its FieldName function.
   */
  datatype FieldNamer =
    | AbbreviationHandlingFieldNamer(abbreviations: map<string, bool>)
    | CustomFieldNamer(fieldName: string -> string)

  /** defaultFieldNamer */
  const DefaultFieldNamer: FieldNamer := AbbreviationHandlingFieldNamer(WellKnownAbbreviations)

  /**
   * One case of the component loop: an empty component stays empty, an
   * abbreviation is upper-cased, any other word gets its first rune
   * upper-cased and keeps the rest as it is.
   */
  function FieldComponent(c: string, abbreviations: map<string, bool>): (r: string)
    ensures |r| == |c|
    ensures ToUpper(r) == ToUpper(c)
    ensures c != "" ==> r[0] == ToUpperRune(c[0])
    ensures Abbreviated(abbreviations, ToUpper(c)) ==> r == ToUpper(c)
    ensures c != "" && !Abbreviated(abbreviations, ToUpper(c)) ==> r[1..] == c[1..]
  {
    if c == "" then ""
    else if Abbreviated(abbreviations, ToUpper(c)) then ToUpper(c)
    else
      UpperOfCased(c[0]);
      [ToUpperRune(c[0])] + c[1..]
  }

  /** The component loop over all components. */
  function FieldComponents(components: seq<string>, abbreviations: map<string, bool>): (r: seq<string>)
    ensures |r| == |components|
  {
    seq(|components|, i requires 0 <= i < |components| => FieldComponent(components[i], abbreviations))
  }

  /** FieldNamer.FieldName: the joined components, or what the custom namer says. */
  function FieldNameOf(namer: FieldNamer, property: string, camelSplit: string -> seq<string>): string {
    match namer
    case AbbreviationHandlingFieldNamer(abbreviations) =>
      Concat(FieldComponents(SplitComponents(property, camelSplit), abbreviations))
    case CustomFieldNamer(fieldName) => fieldName(property)
  }

  /** AbbreviationHandlingFieldNamer.FieldName: the components rewritten in place, then joined. */
  method FieldName(abbreviations: map<string, bool>, property: string, camelSplit: string -> seq<string>)
    returns (name: string)
    ensures name == FieldNameOf(AbbreviationHandlingFieldNamer(abbreviations), property, camelSplit)
  {
    var parts := SplitComponents(property, camelSplit);
    var components := new string[|parts|](i requires 0 <= i < |parts| => parts[i]);
    assert components[..] == parts;
    FieldComponentsInPlace(components, abbreviations);
    JoinEmptyIsConcat(components[..]);
    name := Join(components[..], "");
  }

  /** The component loop, rewriting each component in place. */
  method FieldComponentsInPlace(components: array<string>, abbreviations: map<string, bool>)
    modifies components
    ensures components[..] == FieldComponents(old(components[..]), abbreviations)
  {
    for i := 0 to components.Length
      invariant forall j :: 0 <= j < i ==> components[j] == FieldComponent(old(components[j]), abbreviations)
      invariant forall j :: i <= j < components.Length ==> components[j] == old(components[j])
    {
      var component := components[i];
      if component == "" {
      } else if Abbreviated(abbreviations, ToUpper(component)) {
        components[i] := ToUpper(component);
      } else {
        components[i] := [ToUpperRune(component[0])] + component[1..];
      }
    }
  }

  /**
   * The field name keeps the runes of the property's components in order,
   * only their case changed.
   */
  lemma FieldNameOnlyRecases(abbreviations: map<string, bool>, property: string, camelSplit: string -> seq<string>)
    ensures ToUpper(FieldNameOf(AbbreviationHandlingFieldNamer(abbreviations), property, camelSplit))
         == ToUpper(Concat(SplitComponents(property, camelSplit)))
  {
    var parts := SplitComponents(property, camelSplit);
    ConcatUpper(parts, FieldComponents(parts, abbreviations));
  }

  /** A snake-case pair of words is named by its two named components, joined. */
  lemma SnakePairNamed(a: string, b: string, abbreviations: map<string, bool>, camelSplit: string -> seq<string>)
    requires '-' !in a && '-' !in b && '_' !in a && '_' !in b
    ensures FieldNameOf(AbbreviationHandlingFieldNamer(abbreviations), a + "_" + b, camelSplit)
         == FieldComponent(a, abbreviations) + FieldComponent(b, abbreviations)
  {
    SnakePair(a, b, camelSplit);
    var named := FieldComponents([a, b], abbreviations);
    assert named == [FieldComponent(a, abbreviations), FieldComponent(b, abbreviations)];
    assert named[1..] == [named[1]] && [named[1]][1..] == [];
    assert Concat([named[1]]) == named[1] + "" == named[1];
  }

  /** Snake case: `foo_bar` is named FooBar. */
  lemma SnakeCase(camelSplit: string -> seq<string>)
    ensures FieldNameOf(DefaultFieldNamer, "foo_bar", camelSplit) == "FooBar"
  {
    assert "foo_bar" == "foo" + "_" + "bar";
    SnakePairNamed("foo", "bar", WellKnownAbbreviations, camelSplit);
    NamedWords("foo", "bar", "FooBar");
  }

  /**
   * Shouting snake case: `FOO_BAR` is named FOOBAR, since an upper-case word
   * that is no abbreviation keeps all its runes as they are.
   */
  lemma ShoutingSnakeCase(camelSplit: string -> seq<string>)
    ensures FieldNameOf(DefaultFieldNamer, "FOO_BAR", camelSplit) == "FOOBAR"
  {
    assert "FOO_BAR" == "FOO" + "_" + "BAR";
    SnakePairNamed("FOO", "BAR", WellKnownAbbreviations, camelSplit);
    NamedWords("FOO", "BAR", "FOOBAR");
  }

  /** The named components of `foo` and `bar`, or of `FOO` and `BAR`, joined. */
  lemma NamedWords(a: string, b: string, joined: string)
    requires (a, b, joined) in {("foo", "bar", "FooBar"), ("FOO", "BAR", "FOOBAR")}
    ensures FieldComponent(a, WellKnownAbbreviations) + FieldComponent(b, WellKnownAbbreviations) == joined
  {
    if a == "foo" {
      Capitalised("foo", "Foo");
      Capitalised("bar", "Bar");
      assert "Foo" + "Bar" == "FooBar";
    } else {
      Capitalised("FOO", "FOO");
      Capitalised("BAR", "BAR");
      assert "FOO" + "BAR" == "FOOBAR";
    }
  }

  /** A single-word abbreviation: `id` is named ID. */
  lemma Abbreviation(camelSplit: string -> seq<string>)
    requires camelSplit("id") == ["id"]
    ensures FieldNameOf(DefaultFieldNamer, "id", camelSplit) == "ID"
  {
    assert "id"[0] != '-' && "id"[1] != '-' && "id"[0] != '_' && "id"[1] != '_';
    assert '-' !in "id" && '_' !in "id";
    var upper := ToUpper("id");
    assert upper == "ID";
    assert FieldComponents(["id"], WellKnownAbbreviations) == [FieldComponent("id", WellKnownAbbreviations)];
    assert Concat(["ID"]) == "ID" + "";
  }

  /** A lower- or upper-case word that is no well-known abbreviation gets its first rune upper-cased. */
  lemma Capitalised(word: string, capitalised: string)
    requires word in {"foo", "bar", "FOO", "BAR"}
    requires capitalised == (if word == "foo" then "Foo" else if word == "bar" then "Bar" else word)
    ensures FieldComponent(word, WellKnownAbbreviations) == capitalised
  {
    var upper := ToUpper(word);
    assert upper == (if word in {"foo", "FOO"} then "FOO" else "BAR");
    assert upper !in WellKnownAbbreviations;
  }

  /**
   * The two revisions name a component alike unless it is an upper-case word
   * that is no abbreviation: there the newer one lower-cases all but the
   * first rune.
   */
  lemma NamersAgree(c: string, abbreviations: map<string, bool>)
    requires c != ToUpper(c) || Abbreviated(abbreviations, ToUpper(c))
    ensures FieldComponent(c, abbreviations) == ExportName.ExportComponent(c, abbreviations)
  {
  }
  /** Camel case: `fooBar`, split into `foo` and `Bar`, is named FooBar. */
  lemma CamelCase(camelSplit: string -> seq<string>)
    requires camelSplit("fooBar") == ["foo", "Bar"]
    ensures FieldNameOf(DefaultFieldNamer, "fooBar", camelSplit) == "FooBar"
  {
    var name := "fooBar";
    assert forall i :: 0 <= i < |name| ==> name[i] != '-' && name[i] != '_';
    assert SplitComponents(name, camelSplit) == ["foo", "Bar"];
    Capitalised("foo", "Foo");
    assert ToUpper("Bar") == "BAR";
    assert "BAR" !in WellKnownAbbreviations;
    assert FieldComponent("Bar", WellKnownAbbreviations) == "Bar";
    var named := FieldComponents(["foo", "Bar"], WellKnownAbbreviations);
    assert named == ["Foo", "Bar"];
    assert named[1..] == ["Bar"];
    assert Concat(named) == "Foo" + ("Bar" + "");
    assert "Foo" + ("Bar" + "") == "FooBar";
  }
}
