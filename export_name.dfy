/**
 * jsonstruct.go, DefaultExportNameFunc: the exported Go identifier for a
 * property name. Each component is capitalised (abbreviations fully
 * upper-cased, all-upper words tamed), the components are joined, every rune
 * that cannot appear in an identifier becomes `_`, and a leading rune that
 * cannot start one gets `_` in front.
 */
module ExportName {
  import opened Text
  import opened Components

  /** defaultAbbreviations */
  const DefaultAbbreviations: map<string, bool> := map[
    "ACL" := true, "API" := true, "DB" := true, "HTTP" := true, "HTTPS" := true,
    "ID" := true, "JSON" := true, "OS" := true, "SQL" := true, "SSH" := true,
    "URI" := true, "URL" := true, "UUID" := true, "XML" := true, "YAML" := true]

  /**
   * One case of the component loop: an empty component stays empty, an
   * abbreviation is upper-cased, an all-upper word keeps its first rune and
   * lower-cases the rest, any other word gets its first rune upper-cased.
   * Only the case of the runes changes, and the first rune ends upper-case.
   */
  function ExportComponent(c: string, abbreviations: map<string, bool>): (r: string)
    ensures |r| == |c|
    ensures ToUpper(r) == ToUpper(c)
    ensures c != "" ==> r[0] == ToUpperRune(c[0])
    ensures Abbreviated(abbreviations, ToUpper(c)) ==> r == ToUpper(c)
    ensures c != "" && !Abbreviated(abbreviations, ToUpper(c)) && c == ToUpper(c) ==> r[1..] == ToLower(c[1..])
    ensures c != "" && !Abbreviated(abbreviations, ToUpper(c)) && c != ToUpper(c) ==> r[1..] == c[1..]
  {
    if c == "" then ""
    else if Abbreviated(abbreviations, ToUpper(c)) then ToUpper(c)
    else if c == ToUpper(c) then
      TamedUpper(c);
      [c[0]] + ToLower(c[1..])
    else
      [ToUpperRune(c[0])] + c[1..]
  }

  /** An all-upper word with its tail lower-cased is the same word up to case. */
  lemma TamedUpper(c: string)
    requires c != "" && c == ToUpper(c)
    ensures ToUpper([c[0]] + ToLower(c[1..])) == ToUpper(c)
    ensures c[0] == ToUpperRune(c[0])
  {
    var r := [c[0]] + ToLower(c[1..]);
    forall i | 0 <= i < |c|
      ensures ToUpper(r)[i] == ToUpper(c)[i]
    {
      if i > 0 {
        UpperOfCased(c[i]);
      }
    }
    assert c[0] == ToUpper(c)[0];
  }

  /** The component loop over all components. */
  function ExportComponents(components: seq<string>, abbreviations: map<string, bool>): (r: seq<string>)
    ensures |r| == |components|
  {
    seq(|components|, i requires 0 <= i < |components| => ExportComponent(components[i], abbreviations))
  }

  /** `strings.Join(components, "")` after the component loop. */
  function Joined(name: string, abbreviations: map<string, bool>, camelSplit: string -> seq<string>): string {
    Concat(ExportComponents(SplitComponents(name, camelSplit), abbreviations))
  }

  /** A rune that may appear in a Go identifier: a letter, a digit or `_`. */
  predicate IdentifierRune(r: char) {
    IsLetter(r) || IsDigit(r) || r == '_'
  }

  /** The sanitising loop over the runes: any other rune becomes `_`. */
  function Sanitize(runes: string): (r: string)
    ensures |r| == |runes|
    ensures forall i :: 0 <= i < |r| ==> IdentifierRune(r[i])
    ensures forall i :: 0 <= i < |r| ==> IdentifierRune(runes[i]) ==> r[i] == runes[i]
    ensures forall i :: 0 <= i < |r| ==> !IdentifierRune(runes[i]) ==> r[i] == '_'
  {
    seq(|runes|, i requires 0 <= i < |runes| => if IdentifierRune(runes[i]) then runes[i] else '_')
  }

  /**
   * DefaultExportNameFunc: every rune of the result may appear in an
   * identifier and the first may start one. The source indexes the first rune
   * of the joined components, so it needs them non-empty (it panics on "" or "-").
   */
  function ExportNameOf(name: string, abbreviations: map<string, bool>, camelSplit: string -> seq<string>): (r: string)
    requires Joined(name, abbreviations, camelSplit) != ""
    ensures r != ""
    ensures forall i :: 0 <= i < |r| ==> IdentifierRune(r[i])
    ensures IsLetter(r[0]) || r[0] == '_'
    ensures var joined := Joined(name, abbreviations, camelSplit);
      r == (if IsDigit(joined[0]) then "_" + Sanitize(joined) else Sanitize(joined))
  {
    var runes := Sanitize(Joined(name, abbreviations, camelSplit));
    if !IsLetter(runes[0]) && runes[0] != '_' then "_" + runes else runes
  }

  /**
   * DefaultExportNameFunc: the components are rewritten in place, joined, and
   * the runes of the joined name sanitised in place.
   */
  method DefaultExportNameFunc(name: string, abbreviations: map<string, bool>, camelSplit: string -> seq<string>)
    returns (exportName: string)
    requires Joined(name, abbreviations, camelSplit) != ""
    ensures exportName == ExportNameOf(name, abbreviations, camelSplit)
  {
    var parts := SplitComponents(name, camelSplit);
    var components := new string[|parts|](i requires 0 <= i < |parts| => parts[i]);
    assert components[..] == parts;
    ExportComponentsInPlace(components, abbreviations);
    JoinEmptyIsConcat(components[..]);
    var joined := Join(components[..], "");
    var runes := new char[|joined|](i requires 0 <= i < |joined| => joined[i]);
    assert runes[..] == joined;
    SanitizeInPlace(runes);
    exportName := runes[..];
    if !IsLetter(runes[0]) && runes[0] != '_' {
      exportName := "_" + exportName;
    }
  }

  /** The component loop, rewriting each component in place. */
  method ExportComponentsInPlace(components: array<string>, abbreviations: map<string, bool>)
    modifies components
    ensures components[..] == ExportComponents(old(components[..]), abbreviations)
  {
    for i := 0 to components.Length
      invariant forall j :: 0 <= j < i ==> components[j] == ExportComponent(old(components[j]), abbreviations)
      invariant forall j :: i <= j < components.Length ==> components[j] == old(components[j])
    {
      var component := components[i];
      if component == "" {
      } else if Abbreviated(abbreviations, ToUpper(component)) {
        components[i] := ToUpper(component);
      } else if component == ToUpper(component) {
        components[i] := [component[0]] + ToLower(component[1..]);
      } else {
        components[i] := [ToUpperRune(component[0])] + component[1..];
      }
    }
  }

  /** The sanitising loop, replacing each rune that cannot appear in an identifier by `_`. */
  method SanitizeInPlace(runes: array<char>)
    modifies runes
    ensures runes[..] == Sanitize(old(runes[..]))
  {
    for i := 0 to runes.Length
      invariant forall j :: 0 <= j < i ==> runes[j] == Sanitize(old(runes[..]))[j]
      invariant forall j :: i <= j < runes.Length ==> runes[j] == old(runes[j])
    {
      var r := runes[i];
      if !IsLetter(r) && !IsDigit(r) && r != '_' {
        runes[i] := '_';
      }
    }
  }

  /**
   * The name keeps every component's runes in order, only their case changed:
   * upper-cased, the joined result and the concatenated components agree.
   */
  lemma JoinedOnlyRecases(name: string, abbreviations: map<string, bool>, camelSplit: string -> seq<string>)
    ensures ToUpper(Joined(name, abbreviations, camelSplit)) == ToUpper(Concat(SplitComponents(name, camelSplit)))
  {
    var parts := SplitComponents(name, camelSplit);
    ConcatUpper(parts, ExportComponents(parts, abbreviations));
  }

  /** Empty components vanish: dropping them first gives the same joined name. */
  lemma {:induction false} EmptyComponentsVanish(components: seq<string>, abbreviations: map<string, bool>)
    ensures Concat(ExportComponents(NonEmpty(components), abbreviations)) == Concat(ExportComponents(components, abbreviations))
  {
    if |components| > 0 {
      var c, rest := components[0], components[1..];
      assert components == [c] + rest;
      EmptyComponentsVanish(rest, abbreviations);
      ExportComponentsCons(c, rest, abbreviations);
      if c != "" {
        ExportComponentsCons(c, NonEmpty(rest), abbreviations);
      }
    }
  }

  /** The component loop on one more component in front. */
  lemma ExportComponentsCons(c: string, rest: seq<string>, abbreviations: map<string, bool>)
    ensures ExportComponents([c] + rest, abbreviations) == [ExportComponent(c, abbreviations)] + ExportComponents(rest, abbreviations)
    ensures Concat(ExportComponents([c] + rest, abbreviations)) == ExportComponent(c, abbreviations) + Concat(ExportComponents(rest, abbreviations))
  {
    var r := ExportComponents([c] + rest, abbreviations);
    assert r[1..] == ExportComponents(rest, abbreviations);
  }

  /** Sanitising a string of identifier runes changes nothing. */
  lemma SanitizeIdentifier(runes: string)
    requires forall i :: 0 <= i < |runes| ==> IdentifierRune(runes[i])
    ensures Sanitize(runes) == runes
  {
  }

  /** A joined name that already is an identifier comes out unchanged. */
  lemma IdentifierUnchanged(name: string, abbreviations: map<string, bool>, camelSplit: string -> seq<string>)
    requires Joined(name, abbreviations, camelSplit) != ""
    requires forall i :: 0 <= i < |Joined(name, abbreviations, camelSplit)| ==> IdentifierRune(Joined(name, abbreviations, camelSplit)[i])
    requires !IsDigit(Joined(name, abbreviations, camelSplit)[0])
    ensures ExportNameOf(name, abbreviations, camelSplit) == Joined(name, abbreviations, camelSplit)
  {
    var joined := Joined(name, abbreviations, camelSplit);
    assert Sanitize(joined) == joined;
  }

  /** A joined name starting with a digit gets `_` in front. */
  lemma DigitPrefixed(name: string, abbreviations: map<string, bool>, camelSplit: string -> seq<string>)
    requires Joined(name, abbreviations, camelSplit) != ""
    requires IsDigit(Joined(name, abbreviations, camelSplit)[0])
    ensures ExportNameOf(name, abbreviations, camelSplit) == "_" + Sanitize(Joined(name, abbreviations, camelSplit))
  {
  }

  /** `int--key`: the empty component between the hyphens vanishes, giving IntKey. */
  lemma DoubleHyphen(camelSplit: string -> seq<string>)
    ensures Joined("int--key", DefaultAbbreviations, camelSplit) == "IntKey"
    ensures ExportNameOf("int--key", DefaultAbbreviations, camelSplit) == "IntKey"
  {
    IntKeyJoined(camelSplit);
    IntKeyIdentifier();
    SanitizeIdentifier("IntKey");
  }

  /** The capitalised components of `int--key` join to `IntKey`. */
  lemma IntKeyJoined(camelSplit: string -> seq<string>)
    ensures Joined("int--key", DefaultAbbreviations, camelSplit) == "IntKey"
  {
    var exported := ExportComponents(SplitComponents("int--key", camelSplit), DefaultAbbreviations);
    IntKeyComponents(camelSplit);
    ConcatIntKey(exported);
  }

  lemma ConcatIntKey(exported: seq<string>)
    requires exported == ["Int", "", "Key"]
    ensures Concat(exported) == "IntKey"
  {
    ConcatThree("Int", "", "Key");
    assert "Int" + "" + "Key" == "IntKey";
  }

  /** Every rune of `IntKey` may appear in an identifier. */
  lemma IntKeyIdentifier()
    ensures forall i :: 0 <= i < |"IntKey"| ==> IdentifierRune("IntKey"[i])
  {
    var s := "IntKey";
    assert s[0] == 'I' && s[1] == 'n' && s[2] == 't' && s[3] == 'K' && s[4] == 'e' && s[5] == 'y';
  }

  /** The components of `int--key`, capitalised. */
  lemma IntKeyComponents(camelSplit: string -> seq<string>)
    ensures ExportComponents(SplitComponents("int--key", camelSplit), DefaultAbbreviations) == ["Int", "", "Key"]
  {
    assert '-' in "int--key" by { assert "int--key"[3] == '-'; }
    SplitIntKey();
    assert SplitComponents("int--key", camelSplit) == ["int", "", "key"];
    ThreeComponents("int", "", "key");
    Capitalised("int", "Int");
    Capitalised("key", "Key");
  }

  /** The component loop over three components. */
  lemma ThreeComponents(a: string, b: string, c: string)
    ensures ExportComponents([a, b, c], DefaultAbbreviations)
         == [ExportComponent(a, DefaultAbbreviations), ExportComponent(b, DefaultAbbreviations), ExportComponent(c, DefaultAbbreviations)]
  {
  }

  /** Splitting `int--key` on its hyphens. */
  lemma SplitIntKey()
    ensures Split("int--key", '-') == ["int", "", "key"]
  {
    SplitAtThird();
    SplitLeading();
    SplitNone();
  }

  lemma SplitAtThird()
    ensures Split("int--key", '-') == ["int"] + Split("-key", '-')
  {
    var s := "int--key";
    assert s[0] != '-' && s[1] != '-' && s[2] != '-' && s[3] == '-';
    assert IndexOf(s, '-') == 3;
    assert s[..3] == "int" && s[4..] == "-key";
  }

  lemma SplitLeading()
    ensures Split("-key", '-') == [""] + Split("key", '-')
  {
    assert IndexOf("-key", '-') == 0;
    assert "-key"[..0] == "" && "-key"[1..] == "key";
  }

  lemma SplitNone()
    ensures Split("key", '-') == ["key"]
  {
    assert "key"[0] != '-' && "key"[1] != '-' && "key"[2] != '-';
    assert '-' !in "key";
  }

  /** A lower-case word that is no default abbreviation gets its first rune upper-cased. */
  lemma Capitalised(word: string, capitalised: string)
    requires word == "int" || word == "key"
    requires capitalised == (if word == "int" then "Int" else "Key")
    ensures ExportComponent(word, DefaultAbbreviations) == capitalised
  {
    var upper := ToUpper(word);
    assert upper == (if word == "int" then "INT" else "KEY");
    assert upper !in DefaultAbbreviations;
    assert word != upper;
  }

  /** Concatenation of three parts. */
  lemma ConcatThree(a: string, b: string, c: string)
    ensures Concat([a, b, c]) == a + b + c
  {
    assert [a, b, c][1..] == [b, c] && [b, c][1..] == [c] && [c][1..] == [];
    assert Concat([c]) == c + "" == c;
    assert Concat([b, c]) == b + c;
    assert a + (b + c) == a + b + c;
  }

  /** A snake-case pair of words joins to its two capitalised components. */
  lemma SnakePairJoined(a: string, b: string, abbreviations: map<string, bool>, camelSplit: string -> seq<string>)
    requires '-' !in a && '-' !in b && '_' !in a && '_' !in b
    ensures Joined(a + "_" + b, abbreviations, camelSplit) == ExportComponent(a, abbreviations) + ExportComponent(b, abbreviations)
  {
    SnakePair(a, b, camelSplit);
    var exported := ExportComponents([a, b], abbreviations);
    assert exported == [ExportComponent(a, abbreviations), ExportComponent(b, abbreviations)];
    assert exported[1..] == [exported[1]] && [exported[1]][1..] == [];
    assert Concat([exported[1]]) == exported[1] + "" == exported[1];
  }

  /**
   * Shouting snake case: `FOO_BAR` joins to FooBar, since an upper-case word
   * that is no abbreviation keeps its first rune and lower-cases the rest.
   */
  lemma ShoutingSnakeCase(camelSplit: string -> seq<string>)
    ensures Joined("FOO_BAR", DefaultAbbreviations, camelSplit) == "FooBar"
  {
    assert "FOO_BAR" == "FOO" + "_" + "BAR";
    SnakePairJoined("FOO", "BAR", DefaultAbbreviations, camelSplit);
    TamedWords();
  }

  /** `FOO` and `BAR` tamed and joined. */
  lemma TamedWords()
    ensures ExportComponent("FOO", DefaultAbbreviations) + ExportComponent("BAR", DefaultAbbreviations) == "FooBar"
  {
    Tamed("FOO", "Foo");
    Tamed("BAR", "Bar");
    assert "Foo" + "Bar" == "FooBar";
  }

  /** An upper-case word that is no default abbreviation keeps its first rune and lower-cases the rest. */
  lemma Tamed(word: string, tamed: string)
    requires word == "FOO" || word == "BAR"
    requires tamed == (if word == "FOO" then "Foo" else "Bar")
    ensures ExportComponent(word, DefaultAbbreviations) == tamed
  {
    assert ToUpper(word) == word;
    assert word !in DefaultAbbreviations;
    assert ToLower(word[1..]) == tamed[1..];
  }
  /**
   * An extra abbreviation: with `GPS` added to the defaults, `gpsAltitude`,
   * split by camel case into `gps` and `Altitude`, is named GPSAltitude.
   */
  lemma GpsAltitude(camelSplit: string -> seq<string>)
    requires camelSplit("gpsAltitude") == ["gps", "Altitude"]
    ensures Joined("gpsAltitude", DefaultAbbreviations["GPS" := true], camelSplit) == "GPSAltitude"
    ensures ExportNameOf("gpsAltitude", DefaultAbbreviations["GPS" := true], camelSplit) == "GPSAltitude"
  {
    var abbreviations := DefaultAbbreviations["GPS" := true];
    var name := "gpsAltitude";
    assert forall i :: 0 <= i < |name| ==> name[i] != '-' && name[i] != '_';
    assert SplitComponents(name, camelSplit) == ["gps", "Altitude"];
    assert ToUpper("gps") == "GPS";
    assert ExportComponent("gps", abbreviations) == "GPS";
    assert ToUpper("Altitude") == "ALTITUDE";
    assert "ALTITUDE" !in abbreviations;
    assert ExportComponent("Altitude", abbreviations) == "Altitude";
    var exported := ExportComponents(["gps", "Altitude"], abbreviations);
    assert exported == ["GPS", "Altitude"];
    assert exported[1..] == ["Altitude"];
    assert Concat(exported) == "GPS" + ("Altitude" + "");
    assert "GPS" + ("Altitude" + "") == "GPSAltitude";
    var joined := "GPSAltitude";
    assert forall i :: 0 <= i < |joined| ==> IsLetter(joined[i]);
    SanitizeIdentifier(joined);
  }
}
