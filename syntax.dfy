/** Fragments of Go source text shared by both type synthesisers. */
module Syntax {
  import opened Text
  import Sorting

  /** OmitEmptyOption: how a struct field's `omitempty` tag option is chosen. */
  datatype OmitEmptyOption = OmitEmptyNever | OmitEmptyAlways | OmitEmptyAuto

  /** Whether a field gets `omitempty`, given what synthesis observed for it. */
  function FieldOmitEmpty(option: OmitEmptyOption, observedEmpty: bool): (omit: bool)
    ensures option == OmitEmptyNever ==> !omit
    ensures option == OmitEmptyAlways ==> omit
    ensures option == OmitEmptyAuto ==> omit == observedEmpty
  {
    match option
    case OmitEmptyNever => false
    case OmitEmptyAlways => true
    case OmitEmptyAuto => observedEmpty
  }

  /** omitEmptyModifier: the tag option text. */
  function OmitEmptyModifier(omitEmpty: bool): string {
    if omitEmpty then ",omitempty" else ""
  }

  /** One `name:"key[,omitempty]"` entry of a struct tag. */
  function TagEntry(name: string, key: string, omitEmpty: bool): string {
    name + ":\"" + key + OmitEmptyModifier(omitEmpty) + "\""
  }

  /** The whole struct tag: one entry per tag name, in order, separated by single spaces, in backquotes. */
  function Tag(names: seq<string>, key: string, omitEmpty: bool): string {
    "`" + Join(seq(|names|, i requires 0 <= i < |names| => TagEntry(names[i], key, omitEmpty)), " ") + "`"
  }

  /** One struct field line. */
  function FieldLine(name: string, typeStr: string, tag: string): string {
    name + " " + typeStr + " " + tag + "\n"
  }

  /** The comment emitted in place of a property that encoding/json cannot address. */
  function CommentLine(key: string): string {
    "// " + Quote(key) + " cannot be unmarshalled into a struct field by encoding/json.\n"
  }

  /** isUnparseableProperty: encoding/json cannot address a key holding a space, a double quote or a comma. */
  function IsUnparsableProperty(key: string): (r: bool)
    ensures r <==> exists i :: 0 <= i < |key| && key[i] in " \","
  {
    ContainsAny(key, " \",")
  }

  /** The keys of `keys` that IsUnparsableProperty rejects, in their order. */
  function UnparsableOf(keys: seq<string>): (r: seq<string>)
    ensures |r| <= |keys|
  {
    if |keys| == 0 then []
    else
      var prefix := UnparsableOf(keys[..|keys| - 1]);
      if IsUnparsableProperty(keys[|keys| - 1]) then prefix + [keys[|keys| - 1]] else prefix
  }

  /** Filtering keeps exactly the rejected keys and keeps their order. */
  lemma {:induction false} UnparsableOfSpec(keys: seq<string>)
    ensures forall k :: k in UnparsableOf(keys) <==> k in keys && IsUnparsableProperty(k)
    ensures Sorting.StrictlySorted(keys) ==> Sorting.StrictlySorted(UnparsableOf(keys))
  {
    if |keys| > 0 {
      var init := keys[..|keys| - 1];
      UnparsableOfSpec(init);
      assert keys == init + [keys[|keys| - 1]];
      if Sorting.StrictlySorted(keys) {
        assert Sorting.StrictlySorted(init);
        var r := UnparsableOf(keys);
        if IsUnparsableProperty(keys[|keys| - 1]) {
          forall i, j | 0 <= i < j < |r|
            ensures Sorting.Less(r[i], r[j])
          {
            if j == |r| - 1 {
              assert r[i] in init;
              var n :| 0 <= n < |init| && init[n] == r[i];
              assert keys[n] == r[i];
            } else {
              assert r[i] == UnparsableOf(init)[i] && r[j] == UnparsableOf(init)[j];
            }
          }
        }
      }
    }
  }

  /** One comment line per key, in order. */
  function Comments(keys: seq<string>): string {
    if |keys| == 0 then "" else Comments(keys[..|keys| - 1]) + CommentLine(keys[|keys| - 1])
  }

  /** `%q`: a double-quoted Go string literal. */
  function Quote(s: string): string {
    "\"" + Escape(s) + "\""
  }

  function Escape(s: string): string {
    if |s| == 0 then "" else EscapeRune(s[0]) + Escape(s[1..])
  }

  function HexDigit(n: nat): char
    requires n < 16
  {
    if n < 10 then ('0' as int + n) as char else ('a' as int + n - 10) as char
  }

  /** How strconv.Quote writes one ASCII rune; every other rune is written as it is. */
  function EscapeRune(c: char): string {
    if c == '"' then "\\\""
    else if c == '\\' then "\\\\"
    else if c == '\n' then "\\n"
    else if c == '\t' then "\\t"
    else if c == '\r' then "\\r"
    else if c == '\U{7}' then "\\a"
    else if c == '\U{8}' then "\\b"
    else if c == '\U{C}' then "\\f"
    else if c == '\U{B}' then "\\v"
    else if c < ' ' || c == '\U{7F}' then "\\x" + [HexDigit(c as int / 16), HexDigit(c as int % 16)]
    else [c]
  }

  /** A quoted key never contains an unescaped double quote: its escape never ends the literal early. */
  lemma {:induction false} EscapeHasNoBareQuote(s: string)
    ensures forall i :: 0 <= i < |Escape(s)| && Escape(s)[i] == '"' ==> i > 0 && Escape(s)[i - 1] == '\\'
  {
    if |s| > 0 {
      EscapeHasNoBareQuote(s[1..]);
      var e, rest := EscapeRune(s[0]), Escape(s[1..]);
      assert Escape(s) == e + rest;
      forall i | 0 <= i < |e + rest| && (e + rest)[i] == '"'
        ensures i > 0 && (e + rest)[i - 1] == '\\'
      {
        if i >= |e| {
          assert rest[i - |e|] == '"';
          if i - |e| > 0 {
            assert (e + rest)[i - 1] == rest[i - |e| - 1];
          }
        }
      }
    }
  }

  /** The synthesised type: its source text and whether a field of it may be omitted when empty. */
  datatype GoType = GoType(typeStr: string, omitEmpty: bool)

  /** The cases of the type switch, fallthroughs merged; AnyRule is its default case. */
  datatype Rule =
    | ArrayRule | BoolRule | NullableBoolRule | Float64Rule | NullableFloat64Rule | IntRule | NullableIntRule
    | NumberRule | NullableNumberRule | ObjectRule | TimeRule | StringRule | NullableTimeRule | NullableStringRule
    | AnyRule

  /** `struct {`, the field lines, the comment lines and the closing brace. */
  function StructText(fields: string, comments: string): string {
    "struct {\n" + fields + comments + "}"
  }

  /** `t` begins with `prefix`. */
  predicate StartsWith(t: string, prefix: string) {
    |t| >= |prefix| && t[..|prefix|] == prefix
  }

  /** A struct text, or a pointer to one, never reads as a map type. */
  lemma StructIsNoMap(t: string)
    requires StartsWith(t, "struct") || StartsWith(t, "*struct")
    ensures !StartsWith(t, "map[string]")
  {
    assert "struct"[0] == 's' && "*struct"[0] == '*' && "map[string]"[0] == 'm';
    assert t[0] == 's' || t[0] == '*';
  }

  /** A concatenation begins with its first part. */
  lemma ConcatStartsWith(a: string, b: string)
    ensures StartsWith(a + b, a)
  {
    assert (a + b)[..|a|] == a;
  }

  /** The struct text begins with `struct`, and a pointer to it with `*struct`. */
  lemma StructTextStarts(fields: string, comments: string)
    ensures StartsWith(StructText(fields, comments), "struct")
    ensures StartsWith("*" + StructText(fields, comments), "*struct")
  {
    var t := StructText(fields, comments);
    assert t == "struct" + (" {\n" + fields + comments + "}");
    ConcatStartsWith("struct", " {\n" + fields + comments + "}");
    assert "*" + t == "*struct" + (" {\n" + fields + comments + "}");
    ConcatStartsWith("*struct", " {\n" + fields + comments + "}");
  }

  /** The loop looking for a key with a space in it. */
  method HasSpacedKeyIn<V>(props: map<string, V>) returns (found: bool)
    ensures found <==> exists k :: k in props && ' ' in k
  {
    var rest := props.Keys;
    found := false;
    while rest != {}
      invariant rest <= props.Keys
      invariant forall k :: k in props && k !in rest ==> ' ' !in k
      decreases |rest|
    {
      var k :| k in rest;
      if ' ' in k {
        found := true;
        break;
      }
      rest := rest - {k};
    }
  }

  /** The loop writing one comment line per unparsable key. */
  method CommentsLoop(unparsable: seq<string>) returns (comments: string)
    ensures comments == Comments(unparsable)
  {
    comments := "";
    var j := 0;
    while j < |unparsable|
      invariant 0 <= j <= |unparsable|
      invariant comments == Comments(unparsable[..j])
    {
      assert unparsable[..j + 1][..j] == unparsable[..j];
      comments := comments + CommentLine(unparsable[j]);
      j := j + 1;
    }
    assert unparsable[..j] == unparsable;
  }
}
