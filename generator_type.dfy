/**
 * generator.go, Generator.GoType: the Go type an `ObservedValue` calls for, as
 * a function of its Observed state, of how often its parent was observed and
 * of the Generator's settings. The `imports` map GoType adds to is returned as
 * the set of paths added. `camelSplit` stands for the camelcase package's
 * Split, which the default field namer calls.
 */
module GeneratorType {
  import opened Wrappers
  import opened Decoded
  import opened Text
  import opened Sorting
  import opened Syntax
  import opened ObservedSummary
  import opened FieldNaming
  import opened GeneratorOptions

  /** distinctTypes: how many of the seven kind counters are non-zero. */
  function DistinctTypes(s: Observed): (n: nat)
    ensures n <= 7
    ensures n == 0 <==> KindTotal(s) == 0
  {
    (if s.arrays > 0 then 1 else 0) + (if s.bools > 0 then 1 else 0) + (if s.float64s > 0 then 1 else 0)
    + (if s.ints > 0 then 1 else 0) + (if s.nulls > 0 then 1 else 0) + (if s.objects > 0 then 1 else 0)
    + (if s.strings > 0 then 1 else 0)
  }

  /** The first case of the switch whose condition holds. */
  function RuleOf(s: Observed): Rule {
    var d := DistinctTypes(s);
    if (d == 1 && s.arrays > 0) || (d == 2 && s.arrays > 0 && s.nulls > 0) then ArrayRule
    else if d == 1 && s.bools > 0 then BoolRule
    else if d == 2 && s.bools > 0 && s.nulls > 0 then NullableBoolRule
    else if d == 1 && s.float64s > 0 then Float64Rule
    else if d == 2 && s.float64s > 0 && s.nulls > 0 then NullableFloat64Rule
    else if d == 1 && s.ints > 0 then IntRule
    else if d == 2 && s.ints > 0 && s.nulls > 0 then NullableIntRule
    else if d == 2 && s.float64s > 0 && s.ints > 0 then NumberRule
    else if d == 3 && s.float64s > 0 && s.ints > 0 && s.nulls > 0 then NullableNumberRule
    else if (d == 1 && s.objects > 0) || (d == 2 && s.objects > 0 && s.nulls > 0) then ObjectRule
    else if d == 1 && s.strings > 0 && s.times == s.strings then TimeRule
    else if d == 1 && s.strings > 0 then StringRule
    else if d == 2 && s.strings > 0 && s.nulls > 0 && s.times == s.strings then NullableTimeRule
    else if d == 2 && s.strings > 0 && s.nulls > 0 then NullableStringRule
    else AnyRule
  }

  /** The node's counters with its children dropped: all that the non-recursive cases read. */
  function Counters(s: Observed): Observed {
    s.(allArrayElementValues := None, allObjectPropertyValues := None, objectPropertyValue := NilMap)
  }

  /** The switch and its childless cases read the counters only. */
  lemma CountersDecide(s: Observed, observations: nat, g: Config, camelSplit: string -> seq<string>)
    ensures RuleOf(Counters(s)) == RuleOf(s)
    ensures RuleOf(s) != ArrayRule && RuleOf(s) != ObjectRule ==> ScalarType(Counters(s), observations, g, camelSplit) == ScalarType(s, observations, g, camelSplit)
    ensures EmptyStructType(Counters(s), observations) == EmptyStructType(s, observations)
    ensures forall body :: StructWrap(Counters(s), observations, body) == StructWrap(s, observations, body)
  {
    CountersRule(s);
    if RuleOf(s) != ArrayRule && RuleOf(s) != ObjectRule {
      CountersScalar(s, observations, g, camelSplit);
    }
  }

  /** The switch reads the counters only. */
  lemma CountersRule(s: Observed)
    ensures RuleOf(Counters(s)) == RuleOf(s) && KindTotal(Counters(s)) == KindTotal(s)
  {
  }

  /** The childless cases read the counters only. */
  lemma CountersScalar(s: Observed, observations: nat, g: Config, camelSplit: string -> seq<string>)
    requires RuleOf(s) != ArrayRule && RuleOf(s) != ObjectRule
    ensures RuleOf(Counters(s)) == RuleOf(s)
    ensures ScalarType(Counters(s), observations, g, camelSplit) == ScalarType(s, observations, g, camelSplit)
  {
    CountersRule(s);
  }

  /** The cases that need no child: the type and the imports they add. */
  function ScalarType(s: Observed, observations: nat, g: Config, camelSplit: string -> seq<string>): (GoType, set<string>)
    requires RuleOf(s) != ArrayRule && RuleOf(s) != ObjectRule
  {
    match RuleOf(s)
    case BoolRule => (GoType("bool", s.bools < observations && s.empty == 0), {})
    case NullableBoolRule => (GoType("*bool", false), {})
    case Float64Rule => (GoType("float64", s.float64s < observations && s.empty == 0), {})
    case NullableFloat64Rule => (GoType("*float64", false), {})
    case IntRule => (GoType(g.intType, s.ints < observations && s.empty == 0), {})
    case NullableIntRule => (GoType("*" + g.intType, false), {})
    case NumberRule =>
      var omitEmpty := s.float64s + s.ints < observations && s.empty == 0;
      if g.useJSONNumber then (GoType("json.Number", omitEmpty), {"encoding/json"})
      else (GoType("float64", omitEmpty), {})
    case NullableNumberRule =>
      if g.useJSONNumber then (GoType("*json.Number", false), {"encoding/json"})
      else (GoType("*float64", false), {})
    case TimeRule => (GoType("time.Time", s.times < observations), {"time"})
    case StringRule => (GoType("string", s.strings < observations && s.empty == 0), {})
    case NullableTimeRule => (GoType("*time.Time", false), {"time"})
    case NullableStringRule => (GoType("*string", false), {})
    case AnyRule => (GoType("interface{}", KindTotal(s) < observations), {})
  }

  /** The object case when no property was ever seen. */
  function EmptyStructType(s: Observed, observations: nat): GoType {
    if observations == 0 && s.nulls == 0 then GoType("struct{}", false)
    else if s.nulls > 0 then GoType("*struct{}", false)
    else if s.objects == observations then GoType("struct{}", false)
    else GoType("*struct{}", s.objects < observations)
  }

  /** The final switch of the struct case: the struct itself or a pointer to it. */
  function StructWrap(s: Observed, observations: nat, body: string): GoType {
    if observations == 0 then GoType(body, false)
    else if s.objects == observations then GoType(body, false)
    else if s.objects < observations && s.nulls == 0 then GoType("*" + body, true)
    else GoType("*" + body, s.objects + s.nulls < observations)
  }

  /** Some key contains a space: the struct gives way to a map. */
  ghost predicate HasSpacedKey(props: map<string, Observed>) {
    exists k :: k in props && ' ' in k
  }

  /** The line of one struct field. */
  function Field(key: string, t: GoType, g: Config, camelSplit: string -> seq<string>): string {
    FieldLine(FieldNameOf(g.fieldNamer, key, camelSplit), t.typeStr, Tag(g.structTagNames, key, FieldOmitEmpty(g.omitEmptyOption, t.omitEmpty)))
  }

  /** GoType: the type of node `s` whose parent was observed `observations` times, and the imports it needs. */
  ghost function TypeOf(s: Observed, observations: nat, g: Config, camelSplit: string -> seq<string>): (GoType, set<string>)
    requires Linked(s)
    decreases s, 3
  {
    match RuleOf(s)
    case ArrayRule =>
      var (element, imports) := TypeOf(s.allArrayElementValues.value, 0, g, camelSplit);
      (GoType("[]" + element.typeStr, s.arrays + s.nulls < observations && s.empty == 0), imports)
    case ObjectRule => ObjectTypeOf(s, observations, g, camelSplit)
    case _ => ScalarType(s, observations, g, camelSplit)
  }

  /** TypeOf in the object case. */
  lemma TypeOfObject(s: Observed, observations: nat, g: Config, camelSplit: string -> seq<string>)
    requires Linked(s) && RuleOf(s) == ObjectRule
    ensures TypeOf(s, observations, g, camelSplit) == ObjectTypeOf(s, observations, g, camelSplit)
  {
  }

  /** TypeOf in the cases with no child. */
  lemma TypeOfScalar(s: Observed, observations: nat, g: Config, camelSplit: string -> seq<string>)
    requires Linked(s) && RuleOf(s) != ArrayRule && RuleOf(s) != ObjectRule
    ensures TypeOf(s, observations, g, camelSplit) == ScalarType(s, observations, g, camelSplit)
  {
  }

  /** The object case: an empty struct, the map fallback, or a struct with one field per parsable key. */
  ghost function ObjectTypeOf(s: Observed, observations: nat, g: Config, camelSplit: string -> seq<string>): (GoType, set<string>)
    requires Linked(s)
    decreases s, 2
  {
    if PropsOf(s) == map[] then (EmptyStructType(s, observations), {})
    else if HasSpacedKey(s.objectPropertyValue.m) && !g.skipUnparseableProperties then
      var (value, imports) := TypeOf(s.allObjectPropertyValues.value, 0, g, camelSplit);
      (GoType("map[string]" + value.typeStr, s.objects + s.nulls < observations), imports)
    else
      var (body, imports) := StructBody(s, g, camelSplit);
      (StructWrap(s, observations, body), imports)
  }

  /** ObjectTypeOf with no property seen. */
  lemma ObjectTypeEmpty(s: Observed, observations: nat, g: Config, camelSplit: string -> seq<string>)
    requires Linked(s) && PropsOf(s) == map[]
    ensures ObjectTypeOf(s, observations, g, camelSplit) == (EmptyStructType(s, observations), {})
  {
  }

  /** ObjectTypeOf when the map fallback applies. */
  lemma ObjectTypeMap(s: Observed, observations: nat, g: Config, camelSplit: string -> seq<string>)
    requires Linked(s) && PropsOf(s) != map[] && HasSpacedKey(PropsOf(s)) && !g.skipUnparseableProperties
    ensures s.allObjectPropertyValues.Some? && Linked(s.allObjectPropertyValues.value)
    ensures var (value, imports) := TypeOf(s.allObjectPropertyValues.value, 0, g, camelSplit);
      ObjectTypeOf(s, observations, g, camelSplit) == (GoType("map[string]" + value.typeStr, s.objects + s.nulls < observations), imports)
  {
  }

  /** ObjectTypeOf when a struct is built. */
  lemma ObjectTypeStruct(s: Observed, observations: nat, g: Config, camelSplit: string -> seq<string>)
    requires Linked(s) && PropsOf(s) != map[] && !(HasSpacedKey(PropsOf(s)) && !g.skipUnparseableProperties)
    ensures s.objectPropertyValue.Made?
    ensures var (body, imports) := StructBody(s, g, camelSplit);
      ObjectTypeOf(s, observations, g, camelSplit) == (StructWrap(s, observations, body), imports)
  {
  }

  /** The text between `struct` and the end: the fields in ascending key order, then the comments. */
  ghost function StructBody(s: Observed, g: Config, camelSplit: string -> seq<string>): (string, set<string>)
    requires Linked(s) && s.objectPropertyValue.Made?
    decreases s, 1
  {
    var keys := SortedOf(s.objectPropertyValue.m.Keys);
    var (fields, imports) := FieldsOf(s, keys, g, camelSplit);
    (StructText(fields, Comments(UnparsableOf(keys))), imports)
  }

  /** The field lines of the parsable keys among `keys`, in their order, and the imports they need. */
  ghost function FieldsOf(s: Observed, keys: seq<string>, g: Config, camelSplit: string -> seq<string>): (string, set<string>)
    requires Linked(s) && s.objectPropertyValue.Made?
    requires forall k :: k in keys ==> k in s.objectPropertyValue.m
    decreases s, 0, |keys|
  {
    if |keys| == 0 then ("", {})
    else
      var (fields, imports) := FieldsOf(s, keys[..|keys| - 1], g, camelSplit);
      var key := keys[|keys| - 1];
      if IsUnparsableProperty(key) then (fields, imports)
      else
        var (t, more) := TypeOf(s.objectPropertyValue.m[key], s.objects, g, camelSplit);
        (fields + Field(key, t, g, camelSplit), imports + more)
  }

  /** With no kind observed the type is `interface{}`, omitted exactly when the parent was observed at all. */
  lemma NothingObservedIsAny(s: Observed, observations: nat, g: Config, camelSplit: string -> seq<string>)
    requires Linked(s) && KindTotal(s) == 0
    ensures TypeOf(s, observations, g, camelSplit) == (GoType("interface{}", observations > 0), {})
  {
  }

  /** A scalar kind seen together with null becomes a pointer type, never omitted. */
  lemma NullableNeverOmitted(s: Observed, observations: nat, g: Config, camelSplit: string -> seq<string>)
    requires Linked(s) && s.nulls > 0
    requires (DistinctTypes(s) == 2 && (s.bools > 0 || s.float64s > 0 || s.ints > 0 || s.strings > 0))
          || (DistinctTypes(s) == 3 && s.float64s > 0 && s.ints > 0)
    ensures var t := TypeOf(s, observations, g, camelSplit).0; !t.omitEmpty && |t.typeStr| > 0 && t.typeStr[0] == '*'
  {
  }

  /** Floats mixed with ints: float64, or json.Number with its import when useJSONNumber is set. */
  lemma MixedNumbers(s: Observed, observations: nat, g: Config, camelSplit: string -> seq<string>)
    requires Linked(s) && DistinctTypes(s) == 2 && s.float64s > 0 && s.ints > 0
    ensures var (t, imports) := TypeOf(s, observations, g, camelSplit);
      && t.typeStr == (if g.useJSONNumber then "json.Number" else "float64")
      && (t.omitEmpty <==> s.float64s + s.ints < observations && s.empty == 0)
      && imports == (if g.useJSONNumber then {"encoding/json"} else {})
  {
  }

  /** The only imports GoType ever adds are encoding/json and time. */
  lemma {:induction false} ImportsKnown(s: Observed, observations: nat, g: Config, camelSplit: string -> seq<string>)
    requires Linked(s)
    ensures TypeOf(s, observations, g, camelSplit).1 <= {"encoding/json", "time"}
    decreases s, 3
  {
    match RuleOf(s)
    case ArrayRule => ImportsKnown(s.allArrayElementValues.value, 0, g, camelSplit);
    case ObjectRule => ObjectImportsKnown(s, observations, g, camelSplit);
    case _ =>
  }

  lemma {:induction false} ObjectImportsKnown(s: Observed, observations: nat, g: Config, camelSplit: string -> seq<string>)
    requires Linked(s)
    ensures ObjectTypeOf(s, observations, g, camelSplit).1 <= {"encoding/json", "time"}
    decreases s, 2
  {
    if PropsOf(s) == map[] {
    } else if HasSpacedKey(s.objectPropertyValue.m) && !g.skipUnparseableProperties {
      ImportsKnown(s.allObjectPropertyValues.value, 0, g, camelSplit);
    } else {
      FieldImportsKnown(s, SortedOf(s.objectPropertyValue.m.Keys), g, camelSplit);
    }
  }

  lemma {:induction false} FieldImportsKnown(s: Observed, keys: seq<string>, g: Config, camelSplit: string -> seq<string>)
    requires Linked(s) && s.objectPropertyValue.Made?
    requires forall k :: k in keys ==> k in s.objectPropertyValue.m
    ensures FieldsOf(s, keys, g, camelSplit).1 <= {"encoding/json", "time"}
    decreases s, 0, |keys|
  {
    if |keys| > 0 {
      FieldImportsKnown(s, keys[..|keys| - 1], g, camelSplit);
      var key := keys[|keys| - 1];
      if !IsUnparsableProperty(key) {
        ImportsKnown(s.objectPropertyValue.m[key], s.objects, g, camelSplit);
      }
    }
  }

  /** time.Time is chosen exactly when strings are the only kind and every one of them parsed as a time. */
  lemma TimeOnlyForTimes(s: Observed, observations: nat, g: Config, camelSplit: string -> seq<string>)
    requires Linked(s) && g.intType != "time.Time"
    ensures TypeOf(s, observations, g, camelSplit).0.typeStr == "time.Time" <==> DistinctTypes(s) == 1 && s.strings > 0 && s.times == s.strings
  {
    var t := TypeOf(s, observations, g, camelSplit).0;
    TimeRuleExactly(s);
    if RuleOf(s) == ArrayRule {
      assert t.typeStr[0] == '[';
    } else if RuleOf(s) == ObjectRule {
      TypeOfObject(s, observations, g, camelSplit);
      ObjectTypeShape(s, observations, g, camelSplit);
      assert t.typeStr[0] in "s*m";
    } else {
      TypeOfScalar(s, observations, g, camelSplit);
      ScalarTime(s, observations, g, camelSplit);
    }
  }

  /** The time case is the one where strings are the only kind and all of them are times. */
  lemma TimeRuleExactly(s: Observed)
    ensures RuleOf(s) == TimeRule <==> DistinctTypes(s) == 1 && s.strings > 0 && s.times == s.strings
  {
  }

  /** Among the childless cases only the time case gives time.Time. */
  lemma ScalarTime(s: Observed, observations: nat, g: Config, camelSplit: string -> seq<string>)
    requires RuleOf(s) != ArrayRule && RuleOf(s) != ObjectRule && g.intType != "time.Time"
    ensures ScalarType(s, observations, g, camelSplit).0.typeStr == "time.Time" <==> RuleOf(s) == TimeRule
  {
    if RuleOf(s) == NullableIntRule {
      assert ScalarType(s, observations, g, camelSplit).0.typeStr[0] == '*';
    }
  }

  /** The object case yields `struct…`, `*struct…` or `map[string]…`. */
  lemma ObjectTypeShape(s: Observed, observations: nat, g: Config, camelSplit: string -> seq<string>)
    requires Linked(s)
    ensures var t := ObjectTypeOf(s, observations, g, camelSplit).0.typeStr;
      StartsWith(t, "struct") || StartsWith(t, "*struct") || StartsWith(t, "map[string]")
  {
    if PropsOf(s) == map[] {
    } else if HasSpacedKey(s.objectPropertyValue.m) && !g.skipUnparseableProperties {
      ConcatStartsWith("map[string]", TypeOf(s.allObjectPropertyValues.value, 0, g, camelSplit).0.typeStr);
    } else {
      StructShape(s, observations, g, camelSplit);
    }
  }

  /** The struct case yields `struct…` or `*struct…`. */
  lemma StructShape(s: Observed, observations: nat, g: Config, camelSplit: string -> seq<string>)
    requires Linked(s) && PropsOf(s) != map[]
    requires !(HasSpacedKey(s.objectPropertyValue.m) && !g.skipUnparseableProperties)
    ensures var t := ObjectTypeOf(s, observations, g, camelSplit).0.typeStr;
      StartsWith(t, "struct") || StartsWith(t, "*struct")
  {
    var keys := SortedOf(s.objectPropertyValue.m.Keys);
    StructTextStarts(FieldsOf(s, keys, g, camelSplit).0, Comments(UnparsableOf(keys)));
  }

  /** With properties seen, the map fallback happens exactly when some key holds a space and skipping is off. */
  lemma MapFallback(s: Observed, observations: nat, g: Config, camelSplit: string -> seq<string>)
    requires Linked(s) && RuleOf(s) == ObjectRule && PropsOf(s) != map[]
    ensures StartsWith(TypeOf(s, observations, g, camelSplit).0.typeStr, "map[string]") <==> HasSpacedKey(PropsOf(s)) && !g.skipUnparseableProperties
  {
    TypeOfObject(s, observations, g, camelSplit);
    var t := ObjectTypeOf(s, observations, g, camelSplit).0.typeStr;
    if HasSpacedKey(PropsOf(s)) && !g.skipUnparseableProperties {
      ObjectTypeMap(s, observations, g, camelSplit);
      ConcatStartsWith("map[string]", TypeOf(s.allObjectPropertyValues.value, 0, g, camelSplit).0.typeStr);
    } else {
      StructShape(s, observations, g, camelSplit);
      StructIsNoMap(t);
    }
  }

  /**
   * The struct case: the struct itself exactly when the parent was not observed
   * or always held an object here; otherwise a pointer, omitted when only
   * absence (never null) explains the missing objects.
   */
  lemma StructWrapping(s: Observed, observations: nat, g: Config, camelSplit: string -> seq<string>)
    requires Linked(s) && RuleOf(s) == ObjectRule && PropsOf(s) != map[]
    requires !(HasSpacedKey(PropsOf(s)) && !g.skipUnparseableProperties)
    ensures var t := TypeOf(s, observations, g, camelSplit).0;
      var body := StructBody(s, g, camelSplit).0;
      && (t.typeStr == body <==> observations == 0 || s.objects == observations)
      && (t.typeStr != body ==> t.typeStr == "*" + body)
      && (observations == 0 || s.objects == observations ==> !t.omitEmpty)
      && (observations > 0 && s.objects < observations && s.nulls == 0 ==> t.omitEmpty)
      && (observations > 0 && s.objects != observations && s.nulls > 0 ==> (t.omitEmpty <==> s.objects + s.nulls < observations))
  {
    TypeOfObject(s, observations, g, camelSplit);
    ObjectTypeStruct(s, observations, g, camelSplit);
    var keys := SortedOf(s.objectPropertyValue.m.Keys);
    StructTextStarts(FieldsOf(s, keys, g, camelSplit).0, Comments(UnparsableOf(keys)));
    WrapShape(s, observations, StructBody(s, g, camelSplit).0);
  }

  /** StructWrap on a body that starts with `struct`. */
  lemma WrapShape(s: Observed, observations: nat, body: string)
    requires StartsWith(body, "struct")
    ensures var t := StructWrap(s, observations, body);
      && (t.typeStr == body <==> observations == 0 || s.objects == observations)
      && (t.typeStr != body ==> t.typeStr == "*" + body)
      && (observations == 0 || s.objects == observations ==> !t.omitEmpty)
      && (observations > 0 && s.objects < observations && s.nulls == 0 ==> t.omitEmpty)
      && (observations > 0 && s.objects != observations && s.nulls > 0 ==> (t.omitEmpty <==> s.objects + s.nulls < observations))
  {
    assert body[0] == 's' && ("*" + body)[0] == '*';
  }

  /** An object with no properties seen: `*struct{}` exactly when null was seen or some parent lacked it. */
  lemma EmptyObject(s: Observed, observations: nat, g: Config, camelSplit: string -> seq<string>)
    requires Linked(s) && RuleOf(s) == ObjectRule && PropsOf(s) == map[]
    ensures var t := TypeOf(s, observations, g, camelSplit).0;
      && (t.typeStr == "*struct{}" <==> s.nulls > 0 || (observations > 0 && s.objects != observations))
      && (t.typeStr != "*struct{}" ==> t.typeStr == "struct{}")
      && (t.omitEmpty <==> s.nulls == 0 && observations > 0 && s.objects < observations)
  {
  }

  /** The struct's fields come in ascending key order and the comments name exactly the unparsable keys, in order. */
  lemma StructKeyOrder(s: Observed)
    requires s.objectPropertyValue.Made?
    ensures StrictlySorted(SortedOf(s.objectPropertyValue.m.Keys))
    ensures var commented := UnparsableOf(SortedOf(s.objectPropertyValue.m.Keys));
      && StrictlySorted(commented)
      && forall k :: k in commented <==> k in s.objectPropertyValue.m && IsUnparsableProperty(k)
  {
    UnparsableOfSpec(SortedOf(s.objectPropertyValue.m.Keys));
  }

  /**
   * Merge never counts empties, so in a merged tree a single scalar kind is
   * omitted exactly when some parent observation lacked it.
   */
  lemma ScalarOmittedWhenMissing(s: Observed, observations: nat, g: Config, camelSplit: string -> seq<string>)
    requires Consistent(s)
    requires RuleOf(s) in {BoolRule, Float64Rule, IntRule, StringRule}
    ensures Linked(s)
    ensures TypeOf(s, observations, g, camelSplit).0.omitEmpty <==> KindTotal(s) < observations
  {
    ConsistentIsLinked(s);
    TypeOfScalar(s, observations, g, camelSplit);
  }

  /** Strings that all parse as times give time.Time and the time import. */
  lemma TimesAreTime(first: string, second: string, p: Parsers, observations: nat, g: Config, camelSplit: string -> seq<string>)
    requires p.parsesTime(first) && p.parsesTime(second)
    ensures var s := Merge(Some(Merge(None, Str(first), p)), Str(second), p);
      Linked(s) && TypeOf(s, observations, g, camelSplit) == (GoType("time.Time", 2 < observations), {"time"})
  {
    var one := FirstTime(first, p);
    MergeScalar(one, Str(second), p);
    var s := one.(observations := 2, strings := 2, times := 2);
    assert DistinctTypes(s) == 1;
    TimeRuleExactly(s);
    TypeOfScalar(s, observations, g, camelSplit);
  }

  /** A first string that parses as a time: one observation, one string, one time. */
  lemma FirstTime(first: string, p: Parsers) returns (one: Observed)
    requires p.parsesTime(first)
    ensures one == Merge(None, Str(first), p) == Empty.(observations := 1, strings := 1, times := 1)
  {
    MergeNone(Str(first), p);
    MergeScalar(Empty, Str(first), p);
    one := Empty.(observations := 1, strings := 1, times := 1);
  }

  /** A time string followed by one that is not a time gives a plain string. */
  lemma TimeThenString(first: string, second: string, p: Parsers, observations: nat, g: Config, camelSplit: string -> seq<string>)
    requires p.parsesTime(first) && !p.parsesTime(second)
    ensures var s := Merge(Some(Merge(None, Str(first), p)), Str(second), p);
      Linked(s) && TypeOf(s, observations, g, camelSplit) == (GoType("string", 2 < observations), {})
  {
    var one := FirstTime(first, p);
    MergeScalar(one, Str(second), p);
    var s := one.(observations := 2, strings := 2);
    assert DistinctTypes(s) == 1;
    TimeRuleExactly(s);
    TypeOfScalar(s, observations, g, camelSplit);
  }
}
