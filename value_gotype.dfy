/**
 * value.go, goType: the Go type a `value` node calls for, as a function of its
 * Summary, of how often its parent was observed and of the options. The
 * `imports` map goType adds to is returned as the set of paths added.
 */
module ValueType {
  import opened Wrappers
  import opened Decoded
  import opened Text
  import opened Sorting
  import opened Syntax
  import opened ValueSummary

  /** generateOptions without `imports`, which TypeOf returns instead of updating. */
  datatype GenerateOptions = GenerateOptions(
    exportNameFunc: string -> string,
    intType: string,
    omitEmptyOption: OmitEmptyOption,
    skipUnparsableProperties: bool,
    structTagNames: seq<string>,
    useJSONNumber: bool)

  /** distinctTypes: how many of the seven kind counters are non-zero. */
  function DistinctTypes(s: Summary): (n: nat)
    ensures n <= 7
    ensures n == 0 <==> KindTotal(s) == 0
  {
    (if s.arrays > 0 then 1 else 0) + (if s.bools > 0 then 1 else 0) + (if s.float64s > 0 then 1 else 0)
    + (if s.ints > 0 then 1 else 0) + (if s.nulls > 0 then 1 else 0) + (if s.objects > 0 then 1 else 0)
    + (if s.strings > 0 then 1 else 0)
  }

  /** The first case of the switch whose condition holds. */
  function RuleOf(s: Summary): Rule {
    var d := DistinctTypes(s);
    if (d == 1 && s.arrays > 0) || (d == 2 && s.arrays > 0 && s.nulls > 0) then ArrayRule
    else if d == 1 && s.bools > 0 then BoolRule
    else if d == 2 && s.bools > 0 && s.nulls > 0 then NullableBoolRule
    else if d == 1 && s.float64s > 0 then Float64Rule
    else if d == 2 && s.float64s > 0 && s.nulls > 0 then NullableFloat64Rule
    else if d == 1 && s.ints > 0 then IntRule
    else if d == 2 && s.ints > 0 && s.nulls > 0 then NullableIntRule
    else if d == 2 && s.float64s > 0 && s.ints > 0 then NumberRule
    else if d == 3 && s.float64s > 0 && s.ints > 0 && s.nulls > 0 then NullableNumberRule
    else if (d == 1 && s.objects > 0) || (d == 2 && s.objects > 0 && s.nulls > 0) then ObjectRule
    else if d == 1 && s.strings > 0 && s.times == s.strings then TimeRule
    else if d == 1 && s.strings > 0 then StringRule
    else if d == 2 && s.strings > 0 && s.nulls > 0 && s.times == s.strings then NullableTimeRule
    else if d == 2 && s.strings > 0 && s.nulls > 0 then NullableStringRule
    else AnyRule
  }

  /** The node's counters with its children dropped: all that the non-recursive cases read. */
  function Counters(s: Summary): Summary {
    s.(arrayElements := None, allObjectProperties := None, objectProperties := NilMap)
  }

  /** The switch and its childless cases read the counters only. */
  lemma CountersDecide(s: Summary, observations: nat, o: GenerateOptions)
    ensures RuleOf(Counters(s)) == RuleOf(s)
    ensures RuleOf(s) != ArrayRule && RuleOf(s) != ObjectRule ==> ScalarType(Counters(s), observations, o) == ScalarType(s, observations, o)
    ensures EmptyStructType(Counters(s), observations) == EmptyStructType(s, observations)
    ensures forall body :: StructWrap(Counters(s), observations, body) == StructWrap(s, observations, body)
  {
    CountersRule(s);
    if RuleOf(s) != ArrayRule && RuleOf(s) != ObjectRule {
      CountersScalar(s, observations, o);
    }
  }

  /** The switch reads the counters only. */
  lemma CountersRule(s: Summary)
    ensures RuleOf(Counters(s)) == RuleOf(s) && KindTotal(Counters(s)) == KindTotal(s)
  {
  }

  /** The childless cases read the counters only. */
  lemma CountersScalar(s: Summary, observations: nat, o: GenerateOptions)
    requires RuleOf(s) != ArrayRule && RuleOf(s) != ObjectRule
    ensures RuleOf(Counters(s)) == RuleOf(s)
    ensures ScalarType(Counters(s), observations, o) == ScalarType(s, observations, o)
  {
    CountersRule(s);
  }

  /** The cases that need no child: the type and the imports they add. */
  function ScalarType(s: Summary, observations: nat, o: GenerateOptions): (GoType, set<string>)
    requires RuleOf(s) != ArrayRule && RuleOf(s) != ObjectRule
  {
    match RuleOf(s)
    case BoolRule => (GoType("bool", s.bools < observations && s.empties == 0), {})
    case NullableBoolRule => (GoType("*bool", false), {})
    case Float64Rule => (GoType("float64", s.float64s < observations && s.empties == 0), {})
    case NullableFloat64Rule => (GoType("*float64", false), {})
    case IntRule => (GoType(o.intType, s.ints < observations && s.empties == 0), {})
    case NullableIntRule => (GoType("*" + o.intType, false), {})
    case NumberRule =>
      var omitEmpty := s.float64s + s.ints < observations && s.empties == 0;
      if o.useJSONNumber then (GoType("json.Number", omitEmpty), {"encoding/json"})
      else (GoType("float64", omitEmpty), {})
    case NullableNumberRule =>
      if o.useJSONNumber then (GoType("*json.Number", false), {"encoding/json"})
      else (GoType("*float64", false), {})
    case TimeRule => (GoType("time.Time", s.times < observations), {"time"})
    case StringRule => (GoType("string", s.strings < observations && s.empties == 0), {})
    case NullableTimeRule => (GoType("*time.Time", false), {"time"})
    case NullableStringRule => (GoType("*string", false), {})
    case AnyRule => (GoType("any", KindTotal(s) < observations), {})
  }

  /** The object case when no property was ever seen. */
  function EmptyStructType(s: Summary, observations: nat): GoType {
    if observations == 0 && s.nulls == 0 then GoType("struct{}", false)
    else if s.nulls > 0 then GoType("*struct{}", false)
    else if s.objects == observations then GoType("struct{}", false)
    else GoType("*struct{}", s.objects < observations)
  }

  /** The final switch of the struct case: the struct itself or a pointer to it. */
  function StructWrap(s: Summary, observations: nat, body: string): GoType {
    if observations == 0 then GoType(body, false)
    else if s.objects == observations then GoType(body, false)
    else if s.objects < observations && s.nulls == 0 then GoType("*" + body, true)
    else GoType("*" + body, s.objects + s.nulls < observations)
  }

  /** Some key contains a space: the struct gives way to a map. */
  ghost predicate HasSpacedKey(props: map<string, Summary>) {
    exists k :: k in props && ' ' in k
  }

  /** The line of one struct field. */
  function Field(key: string, t: GoType, o: GenerateOptions): string {
    FieldLine(o.exportNameFunc(key), t.typeStr, Tag(o.structTagNames, key, FieldOmitEmpty(o.omitEmptyOption, t.omitEmpty)))
  }

  /** goType: the type of node `s` whose parent was observed `observations` times, and the imports it needs. */
  ghost function TypeOf(s: Summary, observations: nat, o: GenerateOptions): (GoType, set<string>)
    requires Linked(s)
    decreases s, 3
  {
    match RuleOf(s)
    case ArrayRule =>
      var (element, imports) := TypeOf(s.arrayElements.value, 0, o);
      (GoType("[]" + element.typeStr, s.arrays + s.nulls < observations && s.empties == 0), imports)
    case ObjectRule => ObjectTypeOf(s, observations, o)
    case _ => ScalarType(s, observations, o)
  }

  /** TypeOf in the object case. */
  lemma TypeOfObject(s: Summary, observations: nat, o: GenerateOptions)
    requires Linked(s) && RuleOf(s) == ObjectRule
    ensures TypeOf(s, observations, o) == ObjectTypeOf(s, observations, o)
  {
  }

  /** TypeOf in the cases with no child. */
  lemma TypeOfScalar(s: Summary, observations: nat, o: GenerateOptions)
    requires Linked(s) && RuleOf(s) != ArrayRule && RuleOf(s) != ObjectRule
    ensures TypeOf(s, observations, o) == ScalarType(s, observations, o)
  {
  }

  /** The object case: an empty struct, the map fallback, or a struct with one field per parsable key. */
  ghost function ObjectTypeOf(s: Summary, observations: nat, o: GenerateOptions): (GoType, set<string>)
    requires Linked(s)
    decreases s, 2
  {
    if PropsOf(s) == map[] then (EmptyStructType(s, observations), {})
    else if HasSpacedKey(s.objectProperties.m) && !o.skipUnparsableProperties then
      var (value, imports) := TypeOf(s.allObjectProperties.value, 0, o);
      (GoType("map[string]" + value.typeStr, s.objects + s.nulls < observations), imports)
    else
      var (body, imports) := StructBody(s, o);
      (StructWrap(s, observations, body), imports)
  }

  /** ObjectTypeOf with no property seen. */
  lemma ObjectTypeEmpty(s: Summary, observations: nat, o: GenerateOptions)
    requires Linked(s) && PropsOf(s) == map[]
    ensures ObjectTypeOf(s, observations, o) == (EmptyStructType(s, observations), {})
  {
  }

  /** ObjectTypeOf when the map fallback applies. */
  lemma ObjectTypeMap(s: Summary, observations: nat, o: GenerateOptions)
    requires Linked(s) && PropsOf(s) != map[] && HasSpacedKey(PropsOf(s)) && !o.skipUnparsableProperties
    ensures s.allObjectProperties.Some? && Linked(s.allObjectProperties.value)
    ensures var (value, imports) := TypeOf(s.allObjectProperties.value, 0, o);
      ObjectTypeOf(s, observations, o) == (GoType("map[string]" + value.typeStr, s.objects + s.nulls < observations), imports)
  {
  }

  /** ObjectTypeOf when a struct is built. */
  lemma ObjectTypeStruct(s: Summary, observations: nat, o: GenerateOptions)
    requires Linked(s) && PropsOf(s) != map[] && !(HasSpacedKey(PropsOf(s)) && !o.skipUnparsableProperties)
    ensures s.objectProperties.Made?
    ensures var (body, imports) := StructBody(s, o);
      ObjectTypeOf(s, observations, o) == (StructWrap(s, observations, body), imports)
  {
  }

  /** The text between `struct` and the end: the fields in ascending key order, then the comments. */
  ghost function StructBody(s: Summary, o: GenerateOptions): (string, set<string>)
    requires Linked(s) && s.objectProperties.Made?
    decreases s, 1
  {
    var keys := SortedOf(s.objectProperties.m.Keys);
    var (fields, imports) := FieldsOf(s, keys, o);
    (StructText(fields, Comments(UnparsableOf(keys))), imports)
  }

  /** The field lines of the parsable keys among `keys`, in their order, and the imports they need. */
  ghost function FieldsOf(s: Summary, keys: seq<string>, o: GenerateOptions): (string, set<string>)
    requires Linked(s) && s.objectProperties.Made?
    requires forall k :: k in keys ==> k in s.objectProperties.m
    decreases s, 0, |keys|
  {
    if |keys| == 0 then ("", {})
    else
      var (fields, imports) := FieldsOf(s, keys[..|keys| - 1], o);
      var key := keys[|keys| - 1];
      if IsUnparsableProperty(key) then (fields, imports)
      else
        var (t, more) := TypeOf(s.objectProperties.m[key], s.objects, o);
        (fields + Field(key, t, o), imports + more)
  }

  /** With no kind observed the type is `any`, omitted exactly when the parent was observed at all. */
  lemma NothingObservedIsAny(s: Summary, observations: nat, o: GenerateOptions)
    requires Linked(s) && KindTotal(s) == 0
    ensures TypeOf(s, observations, o) == (GoType("any", observations > 0), {})
  {
  }

  /** A scalar kind seen together with null becomes a pointer type, never omitted. */
  lemma NullableNeverOmitted(s: Summary, observations: nat, o: GenerateOptions)
    requires Linked(s) && s.nulls > 0
    requires (DistinctTypes(s) == 2 && (s.bools > 0 || s.float64s > 0 || s.ints > 0 || s.strings > 0))
          || (DistinctTypes(s) == 3 && s.float64s > 0 && s.ints > 0)
    ensures var t := TypeOf(s, observations, o).0; !t.omitEmpty && |t.typeStr| > 0 && t.typeStr[0] == '*'
  {
  }

  /** Floats mixed with ints: float64, or json.Number with its import when useJSONNumber is set. */
  lemma MixedNumbers(s: Summary, observations: nat, o: GenerateOptions)
    requires Linked(s) && DistinctTypes(s) == 2 && s.float64s > 0 && s.ints > 0
    ensures var (t, imports) := TypeOf(s, observations, o);
      && t.typeStr == (if o.useJSONNumber then "json.Number" else "float64")
      && (t.omitEmpty <==> s.float64s + s.ints < observations && s.empties == 0)
      && imports == (if o.useJSONNumber then {"encoding/json"} else {})
  {
  }

  /** The only imports goType ever adds are encoding/json and time. */
  lemma {:induction false} ImportsKnown(s: Summary, observations: nat, o: GenerateOptions)
    requires Linked(s)
    ensures TypeOf(s, observations, o).1 <= {"encoding/json", "time"}
    decreases s, 3
  {
    match RuleOf(s)
    case ArrayRule => ImportsKnown(s.arrayElements.value, 0, o);
    case ObjectRule => ObjectImportsKnown(s, observations, o);
    case _ =>
  }

  lemma {:induction false} ObjectImportsKnown(s: Summary, observations: nat, o: GenerateOptions)
    requires Linked(s)
    ensures ObjectTypeOf(s, observations, o).1 <= {"encoding/json", "time"}
    decreases s, 2
  {
    if PropsOf(s) == map[] {
    } else if HasSpacedKey(s.objectProperties.m) && !o.skipUnparsableProperties {
      ImportsKnown(s.allObjectProperties.value, 0, o);
    } else {
      FieldImportsKnown(s, SortedOf(s.objectProperties.m.Keys), o);
    }
  }

  lemma {:induction false} FieldImportsKnown(s: Summary, keys: seq<string>, o: GenerateOptions)
    requires Linked(s) && s.objectProperties.Made?
    requires forall k :: k in keys ==> k in s.objectProperties.m
    ensures FieldsOf(s, keys, o).1 <= {"encoding/json", "time"}
    decreases s, 0, |keys|
  {
    if |keys| > 0 {
      FieldImportsKnown(s, keys[..|keys| - 1], o);
      var key := keys[|keys| - 1];
      if !IsUnparsableProperty(key) {
        ImportsKnown(s.objectProperties.m[key], s.objects, o);
      }
    }
  }

  /** time.Time is chosen exactly when strings are the only kind and every one of them parsed as a time. */
  lemma TimeOnlyForTimes(s: Summary, observations: nat, o: GenerateOptions)
    requires Linked(s) && o.intType != "time.Time"
    ensures TypeOf(s, observations, o).0.typeStr == "time.Time" <==> DistinctTypes(s) == 1 && s.strings > 0 && s.times == s.strings
  {
    var t := TypeOf(s, observations, o).0;
    TimeRuleExactly(s);
    if RuleOf(s) == ArrayRule {
      assert t.typeStr[0] == '[';
    } else if RuleOf(s) == ObjectRule {
      TypeOfObject(s, observations, o);
      ObjectTypeShape(s, observations, o);
      assert t.typeStr[0] in "s*m";
    } else {
      TypeOfScalar(s, observations, o);
      ScalarTime(s, observations, o);
    }
  }

  /** The time case is the one where strings are the only kind and all of them are times. */
  lemma TimeRuleExactly(s: Summary)
    ensures RuleOf(s) == TimeRule <==> DistinctTypes(s) == 1 && s.strings > 0 && s.times == s.strings
  {
  }

  /** Among the childless cases only the time case gives time.Time. */
  lemma ScalarTime(s: Summary, observations: nat, o: GenerateOptions)
    requires RuleOf(s) != ArrayRule && RuleOf(s) != ObjectRule && o.intType != "time.Time"
    ensures ScalarType(s, observations, o).0.typeStr == "time.Time" <==> RuleOf(s) == TimeRule
  {
    if RuleOf(s) == NullableIntRule {
      assert ScalarType(s, observations, o).0.typeStr[0] == '*';
    }
  }

  /** The object case yields `struct…`, `*struct…` or `map[string]…`. */
  lemma ObjectTypeShape(s: Summary, observations: nat, o: GenerateOptions)
    requires Linked(s)
    ensures var t := ObjectTypeOf(s, observations, o).0.typeStr;
      StartsWith(t, "struct") || StartsWith(t, "*struct") || StartsWith(t, "map[string]")
  {
    if PropsOf(s) == map[] {
    } else if HasSpacedKey(s.objectProperties.m) && !o.skipUnparsableProperties {
      ConcatStartsWith("map[string]", TypeOf(s.allObjectProperties.value, 0, o).0.typeStr);
    } else {
      StructShape(s, observations, o);
    }
  }

  /** The struct case yields `struct…` or `*struct…`. */
  lemma StructShape(s: Summary, observations: nat, o: GenerateOptions)
    requires Linked(s) && PropsOf(s) != map[]
    requires !(HasSpacedKey(s.objectProperties.m) && !o.skipUnparsableProperties)
    ensures var t := ObjectTypeOf(s, observations, o).0.typeStr;
      StartsWith(t, "struct") || StartsWith(t, "*struct")
  {
    var keys := SortedOf(s.objectProperties.m.Keys);
    StructTextStarts(FieldsOf(s, keys, o).0, Comments(UnparsableOf(keys)));
  }

  /** With properties seen, the map fallback happens exactly when some key holds a space and skipping is off. */
  lemma MapFallback(s: Summary, observations: nat, o: GenerateOptions)
    requires Linked(s) && RuleOf(s) == ObjectRule && PropsOf(s) != map[]
    ensures StartsWith(TypeOf(s, observations, o).0.typeStr, "map[string]") <==> HasSpacedKey(PropsOf(s)) && !o.skipUnparsableProperties
  {
    TypeOfObject(s, observations, o);
    var t := ObjectTypeOf(s, observations, o).0.typeStr;
    if HasSpacedKey(PropsOf(s)) && !o.skipUnparsableProperties {
      ObjectTypeMap(s, observations, o);
      ConcatStartsWith("map[string]", TypeOf(s.allObjectProperties.value, 0, o).0.typeStr);
    } else {
      StructShape(s, observations, o);
      StructIsNoMap(t);
    }
  }

  /**
   * The struct case: the struct itself exactly when the parent was not observed
   * or always held an object here; otherwise a pointer, omitted when only
   * absence (never null) explains the missing objects.
   */
  lemma StructWrapping(s: Summary, observations: nat, o: GenerateOptions)
    requires Linked(s) && RuleOf(s) == ObjectRule && PropsOf(s) != map[]
    requires !(HasSpacedKey(PropsOf(s)) && !o.skipUnparsableProperties)
    ensures var t := TypeOf(s, observations, o).0;
      var body := StructBody(s, o).0;
      && (t.typeStr == body <==> observations == 0 || s.objects == observations)
      && (t.typeStr != body ==> t.typeStr == "*" + body)
      && (observations == 0 || s.objects == observations ==> !t.omitEmpty)
      && (observations > 0 && s.objects < observations && s.nulls == 0 ==> t.omitEmpty)
      && (observations > 0 && s.objects != observations && s.nulls > 0 ==> (t.omitEmpty <==> s.objects + s.nulls < observations))
  {
    TypeOfObject(s, observations, o);
    ObjectTypeStruct(s, observations, o);
    var keys := SortedOf(s.objectProperties.m.Keys);
    StructTextStarts(FieldsOf(s, keys, o).0, Comments(UnparsableOf(keys)));
    WrapShape(s, observations, StructBody(s, o).0);
  }

  /** StructWrap on a body that starts with `struct`. */
  lemma WrapShape(s: Summary, observations: nat, body: string)
    requires StartsWith(body, "struct")
    ensures var t := StructWrap(s, observations, body);
      && (t.typeStr == body <==> observations == 0 || s.objects == observations)
      && (t.typeStr != body ==> t.typeStr == "*" + body)
      && (observations == 0 || s.objects == observations ==> !t.omitEmpty)
      && (observations > 0 && s.objects < observations && s.nulls == 0 ==> t.omitEmpty)
      && (observations > 0 && s.objects != observations && s.nulls > 0 ==> (t.omitEmpty <==> s.objects + s.nulls < observations))
  {
    assert body[0] == 's' && ("*" + body)[0] == '*';
  }

  /** An object with no properties seen: `*struct{}` exactly when null was seen or some parent lacked it. */
  lemma EmptyObject(s: Summary, observations: nat, o: GenerateOptions)
    requires Linked(s) && RuleOf(s) == ObjectRule && PropsOf(s) == map[]
    ensures var t := TypeOf(s, observations, o).0;
      && (t.typeStr == "*struct{}" <==> s.nulls > 0 || (observations > 0 && s.objects != observations))
      && (t.typeStr != "*struct{}" ==> t.typeStr == "struct{}")
      && (t.omitEmpty <==> s.nulls == 0 && observations > 0 && s.objects < observations)
  {
  }

  /** The struct's fields come in ascending key order and the comments name exactly the unparsable keys, in order. */
  lemma StructKeyOrder(s: Summary)
    requires s.objectProperties.Made?
    ensures StrictlySorted(SortedOf(s.objectProperties.m.Keys))
    ensures var commented := UnparsableOf(SortedOf(s.objectProperties.m.Keys));
      && StrictlySorted(commented)
      && forall k :: k in commented <==> k in s.objectProperties.m && IsUnparsableProperty(k)
  {
    UnparsableOfSpec(SortedOf(s.objectProperties.m.Keys));
  }

  /** A time string followed by "" stays a plain string, never omitted: the `times == strings` gate froze at the first. */
  lemma TimeThenEmptyString(t: string, p: Parsers, observations: nat, o: GenerateOptions)
    requires p.parsesTime(t) && !p.parsesTime("")
    ensures var s := Observe(Some(Observe(None, Str(t), p)), Str(""), p);
      Linked(s) && TypeOf(s, observations, o) == (GoType("string", false), {})
  {
    var first := Observe(None, Str(t), p);
    assert t != "";
    assert first == Empty.(observations := 1, strings := 1, times := 1);
    var s := Observe(Some(first), Str(""), p);
    assert s == first.(observations := 2, empties := 1, strings := 2);
    assert RuleOf(s) == StringRule;
    TypeOfScalar(s, observations, o);
  }

  /** `false` then null at one position: `*bool`, not omitted. */
  lemma FalseThenNull(p: Parsers, observations: nat, o: GenerateOptions)
    ensures var s := Observe(Some(Observe(None, Bool(false), p)), Null, p);
      Linked(s) && TypeOf(s, observations, o) == (GoType("*bool", false), {})
  {
  }

  /** `0.0` then `0` at one position: float64, or json.Number with its import. */
  lemma FloatThenInt(p: Parsers, observations: nat, o: GenerateOptions)
    ensures var s := Observe(Some(Observe(None, Float64(true), p)), Int(0), p);
      && Linked(s)
      && TypeOf(s, observations, o).0.typeStr == (if o.useJSONNumber then "json.Number" else "float64")
      && ("encoding/json" in TypeOf(s, observations, o).1 <==> o.useJSONNumber)
  {
    var s := Observe(Some(Observe(None, Float64(true), p)), Int(0), p);
    MixedNumbers(s, observations, o);
  }
}
