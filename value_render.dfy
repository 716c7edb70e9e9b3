/**
 * value.go, goType over the heap tree: the counters and children of a `value`
 * node are read, the struct text is built in a buffer, and the result and the
 * imports are those TypeOf gives for the node's Summary.
 */
module ValueRender {
  import opened Wrappers
  import opened Syntax
  import opened Sorting
  import opened ValueSummary
  import opened ValueType
  import opened ValueTree
  import Maps

  /** The counters of `v`, its children left out. */
  function CountersOf(v: Value): (c: Summary)
    reads v
    ensures c.arrayElements.None? && c.allObjectProperties.None? && c.objectProperties.NilMap?
  {
    Summary(v.observations, v.empties, v.arrays, v.bools, v.float64s, v.ints, v.nulls, v.objects, v.strings, v.times,
            None, None, NilMap)
  }

  /** The counters of `v` are those of its Summary. */
  lemma CountersOfModel(v: Value)
    requires v.Valid()
    ensures CountersOf(v) == Counters(v.Model())
  {
  }

  /** goType: the type of node `v`, whose Summary is `m`, below a parent observed `observations` times; `imports` gains what it needs. */
  method GoTypeOf(v: Value, ghost m: Summary, observations: nat, o: GenerateOptions, imports: set<string>)
    returns (t: GoType, importsOut: set<string>)
    requires v.Valid() && m == v.Model() && Linked(m)
    ensures t == TypeOf(m, observations, o).0
    ensures importsOut == imports + TypeOf(m, observations, o).1
    decreases v.Repr, 5
  {
    var c := CountersOf(v);
    CountersOfModel(v);
    CountersDecide(m, observations, o);
    match RuleOf(c) {
      case ArrayRule =>
        v.ElementsChild();
        LinkedChildren(m);
        var element, added := GoTypeOf(v.arrayElements, m.arrayElements.value, 0, o, imports);
        t := GoType("[]" + element.typeStr, c.arrays + c.nulls < observations && c.empties == 0);
        importsOut := added;
      case ObjectRule =>
        TypeOfObject(m, observations, o);
        t, importsOut := ObjectGoTypeOf(v, m, observations, o, imports);
      case _ =>
        TypeOfScalar(m, observations, o);
        var (r, added) := ScalarType(c, observations, o);
        t, importsOut := r, imports + added;
    }
  }

  /** The object case: empty struct, map fallback or struct. */
  method ObjectGoTypeOf(v: Value, ghost m: Summary, observations: nat, o: GenerateOptions, imports: set<string>)
    returns (t: GoType, importsOut: set<string>)
    requires v.Valid() && m == v.Model() && Linked(m)
    ensures t == ObjectTypeOf(m, observations, o).0
    ensures importsOut == imports + ObjectTypeOf(m, observations, o).1
    decreases v.Repr, 4
  {
    var empty, spaced := KeyShape(v, m);
    if empty {
      var c := CountersOf(v);
      CountersOfModel(v);
      ObjectTypeEmpty(m, observations, o);
      t, importsOut := EmptyStructType(c, observations), imports;
    } else if spaced && !o.skipUnparsableProperties {
      t, importsOut := MapGoTypeOf(v, m, observations, o, imports);
    } else {
      t, importsOut := StructGoTypeOf(v, m, observations, o, imports);
    }
  }

  /** An object with a key holding a space, unparsable properties not skipped: a map of the merged property type. */
  method MapGoTypeOf(v: Value, ghost m: Summary, observations: nat, o: GenerateOptions, imports: set<string>)
    returns (t: GoType, importsOut: set<string>)
    requires v.Valid() && m == v.Model() && Linked(m)
    requires PropsOf(m) != map[] && HasSpacedKey(PropsOf(m)) && !o.skipUnparsableProperties
    ensures t == ObjectTypeOf(m, observations, o).0
    ensures importsOut == imports + ObjectTypeOf(m, observations, o).1
    decreases v.Repr, 3
  {
    var c := CountersOf(v);
    CountersOfModel(v);
    ObjectTypeMap(m, observations, o);
    v.AllChild();
    var value, added := GoTypeOf(v.allObjectProperties, m.allObjectProperties.value, 0, o, imports);
    t := GoType("map[string]" + value.typeStr, c.objects + c.nulls < observations);
    importsOut := added;
  }

  /** An object rendered as a struct, a pointer to one when it may be missing. */
  method StructGoTypeOf(v: Value, ghost m: Summary, observations: nat, o: GenerateOptions, imports: set<string>)
    returns (t: GoType, importsOut: set<string>)
    requires v.Valid() && m == v.Model() && Linked(m)
    requires PropsOf(m) != map[] && !(HasSpacedKey(PropsOf(m)) && !o.skipUnparsableProperties)
    ensures t == ObjectTypeOf(m, observations, o).0
    ensures importsOut == imports + ObjectTypeOf(m, observations, o).1
    decreases v.Repr, 3
  {
    var c := CountersOf(v);
    CountersOfModel(v);
    ObjectTypeStruct(m, observations, o);
    var body;
    body, importsOut := StructBodyOf(v, m, o, imports);
    t := StructWrap(c, observations, body);
  }

  /** Whether any property was seen, and whether a key holds a space. */
  method KeyShape(v: Value, ghost m: Summary) returns (empty: bool, spaced: bool)
    requires v.Valid() && m == v.Model()
    ensures empty <==> PropsOf(m) == map[]
    ensures spaced <==> HasSpacedKey(PropsOf(m))
  {
    v.PropKeys();
    empty := |v.Props()| == 0;
    spaced := HasSpacedKeyIn(v.Props());
    SpacedKeys(v.Props(), PropsOf(m));
  }

  /** Maps with the same keys agree on whether a key has a space. */
  lemma SpacedKeys<V>(props: map<string, V>, summaries: map<string, Summary>)
    requires props.Keys == summaries.Keys
    ensures (exists k :: k in props && ' ' in k) <==> HasSpacedKey(summaries)
  {
    if exists k :: k in props && ' ' in k {
      var k :| k in props && ' ' in k;
      assert k in summaries;
    }
  }

  /** The struct text: one field line per parsable key in ascending order, then one comment per unparsable key. */
  method StructBodyOf(v: Value, ghost m: Summary, o: GenerateOptions, imports: set<string>) returns (body: string, importsOut: set<string>)
    requires v.Valid() && m == v.Model() && Linked(m) && m.objectProperties.Made?
    ensures body == StructBody(m, o).0
    ensures importsOut == imports + StructBody(m, o).1
    decreases v.Repr, 2
  {
    var properties := Maps.SortedKeys(v.Props());
    v.PropKeys();
    assert v.Props().Keys == m.objectProperties.m.Keys;
    Maps.SortedKeysIn(properties, m.objectProperties.m);
    var fields, added := FieldsLoop(v, m, properties, o, imports);
    var comments := CommentsLoop(UnparsableOf(properties));
    body := StructText(fields, comments);
    importsOut := added;
  }

  /** The loop over the sorted keys: field lines for the parsable ones. */
  method FieldsLoop(v: Value, ghost m: Summary, properties: seq<string>, o: GenerateOptions, imports: set<string>)
    returns (fields: string, importsOut: set<string>)
    requires v.Valid() && m == v.Model() && Linked(m) && m.objectProperties.Made?
    requires forall k :: k in properties ==> k in m.objectProperties.m
    ensures fields == FieldsOf(m, properties, o).0
    ensures importsOut == imports + FieldsOf(m, properties, o).1
    decreases v.Repr, 1
  {
    fields := "";
    importsOut := imports;
    var i := 0;
    while i < |properties|
      invariant 0 <= i <= |properties|
      invariant fields == FieldsOf(m, properties[..i], o).0
      invariant importsOut == imports + FieldsOf(m, properties[..i], o).1
    {
      var property := properties[i];
      assert properties[..i + 1][..i] == properties[..i];
      if !IsUnparsableProperty(property) {
        var line;
        line, importsOut := FieldOf(v, m, property, o, importsOut);
        fields := fields + line;
      }
      i := i + 1;
    }
    assert properties[..i] == properties;
  }

  /** One field line: the exported name, the child's type and the tag. */
  method FieldOf(v: Value, ghost m: Summary, property: string, o: GenerateOptions, imports: set<string>)
    returns (line: string, importsOut: set<string>)
    requires v.Valid() && m == v.Model() && Linked(m) && m.objectProperties.Made? && property in m.objectProperties.m
    ensures line == Field(property, TypeOf(m.objectProperties.m[property], m.objects, o).0, o)
    ensures importsOut == imports + TypeOf(m.objectProperties.m[property], m.objects, o).1
    decreases v.Repr, 0
  {
    var c := CountersOf(v);
    CountersOfModel(v);
    v.PropKeys();
    v.PropChild(property);
    LinkedChildren(m);
    var goType, more := GoTypeOf(v.Props()[property], m.objectProperties.m[property], c.objects, o, imports);
    var omitEmpty := FieldOmitEmpty(o.omitEmptyOption, goType.omitEmpty);
    line := FieldLine(o.exportNameFunc(property), goType.typeStr, Tag(o.structTagNames, property, omitEmpty));
    importsOut := more;
  }
}
