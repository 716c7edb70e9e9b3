/**
 * value.go, the accumulator as the source has it: a tree of heap nodes whose
 * counters `observe` increments in place, allocating children on demand.
 */
module ValueTree {
  import opened Wrappers
  import opened Decoded
  import opened ValueSummary

  /** A map that agrees with `before` except that `key` maps to `v` is `before[key := v]`. */
  lemma UpdatedAt<K, V>(now: map<K, V>, before: map<K, V>, key: K, v: V)
    requires now.Keys == before.Keys + {key} && now[key] == v
    requires forall k :: k in now && k != key ==> k in before && now[k] == before[k]
    ensures now == before[key := v]
  {
  }

  /**
   * Observing `value` under `property` of `start`, whether or not that key was
   * present, through allocating its node first (`attached`) when it was not.
   */
  lemma ObserveAtKey(start: Summary, attached: Summary, final: Summary, property: string, value: Any, p: Parsers)
    requires property in PropsOf(start) ==> attached == start
    requires property !in PropsOf(start) ==> attached == start.(objectProperties := Made(PropsOf(start)[property := Empty]))
    requires property in PropsOf(attached)
    requires final == attached.(objectProperties := Made(PropsOf(attached)[property :=
               ValueSummary.Observe(Some(PropsOf(attached)[property]), value, p)]))
    ensures final == start.(objectProperties := Made(PropsOf(start)[property :=
               ValueSummary.Observe(if property in PropsOf(start) then Some(PropsOf(start)[property]) else None, value, p)]))
  {
    if property !in PropsOf(start) {
      ObserveNone(value, p);
      var observed := ValueSummary.Observe(None, value, p);
      assert PropsOf(attached)[property := observed] == PropsOf(start)[property := observed];
    }
  }

  /** Two maps with the same keys and the same value at every key are equal. */
  lemma SameMap<K, V>(now: map<K, V>, before: map<K, V>)
    requires now.Keys == before.Keys
    requires forall k :: k in now ==> now[k] == before[k]
    ensures now == before
  {
  }

  /** One `value` node. `Model()` is the node's state as a Summary; `Repr` its footprint. */
  class Value {
    var observations: nat
    var empties: nat
    var arrays: nat
    var bools: nat
    var float64s: nat
    var ints: nat
    var nulls: nat
    var objects: nat
    var strings: nat
    var times: nat
    var arrayElements: Value?
    var allObjectProperties: Value?
    var objectProperties: Option<map<string, Value>>

    ghost var Repr: set<object>

    /** The per-key children; a nil map has none. */
    function Props(): map<string, Value>
      reads this`objectProperties
    {
      objectProperties.GetOr(map[])
    }

    /** `c` is an exclusively owned, valid child of this node. */
    ghost predicate Owns(c: Value)
      reads this`Repr, c`Repr
    {
      c in c.Repr && c.Repr <= Repr && this !in c.Repr
    }

    ghost predicate Valid()
      reads this`Repr, this`arrayElements, this`allObjectProperties, this`objectProperties, Repr - {this}
      decreases Repr, 1
    {
      && this in Repr
      && (arrayElements != null ==> arrayElements in Repr - {this} && Owns(arrayElements) && arrayElements.Valid())
      && (allObjectProperties != null ==> allObjectProperties in Repr - {this} && Owns(allObjectProperties) && allObjectProperties.Valid())
      && (forall k :: k in Props() ==> Props()[k] in Repr - {this} && Owns(Props()[k]) && Props()[k].Valid())
      // no two children share a node
      && (arrayElements != null && allObjectProperties != null ==> arrayElements.Repr !! allObjectProperties.Repr)
      && (forall k :: k in Props() && arrayElements != null ==> arrayElements.Repr !! Props()[k].Repr)
      && (forall k :: k in Props() && allObjectProperties != null ==> allObjectProperties.Repr !! Props()[k].Repr)
      && (forall k, j :: k in Props() && j in Props() && k != j ==> Props()[k].Repr !! Props()[j].Repr)
    }

    /** The node's state as a Summary. */
    ghost function Model(): Summary
      requires Valid()
      reads this, Repr
      decreases Repr, 2
    {
      Summary(observations, empties, arrays, bools, float64s, ints, nulls, objects, strings, times,
              if arrayElements == null then None else Some(arrayElements.Model()),
              if allObjectProperties == null then None else Some(allObjectProperties.Model()),
              PropsModel())
    }

    /** The Summaries of the per-key children; a nil map stays nil. */
    ghost function PropsModel(): ObjectProperties
      requires Valid()
      reads this`Repr, this`arrayElements, this`allObjectProperties, this`objectProperties, Repr - {this}
      decreases Repr, 1
    {
      if objectProperties.None? then NilMap else Made(map k | k in Props() :: Props()[k].Model())
    }

    /** `&value{}` */
    constructor ()
      ensures Valid() && fresh(Repr)
      ensures Model() == Empty
    {
      observations, empties := 0, 0;
      arrays, bools, float64s, ints, nulls, objects, strings, times := 0, 0, 0, 0, 0, 0, 0, 0;
      arrayElements, allObjectProperties := null, null;
      objectProperties := None;
      Repr := {this};
    }

    /**
     * observe: merges `a` into `v`, replacing a nil `v` by a fresh node, and
     * returns the node; its new state is ValueSummary.Observe of the old one.
     */
    static method Observe(v: Value?, a: Any, p: Parsers) returns (r: Value)
      requires v != null ==> v.Valid()
      modifies if v != null then v.Repr else {}
      ensures r.Valid()
      ensures v != null ==> r == v
      ensures fresh(r.Repr - (if v != null then old(v.Repr) else {}))
      ensures r.Model() == ValueSummary.Observe(if v != null then Some(old(v.Model())) else None, a, p)
    {
      if v == null {
        r := new Value();
      } else {
        r := v;
      }
      r.Add(a, p);
    }

    /** A node none of whose footprint changed keeps its validity and its Summary. */
    static twostate lemma Unchanged(c: Value)
      requires old(c.Valid())
      requires unchanged(old(c.Repr))
      ensures c.Valid() && c.Repr == old(c.Repr) && c.Model() == old(c.Model())
    {
    }

    /**
     * After a write to this node's own counters only, the node is still valid
     * and its Summary changed in those counters only.
     */
    twostate lemma CountersOnly()
      requires old(Valid())
      requires unchanged(old(Repr) - {this})
      requires Repr == old(Repr) && arrayElements == old(arrayElements)
      requires allObjectProperties == old(allObjectProperties) && objectProperties == old(objectProperties)
      ensures Valid()
      ensures Model() == old(Model()).(observations := observations, empties := empties, arrays := arrays,
                                       bools := bools, float64s := float64s, ints := ints, nulls := nulls,
                                       objects := objects, strings := strings, times := times)
    {
      if arrayElements != null {
        Unchanged(arrayElements);
      }
      if allObjectProperties != null {
        Unchanged(allObjectProperties);
      }
      forall k | k in Props()
        ensures Props()[k].Model() == old(Props()[k].Model())
      {
        Unchanged(Props()[k]);
      }
      PropsKept();
    }

    /** With the map and every per-key Summary as they were, so are the per-key Summaries. */
    twostate lemma PropsKept()
      requires old(Valid()) && Valid() && objectProperties == old(objectProperties)
      requires forall k :: k in Props() ==> Props()[k].Model() == old(Props()[k].Model())
      ensures PropsModel() == old(PropsModel())
    {
      if objectProperties.Some? {
        PropsModelNow();
        OldPropsModel();
        ghost var now := PropsModel().m;
        ghost var before := old(PropsModel()).m;
        forall k | k in now
          ensures now[k] == before[k]
        {
        }
        SameMap(now, before);
      }
    }

    /** The counters of this node are as they were. */
    twostate predicate CountsUnchanged()
      reads this
    {
      && observations == old(observations) && empties == old(empties) && arrays == old(arrays)
      && bools == old(bools) && float64s == old(float64s) && ints == old(ints) && nulls == old(nulls)
      && objects == old(objects) && strings == old(strings) && times == old(times)
    }

    /**
     * After `arrayElements` was allocated or updated in place (its footprint
     * grown by fresh objects only) and nothing else changed, the node is valid
     * and its Summary changed in that child only.
     */
    twostate lemma ElementsReplaced()
      requires old(Valid())
      requires arrayElements != null && arrayElements.Valid() && this !in arrayElements.Repr
      requires old(arrayElements) == null || old(arrayElements) == arrayElements
      requires fresh(arrayElements.Repr - (if old(arrayElements) == null then {} else old(arrayElements.Repr)))
      requires unchanged(old(Repr) - {this} - (if old(arrayElements) == null then {} else old(arrayElements.Repr)))
      requires Repr == old(Repr) + arrayElements.Repr
      requires allObjectProperties == old(allObjectProperties) && objectProperties == old(objectProperties)
      requires CountsUnchanged()
      ensures Valid()
      ensures Model() == old(Model()).(arrayElements := Some(arrayElements.Model()))
    {
      ElementsValid();
      PropsKept();
    }

    /** Under the conditions of ElementsReplaced the node is valid and its other children kept their Summaries. */
    twostate lemma ElementsValid()
      requires old(Valid())
      requires arrayElements != null && arrayElements.Valid() && this !in arrayElements.Repr
      requires old(arrayElements) == null || old(arrayElements) == arrayElements
      requires fresh(arrayElements.Repr - (if old(arrayElements) == null then {} else old(arrayElements.Repr)))
      requires unchanged(old(Repr) - {this} - (if old(arrayElements) == null then {} else old(arrayElements.Repr)))
      requires Repr == old(Repr) + arrayElements.Repr
      requires allObjectProperties == old(allObjectProperties) && objectProperties == old(objectProperties)
      requires CountsUnchanged()
      ensures Valid()
      ensures allObjectProperties != null ==> allObjectProperties.Model() == old(allObjectProperties.Model())
      ensures forall k :: k in Props() ==> Props()[k].Model() == old(Props()[k].Model())
    {
      if allObjectProperties != null {
        Unchanged(allObjectProperties);
      }
      forall k | k in Props()
        ensures Props()[k].Valid() && Props()[k].Repr == old(Props()[k].Repr) && Props()[k].Model() == old(Props()[k].Model())
      {
        Unchanged(Props()[k]);
      }
    }

    /** As ElementsReplaced, for `allObjectProperties`. */
    twostate lemma AllReplaced()
      requires old(Valid())
      requires allObjectProperties != null && allObjectProperties.Valid() && this !in allObjectProperties.Repr
      requires old(allObjectProperties) == null || old(allObjectProperties) == allObjectProperties
      requires fresh(allObjectProperties.Repr - (if old(allObjectProperties) == null then {} else old(allObjectProperties.Repr)))
      requires unchanged(old(Repr) - {this} - (if old(allObjectProperties) == null then {} else old(allObjectProperties.Repr)))
      requires Repr == old(Repr) + allObjectProperties.Repr
      requires arrayElements == old(arrayElements) && objectProperties == old(objectProperties)
      requires CountsUnchanged()
      ensures Valid()
      ensures Model() == old(Model()).(allObjectProperties := Some(allObjectProperties.Model()))
    {
      AllValid();
      PropsKept();
    }

    /** Under the conditions of AllReplaced the node is valid and its other children kept their Summaries. */
    twostate lemma AllValid()
      requires old(Valid())
      requires allObjectProperties != null && allObjectProperties.Valid() && this !in allObjectProperties.Repr
      requires old(allObjectProperties) == null || old(allObjectProperties) == allObjectProperties
      requires fresh(allObjectProperties.Repr - (if old(allObjectProperties) == null then {} else old(allObjectProperties.Repr)))
      requires unchanged(old(Repr) - {this} - (if old(allObjectProperties) == null then {} else old(allObjectProperties.Repr)))
      requires Repr == old(Repr) + allObjectProperties.Repr
      requires arrayElements == old(arrayElements) && objectProperties == old(objectProperties)
      requires CountsUnchanged()
      ensures Valid()
      ensures arrayElements != null ==> arrayElements.Model() == old(arrayElements.Model())
      ensures forall k :: k in Props() ==> Props()[k].Model() == old(Props()[k].Model())
    {
      if arrayElements != null {
        Unchanged(arrayElements);
      }
      forall k | k in Props()
        ensures Props()[k].Valid() && Props()[k].Repr == old(Props()[k].Repr) && Props()[k].Model() == old(Props()[k].Model())
      {
        Unchanged(Props()[k]);
      }
    }

    /**
     * The child under `property` was allocated or updated in place (its
     * footprint grown by fresh objects only) and nothing else changed.
     */
    twostate predicate KeyGrown(property: string)
      reads *
    {
      && old(Valid()) && old(objectProperties).Some? && objectProperties.Some?
      && property in Props() && Props()[property].Valid() && this !in Props()[property].Repr
      && (property !in old(Props()) || old(Props())[property] == Props()[property])
      && Props() == old(Props())[property := Props()[property]]
      && fresh(Props()[property].Repr - (if property !in old(Props()) then {} else old(Props()[property].Repr)))
      && unchanged(old(Repr) - {this} - (if property !in old(Props()) then {} else old(Props()[property].Repr)))
      && Repr == old(Repr) + Props()[property].Repr
      && arrayElements == old(arrayElements) && allObjectProperties == old(allObjectProperties)
      && CountsUnchanged()
    }

    /** After KeyGrown every other child is as it was. */
    twostate lemma KeySiblingsKept(property: string)
      requires KeyGrown(property)
      ensures arrayElements != null ==> arrayElements.Valid() && arrayElements.Repr == old(arrayElements.Repr) && arrayElements.Model() == old(arrayElements.Model())
      ensures allObjectProperties != null ==> allObjectProperties.Valid() && allObjectProperties.Repr == old(allObjectProperties.Repr) && allObjectProperties.Model() == old(allObjectProperties.Model())
      ensures forall k :: k in Props() && k != property ==> Props()[k].Valid() && Props()[k].Repr == old(Props()[k].Repr) && Props()[k].Model() == old(Props()[k].Model())
    {
      if arrayElements != null {
        Unchanged(arrayElements);
      }
      if allObjectProperties != null {
        Unchanged(allObjectProperties);
      }
      forall k | k in Props() && k != property
        ensures Props()[k].Valid() && Props()[k].Repr == old(Props()[k].Repr) && Props()[k].Model() == old(Props()[k].Model())
      {
        Unchanged(Props()[k]);
      }
    }

    /** Under the same conditions the node is still valid. */
    twostate lemma KeyValid(property: string)
      requires KeyGrown(property)
      ensures Valid()
      ensures arrayElements != null ==> arrayElements.Model() == old(arrayElements.Model())
      ensures allObjectProperties != null ==> allObjectProperties.Model() == old(allObjectProperties.Model())
      ensures forall k :: k in Props() && k != property ==> Props()[k].Model() == old(Props()[k].Model())
    {
      KeySiblingsKept(property);
      KeyDisjoint(property);
    }

    /** After KeyGrown the child under `property` shares no node with any other child. */
    twostate lemma KeyDisjoint(property: string)
      requires KeyGrown(property)
      ensures Props()[property] in Repr - {this} && Owns(Props()[property])
      ensures arrayElements != null ==> arrayElements.Repr !! Props()[property].Repr
      ensures allObjectProperties != null ==> allObjectProperties.Repr !! Props()[property].Repr
      ensures forall k :: k in Props() && k != property ==> Props()[k].Repr !! Props()[property].Repr
    {
      KeySiblingsKept(property);
    }

    /** Under the same conditions the node's Summary changed under `property` only. */
    twostate lemma KeyReplaced(property: string)
      requires KeyGrown(property)
      ensures Valid()
      ensures Model() == old(Model()).(objectProperties := Made(PropsOf(old(Model()))[property := Props()[property].Model()]))
    {
      KeyValid(property);
      KeyModels(property);
      assert old(PropsOf(Model())) == old(PropsModel()).m;
    }

    /** KeyReplaced for a child updated in place, the map itself untouched. */
    twostate lemma KeyUpdated(property: string)
      requires old(Valid()) && objectProperties.Some? && objectProperties == old(objectProperties) && property in Props()
      requires Props()[property].Valid() && this !in Props()[property].Repr
      requires fresh(Props()[property].Repr - old(Props()[property].Repr))
      requires unchanged(old(Repr) - {this} - old(Props()[property].Repr))
      requires Repr == old(Repr) + Props()[property].Repr
      requires arrayElements == old(arrayElements) && allObjectProperties == old(allObjectProperties)
      requires CountsUnchanged()
      ensures Valid()
      ensures Model() == old(Model()).(objectProperties := Made(PropsOf(old(Model()))[property := Props()[property].Model()]))
    {
      assert Props() == old(Props())[property := Props()[property]];
      KeyReplaced(property);
    }

    /** The per-key Summaries after only the child under `property` changed. */
    twostate lemma KeyModels(property: string)
      requires old(Valid()) && Valid() && old(objectProperties).Some? && objectProperties.Some?
      requires property in Props() && Props().Keys == old(Props()).Keys + {property}
      requires forall k :: k in Props() && k != property ==> Props()[k] == old(Props())[k] && Props()[k].Model() == old(Props()[k].Model())
      ensures old(PropsModel()).Made?
      ensures PropsModel() == Made(old(PropsModel()).m[property := Props()[property].Model()])
    {
      PropsModelNow();
      OldPropsModel();
      ghost var now := PropsModel().m;
      ghost var before := old(PropsModel()).m;
      forall k | k in now && k != property
        ensures k in before && now[k] == before[k]
      {
      }
      UpdatedAt(now, before, property, Props()[property].Model());
    }

    /** The per-key Summaries, one per child. */
    lemma PropsModelNow()
      requires Valid() && objectProperties.Some?
      ensures PropsModel().Made? && PropsModel().m.Keys == Props().Keys
      ensures forall k :: k in Props() ==> PropsModel().m[k] == Props()[k].Model()
    {
    }

    /** PropsModelNow in the earlier state. */
    twostate lemma OldPropsModel()
      requires old(Valid()) && old(objectProperties).Some?
      ensures old(PropsModel()).Made? && old(PropsModel()).m.Keys == old(Props()).Keys
      ensures forall k :: k in old(Props()) ==> old(PropsModel()).m[k] == old(Props()[k].Model())
    {
    }

    /** The Summary under `property` is that of the child under `property`. */
    lemma PropModel(property: string)
      requires Valid() && objectProperties.Some? && property in Props()
      ensures Model().objectProperties.Made? && property in PropsOf(Model())
      ensures PropsOf(Model())[property] == Props()[property].Model()
    {
      assert PropsModel() == Made(map k | k in Props() :: Props()[k].Model());
    }

    /** The child under `property`, as goType reads it: valid, owned, and the Summary under that key. */
    lemma PropChild(property: string)
      requires Valid() && property in Props()
      ensures Props()[property].Valid() && Props()[property].Repr < Repr
      ensures objectProperties.Some? && Model().objectProperties.Made? && property in Model().objectProperties.m
      ensures Model().objectProperties.m[property] == Props()[property].Model()
    {
      PropModel(property);
    }

    /** The element child, as goType reads it. */
    lemma ElementsChild()
      requires Valid()
      ensures arrayElements != null <==> Model().arrayElements.Some?
      ensures arrayElements != null ==> arrayElements.Valid() && arrayElements.Repr < Repr && Model().arrayElements.value == arrayElements.Model()
    {
    }

    /** The child merging all property values, as goType reads it. */
    lemma AllChild()
      requires Valid()
      ensures allObjectProperties != null <==> Model().allObjectProperties.Some?
      ensures allObjectProperties != null ==> allObjectProperties.Valid() && allObjectProperties.Repr < Repr && Model().allObjectProperties.value == allObjectProperties.Model()
    {
    }

    /** The keys of the per-key Summaries are those of the per-key children. */
    lemma PropKeys()
      requires Valid()
      ensures PropsOf(Model()).Keys == Props().Keys
    {
      assert PropsModel() == if objectProperties.None? then NilMap else Made(map k | k in Props() :: Props()[k].Model());
    }

    /** `if v.objectProperties == nil { v.objectProperties = make(map[string]*value) }` */
    method EnsureProps()
      requires Valid()
      modifies this
      ensures Valid() && Repr == old(Repr) && objectProperties.Some?
      ensures Model() == old(Model()).(objectProperties := Made(PropsOf(old(Model()))))
    {
      if objectProperties.None? {
        objectProperties := Some(map[]);
        if arrayElements != null {
          Unchanged(arrayElements);
        }
        if allObjectProperties != null {
          Unchanged(allObjectProperties);
        }
        assert PropsModel() == Made(map[]);
      }
    }

    /** `if v.arrayElements == nil { v.arrayElements = &value{} }` */
    method EnsureArrayElements()
      requires Valid()
      modifies this
      ensures Valid() && fresh(Repr - old(Repr)) && arrayElements != null
      ensures Model() == old(Model()).(arrayElements := Some(old(Model()).arrayElements.GetOr(Empty)))
    {
      if arrayElements == null {
        var e := new Value();
        arrayElements := e;
        Repr := Repr + e.Repr;
        ElementsReplaced();
      }
    }

    /** Allocates the accumulator of all property values on first use. */
    method AttachAllObjectProperties()
      requires Valid() && allObjectProperties == null
      modifies this
      ensures Valid() && fresh(Repr - old(Repr)) && allObjectProperties != null
      ensures objectProperties == old(objectProperties)
      ensures Model() == old(Model()).(allObjectProperties := Some(Empty))
    {
      var e := new Value();
      allObjectProperties := e;
      Repr := Repr + e.Repr;
      AllReplaced();
    }

    /** Allocates the accumulator of one property name on its first appearance. */
    method AttachProperty(property: string)
      requires Valid() && objectProperties.Some? && property !in Props()
      modifies this
      ensures Valid() && fresh(Repr - old(Repr)) && objectProperties.Some? && property in Props()
      ensures Model() == old(Model()).(objectProperties := Made(PropsOf(old(Model()))[property := Empty]))
    {
      var e := new Value();
      objectProperties := Some(Props()[property := e]);
      Repr := Repr + e.Repr;
      KeyReplaced(property);
    }

    /** The body of observe for a non-nil receiver. */
    method Add(a: Any, p: Parsers)
      requires Valid()
      modifies Repr
      ensures Valid() && fresh(Repr - old(Repr))
      ensures Model() == ValueSummary.Observe(Some(old(Model())), a, p)
      decreases a, 2
    {
      match a {
        case Array(es) =>
          AddArray(es, p);
        case Object(ps) =>
          AddObject(ps, p);
        case _ =>
          AddOther(a, p);
      }
    }

    /** observe for a value that is neither an array nor an object. */
    method AddOther(a: Any, p: Parsers)
      requires Valid() && !a.Array? && !a.Object?
      modifies this
      ensures Valid() && Repr == old(Repr)
      ensures Model() == ValueSummary.Observe(Some(old(Model())), a, p)
    {
      ObserveScalar(Model(), a, p);
      AddScalar(a, p);
      CountersOnly();
    }

    /** observe for a value that is neither an array nor an object: counters only. */
    method AddScalar(a: Any, p: Parsers)
      requires !a.Array? && !a.Object?
      modifies this
      ensures Repr == old(Repr) && arrayElements == old(arrayElements)
      ensures allObjectProperties == old(allObjectProperties) && objectProperties == old(objectProperties)
      ensures observations == old(observations) + 1 && arrays == old(arrays) && objects == old(objects)
      ensures bools == old(bools) + (if a.Bool? then 1 else 0)
      ensures empties == old(empties) + (if EmptyLike(a) then 1 else 0)
      ensures float64s == old(float64s) + (if a.Float64? || (a.Number? && !p.parsesInt64(a.text)) then 1 else 0)
      ensures ints == old(ints) + (if a.Int? || (a.Number? && p.parsesInt64(a.text)) then 1 else 0)
      ensures nulls == old(nulls) + (if a.Null? then 1 else 0)
      ensures times == old(times) + (if a.Str? && old(times) == old(strings) && p.parsesTime(a.s) then 1 else 0)
      ensures strings == old(strings) + (if a.Str? then 1 else 0)
    {
      observations := observations + 1;
      match a {
        case Bool(b) =>
          bools := bools + 1;
          if !b {
            empties := empties + 1;
          }
        case Float64(isZero) =>
          float64s := float64s + 1;
          if isZero {
            empties := empties + 1;
          }
        case Int(i) =>
          ints := ints + 1;
          if i == 0 {
            empties := empties + 1;
          }
        case Null =>
          nulls := nulls + 1;
        case Str(s) =>
          if s == "" {
            empties := empties + 1;
          }
          if times == strings && p.parsesTime(s) {
            times := times + 1;
          }
          strings := strings + 1;
        case Number(text) =>
          if p.parsesInt64(text) {
            ints := ints + 1;
          } else {
            float64s := float64s + 1;
          }
        case Unrecognized =>
      }
    }

    /** The array case of observe. */
    method AddArray(es: seq<Any>, p: Parsers)
      requires Valid()
      modifies Repr
      ensures Valid() && fresh(Repr - old(Repr))
      ensures Model() == ValueSummary.Observe(Some(old(Model())), Array(es), p)
      decreases es, 2
    {
      ghost var m0 := Model();
      BeginArray(|es| == 0);
      AddElements(es, p);
      ObserveArray(m0, es, p);
    }

    /** The counters of the array case, and the element node allocated on first use. */
    method BeginArray(empty: bool)
      requires Valid()
      modifies this
      ensures Valid() && fresh(Repr - old(Repr)) && arrayElements != null
      ensures Model() == old(Model()).(observations := old(Model()).observations + 1, arrays := old(Model()).arrays + 1,
                                       empties := old(Model()).empties + (if empty then 1 else 0),
                                       arrayElements := Some(old(Model()).arrayElements.GetOr(Empty)))
    {
      CountArray(empty);
      EnsureArrayElements();
    }

    /** The counters of the array case. */
    method CountArray(empty: bool)
      requires Valid()
      modifies this
      ensures Valid() && Repr == old(Repr)
      ensures Model() == old(Model()).(observations := old(Model()).observations + 1, arrays := old(Model()).arrays + 1,
                                       empties := old(Model()).empties + (if empty then 1 else 0))
    {
      observations, arrays := observations + 1, arrays + 1;
      if empty {
        empties := empties + 1;
      }
      CountersOnly();
    }

    /** The element loop: `for _, e := range a { v.arrayElements = v.arrayElements.observe(e) }` */
    method AddElements(es: seq<Any>, p: Parsers)
      requires Valid() && arrayElements != null
      modifies Repr
      ensures Valid() && fresh(Repr - old(Repr))
      ensures Model() == old(Model()).(arrayElements := Some(ObserveElements(old(Model()).arrayElements.value, es, p)))
      decreases es, 1
    {
      ghost var start := Model();
      ghost var elements := start.arrayElements.value;
      var i := 0;
      while i < |es|
        invariant 0 <= i <= |es|
        invariant Valid() && fresh(Repr - old(Repr))
        invariant arrayElements != null
        invariant elements == ObserveElements(start.arrayElements.value, es[..i], p)
        invariant Model() == start.(arrayElements := Some(elements))
      {
        AddElement(es[i], p);
        ObserveElementsNext(start.arrayElements.value, es, i, p);
        elements := ValueSummary.Observe(Some(elements), es[i], p);
        i := i + 1;
      }
      assert es[..|es|] == es;
    }

    /** One iteration of the element loop: `v.arrayElements = v.arrayElements.observe(e)`. */
    method AddElement(e: Any, p: Parsers)
      requires Valid() && arrayElements != null
      modifies Repr
      ensures Valid() && fresh(Repr - old(Repr)) && arrayElements != null
      ensures Model() == old(Model()).(arrayElements := Some(ValueSummary.Observe(old(Model()).arrayElements, e, p)))
      decreases e, 3
    {
      var child := arrayElements;
      child.Add(e, p);
      Repr := Repr + child.Repr;
      ElementsReplaced();
    }

    /** The object case of observe. */
    method AddObject(ps: seq<Property>, p: Parsers)
      requires Valid()
      modifies Repr
      ensures Valid() && fresh(Repr - old(Repr))
      ensures Model() == ValueSummary.Observe(Some(old(Model())), Object(ps), p)
      decreases ps, 2
    {
      ghost var m0 := Model();
      BeginObject(|ps| == 0);
      AddProperties(ps, p);
      ObserveObject(m0, ps, p);
    }

    /** The counters of the object case, and the property map made on first use. */
    method BeginObject(empty: bool)
      requires Valid()
      modifies this
      ensures Valid() && Repr == old(Repr) && objectProperties.Some?
      ensures Model() == old(Model()).(observations := old(Model()).observations + 1, objects := old(Model()).objects + 1,
                                       empties := old(Model()).empties + (if empty then 1 else 0),
                                       objectProperties := Made(PropsOf(old(Model()))))
    {
      CountObject(empty);
      EnsureProps();
    }

    /** The counters of the object case. */
    method CountObject(empty: bool)
      requires Valid()
      modifies this
      ensures Valid() && Repr == old(Repr)
      ensures Model() == old(Model()).(observations := old(Model()).observations + 1, objects := old(Model()).objects + 1,
                                       empties := old(Model()).empties + (if empty then 1 else 0))
    {
      observations, objects := observations + 1, objects + 1;
      if empty {
        empties := empties + 1;
      }
      CountersOnly();
    }

    /** The mapping loop: each value observed into `allObjectProperties` and into its key's node. */
    method AddProperties(ps: seq<Property>, p: Parsers)
      requires Valid() && objectProperties.Some?
      modifies Repr
      ensures Valid() && fresh(Repr - old(Repr)) && objectProperties.Some?
      ensures var (all, props) := ObserveProperties(old(Model()).allObjectProperties, PropsOf(old(Model())), ps, p);
              Model() == old(Model()).(allObjectProperties := all, objectProperties := Made(props))
      decreases ps, 1
    {
      ghost var start := Model();
      ghost var acc := (start.allObjectProperties, PropsOf(start));
      var i := 0;
      while i < |ps|
        invariant 0 <= i <= |ps|
        invariant Valid() && fresh(Repr - old(Repr)) && objectProperties.Some?
        invariant acc == ObserveProperties(start.allObjectProperties, PropsOf(start), ps[..i], p)
        invariant Model() == start.(allObjectProperties := acc.0, objectProperties := Made(acc.1))
      {
        AddProperty(ps[i], p);
        ObservePropertiesNext(start.allObjectProperties, PropsOf(start), ps, i, p);
        acc := ObserveProperty(acc, ps[i], p);
        i := i + 1;
      }
      assert ps[..|ps|] == ps;
    }

    /** One iteration of the mapping loop. */
    method AddProperty(prop: Property, p: Parsers)
      requires Valid() && objectProperties.Some?
      modifies Repr
      ensures Valid() && fresh(Repr - old(Repr)) && objectProperties.Some?
      ensures var (all, props) := ObserveProperty((old(Model()).allObjectProperties, PropsOf(old(Model()))), prop, p);
              Model() == old(Model()).(allObjectProperties := all, objectProperties := Made(props))
      decreases prop, 4
    {
      AddToAll(prop.value, p);
      AddToKey(prop.key, prop.value, p);
    }

    /** `v.allObjectProperties = v.allObjectProperties.observe(value)` */
    method AddToAll(value: Any, p: Parsers)
      requires Valid()
      modifies Repr
      ensures Valid() && fresh(Repr - old(Repr))
      ensures objectProperties == old(objectProperties)
      ensures Model() == old(Model()).(allObjectProperties := Some(ValueSummary.Observe(old(Model()).allObjectProperties, value, p)))
      decreases value, 5
    {
      if allObjectProperties == null {
        AttachAllObjectProperties();
        ObserveNone(value, p);
      }
      UpdateAll(value, p);
    }

    /** Observes `value` into the existing accumulator of all property values. */
    method UpdateAll(value: Any, p: Parsers)
      requires Valid() && allObjectProperties != null
      modifies Repr
      ensures Valid() && fresh(Repr - old(Repr))
      ensures objectProperties == old(objectProperties)
      ensures Model() == old(Model()).(allObjectProperties := Some(ValueSummary.Observe(old(Model()).allObjectProperties, value, p)))
      decreases value, 4
    {
      UpdateAllChild(value, p, allObjectProperties.Model());
      AllReplaced();
    }

    /** The update of the accumulator node in place; `before` is its Summary beforehand. */
    method UpdateAllChild(value: Any, p: Parsers, ghost before: Summary)
      requires Valid() && allObjectProperties != null && allObjectProperties.Model() == before
      modifies Repr
      ensures allObjectProperties == old(allObjectProperties) && allObjectProperties != null
      ensures allObjectProperties.Valid() && this !in allObjectProperties.Repr
      ensures fresh(allObjectProperties.Repr - old(allObjectProperties.Repr))
      ensures unchanged(old(Repr) - {this} - old(allObjectProperties.Repr))
      ensures Repr == old(Repr) + allObjectProperties.Repr
      ensures arrayElements == old(arrayElements) && objectProperties == old(objectProperties)
      ensures CountsUnchanged()
      ensures allObjectProperties.Model() == ValueSummary.Observe(Some(before), value, p)
      decreases value, 3
    {
      var child := allObjectProperties;
      assert this !in child.Repr && child.Repr <= Repr - {this};
      child.Add(value, p);
      assert allObjectProperties == child;
      Repr := Repr + child.Repr;
    }

    /** `v.objectProperties[property] = v.objectProperties[property].observe(value)` */
    method AddToKey(property: string, value: Any, p: Parsers)
      requires Valid() && objectProperties.Some?
      modifies Repr
      ensures Valid() && fresh(Repr - old(Repr)) && objectProperties.Some?
      ensures Model() == old(Model()).(objectProperties := Made(PropsOf(old(Model()))[property :=
                ValueSummary.Observe(if property in PropsOf(old(Model())) then Some(PropsOf(old(Model()))[property]) else None, value, p)]))
      decreases value, 5
    {
      ghost var start := Model();
      PropKeys();
      if property !in Props() {
        AttachProperty(property);
      }
      ghost var attached := Model();
      ObserveExistingKey(property, value, p);
      ObserveAtKey(start, attached, Model(), property, value, p);
    }

    /** `v.objectProperties[property] = v.objectProperties[property].observe(value)` for a key already present. */
    method ObserveExistingKey(property: string, value: Any, p: Parsers)
      requires Valid() && objectProperties.Some? && property in Props()
      modifies Repr
      ensures Valid() && fresh(Repr - old(Repr)) && objectProperties.Some?
      ensures property in PropsOf(old(Model()))
      ensures Model() == old(Model()).(objectProperties := Made(PropsOf(old(Model()))[property :=
                ValueSummary.Observe(Some(PropsOf(old(Model()))[property]), value, p)]))
      decreases value, 4
    {
      PropModel(property);
      label Present:
      UpdateKey(property, value, p, Props()[property].Model());
      KeyUpdated@Present(property);
    }

    /** The update of an existing per-key child in place; `before` is its Summary beforehand. */
    method UpdateKey(property: string, value: Any, p: Parsers, ghost before: Summary)
      requires Valid() && objectProperties.Some? && property in Props() && Props()[property].Model() == before
      modifies Repr
      ensures objectProperties == old(objectProperties) && property in Props()
      ensures Props()[property].Valid() && this !in Props()[property].Repr
      ensures fresh(Props()[property].Repr - old(Props()[property].Repr))
      ensures unchanged(old(Repr) - {this} - old(Props()[property].Repr))
      ensures Repr == old(Repr) + Props()[property].Repr
      ensures arrayElements == old(arrayElements) && allObjectProperties == old(allObjectProperties)
      ensures CountsUnchanged()
      ensures Props()[property].Model() == ValueSummary.Observe(Some(before), value, p)
      decreases value, 3
    {
      var child := Props()[property];
      assert this !in child.Repr && child.Repr <= Repr - {this};
      child.Add(value, p);
      assert objectProperties == old(objectProperties) && Props()[property] == child;
      Repr := Repr + child.Repr;
    }
  }
}
