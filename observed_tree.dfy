/**
 * observedvalue.go, the older accumulator as the source has it: a tree of
 * heap nodes whose counters `Merge` increments in place, allocating children
 * on demand.
 */
module ObservedTree {
  import opened Wrappers
  import opened Decoded
  import opened ObservedSummary

  /** A map that agrees with `before` except that `key` maps to `v` is `before[key := v]`. */
  lemma UpdatedAt<K, V>(now: map<K, V>, before: map<K, V>, key: K, v: V)
    requires now.Keys == before.Keys + {key} && now[key] == v
    requires forall k :: k in now && k != key ==> k in before && now[k] == before[k]
    ensures now == before[key := v]
  {
  }

  /**
   * Observing `value` under `property` of `start`, whether or not that key was
   * present, through allocating its node first (`attached`) when it was not.
   */
  lemma MergeAtKey(start: Observed, attached: Observed, final: Observed, property: string, value: Any, p: Parsers)
    requires property in PropsOf(start) ==> attached == start
    requires property !in PropsOf(start) ==> attached == start.(objectPropertyValue := Made(PropsOf(start)[property := Empty]))
    requires property in PropsOf(attached)
    requires final == attached.(objectPropertyValue := Made(PropsOf(attached)[property :=
               ObservedSummary.Merge(Some(PropsOf(attached)[property]), value, p)]))
    ensures final == start.(objectPropertyValue := Made(PropsOf(start)[property :=
               ObservedSummary.Merge(if property in PropsOf(start) then Some(PropsOf(start)[property]) else None, value, p)]))
  {
    if property !in PropsOf(start) {
      MergeNone(value, p);
      var observed := ObservedSummary.Merge(None, value, p);
      assert PropsOf(attached)[property := observed] == PropsOf(start)[property := observed];
    }
  }

  /** Two maps with the same keys and the same value at every key are equal. */
  lemma SameMap<K, V>(now: map<K, V>, before: map<K, V>)
    requires now.Keys == before.Keys
    requires forall k :: k in now ==> now[k] == before[k]
    ensures now == before
  {
  }

  /** One `ObservedValue`. `Model()` is the node's state as an Observed; `Repr` its footprint. */
  class ObservedValue {
    var observations: nat
    var arrays: nat
    var bools: nat
    var float64s: nat
    var ints: nat
    var nulls: nat
    var objects: nat
    var strings: nat
    var times: nat
    var empty: nat
    var allArrayElementValues: ObservedValue?
    var allObjectPropertyValues: ObservedValue?
    var objectPropertyValue: Option<map<string, ObservedValue>>

    ghost var Repr: set<object>

    /** The per-key children; a nil map has none. */
    function Props(): map<string, ObservedValue>
      reads this`objectPropertyValue
    {
      objectPropertyValue.GetOr(map[])
    }

    /** `c` is an exclusively owned, valid child of this node. */
    ghost predicate Owns(c: ObservedValue)
      reads this`Repr, c`Repr
    {
      c in c.Repr && c.Repr <= Repr && this !in c.Repr
    }

    ghost predicate Valid()
      reads this`Repr, this`allArrayElementValues, this`allObjectPropertyValues, this`objectPropertyValue, Repr - {this}
      decreases Repr, 1
    {
      && this in Repr
      && (allArrayElementValues != null ==> allArrayElementValues in Repr - {this} && Owns(allArrayElementValues) && allArrayElementValues.Valid())
      && (allObjectPropertyValues != null ==> allObjectPropertyValues in Repr - {this} && Owns(allObjectPropertyValues) && allObjectPropertyValues.Valid())
      && (forall k :: k in Props() ==> Props()[k] in Repr - {this} && Owns(Props()[k]) && Props()[k].Valid())
      // no two children share a node
      && (allArrayElementValues != null && allObjectPropertyValues != null ==> allArrayElementValues.Repr !! allObjectPropertyValues.Repr)
      && (forall k :: k in Props() && allArrayElementValues != null ==> allArrayElementValues.Repr !! Props()[k].Repr)
      && (forall k :: k in Props() && allObjectPropertyValues != null ==> allObjectPropertyValues.Repr !! Props()[k].Repr)
      && (forall k, j :: k in Props() && j in Props() && k != j ==> Props()[k].Repr !! Props()[j].Repr)
    }

    /** The node's state as an Observed. */
    ghost function Model(): Observed
      requires Valid()
      reads this, Repr
      decreases Repr, 2
    {
      Observed(observations, arrays, bools, float64s, ints, nulls, objects, strings, times, empty,
              if allArrayElementValues == null then None else Some(allArrayElementValues.Model()),
              if allObjectPropertyValues == null then None else Some(allObjectPropertyValues.Model()),
              PropsModel())
    }

    /** The Observed states of the per-key children; a nil map stays nil. */
    ghost function PropsModel(): PropertyValues
      requires Valid()
      reads this`Repr, this`allArrayElementValues, this`allObjectPropertyValues, this`objectPropertyValue, Repr - {this}
      decreases Repr, 1
    {
      if objectPropertyValue.None? then NilMap else Made(map k | k in Props() :: Props()[k].Model())
    }

    /** `&ObservedValue{}` */
    constructor ()
      ensures Valid() && fresh(Repr)
      ensures Model() == Empty
    {
      observations, empty := 0, 0;
      arrays, bools, float64s, ints, nulls, objects, strings, times := 0, 0, 0, 0, 0, 0, 0, 0;
      allArrayElementValues, allObjectPropertyValues := null, null;
      objectPropertyValue := None;
      Repr := {this};
    }

    /**
     * Merge: merges `a` into `o`, replacing a nil `o` by a fresh node, and
     * returns the node; its new state is ObservedSummary.Merge of the old one.
     */
    static method Merge(v: ObservedValue?, a: Any, p: Parsers) returns (r: ObservedValue)
      requires v != null ==> v.Valid()
      modifies if v != null then v.Repr else {}
      ensures r.Valid()
      ensures v != null ==> r == v
      ensures fresh(r.Repr - (if v != null then old(v.Repr) else {}))
      ensures r.Model() == ObservedSummary.Merge(if v != null then Some(old(v.Model())) else None, a, p)
    {
      if v == null {
        r := new ObservedValue();
      } else {
        r := v;
      }
      r.Add(a, p);
    }

    /** A node none of whose footprint changed keeps its validity and its Observed. */
    static twostate lemma Unchanged(c: ObservedValue)
      requires old(c.Valid())
      requires unchanged(old(c.Repr))
      ensures c.Valid() && c.Repr == old(c.Repr) && c.Model() == old(c.Model())
    {
    }

    /**
     * After a write to this node's own counters only, the node is still valid
     * and its Observed changed in those counters only.
     */
    twostate lemma CountersOnly()
      requires old(Valid())
      requires unchanged(old(Repr) - {this})
      requires Repr == old(Repr) && allArrayElementValues == old(allArrayElementValues)
      requires allObjectPropertyValues == old(allObjectPropertyValues) && objectPropertyValue == old(objectPropertyValue)
      ensures Valid()
      ensures Model() == old(Model()).(observations := observations, empty := empty, arrays := arrays,
                                       bools := bools, float64s := float64s, ints := ints, nulls := nulls,
                                       objects := objects, strings := strings, times := times)
    {
      if allArrayElementValues != null {
        Unchanged(allArrayElementValues);
      }
      if allObjectPropertyValues != null {
        Unchanged(allObjectPropertyValues);
      }
      forall k | k in Props()
        ensures Props()[k].Model() == old(Props()[k].Model())
      {
        Unchanged(Props()[k]);
      }
      PropsKept();
    }

    /** With the map and every per-key state as it was, so are the per-key Observed states. */
    twostate lemma PropsKept()
      requires old(Valid()) && Valid() && objectPropertyValue == old(objectPropertyValue)
      requires forall k :: k in Props() ==> Props()[k].Model() == old(Props()[k].Model())
      ensures PropsModel() == old(PropsModel())
    {
      if objectPropertyValue.Some? {
        PropsModelNow();
        OldPropsModel();
        ghost var now := PropsModel().m;
        ghost var before := old(PropsModel()).m;
        forall k | k in now
          ensures now[k] == before[k]
        {
        }
        SameMap(now, before);
      }
    }

    /** The counters of this node are as they were. */
    twostate predicate CountsUnchanged()
      reads this
    {
      && observations == old(observations) && empty == old(empty) && arrays == old(arrays)
      && bools == old(bools) && float64s == old(float64s) && ints == old(ints) && nulls == old(nulls)
      && objects == old(objects) && strings == old(strings) && times == old(times)
    }

    /**
     * After `allArrayElementValues` was allocated or updated in place (its footprint
     * grown by fresh objects only) and nothing else changed, the node is valid
     * and its Observed changed in that child only.
     */
    twostate lemma ElementsReplaced()
      requires old(Valid())
      requires allArrayElementValues != null && allArrayElementValues.Valid() && this !in allArrayElementValues.Repr
      requires old(allArrayElementValues) == null || old(allArrayElementValues) == allArrayElementValues
      requires fresh(allArrayElementValues.Repr - (if old(allArrayElementValues) == null then {} else old(allArrayElementValues.Repr)))
      requires unchanged(old(Repr) - {this} - (if old(allArrayElementValues) == null then {} else old(allArrayElementValues.Repr)))
      requires Repr == old(Repr) + allArrayElementValues.Repr
      requires allObjectPropertyValues == old(allObjectPropertyValues) && objectPropertyValue == old(objectPropertyValue)
      requires CountsUnchanged()
      ensures Valid()
      ensures Model() == old(Model()).(allArrayElementValues := Some(allArrayElementValues.Model()))
    {
      ElementsValid();
      PropsKept();
    }

    /** Under the conditions of ElementsReplaced the node is valid and its other children kept their states. */
    twostate lemma ElementsValid()
      requires old(Valid())
      requires allArrayElementValues != null && allArrayElementValues.Valid() && this !in allArrayElementValues.Repr
      requires old(allArrayElementValues) == null || old(allArrayElementValues) == allArrayElementValues
      requires fresh(allArrayElementValues.Repr - (if old(allArrayElementValues) == null then {} else old(allArrayElementValues.Repr)))
      requires unchanged(old(Repr) - {this} - (if old(allArrayElementValues) == null then {} else old(allArrayElementValues.Repr)))
      requires Repr == old(Repr) + allArrayElementValues.Repr
      requires allObjectPropertyValues == old(allObjectPropertyValues) && objectPropertyValue == old(objectPropertyValue)
      requires CountsUnchanged()
      ensures Valid()
      ensures allObjectPropertyValues != null ==> allObjectPropertyValues.Model() == old(allObjectPropertyValues.Model())
      ensures forall k :: k in Props() ==> Props()[k].Model() == old(Props()[k].Model())
    {
      if allObjectPropertyValues != null {
        Unchanged(allObjectPropertyValues);
      }
      forall k | k in Props()
        ensures Props()[k].Valid() && Props()[k].Repr == old(Props()[k].Repr) && Props()[k].Model() == old(Props()[k].Model())
      {
        Unchanged(Props()[k]);
      }
    }

    /** As ElementsReplaced, for `allObjectPropertyValues`. */
    twostate lemma AllReplaced()
      requires old(Valid())
      requires allObjectPropertyValues != null && allObjectPropertyValues.Valid() && this !in allObjectPropertyValues.Repr
      requires old(allObjectPropertyValues) == null || old(allObjectPropertyValues) == allObjectPropertyValues
      requires fresh(allObjectPropertyValues.Repr - (if old(allObjectPropertyValues) == null then {} else old(allObjectPropertyValues.Repr)))
      requires unchanged(old(Repr) - {this} - (if old(allObjectPropertyValues) == null then {} else old(allObjectPropertyValues.Repr)))
      requires Repr == old(Repr) + allObjectPropertyValues.Repr
      requires allArrayElementValues == old(allArrayElementValues) && objectPropertyValue == old(objectPropertyValue)
      requires CountsUnchanged()
      ensures Valid()
      ensures Model() == old(Model()).(allObjectPropertyValues := Some(allObjectPropertyValues.Model()))
    {
      AllValid();
      PropsKept();
    }

    /** Under the conditions of AllReplaced the node is valid and its other children kept their states. */
    twostate lemma AllValid()
      requires old(Valid())
      requires allObjectPropertyValues != null && allObjectPropertyValues.Valid() && this !in allObjectPropertyValues.Repr
      requires old(allObjectPropertyValues) == null || old(allObjectPropertyValues) == allObjectPropertyValues
      requires fresh(allObjectPropertyValues.Repr - (if old(allObjectPropertyValues) == null then {} else old(allObjectPropertyValues.Repr)))
      requires unchanged(old(Repr) - {this} - (if old(allObjectPropertyValues) == null then {} else old(allObjectPropertyValues.Repr)))
      requires Repr == old(Repr) + allObjectPropertyValues.Repr
      requires allArrayElementValues == old(allArrayElementValues) && objectPropertyValue == old(objectPropertyValue)
      requires CountsUnchanged()
      ensures Valid()
      ensures allArrayElementValues != null ==> allArrayElementValues.Model() == old(allArrayElementValues.Model())
      ensures forall k :: k in Props() ==> Props()[k].Model() == old(Props()[k].Model())
    {
      if allArrayElementValues != null {
        Unchanged(allArrayElementValues);
      }
      forall k | k in Props()
        ensures Props()[k].Valid() && Props()[k].Repr == old(Props()[k].Repr) && Props()[k].Model() == old(Props()[k].Model())
      {
        Unchanged(Props()[k]);
      }
    }

    /**
     * The child under `property` was allocated or updated in place (its
     * footprint grown by fresh objects only) and nothing else changed.
     */
    twostate predicate KeyGrown(property: string)
      reads *
    {
      && old(Valid()) && old(objectPropertyValue).Some? && objectPropertyValue.Some?
      && property in Props() && Props()[property].Valid() && this !in Props()[property].Repr
      && (property !in old(Props()) || old(Props())[property] == Props()[property])
      && Props() == old(Props())[property := Props()[property]]
      && fresh(Props()[property].Repr - (if property !in old(Props()) then {} else old(Props()[property].Repr)))
      && unchanged(old(Repr) - {this} - (if property !in old(Props()) then {} else old(Props()[property].Repr)))
      && Repr == old(Repr) + Props()[property].Repr
      && allArrayElementValues == old(allArrayElementValues) && allObjectPropertyValues == old(allObjectPropertyValues)
      && CountsUnchanged()
    }

    /** After KeyGrown every other child is as it was. */
    twostate lemma KeySiblingsKept(property: string)
      requires KeyGrown(property)
      ensures allArrayElementValues != null ==> allArrayElementValues.Valid() && allArrayElementValues.Repr == old(allArrayElementValues.Repr) && allArrayElementValues.Model() == old(allArrayElementValues.Model())
      ensures allObjectPropertyValues != null ==> allObjectPropertyValues.Valid() && allObjectPropertyValues.Repr == old(allObjectPropertyValues.Repr) && allObjectPropertyValues.Model() == old(allObjectPropertyValues.Model())
      ensures forall k :: k in Props() && k != property ==> Props()[k].Valid() && Props()[k].Repr == old(Props()[k].Repr) && Props()[k].Model() == old(Props()[k].Model())
    {
      if allArrayElementValues != null {
        Unchanged(allArrayElementValues);
      }
      if allObjectPropertyValues != null {
        Unchanged(allObjectPropertyValues);
      }
      forall k | k in Props() && k != property
        ensures Props()[k].Valid() && Props()[k].Repr == old(Props()[k].Repr) && Props()[k].Model() == old(Props()[k].Model())
      {
        Unchanged(Props()[k]);
      }
    }

    /** Under the same conditions the node is still valid. */
    twostate lemma KeyValid(property: string)
      requires KeyGrown(property)
      ensures Valid()
      ensures allArrayElementValues != null ==> allArrayElementValues.Model() == old(allArrayElementValues.Model())
      ensures allObjectPropertyValues != null ==> allObjectPropertyValues.Model() == old(allObjectPropertyValues.Model())
      ensures forall k :: k in Props() && k != property ==> Props()[k].Model() == old(Props()[k].Model())
    {
      KeySiblingsKept(property);
      KeyDisjoint(property);
    }

    /** After KeyGrown the child under `property` shares no node with any other child. */
    twostate lemma KeyDisjoint(property: string)
      requires KeyGrown(property)
      ensures Props()[property] in Repr - {this} && Owns(Props()[property])
      ensures allArrayElementValues != null ==> allArrayElementValues.Repr !! Props()[property].Repr
      ensures allObjectPropertyValues != null ==> allObjectPropertyValues.Repr !! Props()[property].Repr
      ensures forall k :: k in Props() && k != property ==> Props()[k].Repr !! Props()[property].Repr
    {
      KeySiblingsKept(property);
    }

    /** Under the same conditions the node's Observed changed under `property` only. */
    twostate lemma KeyReplaced(property: string)
      requires KeyGrown(property)
      ensures Valid()
      ensures Model() == old(Model()).(objectPropertyValue := Made(PropsOf(old(Model()))[property := Props()[property].Model()]))
    {
      KeyValid(property);
      KeyModels(property);
      assert old(PropsOf(Model())) == old(PropsModel()).m;
    }

    /** KeyReplaced for a child updated in place, the map itself untouched. */
    twostate lemma KeyUpdated(property: string)
      requires old(Valid()) && objectPropertyValue.Some? && objectPropertyValue == old(objectPropertyValue) && property in Props()
      requires Props()[property].Valid() && this !in Props()[property].Repr
      requires fresh(Props()[property].Repr - old(Props()[property].Repr))
      requires unchanged(old(Repr) - {this} - old(Props()[property].Repr))
      requires Repr == old(Repr) + Props()[property].Repr
      requires allArrayElementValues == old(allArrayElementValues) && allObjectPropertyValues == old(allObjectPropertyValues)
      requires CountsUnchanged()
      ensures Valid()
      ensures Model() == old(Model()).(objectPropertyValue := Made(PropsOf(old(Model()))[property := Props()[property].Model()]))
    {
      assert Props() == old(Props())[property := Props()[property]];
      KeyReplaced(property);
    }

    /** The per-key Observed states after only the child under `property` changed. */
    twostate lemma KeyModels(property: string)
      requires old(Valid()) && Valid() && old(objectPropertyValue).Some? && objectPropertyValue.Some?
      requires property in Props() && Props().Keys == old(Props()).Keys + {property}
      requires forall k :: k in Props() && k != property ==> Props()[k] == old(Props())[k] && Props()[k].Model() == old(Props()[k].Model())
      ensures old(PropsModel()).Made?
      ensures PropsModel() == Made(old(PropsModel()).m[property := Props()[property].Model()])
    {
      PropsModelNow();
      OldPropsModel();
      ghost var now := PropsModel().m;
      ghost var before := old(PropsModel()).m;
      forall k | k in now && k != property
        ensures k in before && now[k] == before[k]
      {
      }
      UpdatedAt(now, before, property, Props()[property].Model());
    }

    /** The per-key Observed states, one per child. */
    lemma PropsModelNow()
      requires Valid() && objectPropertyValue.Some?
      ensures PropsModel().Made? && PropsModel().m.Keys == Props().Keys
      ensures forall k :: k in Props() ==> PropsModel().m[k] == Props()[k].Model()
    {
    }

    /** PropsModelNow in the earlier state. */
    twostate lemma OldPropsModel()
      requires old(Valid()) && old(objectPropertyValue).Some?
      ensures old(PropsModel()).Made? && old(PropsModel()).m.Keys == old(Props()).Keys
      ensures forall k :: k in old(Props()) ==> old(PropsModel()).m[k] == old(Props()[k].Model())
    {
    }

    /** The Observed under `property` is that of the child under `property`. */
    lemma PropModel(property: string)
      requires Valid() && objectPropertyValue.Some? && property in Props()
      ensures Model().objectPropertyValue.Made? && property in PropsOf(Model())
      ensures PropsOf(Model())[property] == Props()[property].Model()
    {
      assert PropsModel() == Made(map k | k in Props() :: Props()[k].Model());
    }

    /** The child under `property`, as GoType reads it: valid, owned, and the Observed state under that key. */
    lemma PropChild(property: string)
      requires Valid() && property in Props()
      ensures Props()[property].Valid() && Props()[property].Repr < Repr
      ensures objectPropertyValue.Some? && Model().objectPropertyValue.Made? && property in Model().objectPropertyValue.m
      ensures Model().objectPropertyValue.m[property] == Props()[property].Model()
    {
      PropModel(property);
    }

    /** The element child, as GoType reads it. */
    lemma ElementsChild()
      requires Valid()
      ensures allArrayElementValues != null <==> Model().allArrayElementValues.Some?
      ensures allArrayElementValues != null ==> allArrayElementValues.Valid() && allArrayElementValues.Repr < Repr && Model().allArrayElementValues.value == allArrayElementValues.Model()
    {
    }

    /** The child merging all property values, as GoType reads it. */
    lemma AllChild()
      requires Valid()
      ensures allObjectPropertyValues != null <==> Model().allObjectPropertyValues.Some?
      ensures allObjectPropertyValues != null ==> allObjectPropertyValues.Valid() && allObjectPropertyValues.Repr < Repr && Model().allObjectPropertyValues.value == allObjectPropertyValues.Model()
    {
    }

    /** The keys of the per-key Observed states are those of the per-key children. */
    lemma PropKeys()
      requires Valid()
      ensures PropsOf(Model()).Keys == Props().Keys
    {
      assert PropsModel() == if objectPropertyValue.None? then NilMap else Made(map k | k in Props() :: Props()[k].Model());
    }

    /** `if v.objectPropertyValue == nil { v.objectPropertyValue = make(map[string]*value) }` */
    method EnsureProps()
      requires Valid()
      modifies this
      ensures Valid() && Repr == old(Repr) && objectPropertyValue.Some?
      ensures Model() == old(Model()).(objectPropertyValue := Made(PropsOf(old(Model()))))
    {
      if objectPropertyValue.None? {
        objectPropertyValue := Some(map[]);
        if allArrayElementValues != null {
          Unchanged(allArrayElementValues);
        }
        if allObjectPropertyValues != null {
          Unchanged(allObjectPropertyValues);
        }
        assert PropsModel() == Made(map[]);
      }
    }

    /** `if v.allArrayElementValues == nil { v.allArrayElementValues = &value{} }` */
    method EnsureArrayElements()
      requires Valid()
      modifies this
      ensures Valid() && fresh(Repr - old(Repr)) && allArrayElementValues != null
      ensures Model() == old(Model()).(allArrayElementValues := Some(old(Model()).allArrayElementValues.GetOr(Empty)))
    {
      if allArrayElementValues == null {
        var e := new ObservedValue();
        allArrayElementValues := e;
        Repr := Repr + e.Repr;
        ElementsReplaced();
      }
    }

    /** Allocates the accumulator of all property values on first use. */
    method AttachAllObjectProperties()
      requires Valid() && allObjectPropertyValues == null
      modifies this
      ensures Valid() && fresh(Repr - old(Repr)) && allObjectPropertyValues != null
      ensures objectPropertyValue == old(objectPropertyValue)
      ensures Model() == old(Model()).(allObjectPropertyValues := Some(Empty))
    {
      var e := new ObservedValue();
      allObjectPropertyValues := e;
      Repr := Repr + e.Repr;
      AllReplaced();
    }

    /** Allocates the accumulator of one property name on its first appearance. */
    method AttachProperty(property: string)
      requires Valid() && objectPropertyValue.Some? && property !in Props()
      modifies this
      ensures Valid() && fresh(Repr - old(Repr)) && objectPropertyValue.Some? && property in Props()
      ensures Model() == old(Model()).(objectPropertyValue := Made(PropsOf(old(Model()))[property := Empty]))
    {
      var e := new ObservedValue();
      objectPropertyValue := Some(Props()[property := e]);
      Repr := Repr + e.Repr;
      KeyReplaced(property);
    }

    /** The body of Merge for a non-nil receiver. */
    method Add(a: Any, p: Parsers)
      requires Valid()
      modifies Repr
      ensures Valid() && fresh(Repr - old(Repr))
      ensures Model() == ObservedSummary.Merge(Some(old(Model())), a, p)
      decreases a, 2
    {
      match a {
        case Array(es) =>
          AddArray(es, p);
        case Object(ps) =>
          AddObject(ps, p);
        case _ =>
          AddOther(a, p);
      }
    }

    /** Merge for a value that is neither an array nor an object. */
    method AddOther(a: Any, p: Parsers)
      requires Valid() && !a.Array? && !a.Object?
      modifies this
      ensures Valid() && Repr == old(Repr)
      ensures Model() == ObservedSummary.Merge(Some(old(Model())), a, p)
    {
      MergeScalar(Model(), a, p);
      AddScalar(a, p);
      CountersOnly();
    }

    /** Merge for a value that is neither an array nor an object: counters only. */
    method AddScalar(a: Any, p: Parsers)
      requires !a.Array? && !a.Object?
      modifies this
      ensures Repr == old(Repr) && allArrayElementValues == old(allArrayElementValues)
      ensures allObjectPropertyValues == old(allObjectPropertyValues) && objectPropertyValue == old(objectPropertyValue)
      ensures observations == old(observations) + 1 && arrays == old(arrays) && objects == old(objects)
      ensures empty == old(empty)
      ensures bools == old(bools) + (if a.Bool? then 1 else 0)
      ensures float64s == old(float64s) + (if a.Float64? || (a.Number? && !p.parsesInt64(a.text)) then 1 else 0)
      ensures ints == old(ints) + (if a.Int? || (a.Number? && p.parsesInt64(a.text)) then 1 else 0)
      ensures nulls == old(nulls) + (if a.Null? then 1 else 0)
      ensures times == old(times) + (if a.Str? && p.parsesTime(a.s) then 1 else 0)
      ensures strings == old(strings) + (if a.Str? then 1 else 0)
    {
      observations := observations + 1;
      match a {
        case Bool(_) =>
          bools := bools + 1;
        case Float64(_) =>
          float64s := float64s + 1;
        case Int(_) =>
          ints := ints + 1;
        case Null =>
          nulls := nulls + 1;
        case Str(s) =>
          strings := strings + 1;
          if p.parsesTime(s) {
            times := times + 1;
          }
        case Number(text) =>
          if p.parsesInt64(text) {
            ints := ints + 1;
          } else {
            float64s := float64s + 1;
          }
        case Unrecognized =>
      }
    }

    /** The array case of Merge. */
    method AddArray(es: seq<Any>, p: Parsers)
      requires Valid()
      modifies Repr
      ensures Valid() && fresh(Repr - old(Repr))
      ensures Model() == ObservedSummary.Merge(Some(old(Model())), Array(es), p)
      decreases es, 2
    {
      ghost var m0 := Model();
      BeginArray();
      AddElements(es, p);
      MergeArray(m0, es, p);
    }

    /** The counters of the array case, and the element node allocated on first use. */
    method BeginArray()
      requires Valid()
      modifies this
      ensures Valid() && fresh(Repr - old(Repr)) && allArrayElementValues != null
      ensures Model() == old(Model()).(observations := old(Model()).observations + 1, arrays := old(Model()).arrays + 1,
                                       allArrayElementValues := Some(old(Model()).allArrayElementValues.GetOr(Empty)))
    {
      CountArray();
      EnsureArrayElements();
    }

    /** The counters of the array case. */
    method CountArray()
      requires Valid()
      modifies this
      ensures Valid() && Repr == old(Repr)
      ensures Model() == old(Model()).(observations := old(Model()).observations + 1, arrays := old(Model()).arrays + 1)
    {
      observations, arrays := observations + 1, arrays + 1;
      CountersOnly();
    }

    /** The element loop: `for _, e := range a { v.allArrayElementValues = v.allArrayElementValues.Merge(e) }` */
    method AddElements(es: seq<Any>, p: Parsers)
      requires Valid() && allArrayElementValues != null
      modifies Repr
      ensures Valid() && fresh(Repr - old(Repr))
      ensures Model() == old(Model()).(allArrayElementValues := Some(MergeElements(old(Model()).allArrayElementValues.value, es, p)))
      decreases es, 1
    {
      ghost var start := Model();
      ghost var elements := start.allArrayElementValues.value;
      var i := 0;
      while i < |es|
        invariant 0 <= i <= |es|
        invariant Valid() && fresh(Repr - old(Repr))
        invariant allArrayElementValues != null
        invariant elements == MergeElements(start.allArrayElementValues.value, es[..i], p)
        invariant Model() == start.(allArrayElementValues := Some(elements))
      {
        AddElement(es[i], p);
        MergeElementsNext(start.allArrayElementValues.value, es, i, p);
        elements := ObservedSummary.Merge(Some(elements), es[i], p);
        i := i + 1;
      }
      assert es[..|es|] == es;
    }

    /** One iteration of the element loop: `v.allArrayElementValues = v.allArrayElementValues.Merge(e)`. */
    method AddElement(e: Any, p: Parsers)
      requires Valid() && allArrayElementValues != null
      modifies Repr
      ensures Valid() && fresh(Repr - old(Repr)) && allArrayElementValues != null
      ensures Model() == old(Model()).(allArrayElementValues := Some(ObservedSummary.Merge(old(Model()).allArrayElementValues, e, p)))
      decreases e, 3
    {
      var child := allArrayElementValues;
      child.Add(e, p);
      Repr := Repr + child.Repr;
      ElementsReplaced();
    }

    /** The object case of Merge. */
    method AddObject(ps: seq<Property>, p: Parsers)
      requires Valid()
      modifies Repr
      ensures Valid() && fresh(Repr - old(Repr))
      ensures Model() == ObservedSummary.Merge(Some(old(Model())), Object(ps), p)
      decreases ps, 2
    {
      ghost var m0 := Model();
      BeginObject();
      AddProperties(ps, p);
      MergeObject(m0, ps, p);
    }

    /** The counters of the object case, and the property map made on first use. */
    method BeginObject()
      requires Valid()
      modifies this
      ensures Valid() && Repr == old(Repr) && objectPropertyValue.Some?
      ensures Model() == old(Model()).(observations := old(Model()).observations + 1, objects := old(Model()).objects + 1,
                                       objectPropertyValue := Made(PropsOf(old(Model()))))
    {
      CountObject();
      EnsureProps();
    }

    /** The counters of the object case. */
    method CountObject()
      requires Valid()
      modifies this
      ensures Valid() && Repr == old(Repr)
      ensures Model() == old(Model()).(observations := old(Model()).observations + 1, objects := old(Model()).objects + 1)
    {
      observations, objects := observations + 1, objects + 1;
      CountersOnly();
    }

    /** The mapping loop: each value merged into `allObjectPropertyValues` and into its key's node. */
    method AddProperties(ps: seq<Property>, p: Parsers)
      requires Valid() && objectPropertyValue.Some?
      modifies Repr
      ensures Valid() && fresh(Repr - old(Repr)) && objectPropertyValue.Some?
      ensures var (all, props) := MergeProperties(old(Model()).allObjectPropertyValues, PropsOf(old(Model())), ps, p);
              Model() == old(Model()).(allObjectPropertyValues := all, objectPropertyValue := Made(props))
      decreases ps, 1
    {
      ghost var start := Model();
      ghost var acc := (start.allObjectPropertyValues, PropsOf(start));
      var i := 0;
      while i < |ps|
        invariant 0 <= i <= |ps|
        invariant Valid() && fresh(Repr - old(Repr)) && objectPropertyValue.Some?
        invariant acc == MergeProperties(start.allObjectPropertyValues, PropsOf(start), ps[..i], p)
        invariant Model() == start.(allObjectPropertyValues := acc.0, objectPropertyValue := Made(acc.1))
      {
        AddProperty(ps[i], p);
        MergePropertiesNext(start.allObjectPropertyValues, PropsOf(start), ps, i, p);
        acc := MergeProperty(acc, ps[i], p);
        i := i + 1;
      }
      assert ps[..|ps|] == ps;
    }

    /** One iteration of the mapping loop. */
    method AddProperty(prop: Property, p: Parsers)
      requires Valid() && objectPropertyValue.Some?
      modifies Repr
      ensures Valid() && fresh(Repr - old(Repr)) && objectPropertyValue.Some?
      ensures var (all, props) := MergeProperty((old(Model()).allObjectPropertyValues, PropsOf(old(Model()))), prop, p);
              Model() == old(Model()).(allObjectPropertyValues := all, objectPropertyValue := Made(props))
      decreases prop, 4
    {
      AddToAll(prop.value, p);
      AddToKey(prop.key, prop.value, p);
    }

    /** `v.allObjectPropertyValues = v.allObjectPropertyValues.Merge(v)` */
    method AddToAll(value: Any, p: Parsers)
      requires Valid()
      modifies Repr
      ensures Valid() && fresh(Repr - old(Repr))
      ensures objectPropertyValue == old(objectPropertyValue)
      ensures Model() == old(Model()).(allObjectPropertyValues := Some(ObservedSummary.Merge(old(Model()).allObjectPropertyValues, value, p)))
      decreases value, 5
    {
      if allObjectPropertyValues == null {
        AttachAllObjectProperties();
        MergeNone(value, p);
      }
      UpdateAll(value, p);
    }

    /** Observes `value` into the existing accumulator of all property values. */
    method UpdateAll(value: Any, p: Parsers)
      requires Valid() && allObjectPropertyValues != null
      modifies Repr
      ensures Valid() && fresh(Repr - old(Repr))
      ensures objectPropertyValue == old(objectPropertyValue)
      ensures Model() == old(Model()).(allObjectPropertyValues := Some(ObservedSummary.Merge(old(Model()).allObjectPropertyValues, value, p)))
      decreases value, 4
    {
      UpdateAllChild(value, p, allObjectPropertyValues.Model());
      AllReplaced();
    }

    /** The update of the accumulator node in place; `before` is its Summary beforehand. */
    method UpdateAllChild(value: Any, p: Parsers, ghost before: Observed)
      requires Valid() && allObjectPropertyValues != null && allObjectPropertyValues.Model() == before
      modifies Repr
      ensures allObjectPropertyValues == old(allObjectPropertyValues) && allObjectPropertyValues != null
      ensures allObjectPropertyValues.Valid() && this !in allObjectPropertyValues.Repr
      ensures fresh(allObjectPropertyValues.Repr - old(allObjectPropertyValues.Repr))
      ensures unchanged(old(Repr) - {this} - old(allObjectPropertyValues.Repr))
      ensures Repr == old(Repr) + allObjectPropertyValues.Repr
      ensures allArrayElementValues == old(allArrayElementValues) && objectPropertyValue == old(objectPropertyValue)
      ensures CountsUnchanged()
      ensures allObjectPropertyValues.Model() == ObservedSummary.Merge(Some(before), value, p)
      decreases value, 3
    {
      var child := allObjectPropertyValues;
      assert this !in child.Repr && child.Repr <= Repr - {this};
      child.Add(value, p);
      assert allObjectPropertyValues == child;
      Repr := Repr + child.Repr;
    }

    /** `v.objectPropertyValue[property] = v.objectPropertyValue[property].Merge(v)` */
    method AddToKey(property: string, value: Any, p: Parsers)
      requires Valid() && objectPropertyValue.Some?
      modifies Repr
      ensures Valid() && fresh(Repr - old(Repr)) && objectPropertyValue.Some?
      ensures Model() == old(Model()).(objectPropertyValue := Made(PropsOf(old(Model()))[property :=
                ObservedSummary.Merge(if property in PropsOf(old(Model())) then Some(PropsOf(old(Model()))[property]) else None, value, p)]))
      decreases value, 5
    {
      ghost var start := Model();
      PropKeys();
      if property !in Props() {
        AttachProperty(property);
      }
      ghost var attached := Model();
      MergeExistingKey(property, value, p);
      MergeAtKey(start, attached, Model(), property, value, p);
    }

    /** `v.objectPropertyValue[property] = v.objectPropertyValue[property].Merge(v)` for a key already present. */
    method MergeExistingKey(property: string, value: Any, p: Parsers)
      requires Valid() && objectPropertyValue.Some? && property in Props()
      modifies Repr
      ensures Valid() && fresh(Repr - old(Repr)) && objectPropertyValue.Some?
      ensures property in PropsOf(old(Model()))
      ensures Model() == old(Model()).(objectPropertyValue := Made(PropsOf(old(Model()))[property :=
                ObservedSummary.Merge(Some(PropsOf(old(Model()))[property]), value, p)]))
      decreases value, 4
    {
      PropModel(property);
      label Present:
      UpdateKey(property, value, p, Props()[property].Model());
      KeyUpdated@Present(property);
    }

    /** The update of an existing per-key child in place; `before` is its Summary beforehand. */
    method UpdateKey(property: string, value: Any, p: Parsers, ghost before: Observed)
      requires Valid() && objectPropertyValue.Some? && property in Props() && Props()[property].Model() == before
      modifies Repr
      ensures objectPropertyValue == old(objectPropertyValue) && property in Props()
      ensures Props()[property].Valid() && this !in Props()[property].Repr
      ensures fresh(Props()[property].Repr - old(Props()[property].Repr))
      ensures unchanged(old(Repr) - {this} - old(Props()[property].Repr))
      ensures Repr == old(Repr) + Props()[property].Repr
      ensures allArrayElementValues == old(allArrayElementValues) && allObjectPropertyValues == old(allObjectPropertyValues)
      ensures CountsUnchanged()
      ensures Props()[property].Model() == ObservedSummary.Merge(Some(before), value, p)
      decreases value, 3
    {
      var child := Props()[property];
      assert this !in child.Repr && child.Repr <= Repr - {this};
      child.Add(value, p);
      assert objectPropertyValue == old(objectPropertyValue) && Props()[property] == child;
      Repr := Repr + child.Repr;
    }
  }
}
