/**
 * observedvalue.go, the older accumulator as a value: the counters and
 * children of an `ObservedValue`, what `Merge` does to them, and the
 * invariants every merged tree keeps. Unlike value.go's `observe`, `Merge`
 * counts every time-parsable string in `times` and never touches `empty`.
 */
module ObservedSummary {
  import opened Wrappers
  import opened Decoded

  /** An `ObjectPropertyValue` map, nil until the first object is merged. */
  datatype PropertyValues = NilMap | Made(m: map<string, Observed>)

  /**
   * The state of one `ObservedValue`: `Observations`, the kind counters
   * `Array` … `String`, `Time`, the `Empty` counter the generator reads, and
   * the children `AllArrayElementValues`, `AllObjectPropertyValues` and
   * `ObjectPropertyValue`; a nil pointer is None.
   */
  datatype Observed = Observed(
    observations: nat,
    arrays: nat,
    bools: nat,
    float64s: nat,
    ints: nat,
    nulls: nat,
    objects: nat,
    strings: nat,
    times: nat,
    empty: nat,
    allArrayElementValues: Option<Observed>,
    allObjectPropertyValues: Option<Observed>,
    objectPropertyValue: PropertyValues)

  /** `&ObservedValue{}`: a fresh node. */
  const Empty := Observed(0, 0, 0, 0, 0, 0, 0, 0, 0, 0, None, None, NilMap)

  /** The node a possibly nil pointer stands for: a nil receiver is replaced by a fresh node. */
  function Fresh(v: Option<Observed>): Observed {
    v.GetOr(Empty)
  }

  /** The counter of one kind. */
  function Count(s: Observed, k: Kind): nat {
    match k
    case ArrayKind => s.arrays
    case BoolKind => s.bools
    case Float64Kind => s.float64s
    case IntKind => s.ints
    case NullKind => s.nulls
    case ObjectKind => s.objects
    case StringKind => s.strings
    case NoKind => 0
  }

  /** The sum of the seven kind counters. */
  function KindTotal(s: Observed): nat {
    s.arrays + s.bools + s.float64s + s.ints + s.nulls + s.objects + s.strings
  }

  /** The per-key children; a nil map has none. */
  function PropsOf(s: Observed): map<string, Observed> {
    if s.objectPropertyValue.Made? then s.objectPropertyValue.m else map[]
  }

  /** Observations of a possibly nil node. */
  function ObservationsOf(v: Option<Observed>): nat {
    if v.Some? then v.value.observations else 0
  }

  /** 1 if `a` is counted as kind `k`, else 0. */
  function Bump(a: Any, p: Parsers, k: Kind): nat {
    if KindOf(a, p) == k then 1 else 0
  }

  /**
   * Merge: merges `a` into the node `v` (None for a nil receiver) and returns
   * the node. Exactly one observation more; the counter of the value's kind
   * one more; every RFC 3339 string one more in `times`; the shared element
   * child grows by the array's length.
   */
  function Merge(v: Option<Observed>, a: Any, p: Parsers): (r: Observed)
    ensures r.observations == ObservationsOf(v) + 1
    decreases a
  {
    var s := Fresh(v).(observations := ObservationsOf(v) + 1);
    match a
    case Array(es) =>
      var elements := MergeElements(s.allArrayElementValues.GetOr(Empty), es, p);
      s.(arrays := s.arrays + 1, allArrayElementValues := Some(elements))
    case Bool(_) =>
      s.(bools := s.bools + 1)
    case Float64(_) =>
      s.(float64s := s.float64s + 1)
    case Int(_) =>
      s.(ints := s.ints + 1)
    case Null =>
      s.(nulls := s.nulls + 1)
    case Object(ps) =>
      var (all, props) := MergeProperties(s.allObjectPropertyValues, PropsOf(s), ps, p);
      s.(objects := s.objects + 1, allObjectPropertyValues := all, objectPropertyValue := Made(props))
    case Str(str) =>
      s.(strings := s.strings + 1, times := s.times + (if p.parsesTime(str) then 1 else 0))
    case Number(text) =>
      if p.parsesInt64(text) then s.(ints := s.ints + 1) else s.(float64s := s.float64s + 1)
    case Unrecognized =>
      s
  }

  /** Merging into a nil accumulator is merging into a fresh, empty one. */
  lemma MergeNone(a: Any, p: Parsers)
    ensures Merge(None, a, p) == Merge(Some(Empty), a, p)
  {
  }

  /** The loop over an array's elements: each one merged into the shared element node, in order. */
  function MergeElements(x: Observed, es: seq<Any>, p: Parsers): (r: Observed)
    ensures r.observations == x.observations + |es|
    decreases es
  {
    if |es| == 0 then x
    else Merge(Some(MergeElements(x, es[..|es| - 1], p)), es[|es| - 1], p)
  }

  /** Merge of an array, field by field. */
  lemma MergeArray(s: Observed, es: seq<Any>, p: Parsers)
    ensures Merge(Some(s), Array(es), p)
         == s.(observations := s.observations + 1, arrays := s.arrays + 1,
               allArrayElementValues := Some(MergeElements(s.allArrayElementValues.GetOr(Empty), es, p)))
  {
  }

  /** Merge of a mapping, field by field. */
  lemma MergeObject(s: Observed, ps: seq<Property>, p: Parsers)
    ensures var (all, props) := MergeProperties(s.allObjectPropertyValues, PropsOf(s), ps, p);
      Merge(Some(s), Object(ps), p)
         == s.(observations := s.observations + 1, objects := s.objects + 1,
               allObjectPropertyValues := all, objectPropertyValue := Made(props))
  {
  }

  /** The mapping loop after one more entry. */
  lemma MergePropertiesNext(all: Option<Observed>, props: map<string, Observed>, ps: seq<Property>, i: nat, p: Parsers)
    requires i < |ps|
    ensures MergeProperties(all, props, ps[..i + 1], p) == MergeProperty(MergeProperties(all, props, ps[..i], p), ps[i], p)
  {
    assert ps[..i + 1][..i] == ps[..i];
  }

  /** The element loop after one more element. */
  lemma MergeElementsNext(x: Observed, es: seq<Any>, i: nat, p: Parsers)
    requires i < |es|
    ensures MergeElements(x, es[..i + 1], p) == Merge(Some(MergeElements(x, es[..i], p)), es[i], p)
  {
    assert es[..i + 1][..i] == es[..i];
  }

  /**
   * The loop over a mapping's entries, in iteration order: each value merged
   * into the node that merges all property values and into its key's node.
   */
  function MergeProperties(all: Option<Observed>, props: map<string, Observed>, ps: seq<Property>, p: Parsers)
    : (r: (Option<Observed>, map<string, Observed>))
    ensures ObservationsOf(r.0) == ObservationsOf(all) + |ps|
    ensures |ps| > 0 ==> r.0.Some?
    ensures |ps| == 0 ==> r.0 == all
    decreases ps
  {
    if |ps| == 0 then (all, props)
    else MergeProperty(MergeProperties(all, props, ps[..|ps| - 1], p), ps[|ps| - 1], p)
  }

  /** One iteration of the mapping loop. */
  function MergeProperty(acc: (Option<Observed>, map<string, Observed>), prop: Property, p: Parsers)
    : (r: (Option<Observed>, map<string, Observed>))
    ensures ObservationsOf(r.0) == ObservationsOf(acc.0) + 1
    decreases prop, 1
  {
    var (all, props) := acc;
    var keyNode := if prop.key in props then Some(props[prop.key]) else None;
    (Some(Merge(all, prop.value, p)), props[prop.key := Merge(keyNode, prop.value, p)])
  }

  /**
   * One call raises exactly one kind counter by one, the one of the value's
   * kind (none for an unrecognised value), and leaves `empty` alone.
   */
  lemma MergeCounts(v: Option<Observed>, a: Any, p: Parsers)
    ensures var r := Merge(v, a, p);
      && r.arrays == Fresh(v).arrays + Bump(a, p, ArrayKind)
      && r.bools == Fresh(v).bools + Bump(a, p, BoolKind)
      && r.float64s == Fresh(v).float64s + Bump(a, p, Float64Kind)
      && r.ints == Fresh(v).ints + Bump(a, p, IntKind)
      && r.nulls == Fresh(v).nulls + Bump(a, p, NullKind)
      && r.objects == Fresh(v).objects + Bump(a, p, ObjectKind)
      && r.strings == Fresh(v).strings + Bump(a, p, StringKind)
      && KindTotal(r) == KindTotal(Fresh(v)) + (if KindOf(a, p) == NoKind then 0 else 1)
      && r.empty == Fresh(v).empty
  {
    MergeCounters(v, a, p);
    BumpTotal(a, p);
  }

  /** A value bumps one kind counter, or none when it has no kind. */
  lemma BumpTotal(a: Any, p: Parsers)
    ensures Bump(a, p, ArrayKind) + Bump(a, p, BoolKind) + Bump(a, p, Float64Kind) + Bump(a, p, IntKind)
          + Bump(a, p, NullKind) + Bump(a, p, ObjectKind) + Bump(a, p, StringKind)
         == if KindOf(a, p) == NoKind then 0 else 1
  {
  }

  /** MergeCounts, counter by counter. */
  lemma MergeCounters(v: Option<Observed>, a: Any, p: Parsers)
    ensures var r := Merge(v, a, p);
      && r.arrays == Fresh(v).arrays + Bump(a, p, ArrayKind)
      && r.bools == Fresh(v).bools + Bump(a, p, BoolKind)
      && r.float64s == Fresh(v).float64s + Bump(a, p, Float64Kind)
      && r.ints == Fresh(v).ints + Bump(a, p, IntKind)
      && r.nulls == Fresh(v).nulls + Bump(a, p, NullKind)
      && r.objects == Fresh(v).objects + Bump(a, p, ObjectKind)
      && r.strings == Fresh(v).strings + Bump(a, p, StringKind)
      && r.empty == Fresh(v).empty
  {
    MergeFresh(v, a, p);
    MergeNodeCounters(Fresh(v), a, p);
  }

  /** MergeCounters on an existing node. */
  lemma MergeNodeCounters(s: Observed, a: Any, p: Parsers)
    ensures var r := Merge(Some(s), a, p);
      && r.arrays == s.arrays + Bump(a, p, ArrayKind)
      && r.bools == s.bools + Bump(a, p, BoolKind)
      && r.float64s == s.float64s + Bump(a, p, Float64Kind)
      && r.ints == s.ints + Bump(a, p, IntKind)
      && r.nulls == s.nulls + Bump(a, p, NullKind)
      && r.objects == s.objects + Bump(a, p, ObjectKind)
      && r.strings == s.strings + Bump(a, p, StringKind)
      && r.empty == s.empty
  {
    match a
    case Array(_) =>
    case Bool(_) =>
    case Float64(_) =>
    case Int(_) =>
    case Null =>
    case Object(_) =>
    case Str(_) =>
    case Number(_) =>
    case Unrecognized =>
  }

  /** A nil receiver merges like a fresh node. */
  lemma MergeFresh(v: Option<Observed>, a: Any, p: Parsers)
    ensures Merge(v, a, p) == Merge(Some(Fresh(v)), a, p)
  {
    if v.None? {
      MergeNone(a, p);
    }
  }

  /**
   * The element node exists after any array, even an empty one, and has seen
   * one more value per element; values of other kinds leave it alone.
   */
  lemma MergeArrayElements(v: Option<Observed>, a: Any, p: Parsers)
    ensures var r := Merge(v, a, p);
      && (a.Array? ==> r.allArrayElementValues.Some?)
      && (a.Array? ==> ObservationsOf(r.allArrayElementValues) == ObservationsOf(Fresh(v).allArrayElementValues) + |a.elems|)
      && (!a.Array? ==> r.allArrayElementValues == Fresh(v).allArrayElementValues)
  {
  }

  /** Every string that parses as an RFC 3339 time counts in `times`, whatever came before. */
  lemma TimeCounts(v: Option<Observed>, a: Any, p: Parsers)
    ensures Merge(v, a, p).times == Fresh(v).times + (if a.Str? && p.parsesTime(a.s) then 1 else 0)
  {
  }

  /** A null bumps only `nulls` (and `observations`). */
  lemma NullOnlyCountsNull(v: Option<Observed>, p: Parsers)
    ensures var r := Merge(v, Null, p);
      r == Fresh(v).(observations := r.observations, nulls := Fresh(v).nulls + 1)
  {
  }

  /** A number literal is an int iff it parses as an int64, else a float64. */
  lemma NumberCounts(v: Option<Observed>, text: string, p: Parsers)
    ensures var r := Merge(v, Number(text), p);
      && r.ints == Fresh(v).ints + (if p.parsesInt64(text) then 1 else 0)
      && r.float64s == Fresh(v).float64s + (if p.parsesInt64(text) then 0 else 1)
  {
  }

  /** Merge of a value that is neither an array nor an object, counter by counter. */
  lemma MergeScalar(s: Observed, a: Any, p: Parsers)
    requires !a.Array? && !a.Object?
    ensures Merge(Some(s), a, p)
         == s.(observations := s.observations + 1,
               bools := s.bools + (if a.Bool? then 1 else 0),
               float64s := s.float64s + (if a.Float64? || (a.Number? && !p.parsesInt64(a.text)) then 1 else 0),
               ints := s.ints + (if a.Int? || (a.Number? && p.parsesInt64(a.text)) then 1 else 0),
               nulls := s.nulls + (if a.Null? then 1 else 0),
               times := s.times + (if a.Str? && p.parsesTime(a.s) then 1 else 0),
               strings := s.strings + (if a.Str? then 1 else 0))
  {
  }

  /** The sum of the observations of every per-key node. */
  ghost function SumObservations(m: map<string, Observed>): nat
    decreases |m|
  {
    if m == map[] then 0
    else
      var k :| k in m;
      m[k].observations + SumObservations(m - {k})
  }

  /** The sum does not depend on which key is taken out first. */
  lemma {:induction false} SumRemove(m: map<string, Observed>, k: string)
    requires k in m
    ensures SumObservations(m) == m[k].observations + SumObservations(m - {k})
    decreases |m|
  {
    var j :| j in m && SumObservations(m) == m[j].observations + SumObservations(m - {j});
    if j != k {
      var mj := m - {j};
      SumRemove(mj, k);
      SumRemove(m - {k}, j);
      assert mj - {k} == (m - {k}) - {j};
    }
  }

  /** Replacing one per-key node changes the sum by the difference. */
  lemma SumUpdate(m: map<string, Observed>, k: string, x: Observed)
    ensures SumObservations(m[k := x]) + (if k in m then m[k].observations else 0)
         == SumObservations(m) + x.observations
  {
    SumRemove(m[k := x], k);
    if k in m {
      SumRemove(m, k);
      assert m[k := x] - {k} == m - {k};
    } else {
      assert m[k := x] - {k} == m;
    }
  }

  /**
   * The links GoType follows exist: a node that saw arrays has an element node,
   * and a node with per-key nodes has the node merging all property values.
   */
  ghost predicate Linked(s: Observed)
    decreases s
  {
    && (s.arrays > 0 ==> s.allArrayElementValues.Some?)
    && (PropsOf(s) != map[] ==> s.allObjectPropertyValues.Some?)
    && (s.allArrayElementValues.Some? ==> Linked(s.allArrayElementValues.value))
    && (s.allObjectPropertyValues.Some? ==> Linked(s.allObjectPropertyValues.value))
    && (s.objectPropertyValue.Made? ==> forall k :: k in s.objectPropertyValue.m ==> Linked(s.objectPropertyValue.m[k]))
  }

  /** What Linked says about the children of one node. */
  lemma LinkedChildren(s: Observed)
    requires Linked(s)
    ensures s.arrays > 0 ==> s.allArrayElementValues.Some?
    ensures s.allArrayElementValues.Some? ==> Linked(s.allArrayElementValues.value)
    ensures PropsOf(s) != map[] ==> s.allObjectPropertyValues.Some?
    ensures s.allObjectPropertyValues.Some? ==> Linked(s.allObjectPropertyValues.value)
    ensures forall k :: k in PropsOf(s) ==> Linked(PropsOf(s)[k])
  {
  }

  /**
   * The invariants of one node of a tree built by Merge: the kind counters
   * sum to at most `observations`, `empty` stays 0, `times <= strings`, a
   * node that saw arrays has an element node, one that saw objects has a
   * (possibly empty) map, and the node merging all property values saw
   * exactly as many values as all per-key nodes together.
   */
  ghost predicate NodeConsistent(s: Observed) {
    && KindTotal(s) <= s.observations
    && s.empty == 0
    && s.times <= s.strings
    && (s.arrays > 0 ==> s.allArrayElementValues.Some?)
    && (s.objects > 0 ==> s.objectPropertyValue.Made?)
    && (PropsOf(s) != map[] ==> s.allObjectPropertyValues.Some?)
    && ObservationsOf(s.allObjectPropertyValues) == SumObservations(PropsOf(s))
  }

  /** NodeConsistent holds at every node reachable from `s`. */
  ghost predicate Consistent(s: Observed)
    decreases s
  {
    && NodeConsistent(s)
    && (s.allArrayElementValues.Some? ==> Consistent(s.allArrayElementValues.value))
    && (s.allObjectPropertyValues.Some? ==> Consistent(s.allObjectPropertyValues.value))
    && (s.objectPropertyValue.Made? ==> forall k :: k in s.objectPropertyValue.m ==> Consistent(s.objectPropertyValue.m[k]))
  }

  lemma {:induction false} ConsistentIsLinked(s: Observed)
    requires Consistent(s)
    ensures Linked(s)
    decreases s
  {
    if s.allArrayElementValues.Some? {
      ConsistentIsLinked(s.allArrayElementValues.value);
    }
    if s.allObjectPropertyValues.Some? {
      ConsistentIsLinked(s.allObjectPropertyValues.value);
    }
    if s.objectPropertyValue.Made? {
      var m := s.objectPropertyValue.m;
      forall k | k in m ensures Linked(m[k]) {
        ConsistentIsLinked(m[k]);
      }
    }
  }

  lemma EmptyConsistent()
    ensures Consistent(Empty)
  {
    assert PropsOf(Empty) == map[];
  }

  /** Merge keeps every invariant of the tree, starting from a nil receiver or a consistent node. */
  lemma {:induction false} MergeConsistent(v: Option<Observed>, a: Any, p: Parsers)
    requires v.Some? ==> Consistent(v.value)
    ensures Consistent(Merge(v, a, p))
    decreases a
  {
    EmptyConsistent();
    match a
    case Array(es) =>
      ArrayConsistent(v, es, p);
    case Object(ps) =>
      ObjectConsistent(v, ps, p);
    case _ =>
      ScalarConsistent(v, a, p);
  }

  /** MergeConsistent for an array: the element node stays consistent. */
  lemma {:induction false} ArrayConsistent(v: Option<Observed>, es: seq<Any>, p: Parsers)
    requires Consistent(Fresh(v))
    ensures Consistent(Merge(v, Array(es), p))
    decreases es, 1
  {
    EmptyConsistent();
    var s0 := Fresh(v);
    var elements := MergeElements(s0.allArrayElementValues.GetOr(Empty), es, p);
    MergeElementsConsistent(s0.allArrayElementValues.GetOr(Empty), es, p);
    ArrayNodeConsistent(s0, elements, |es| == 0);
    MergeFresh(v, Array(es), p);
    MergeArray(s0, es, p);
  }

  /** MergeConsistent for an object: the property nodes stay consistent and in balance. */
  lemma {:induction false} ObjectConsistent(v: Option<Observed>, ps: seq<Property>, p: Parsers)
    requires Consistent(Fresh(v))
    ensures Consistent(Merge(v, Object(ps), p))
    decreases ps, 1
  {
    var s0 := Fresh(v);
    var (all, props) := MergeProperties(s0.allObjectPropertyValues, PropsOf(s0), ps, p);
    MergePropertiesConsistent(s0.allObjectPropertyValues, PropsOf(s0), ps, p);
    ObjectNodeConsistent(s0, all, props, |ps| == 0);
    MergeFresh(v, Object(ps), p);
    MergeObject(s0, ps, p);
  }

  /** A consistent node after one more array, given a consistent element node. */
  lemma ArrayNodeConsistent(s0: Observed, elements: Observed, noElements: bool)
    requires Consistent(s0) && Consistent(elements)
    ensures Consistent(s0.(observations := s0.observations + 1, arrays := s0.arrays + 1, allArrayElementValues := Some(elements)))
  {
    ChildrenConsistent(s0.(observations := s0.observations + 1, arrays := s0.arrays + 1, allArrayElementValues := Some(elements)), s0);
  }

  /** A consistent node after one more mapping, given accumulators in balance. */
  lemma ObjectNodeConsistent(s0: Observed, all: Option<Observed>, props: map<string, Observed>, noEntries: bool)
    requires Consistent(s0) && InBalance(all, props)
    ensures Consistent(s0.(observations := s0.observations + 1, objects := s0.objects + 1, allObjectPropertyValues := all, objectPropertyValue := Made(props)))
  {
    var r := s0.(observations := s0.observations + 1, objects := s0.objects + 1, allObjectPropertyValues := all, objectPropertyValue := Made(props));
    assert PropsOf(r) == props;
    ChildrenConsistent(r, s0);
  }

  /** A value that is neither an array nor an object leaves every child alone. */
  lemma ScalarConsistent(v: Option<Observed>, a: Any, p: Parsers)
    requires Consistent(Fresh(v)) && !a.Array? && !a.Object?
    ensures Consistent(Merge(v, a, p))
  {
    MergeCounts(v, a, p);
    ScalarChildren(v, a, p);
    ChildrenConsistent(Merge(v, a, p), Fresh(v));
  }

  /** A scalar value reaches no child, and never counts more times than strings. */
  lemma ScalarChildren(v: Option<Observed>, a: Any, p: Parsers)
    requires !a.Array? && !a.Object? && Fresh(v).times <= Fresh(v).strings
    ensures var r := Merge(v, a, p);
      && r.allArrayElementValues == Fresh(v).allArrayElementValues
      && r.allObjectPropertyValues == Fresh(v).allObjectPropertyValues && r.objectPropertyValue == Fresh(v).objectPropertyValue
      && r.times <= r.strings
  {
    MergeFresh(v, a, p);
    MergeScalar(Fresh(v), a, p);
  }

  /**
   * A node one observation ahead of a consistent one, with at most one more
   * kind counter, is consistent once its children are.
   */
  lemma ChildrenConsistent(r: Observed, s: Observed)
    requires NodeConsistent(s)
    requires r.observations == s.observations + 1 && KindTotal(r) <= KindTotal(s) + 1 && r.empty == s.empty
    requires r.times <= r.strings
    requires r.arrays > 0 ==> r.allArrayElementValues.Some?
    requires r.objects > 0 ==> r.objectPropertyValue.Made?
    requires PropsOf(r) != map[] ==> r.allObjectPropertyValues.Some?
    requires ObservationsOf(r.allObjectPropertyValues) == SumObservations(PropsOf(r))
    requires r.allArrayElementValues.Some? ==> Consistent(r.allArrayElementValues.value)
    requires r.allObjectPropertyValues.Some? ==> Consistent(r.allObjectPropertyValues.value)
    requires r.objectPropertyValue.Made? ==> forall k :: k in r.objectPropertyValue.m ==> Consistent(r.objectPropertyValue.m[k])
    ensures Consistent(r)
  {
  }

  lemma {:induction false} MergeElementsConsistent(x: Observed, es: seq<Any>, p: Parsers)
    requires Consistent(x)
    ensures Consistent(MergeElements(x, es, p))
    decreases es, 0
  {
    if |es| > 0 {
      MergeElementsConsistent(x, es[..|es| - 1], p);
      MergeConsistent(Some(MergeElements(x, es[..|es| - 1], p)), es[|es| - 1], p);
    }
  }

  /**
   * The accumulators of the mapping loop are in balance: every node consistent,
   * and the node of all property values has seen as many values as the
   * per-key nodes together.
   */
  ghost predicate InBalance(all: Option<Observed>, props: map<string, Observed>) {
    && (all.Some? ==> Consistent(all.value))
    && (forall k :: k in props ==> Consistent(props[k]))
    && ObservationsOf(all) == SumObservations(props)
    && (props != map[] ==> all.Some?)
  }

  lemma {:induction false} MergePropertiesConsistent(all: Option<Observed>, props: map<string, Observed>, ps: seq<Property>, p: Parsers)
    requires InBalance(all, props)
    ensures var r := MergeProperties(all, props, ps, p); InBalance(r.0, r.1)
    decreases ps, 0
  {
    if |ps| > 0 {
      MergePropertiesConsistent(all, props, ps[..|ps| - 1], p);
      MergePropertyConsistent(MergeProperties(all, props, ps[..|ps| - 1], p), ps[|ps| - 1], p);
    }
  }

  /** One iteration of the mapping loop keeps the accumulators in balance. */
  lemma {:induction false} MergePropertyConsistent(acc: (Option<Observed>, map<string, Observed>), prop: Property, p: Parsers)
    requires InBalance(acc.0, acc.1)
    ensures var r := MergeProperty(acc, prop, p); InBalance(r.0, r.1)
    decreases prop
  {
    var keyNode := if prop.key in acc.1 then Some(acc.1[prop.key]) else None;
    MergeConsistent(acc.0, prop.value, p);
    MergeConsistent(keyNode, prop.value, p);
    SumUpdate(acc.1, prop.key, Merge(keyNode, prop.value, p));
  }

}
