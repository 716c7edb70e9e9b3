/**
 * value.go, the accumulator as a value: the counters and children of a `value`
 * node, what `observe` does to them, and the invariants every observed tree keeps.
 */
module ValueSummary {
  import opened Wrappers
  import opened Decoded

  /** A node's `map[string]*value`, which is nil until the first object is observed. */
  datatype ObjectProperties = NilMap | Made(m: map<string, Summary>)

  /** The state of one `value` node; a nil child pointer is None. */
  datatype Summary = Summary(
    observations: nat,
    empties: nat,
    arrays: nat,
    bools: nat,
    float64s: nat,
    ints: nat,
    nulls: nat,
    objects: nat,
    strings: nat,
    times: nat,
    arrayElements: Option<Summary>,
    allObjectProperties: Option<Summary>,
    objectProperties: ObjectProperties)

  /** `&value{}`: a fresh node. */
  const Empty := Summary(0, 0, 0, 0, 0, 0, 0, 0, 0, 0, None, None, NilMap)

  /** The node a possibly nil pointer stands for: a nil receiver is replaced by a fresh node. */
  function Fresh(v: Option<Summary>): Summary {
    v.GetOr(Empty)
  }

  /** The counter of one kind. */
  function Count(s: Summary, k: Kind): nat {
    match k
    case ArrayKind => s.arrays
    case BoolKind => s.bools
    case Float64Kind => s.float64s
    case IntKind => s.ints
    case NullKind => s.nulls
    case ObjectKind => s.objects
    case StringKind => s.strings
    case NoKind => 0
  }

  /** The sum of the seven kind counters. */
  function KindTotal(s: Summary): nat {
    s.arrays + s.bools + s.float64s + s.ints + s.nulls + s.objects + s.strings
  }

  /** The per-key children; a nil map has none. */
  function PropsOf(s: Summary): map<string, Summary> {
    if s.objectProperties.Made? then s.objectProperties.m else map[]
  }

  /** Observations of a possibly nil node. */
  function ObservationsOf(v: Option<Summary>): nat {
    if v.Some? then v.value.observations else 0
  }

  /** 1 if `a` is counted as kind `k`, else 0. */
  function Bump(a: Any, p: Parsers, k: Kind): nat {
    if KindOf(a, p) == k then 1 else 0
  }

  /** The values that bump `empties`: false, 0, 0.0, "", an empty array, an empty mapping. */
  predicate EmptyLike(a: Any) {
    match a
    case Bool(b) => !b
    case Float64(isZero) => isZero
    case Int(i) => i == 0
    case Str(s) => s == ""
    case Array(es) => |es| == 0
    case Object(ps) => |ps| == 0
    case _ => false
  }

  /**
   * observe: merges `a` into the node `v` (None for a nil receiver) and returns
   * the node. Exactly one observation more; the counter of the value's kind one
   * more and no other kind counter changed; `empties` one more exactly for the
   * zero-like values; the shared element child grows by the array's length.
   */
  function Observe(v: Option<Summary>, a: Any, p: Parsers): (r: Summary)
    ensures r.observations == ObservationsOf(v) + 1
    decreases a
  {
    var s := Fresh(v).(observations := ObservationsOf(v) + 1);
    match a
    case Array(es) =>
      var elements := ObserveElements(s.arrayElements.GetOr(Empty), es, p);
      s.(arrays := s.arrays + 1,
         empties := s.empties + (if |es| == 0 then 1 else 0),
         arrayElements := Some(elements))
    case Bool(b) =>
      s.(bools := s.bools + 1, empties := s.empties + (if !b then 1 else 0))
    case Float64(isZero) =>
      s.(float64s := s.float64s + 1, empties := s.empties + (if isZero then 1 else 0))
    case Int(i) =>
      s.(ints := s.ints + 1, empties := s.empties + (if i == 0 then 1 else 0))
    case Null =>
      s.(nulls := s.nulls + 1)
    case Object(ps) =>
      var (all, props) := ObserveProperties(s.allObjectProperties, PropsOf(s), ps, p);
      s.(objects := s.objects + 1,
         empties := s.empties + (if |ps| == 0 then 1 else 0),
         allObjectProperties := all,
         objectProperties := Made(props))
    case Str(str) =>
      s.(empties := s.empties + (if str == "" then 1 else 0),
         times := s.times + (if s.times == s.strings && p.parsesTime(str) then 1 else 0),
         strings := s.strings + 1)
    case Number(text) =>
      if p.parsesInt64(text) then s.(ints := s.ints + 1) else s.(float64s := s.float64s + 1)
    case Unrecognized =>
      s
  }

  /** Observing into a nil accumulator is observing into a fresh, empty one. */
  lemma ObserveNone(a: Any, p: Parsers)
    ensures Observe(None, a, p) == Observe(Some(Empty), a, p)
  {
  }

  /** The loop over an array's elements: each one observed into the shared element node, in order. */
  function ObserveElements(x: Summary, es: seq<Any>, p: Parsers): (r: Summary)
    ensures r.observations == x.observations + |es|
    decreases es
  {
    if |es| == 0 then x
    else Observe(Some(ObserveElements(x, es[..|es| - 1], p)), es[|es| - 1], p)
  }

  /** observe of an array, field by field. */
  lemma ObserveArray(s: Summary, es: seq<Any>, p: Parsers)
    ensures Observe(Some(s), Array(es), p)
         == s.(observations := s.observations + 1, arrays := s.arrays + 1,
               empties := s.empties + (if |es| == 0 then 1 else 0),
               arrayElements := Some(ObserveElements(s.arrayElements.GetOr(Empty), es, p)))
  {
  }

  /** observe of a mapping, field by field. */
  lemma ObserveObject(s: Summary, ps: seq<Property>, p: Parsers)
    ensures var (all, props) := ObserveProperties(s.allObjectProperties, PropsOf(s), ps, p);
      Observe(Some(s), Object(ps), p)
         == s.(observations := s.observations + 1, objects := s.objects + 1,
               empties := s.empties + (if |ps| == 0 then 1 else 0),
               allObjectProperties := all, objectProperties := Made(props))
  {
  }

  /** The mapping loop after one more entry. */
  lemma ObservePropertiesNext(all: Option<Summary>, props: map<string, Summary>, ps: seq<Property>, i: nat, p: Parsers)
    requires i < |ps|
    ensures ObserveProperties(all, props, ps[..i + 1], p) == ObserveProperty(ObserveProperties(all, props, ps[..i], p), ps[i], p)
  {
    assert ps[..i + 1][..i] == ps[..i];
  }

  /** The element loop after one more element. */
  lemma ObserveElementsNext(x: Summary, es: seq<Any>, i: nat, p: Parsers)
    requires i < |es|
    ensures ObserveElements(x, es[..i + 1], p) == Observe(Some(ObserveElements(x, es[..i], p)), es[i], p)
  {
    assert es[..i + 1][..i] == es[..i];
  }

  /**
   * The loop over a mapping's entries, in iteration order: each value observed
   * into the node that merges all property values and into its key's node.
   */
  function ObserveProperties(all: Option<Summary>, props: map<string, Summary>, ps: seq<Property>, p: Parsers)
    : (r: (Option<Summary>, map<string, Summary>))
    ensures ObservationsOf(r.0) == ObservationsOf(all) + |ps|
    ensures |ps| > 0 ==> r.0.Some?
    ensures |ps| == 0 ==> r.0 == all
    decreases ps
  {
    if |ps| == 0 then (all, props)
    else ObserveProperty(ObserveProperties(all, props, ps[..|ps| - 1], p), ps[|ps| - 1], p)
  }

  /** One iteration of the mapping loop. */
  function ObserveProperty(acc: (Option<Summary>, map<string, Summary>), prop: Property, p: Parsers)
    : (r: (Option<Summary>, map<string, Summary>))
    ensures ObservationsOf(r.0) == ObservationsOf(acc.0) + 1
    decreases prop, 1
  {
    var (all, props) := acc;
    var keyNode := if prop.key in props then Some(props[prop.key]) else None;
    (Some(Observe(all, prop.value, p)), props[prop.key := Observe(keyNode, prop.value, p)])
  }
  /**
   * One call raises exactly one kind counter by one, the one of the value's
   * kind (none for an unrecognised value), and raises `empties` by one exactly
   * for the zero-like values.
   */
  lemma ObserveCounts(v: Option<Summary>, a: Any, p: Parsers)
    ensures var r := Observe(v, a, p);
      && r.arrays == Fresh(v).arrays + Bump(a, p, ArrayKind)
      && r.bools == Fresh(v).bools + Bump(a, p, BoolKind)
      && r.float64s == Fresh(v).float64s + Bump(a, p, Float64Kind)
      && r.ints == Fresh(v).ints + Bump(a, p, IntKind)
      && r.nulls == Fresh(v).nulls + Bump(a, p, NullKind)
      && r.objects == Fresh(v).objects + Bump(a, p, ObjectKind)
      && r.strings == Fresh(v).strings + Bump(a, p, StringKind)
      && KindTotal(r) == KindTotal(Fresh(v)) + (if KindOf(a, p) == NoKind then 0 else 1)
      && r.empties == Fresh(v).empties + (if EmptyLike(a) then 1 else 0)
  {
    ObserveCounters(v, a, p);
    BumpTotal(a, p);
  }

  /** ObserveCounts, counter by counter. */
  lemma ObserveCounters(v: Option<Summary>, a: Any, p: Parsers)
    ensures var r := Observe(v, a, p);
      && r.arrays == Fresh(v).arrays + Bump(a, p, ArrayKind)
      && r.bools == Fresh(v).bools + Bump(a, p, BoolKind)
      && r.float64s == Fresh(v).float64s + Bump(a, p, Float64Kind)
      && r.ints == Fresh(v).ints + Bump(a, p, IntKind)
      && r.nulls == Fresh(v).nulls + Bump(a, p, NullKind)
      && r.objects == Fresh(v).objects + Bump(a, p, ObjectKind)
      && r.strings == Fresh(v).strings + Bump(a, p, StringKind)
      && r.empties == Fresh(v).empties + (if EmptyLike(a) then 1 else 0)
  {
    match a
    case Array(_) =>
    case Bool(_) =>
    case Float64(_) =>
    case Int(_) =>
    case Null =>
    case Object(_) =>
    case Str(_) =>
    case Number(_) =>
    case Unrecognized =>
  }

  /** A value bumps one kind counter, or none when it has no kind. */
  lemma BumpTotal(a: Any, p: Parsers)
    ensures Bump(a, p, ArrayKind) + Bump(a, p, BoolKind) + Bump(a, p, Float64Kind) + Bump(a, p, IntKind)
          + Bump(a, p, NullKind) + Bump(a, p, ObjectKind) + Bump(a, p, StringKind)
         == if KindOf(a, p) == NoKind then 0 else 1
  {
  }

  /**
   * The element node exists after any array, even an empty one, and has seen
   * one more value per element; values of other kinds leave it alone.
   */
  lemma ObserveArrayElements(v: Option<Summary>, a: Any, p: Parsers)
    ensures var r := Observe(v, a, p);
      && (a.Array? ==> r.arrayElements.Some?)
      && (a.Array? ==> ObservationsOf(r.arrayElements) == ObservationsOf(Fresh(v).arrayElements) + |a.elems|)
      && (!a.Array? ==> r.arrayElements == Fresh(v).arrayElements)
  {
  }

  /** Once a non-time string has been seen, `times` never changes again. */
  lemma TimesFrozen(v: Option<Summary>, a: Any, p: Parsers)
    requires Fresh(v).times < Fresh(v).strings
    ensures Observe(v, a, p).times == Fresh(v).times
  {
  }

  /** A null bumps only `nulls` (and `observations`), never `empties`. */
  lemma NullOnlyCountsNull(v: Option<Summary>, p: Parsers)
    ensures var r := Observe(v, Null, p);
      r == Fresh(v).(observations := r.observations, nulls := Fresh(v).nulls + 1)
  {
  }

  /** A number literal is an int iff it parses as an int64, else a float64, and is never counted empty. */
  lemma NumberCounts(v: Option<Summary>, text: string, p: Parsers)
    ensures var r := Observe(v, Number(text), p);
      && r.ints == Fresh(v).ints + (if p.parsesInt64(text) then 1 else 0)
      && r.float64s == Fresh(v).float64s + (if p.parsesInt64(text) then 0 else 1)
      && r.empties == Fresh(v).empties
  {
  }

  /** observe of a value that is neither an array nor an object, counter by counter. */
  lemma ObserveScalar(s: Summary, a: Any, p: Parsers)
    requires !a.Array? && !a.Object?
    ensures Observe(Some(s), a, p)
         == s.(observations := s.observations + 1,
               bools := s.bools + (if a.Bool? then 1 else 0),
               empties := s.empties + (if EmptyLike(a) then 1 else 0),
               float64s := s.float64s + (if a.Float64? || (a.Number? && !p.parsesInt64(a.text)) then 1 else 0),
               ints := s.ints + (if a.Int? || (a.Number? && p.parsesInt64(a.text)) then 1 else 0),
               nulls := s.nulls + (if a.Null? then 1 else 0),
               times := s.times + (if a.Str? && s.times == s.strings && p.parsesTime(a.s) then 1 else 0),
               strings := s.strings + (if a.Str? then 1 else 0))
  {
  }

  /** The sum of the observations of every per-key node. */
  ghost function SumObservations(m: map<string, Summary>): nat
    decreases |m|
  {
    if m == map[] then 0
    else
      var k :| k in m;
      m[k].observations + SumObservations(m - {k})
  }

  /** The sum does not depend on which key is taken out first. */
  lemma {:induction false} SumRemove(m: map<string, Summary>, k: string)
    requires k in m
    ensures SumObservations(m) == m[k].observations + SumObservations(m - {k})
    decreases |m|
  {
    var j :| j in m && SumObservations(m) == m[j].observations + SumObservations(m - {j});
    if j != k {
      var mj := m - {j};
      SumRemove(mj, k);
      SumRemove(m - {k}, j);
      assert mj - {k} == (m - {k}) - {j};
    }
  }

  /** Replacing one per-key node changes the sum by the difference. */
  lemma SumUpdate(m: map<string, Summary>, k: string, x: Summary)
    ensures SumObservations(m[k := x]) + (if k in m then m[k].observations else 0)
         == SumObservations(m) + x.observations
  {
    SumRemove(m[k := x], k);
    if k in m {
      SumRemove(m, k);
      assert m[k := x] - {k} == m - {k};
    } else {
      assert m[k := x] - {k} == m;
    }
  }

  /**
   * The links goType follows exist: a node that saw arrays has an element node,
   * and a node with per-key nodes has the node merging all property values.
   */
  ghost predicate Linked(s: Summary)
    decreases s
  {
    && (s.arrays > 0 ==> s.arrayElements.Some?)
    && (PropsOf(s) != map[] ==> s.allObjectProperties.Some?)
    && (s.arrayElements.Some? ==> Linked(s.arrayElements.value))
    && (s.allObjectProperties.Some? ==> Linked(s.allObjectProperties.value))
    && (s.objectProperties.Made? ==> forall k :: k in s.objectProperties.m ==> Linked(s.objectProperties.m[k]))
  }

  /** What Linked says about the children of one node. */
  lemma LinkedChildren(s: Summary)
    requires Linked(s)
    ensures s.arrays > 0 ==> s.arrayElements.Some?
    ensures s.arrayElements.Some? ==> Linked(s.arrayElements.value)
    ensures PropsOf(s) != map[] ==> s.allObjectProperties.Some?
    ensures s.allObjectProperties.Some? ==> Linked(s.allObjectProperties.value)
    ensures forall k :: k in PropsOf(s) ==> Linked(PropsOf(s)[k])
  {
  }

  /**
   * The invariants of one node of a tree built by observe: the kind counters
   * sum to at most `observations`, so does `empties`, `times <= strings`, a
   * node that saw arrays has an element node, one that saw objects has a
   * (possibly empty) map, and the node merging all property values saw
   * exactly as many values as all per-key nodes together.
   */
  ghost predicate NodeConsistent(s: Summary) {
    && KindTotal(s) <= s.observations
    && s.empties <= s.observations
    && s.times <= s.strings
    && (s.arrays > 0 ==> s.arrayElements.Some?)
    && (s.objects > 0 ==> s.objectProperties.Made?)
    && (PropsOf(s) != map[] ==> s.allObjectProperties.Some?)
    && ObservationsOf(s.allObjectProperties) == SumObservations(PropsOf(s))
  }

  /** NodeConsistent holds at every node reachable from `s`. */
  ghost predicate Consistent(s: Summary)
    decreases s
  {
    && NodeConsistent(s)
    && (s.arrayElements.Some? ==> Consistent(s.arrayElements.value))
    && (s.allObjectProperties.Some? ==> Consistent(s.allObjectProperties.value))
    && (s.objectProperties.Made? ==> forall k :: k in s.objectProperties.m ==> Consistent(s.objectProperties.m[k]))
  }

  lemma {:induction false} ConsistentIsLinked(s: Summary)
    requires Consistent(s)
    ensures Linked(s)
    decreases s
  {
    if s.arrayElements.Some? {
      ConsistentIsLinked(s.arrayElements.value);
    }
    if s.allObjectProperties.Some? {
      ConsistentIsLinked(s.allObjectProperties.value);
    }
    if s.objectProperties.Made? {
      var m := s.objectProperties.m;
      forall k | k in m ensures Linked(m[k]) {
        ConsistentIsLinked(m[k]);
      }
    }
  }

  lemma EmptyConsistent()
    ensures Consistent(Empty)
  {
    assert PropsOf(Empty) == map[];
  }

  /** observe keeps every invariant of the tree, starting from a nil receiver or a consistent node. */
  lemma {:induction false} ObserveConsistent(v: Option<Summary>, a: Any, p: Parsers)
    requires v.Some? ==> Consistent(v.value)
    ensures Consistent(Observe(v, a, p))
    decreases a
  {
    EmptyConsistent();
    match a
    case Array(es) =>
      ArrayConsistent(v, es, p);
    case Object(ps) =>
      ObjectConsistent(v, ps, p);
    case _ =>
      ScalarConsistent(v, a, p);
  }

  /** ObserveConsistent for an array: the element node stays consistent. */
  lemma {:induction false} ArrayConsistent(v: Option<Summary>, es: seq<Any>, p: Parsers)
    requires Consistent(Fresh(v))
    ensures Consistent(Observe(v, Array(es), p))
    decreases es, 1
  {
    EmptyConsistent();
    var s0 := Fresh(v);
    var elements := ObserveElements(s0.arrayElements.GetOr(Empty), es, p);
    ObserveElementsConsistent(s0.arrayElements.GetOr(Empty), es, p);
    ArrayNodeConsistent(s0, elements, |es| == 0);
    ObserveFresh(v, Array(es), p);
    ObserveArray(s0, es, p);
  }

  /** ObserveConsistent for an object: the property nodes stay consistent and in balance. */
  lemma {:induction false} ObjectConsistent(v: Option<Summary>, ps: seq<Property>, p: Parsers)
    requires Consistent(Fresh(v))
    ensures Consistent(Observe(v, Object(ps), p))
    decreases ps, 1
  {
    var s0 := Fresh(v);
    var (all, props) := ObserveProperties(s0.allObjectProperties, PropsOf(s0), ps, p);
    ObservePropertiesConsistent(s0.allObjectProperties, PropsOf(s0), ps, p);
    ObjectNodeConsistent(s0, all, props, |ps| == 0);
    ObserveFresh(v, Object(ps), p);
    ObserveObject(s0, ps, p);
  }

  /** A nil receiver observes like a fresh empty node. */
  lemma ObserveFresh(v: Option<Summary>, a: Any, p: Parsers)
    ensures Observe(v, a, p) == Observe(Some(Fresh(v)), a, p)
  {
    assert ObservationsOf(v) == ObservationsOf(Some(Fresh(v)));
  }

  /**
   * A node one observation ahead of a consistent one, with at most one more
   * kind counter and one more empty value, is consistent once its children are.
   */
  lemma ChildrenConsistent(r: Summary, s: Summary)
    requires NodeConsistent(s)
    requires r.observations == s.observations + 1 && KindTotal(r) <= KindTotal(s) + 1 && r.empties <= s.empties + 1
    requires r.times <= r.strings
    requires r.arrays > 0 ==> r.arrayElements.Some?
    requires r.objects > 0 ==> r.objectProperties.Made?
    requires PropsOf(r) != map[] ==> r.allObjectProperties.Some?
    requires ObservationsOf(r.allObjectProperties) == SumObservations(PropsOf(r))
    requires r.arrayElements.Some? ==> Consistent(r.arrayElements.value)
    requires r.allObjectProperties.Some? ==> Consistent(r.allObjectProperties.value)
    requires r.objectProperties.Made? ==> forall k :: k in r.objectProperties.m ==> Consistent(r.objectProperties.m[k])
    ensures Consistent(r)
  {
  }

  /** A consistent node after one more array, given a consistent element node. */
  lemma ArrayNodeConsistent(s0: Summary, elements: Summary, noElements: bool)
    requires Consistent(s0) && Consistent(elements)
    ensures Consistent(s0.(observations := s0.observations + 1, arrays := s0.arrays + 1, empties := s0.empties + (if noElements then 1 else 0), arrayElements := Some(elements)))
  {
    ChildrenConsistent(s0.(observations := s0.observations + 1, arrays := s0.arrays + 1, empties := s0.empties + (if noElements then 1 else 0), arrayElements := Some(elements)), s0);
  }

  /** A consistent node after one more mapping, given accumulators in balance. */
  lemma ObjectNodeConsistent(s0: Summary, all: Option<Summary>, props: map<string, Summary>, noEntries: bool)
    requires Consistent(s0) && InBalance(all, props)
    ensures Consistent(s0.(observations := s0.observations + 1, objects := s0.objects + 1, empties := s0.empties + (if noEntries then 1 else 0), allObjectProperties := all, objectProperties := Made(props)))
  {
    var r := s0.(observations := s0.observations + 1, objects := s0.objects + 1, empties := s0.empties + (if noEntries then 1 else 0), allObjectProperties := all, objectProperties := Made(props));
    assert PropsOf(r) == props;
    ChildrenConsistent(r, s0);
  }

  /** A value that is neither an array nor an object leaves every child alone. */
  lemma ScalarConsistent(v: Option<Summary>, a: Any, p: Parsers)
    requires Consistent(Fresh(v)) && !a.Array? && !a.Object?
    ensures Consistent(Observe(v, a, p))
  {
    ObserveCounts(v, a, p);
    ScalarChildren(v, a, p);
    ChildrenConsistent(Observe(v, a, p), Fresh(v));
  }

  /** A scalar value reaches no child, and never counts more times than strings. */
  lemma ScalarChildren(v: Option<Summary>, a: Any, p: Parsers)
    requires !a.Array? && !a.Object? && Fresh(v).times <= Fresh(v).strings
    ensures var r := Observe(v, a, p);
      && r.arrayElements == Fresh(v).arrayElements
      && r.allObjectProperties == Fresh(v).allObjectProperties && r.objectProperties == Fresh(v).objectProperties
      && r.times <= r.strings
  {
  }


  lemma {:induction false} ObserveElementsConsistent(x: Summary, es: seq<Any>, p: Parsers)
    requires Consistent(x)
    ensures Consistent(ObserveElements(x, es, p))
    decreases es, 0
  {
    if |es| > 0 {
      ObserveElementsConsistent(x, es[..|es| - 1], p);
      ObserveConsistent(Some(ObserveElements(x, es[..|es| - 1], p)), es[|es| - 1], p);
    }
  }

  /**
   * The accumulators of the mapping loop are in balance: every node consistent,
   * and the node of all property values has seen as many values as the
   * per-key nodes together.
   */
  ghost predicate InBalance(all: Option<Summary>, props: map<string, Summary>) {
    && (all.Some? ==> Consistent(all.value))
    && (forall k :: k in props ==> Consistent(props[k]))
    && ObservationsOf(all) == SumObservations(props)
    && (props != map[] ==> all.Some?)
  }

  lemma {:induction false} ObservePropertiesConsistent(all: Option<Summary>, props: map<string, Summary>, ps: seq<Property>, p: Parsers)
    requires InBalance(all, props)
    ensures var r := ObserveProperties(all, props, ps, p); InBalance(r.0, r.1)
    decreases ps, 0
  {
    if |ps| > 0 {
      ObservePropertiesConsistent(all, props, ps[..|ps| - 1], p);
      ObservePropertyConsistent(ObserveProperties(all, props, ps[..|ps| - 1], p), ps[|ps| - 1], p);
    }
  }

  /** One iteration of the mapping loop keeps the accumulators in balance. */
  lemma {:induction false} ObservePropertyConsistent(acc: (Option<Summary>, map<string, Summary>), prop: Property, p: Parsers)
    requires InBalance(acc.0, acc.1)
    ensures var r := ObserveProperty(acc, prop, p); InBalance(r.0, r.1)
    decreases prop
  {
    var keyNode := if prop.key in acc.1 then Some(acc.1[prop.key]) else None;
    ObserveConsistent(acc.0, prop.value, p);
    ObserveConsistent(keyNode, prop.value, p);
    SumUpdate(acc.1, prop.key, Observe(keyNode, prop.value, p));
  }

}
