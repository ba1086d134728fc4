/**
 * Predicates over resource properties, as PredicateBuilder builds them in the
 * provider tests: equality on one property, and conjunction.
 */
module Predicates {
  import opened Wrappers
  import opened Resources

  datatype Predicate =
    | Equals(propertyId: string, value: Value)
    | And(left: Predicate, right: Predicate)

  /** Whether a resource's properties satisfy p; a missing property satisfies no equality, so p can hold only where every id it names is present. */
  function Evaluate(p: Predicate, properties: PropertyMap): (b: bool)
    ensures b ==> IdsOf(p) <= properties.Keys
  {
    match p
    case Equals(id, v) => id in properties && properties[id] == v
    case And(l, r) => Evaluate(l, properties) && Evaluate(r, properties)
  }

  /** A null predicate keeps every resource. */
  predicate Matches(pred: Option<Predicate>, properties: PropertyMap)
  {
    pred.None? || Evaluate(pred.value, properties)
  }

  /** The property ids a predicate mentions. */
  function IdsOf(p: Predicate): set<string>
  {
    match p
    case Equals(id, _) => {id}
    case And(l, r) => IdsOf(l) + IdsOf(r)
  }

  /** The property ids a possibly null predicate mentions. */
  function PredicateIds(pred: Option<Predicate>): set<string>
  {
    match pred
    case None => {}
    case Some(p) => IdsOf(p)
  }

  /** The values a predicate pins its properties to; of two pins on one id the right one is kept. */
  function Pins(p: Predicate): (m: PropertyMap)
    ensures m.Keys == IdsOf(p)
  {
    match p
    case Equals(id, v) => map[id := v]
    case And(l, r) => Pins(l) + Pins(r)
  }

  /** The pinned values of a possibly null predicate; a null predicate pins nothing. */
  function PinnedProperties(pred: Option<Predicate>): (m: PropertyMap)
    ensures m.Keys == PredicateIds(pred)
  {
    match pred
    case None => map[]
    case Some(p) => Pins(p)
  }

  /** No id is pinned to two different values. */
  predicate Consistent(p: Predicate)
  {
    match p
    case Equals(_, _) => true
    case And(l, r) =>
      && Consistent(l) && Consistent(r)
      && forall id :: id in Pins(l) && id in Pins(r) ==> Pins(l)[id] == Pins(r)[id]
  }

  /** Every pin of p holds in the properties. */
  predicate AgreesWithPins(p: Predicate, properties: PropertyMap)
  {
    forall id :: id in Pins(p) ==> id in properties && properties[id] == Pins(p)[id]
  }

  /** A consistent predicate holds exactly where all its pins hold. */
  lemma {:induction false} EvaluateIsPins(p: Predicate, properties: PropertyMap)
    requires Consistent(p)
    ensures Evaluate(p, properties) <==> AgreesWithPins(p, properties)
  {
    match p
    case Equals(_, _) =>
    case And(l, r) =>
      EvaluateIsPins(l, properties);
      EvaluateIsPins(r, properties);
      if AgreesWithPins(p, properties) {
        forall id | id in Pins(l) ensures id in properties && properties[id] == Pins(l)[id] {
          assert id in Pins(p);
        }
      }
  }

  /** A predicate that pins one id to two values holds nowhere. */
  lemma {:induction false} InconsistentNeverHolds(p: Predicate, properties: PropertyMap)
    requires !Consistent(p)
    ensures !Evaluate(p, properties)
  {
    match p
    case And(l, r) =>
      if !Consistent(l) {
        InconsistentNeverHolds(l, properties);
      } else if !Consistent(r) {
        InconsistentNeverHolds(r, properties);
      } else if Evaluate(p, properties) {
        var id :| id in Pins(l) && id in Pins(r) && Pins(l)[id] != Pins(r)[id];
        EvaluateIsPins(l, properties);
        EvaluateIsPins(r, properties);
      }
  }

  /** The resources the predicate keeps, in their original order. */
  function Filter(rs: seq<Resource>, pred: Option<Predicate>): (out: seq<Resource>)
    ensures |out| <= |rs|
    ensures forall r :: r in out <==> r in rs && Matches(pred, r.properties)
  {
    if rs == [] then []
    else (if Matches(pred, rs[0].properties) then [rs[0]] else []) + Filter(rs[1..], pred)
  }

  /** A null predicate keeps every resource. */
  lemma {:induction false} FilterNull(rs: seq<Resource>)
    ensures Filter(rs, None) == rs
  {
    if rs != [] {
      FilterNull(rs[1..]);
    }
  }

  /** A predicate every resource satisfies keeps them all, in order. */
  lemma {:induction false} FilterAllMatch(rs: seq<Resource>, pred: Option<Predicate>)
    requires forall k :: 0 <= k < |rs| ==> Matches(pred, rs[k].properties)
    ensures Filter(rs, pred) == rs
  {
    if rs != [] {
      FilterAllMatch(rs[1..], pred);
    }
  }

  /** Filtering by a conjunction is filtering by its left side and then by its right side. */
  lemma {:induction false} FilterAnd(rs: seq<Resource>, l: Predicate, r: Predicate)
    ensures Filter(rs, Some(And(l, r))) == Filter(Filter(rs, Some(l)), Some(r))
  {
    if rs != [] {
      FilterAnd(rs[1..], l, r);
      var byLeft := Filter(rs, Some(l));
      if Evaluate(l, rs[0].properties) {
        assert byLeft == [rs[0]] + Filter(rs[1..], Some(l));
        assert byLeft[1..] == Filter(rs[1..], Some(l));
      } else {
        assert byLeft == Filter(rs[1..], Some(l));
      }
    }
  }

  /** When no resource matches, nothing is kept. */
  lemma {:induction false} FilterNoneMatch(rs: seq<Resource>, pred: Option<Predicate>)
    requires forall k :: 0 <= k < |rs| ==> !Matches(pred, rs[k].properties)
    ensures Filter(rs, pred) == []
  {
    if rs != [] {
      FilterNoneMatch(rs[1..], pred);
    }
  }

  /** No two resources carry the same value for id. */
  predicate UniqueOn(rs: seq<Resource>, id: string)
  {
    forall i, j :: 0 <= i < j < |rs| && id in rs[i].properties && id in rs[j].properties ==>
      rs[i].properties[id] != rs[j].properties[id]
  }

  /** Equality on a property no two resources share keeps at most one resource. */
  lemma {:induction false} FilterUniqueAtMostOne(rs: seq<Resource>, id: string, v: Value)
    requires UniqueOn(rs, id)
    ensures |Filter(rs, Some(Equals(id, v)))| <= 1
  {
    if rs != [] {
      var rest := rs[1..];
      assert UniqueOn(rest, id) by {
        forall i, j | 0 <= i < j < |rest| && id in rest[i].properties && id in rest[j].properties
          ensures rest[i].properties[id] != rest[j].properties[id]
        {
          assert rest[i] == rs[i + 1] && rest[j] == rs[j + 1];
        }
      }
      FilterUniqueAtMostOne(rest, id, v);
      if Matches(Some(Equals(id, v)), rs[0].properties) {
        assert forall k :: 0 <= k < |rest| ==> !Matches(Some(Equals(id, v)), rest[k].properties) by {
          forall k | 0 <= k < |rest| ensures !Matches(Some(Equals(id, v)), rest[k].properties) {
            assert rest[k] == rs[k + 1];
          }
        }
        FilterNoneMatch(rest, Some(Equals(id, v)));
      }
    }
  }
}
