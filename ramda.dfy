/**
  The ramda functions that the point and dot translators are built from, with
  the semantics those translators rely on: the predicate `isNil` and the four
  object combinators `pickBy(compose(not, isNil))`, `applySpec`, `merge` and
  `mergeWith`.
 */
module Ramda {
  import opened JsValue

  /** `isNil`: true of null and undefined only. */
  predicate IsNil(v: Value)
  {
    v.Nil?
  }

  /** No top-level key of the object holds null or undefined. */
  predicate NoNilFields(m: map<string, Value>)
  {
    forall k :: k in m ==> !IsNil(m[k])
  }

  /** `pickBy(compose(not, isNil))`: keeps the top-level keys whose value is not nil. */
  function PickNonNil(m: map<string, Value>): (r: map<string, Value>)
    ensures forall k :: k in r <==> k in m && !IsNil(m[k])
    ensures forall k :: k in r ==> r[k] == m[k]
    ensures NoNilFields(r)
  {
    map k | k in m && !IsNil(m[k]) :: m[k]
  }

  /** The own enumerable properties that `Object.assign` copies from a source. */
  function OwnProps(v: Value): map<string, Value>
  {
    if v.Obj? then v.fields else map[]
  }

  /**
    `merge(a, b)`, that is `Object.assign({}, a, b)`: a new object with the
    properties of both, those of `b` winning on a shared key. Properties whose
    value is undefined are copied like any other.
   */
  function Merge(a: Value, b: Value): (r: Value)
    ensures r.Obj?
    ensures forall k :: k in r.fields <==> k in OwnProps(a) || k in OwnProps(b)
    ensures forall k :: k in OwnProps(b) ==> r.fields[k] == OwnProps(b)[k]
    ensures forall k :: k in OwnProps(a) && k !in OwnProps(b) ==> r.fields[k] == OwnProps(a)[k]
  {
    Obj(OwnProps(a) + OwnProps(b))
  }

  /**
    `mergeWith(f, l, r)`: every key of either side; a key on both sides gets
    `f(l[k], r[k])`, a key on one side keeps that side's value.
   */
  function MergeWith(f: (Value, Value) -> Value, l: map<string, Value>, r: map<string, Value>): (m: map<string, Value>)
    ensures forall k :: k in m <==> k in l || k in r
    ensures forall k :: k in l && k in r ==> m[k] == f(l[k], r[k])
    ensures forall k :: k in l && k !in r ==> m[k] == l[k]
    ensures forall k :: k !in l && k in r ==> m[k] == r[k]
  {
    map k | k in l.Keys + r.Keys :: if k in l && k in r then f(l[k], r[k]) else if k in l then l[k] else r[k]
  }

  /** When the two sides share no key, `mergeWith` never calls `f`: it is plain union. */
  lemma MergeWithDisjoint(f: (Value, Value) -> Value, l: map<string, Value>, r: map<string, Value>)
    requires l.Keys !! r.Keys
    ensures MergeWith(f, l, r) == l + r
  {
  }

  /** Merging with `merge` brings in no nil: a shared key becomes an object, any other key keeps its value. */
  lemma MergeWithMergeNoNil(l: map<string, Value>, r: map<string, Value>)
    requires NoNilFields(l) && NoNilFields(r)
    ensures NoNilFields(MergeWith(Merge, l, r))
  {
  }

  /**
    A specification for `applySpec`: every leaf is a getter applied to the
    input, every inner node an object of further specifications.
   */
  datatype Spec<-Sheet> = Getter(get: Sheet -> Value) | Nested(fields: map<string, Spec<Sheet>>)

  /**
    `v` is what `spec` gives on input `x`: each getter's value at its leaf, and
    an object with exactly the specification's keys wherever it nests.
   */
  ghost predicate Shaped<Sheet>(spec: Spec<Sheet>, x: Sheet, v: Value)
  {
    match spec
    case Getter(g) => v == g(x)
    case Nested(f) => v.Obj? && v.fields.Keys == f.Keys && forall k :: k in f ==> Shaped(f[k], x, v.fields[k])
  }

  /** One node of `applySpec(spec)(x)`: a getter is called with `x`, a nested specification is filled in. */
  function Fill<Sheet>(spec: Spec<Sheet>, x: Sheet): (r: Value)
    ensures Shaped(spec, x, r)
    ensures spec.Getter? ==> r == spec.get(x)
    ensures spec.Nested? ==> forall k :: k in spec.fields && spec.fields[k].Getter? ==> r.fields[k] == spec.fields[k].get(x)
  {
    match spec
    case Getter(g) => g(x)
    case Nested(f) => Obj(map k | k in f :: Fill(f[k], x))
  }

  /**
    `applySpec(spec)(x)`: an object with exactly the keys of `spec`, nested
    objects where `spec` nests, and each getter's value at its leaf, at every
    depth. Nil leaves are kept: `applySpec` removes nothing.
   */
  function ApplySpec<Sheet>(spec: map<string, Spec<Sheet>>, x: Sheet): (r: map<string, Value>)
    ensures r.Keys == spec.Keys
    ensures forall k :: k in spec ==> Shaped(spec[k], x, r[k])
    ensures forall k :: k in spec && spec[k].Getter? ==> r[k] == spec[k].get(x)
    ensures forall k :: k in spec && spec[k].Nested? ==> r[k].Obj? && r[k].fields.Keys == spec[k].fields.Keys
    ensures forall k, j :: k in spec && spec[k].Nested? && j in spec[k].fields && spec[k].fields[j].Getter? ==>
      r[k].fields[j] == spec[k].fields[j].get(x)
  {
    Fill(Nested(spec), x).fields
  }
}
