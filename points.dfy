/**
  Point markers (`src/basic/points.js`): the draw and style descriptors of a
  marker symbolizer, keyed `points_<id>`.
 */
module Points {
  import opened JsValue
  import opened Ramda
  import opened ReferenceHelpers

  /** The draw and style key of point `id`: `'points_' + id`. */
  function Key(id: string): (k: string)
    ensures |k| == |id| + 7 && k[..7] == "points_" && k[7..] == id
  {
    "points_" + id
  }

  /** Distinct ids give distinct keys, so the uniqueness of keys rests on the caller's ids alone. */
  lemma KeyInjective(id1: string, id2: string)
    requires Key(id1) == Key(id2)
    ensures id1 == id2
  {
  }

  /** checkMarkerSym: does the sheet declare a marker symbolizer? */
  predicate HasMarker<Sheet>(h: Helpers<Sheet>, c3ss: Sheet)
  {
    h.checkSymbolizer("markers", c3ss)
  }

  /** getColor: `fill` (or its default) folded with `fill-opacity`, `opacity` as the alternative. */
  function FillColor<Sheet>(h: Helpers<Sheet>, c3ss: Sheet): Value
  {
    h.colorFn(h.propertyOrDef("fill", PointReference, c3ss), h.eitherProp("fill-opacity", "opacity", PointReference, c3ss))
  }

  /** getOutlineColor: `stroke` (possibly nil) folded with `stroke-opacity`, `opacity` as the alternative. */
  function OutlineColor<Sheet>(h: Helpers<Sheet>, c3ss: Sheet): Value
  {
    h.colorFn(h.propertyFnSafe("stroke", PointReference, c3ss), h.eitherProp("stroke-opacity", "opacity", PointReference, c3ss))
  }

  /** getMarkerWidth: `width`, possibly nil. */
  function MarkerWidth<Sheet>(h: Helpers<Sheet>, c3ss: Sheet): Value
  {
    h.propertyFnSafe("width", PointReference, c3ss)
  }

  /** getOutlineWidth: `stroke-width`, possibly nil. */
  function OutlineWidth<Sheet>(h: Helpers<Sheet>, c3ss: Sheet): Value
  {
    h.propertyFnSafe("stroke-width", PointReference, c3ss)
  }

  /** getCollide: `allow-overlap`, forced to a static boolean. */
  function AllowOverlap<Sheet>(h: Helpers<Sheet>, c3ss: Sheet): bool
  {
    h.executedFn("allow-overlap", PointReference, c3ss)
  }

  /** getBlending: the blend mode the sheet asks for. */
  function Blending<Sheet>(h: Helpers<Sheet>, c3ss: Sheet): Value
  {
    h.blendFn(PointReference, c3ss)
  }

  /** The applySpec record of getColors: a getter `color` and a nested `outline: {color}`. */
  function ColorsSpec<Sheet>(h: Helpers<Sheet>): (s: map<string, Spec<Sheet>>)
    ensures s.Keys == {"color", "outline"} && s["color"].Getter?
    ensures s["outline"].Nested? && s["outline"].fields.Keys == {"color"} && s["outline"].fields["color"].Getter?
  {
    map[
      "color" := Getter(c => FillColor(h, c)),
      "outline" := Nested(map["color" := Getter(c => OutlineColor(h, c))])
    ]
  }

  /** The applySpec record of getWidths: a getter `size` and a nested `outline: {width}`. */
  function WidthsSpec<Sheet>(h: Helpers<Sheet>): (s: map<string, Spec<Sheet>>)
    ensures s.Keys == {"size", "outline"} && s["size"].Getter?
    ensures s["outline"].Nested? && s["outline"].fields.Keys == {"width"} && s["outline"].fields["width"].Getter?
  {
    map[
      "size" := Getter(c => MarkerWidth(h, c)),
      "outline" := Nested(map["width" := Getter(c => OutlineWidth(h, c))])
    ]
  }

  /** applySpec of the colors record gives the fill color, and the outline color nested under `outline`. */
  lemma ColorsRecord<Sheet>(h: Helpers<Sheet>, c3ss: Sheet)
    ensures ApplySpec(ColorsSpec(h), c3ss) == map["color" := FillColor(h, c3ss), "outline" := Obj(map["color" := OutlineColor(h, c3ss)])]
  {
    var r := ApplySpec(ColorsSpec(h), c3ss);
    assert r["outline"].fields == map["color" := OutlineColor(h, c3ss)];
  }

  /** applySpec of the widths record gives the marker width, and the outline width nested under `outline`. */
  lemma WidthsRecord<Sheet>(h: Helpers<Sheet>, c3ss: Sheet)
    ensures ApplySpec(WidthsSpec(h), c3ss) == map["size" := MarkerWidth(h, c3ss), "outline" := Obj(map["width" := OutlineWidth(h, c3ss)])]
  {
    var r := ApplySpec(WidthsSpec(h), c3ss);
    assert r["outline"].fields == map["width" := OutlineWidth(h, c3ss)];
  }

  /**
    pickBy(compose(not, isNil)) over applySpec of a record `{leaf, outline: {inner}}`:
    `leaf` is kept exactly when its getter gives a non-nil value, and `outline`
    is always kept, even when the value inside it is nil, because pickBy looks
    at the top level only.
   */
  lemma PickRecord<Sheet>(spec: map<string, Spec<Sheet>>, leaf: string, inner: string, x: Sheet)
    requires spec.Keys == {leaf, "outline"} && leaf != "outline"
    requires spec[leaf].Getter?
    requires spec["outline"].Nested? && spec["outline"].fields.Keys == {inner} && spec["outline"].fields[inner].Getter?
    ensures
      var r := PickNonNil(ApplySpec(spec, x));
      var v := spec[leaf].get(x);
      && r.Keys == {"outline"} + (if IsNil(v) then {} else {leaf})
      && (leaf in r ==> r[leaf] == v)
      && r["outline"] == Obj(map[inner := spec["outline"].fields[inner].get(x)])
  {
    var raw := ApplySpec(spec, x);
    var o := raw["outline"];
    assert o.fields.Keys == {inner};
    assert o.fields == map[inner := spec["outline"].fields[inner].get(x)];
  }

  /**
    getColors: `color` exactly when the fill color is not nil, and always
    `outline: {color}` with the outline color, nil or not.
   */
  function Colors<Sheet>(h: Helpers<Sheet>, c3ss: Sheet): (r: map<string, Value>)
    ensures r.Keys == {"outline"} + (if IsNil(FillColor(h, c3ss)) then {} else {"color"})
    ensures "color" in r ==> r["color"] == FillColor(h, c3ss)
    ensures r["outline"] == Obj(map["color" := OutlineColor(h, c3ss)])
  {
    PickRecord(ColorsSpec(h), "color", "color", c3ss);
    PickNonNil(ApplySpec(ColorsSpec(h), c3ss))
  }

  /**
    getWidths: `size` exactly when the marker width is not nil, and always
    `outline: {width}` with the outline width, nil or not.
   */
  function Widths<Sheet>(h: Helpers<Sheet>, c3ss: Sheet): (r: map<string, Value>)
    ensures r.Keys == {"outline"} + (if IsNil(MarkerWidth(h, c3ss)) then {} else {"size"})
    ensures "size" in r ==> r["size"] == MarkerWidth(h, c3ss)
    ensures r["outline"] == Obj(map["width" := OutlineWidth(h, c3ss)])
  {
    PickRecord(WidthsSpec(h), "size", "width", c3ss);
    PickNonNil(ApplySpec(WidthsSpec(h), c3ss))
  }

  /**
    Merging the two outline sub-objects keeps both the outline width and the
    outline color: neither side clobbers the other.
   */
  lemma OutlineUnion(width: Value, color: Value)
    ensures Merge(Obj(map["width" := width]), Obj(map["color" := color])) == Obj(map["width" := width, "color" := color])
  {
  }

  /**
    The one-level-deep merge of a widths record and a colors record: `size`
    and `color` exactly when they are not nil, and one `outline` holding the
    outline width and the outline color; no top-level nil.
   */
  ghost predicate IsMergedRecord(m: map<string, Value>, size: Value, color: Value, width: Value, stroke: Value)
  {
    && m.Keys == {"outline"} + (if IsNil(size) then {} else {"size"}) + (if IsNil(color) then {} else {"color"})
    && m["outline"] == Obj(map["width" := width, "color" := stroke])
    && ("size" in m ==> m["size"] == size)
    && ("color" in m ==> m["color"] == color)
    && NoNilFields(m)
  }

  /**
    What the draw object of a point holds when the sheet declares a marker:
    the merged record and, besides, `collide`, the negation of `allow-overlap`.
   */
  ghost predicate IsMarkerDraw(point: map<string, Value>, size: Value, color: Value, width: Value, stroke: Value, allowOverlap: bool)
  {
    && "collide" in point
    && point["collide"] == Bool(!allowOverlap)
    && IsMergedRecord(point - {"collide"}, size, color, width, stroke)
    && NoNilFields(point)
  }

  /**
    mergeWith(merge, w, c) of a widths record `{size?, outline: {width}}` and
    a colors record `{color?, outline: {color}}`: the scalar keys are added
    untouched and the two outlines are combined.
   */
  lemma MergeRecords(w: map<string, Value>, c: map<string, Value>, size: Value, color: Value, width: Value, stroke: Value)
    requires w.Keys == {"outline"} + (if IsNil(size) then {} else {"size"})
    requires "size" in w ==> w["size"] == size
    requires w["outline"] == Obj(map["width" := width])
    requires c.Keys == {"outline"} + (if IsNil(color) then {} else {"color"})
    requires "color" in c ==> c["color"] == color
    requires c["outline"] == Obj(map["color" := stroke])
    requires NoNilFields(w) && NoNilFields(c)
    ensures IsMergedRecord(MergeWith(Merge, w, c), size, color, width, stroke)
  {
    MergeWithMergeNoNil(w, c);
    OutlineUnion(width, stroke);
    var m := MergeWith(Merge, w, c);
    assert m["outline"] == Merge(w["outline"], c["outline"]);
  }

  /** mergeWith(merge, getWidths(c3ss), getColors(c3ss)) is the merged record of the sheet's values. */
  lemma MergedFields<Sheet>(h: Helpers<Sheet>, c3ss: Sheet)
    ensures IsMergedRecord(MergeWith(Merge, Widths(h, c3ss), Colors(h, c3ss)),
                           MarkerWidth(h, c3ss), FillColor(h, c3ss), OutlineWidth(h, c3ss), OutlineColor(h, c3ss))
  {
    MergeRecords(Widths(h, c3ss), Colors(h, c3ss), MarkerWidth(h, c3ss), FillColor(h, c3ss), OutlineWidth(h, c3ss), OutlineColor(h, c3ss));
  }

  /** `point.collide = !allowOverlap` on the merged record gives the marker's draw object. */
  lemma AddCollide(m: map<string, Value>, size: Value, color: Value, width: Value, stroke: Value, allowOverlap: bool)
    requires IsMergedRecord(m, size, color, width, stroke)
    ensures IsMarkerDraw(m["collide" := Bool(!allowOverlap)], size, color, width, stroke, allowOverlap)
  {
  }

  /** A record `{leaf?, outline: {inner}}` without nil leaf is fixed by its two values. */
  lemma SameRecord(r1: map<string, Value>, r2: map<string, Value>, leaf: string, v: Value, inner: string, w: Value)
    requires leaf != "outline"
    requires r1.Keys == {"outline"} + (if IsNil(v) then {} else {leaf}) && r2.Keys == r1.Keys
    requires leaf in r1 ==> r1[leaf] == v && r2[leaf] == v
    requires r1["outline"] == Obj(map[inner := w]) && r2["outline"] == Obj(map[inner := w])
    ensures r1 == r2
  {
  }

  /**
    Two resolver records that answer alike the queries the point translator
    makes on `c3ss`: the marker symbolizer guard; `fill` with its default,
    `stroke`, `width` and `stroke-width` as they are; `fill-opacity` and
    `stroke-opacity`, each with `opacity` as the alternative; `allow-overlap`
    forced to a boolean; the blend mode; and the color fold on the two pairs
    it is given. All with the point reference.
   */
  predicate SameMarkerQueries<Sheet>(h1: Helpers<Sheet>, h2: Helpers<Sheet>, c3ss: Sheet)
  {
    && h1.checkSymbolizer("markers", c3ss) == h2.checkSymbolizer("markers", c3ss)
    && h1.propertyOrDef("fill", PointReference, c3ss) == h2.propertyOrDef("fill", PointReference, c3ss)
    && h1.eitherProp("fill-opacity", "opacity", PointReference, c3ss) == h2.eitherProp("fill-opacity", "opacity", PointReference, c3ss)
    && h1.propertyFnSafe("stroke", PointReference, c3ss) == h2.propertyFnSafe("stroke", PointReference, c3ss)
    && h1.eitherProp("stroke-opacity", "opacity", PointReference, c3ss) == h2.eitherProp("stroke-opacity", "opacity", PointReference, c3ss)
    && h1.propertyFnSafe("width", PointReference, c3ss) == h2.propertyFnSafe("width", PointReference, c3ss)
    && h1.propertyFnSafe("stroke-width", PointReference, c3ss) == h2.propertyFnSafe("stroke-width", PointReference, c3ss)
    && h1.executedFn("allow-overlap", PointReference, c3ss) == h2.executedFn("allow-overlap", PointReference, c3ss)
    && h1.blendFn(PointReference, c3ss) == h2.blendFn(PointReference, c3ss)
    && var fill := h1.propertyOrDef("fill", PointReference, c3ss);
       var fillAlpha := h1.eitherProp("fill-opacity", "opacity", PointReference, c3ss);
       var stroke := h1.propertyFnSafe("stroke", PointReference, c3ss);
       var strokeAlpha := h1.eitherProp("stroke-opacity", "opacity", PointReference, c3ss);
       && h1.colorFn(fill, fillAlpha) == h2.colorFn(fill, fillAlpha)
       && h1.colorFn(stroke, strokeAlpha) == h2.colorFn(stroke, strokeAlpha)
  }

  /**
    The point translator asks the resolvers these questions and no others:
    resolvers that agree on them give the same guard, the same merged record,
    the same `collide` and the same blend mode, whatever they answer elsewhere.
   */
  lemma MarkerQueriesDetermineDescriptors<Sheet>(h1: Helpers<Sheet>, h2: Helpers<Sheet>, c3ss: Sheet)
    requires SameMarkerQueries(h1, h2, c3ss)
    ensures HasMarker(h1, c3ss) == HasMarker(h2, c3ss)
    ensures MergeWith(Merge, Widths(h1, c3ss), Colors(h1, c3ss)) == MergeWith(Merge, Widths(h2, c3ss), Colors(h2, c3ss))
    ensures AllowOverlap(h1, c3ss) == AllowOverlap(h2, c3ss)
    ensures Blending(h1, c3ss) == Blending(h2, c3ss)
  {
    SameRecord(Widths(h1, c3ss), Widths(h2, c3ss), "size", MarkerWidth(h1, c3ss), "width", OutlineWidth(h1, c3ss));
    SameRecord(Colors(h1, c3ss), Colors(h2, c3ss), "color", FillColor(h1, c3ss), "color", OutlineColor(h1, c3ss));
  }

  /** The draw object of a marker is determined by its values: two objects that both fit it are equal. */
  lemma MarkerDrawUnique(p1: map<string, Value>, p2: map<string, Value>, size: Value, color: Value, width: Value, stroke: Value, allowOverlap: bool)
    requires IsMarkerDraw(p1, size, color, width, stroke, allowOverlap)
    requires IsMarkerDraw(p2, size, color, width, stroke, allowOverlap)
    ensures p1 == p2
  {
    var q1, q2 := p1 - {"collide"}, p2 - {"collide"};
    assert q1 == q2;
    assert p1 == q1["collide" := Bool(!allowOverlap)];
    assert p2 == q2["collide" := Bool(!allowOverlap)];
  }

  /**
    Point.getDraw: `{points_<id>: {}}` without a marker symbolizer, otherwise
    the widths and colors records merged one level deep, plus `collide`, the
    negation of `allow-overlap`.
   */
  method GetDraw<Sheet>(h: Helpers<Sheet>, c3ss: Sheet, id: string) returns (draw: map<string, Value>)
    ensures draw.Keys == {Key(id)} && draw[Key(id)].Obj?
    ensures !HasMarker(h, c3ss) ==> draw[Key(id)] == Obj(map[])
    ensures HasMarker(h, c3ss) ==>
      IsMarkerDraw(draw[Key(id)].fields, MarkerWidth(h, c3ss), FillColor(h, c3ss),
                   OutlineWidth(h, c3ss), OutlineColor(h, c3ss), AllowOverlap(h, c3ss))
  {
    var point: map<string, Value> := map[];
    draw := map[];
    if HasMarker(h, c3ss) {
      point := MergeWith(Merge, Widths(h, c3ss), Colors(h, c3ss));
      MergedFields(h, c3ss);
      AddCollide(point, MarkerWidth(h, c3ss), FillColor(h, c3ss), OutlineWidth(h, c3ss), OutlineColor(h, c3ss), AllowOverlap(h, c3ss));
      point := point["collide" := Bool(!AllowOverlap(h, c3ss))];
    }
    draw := draw[Key(id) := Obj(point)];
  }

  /**
    Point.getStyle: `{base: 'points', blend: 'overlay', blend_order: ord || 1}`
    under `points_<id>`; with a marker symbolizer `blend` is replaced by the
    sheet's blend mode, and `base` and `blend_order` stay as they were.
   */
  method GetStyle<Sheet>(h: Helpers<Sheet>, c3ss: Sheet, id: string, ord: Value) returns (style: map<string, Value>)
    ensures style.Keys == {Key(id)} && style[Key(id)].Obj?
    ensures
      var p := style[Key(id)].fields;
      && p.Keys == {"base", "blend", "blend_order"}
      && p["base"] == Str("points")
      && p["blend"] == (if HasMarker(h, c3ss) then Blending(h, c3ss) else Str("overlay"))
      && p["blend_order"] == (if Truthy(ord) then ord else Num(1.0))
  {
    style := map[];
    style := style[Key(id) := Obj(map["base" := Str("points"), "blend" := Str("overlay"), "blend_order" := Or(ord, Num(1.0))])];
    if HasMarker(h, c3ss) {
      // `p` is an alias of `style['points_' + id]`: the update is written back.
      var p := style[Key(id)];
      p := Obj(p.fields["blend" := Blending(h, c3ss)]);
      style := style[Key(id) := p];
    }
  }

  /**
    A sheet without a marker symbolizer, id "a" and order 3: the draw object is
    `{points_a: {}}` and the style `{points_a: {base: 'points', blend: 'overlay', blend_order: 3}}`.
   */
  method NoMarkerExample<Sheet>(h: Helpers<Sheet>, c3ss: Sheet) returns (draw: map<string, Value>, style: map<string, Value>)
    requires !HasMarker(h, c3ss)
    ensures draw == map["points_a" := Obj(map[])]
    ensures style == map["points_a" := Obj(map["base" := Str("points"), "blend" := Str("overlay"), "blend_order" := Num(3.0)])]
  {
    draw := GetDraw(h, c3ss, "a");
    style := GetStyle(h, c3ss, "a", Num(3.0));
    assert Key("a") == "points_a";
    var p := style["points_a"].fields;
    assert p == map["base" := Str("points"), "blend" := Str("overlay"), "blend_order" := Num(3.0)];
  }
}
