/**
  Dots (`src/basic/dots.js`): the draw and style descriptors of a dot
  symbolizer, keyed `dots_<id>`.
 */
module Dots {
  import opened JsValue
  import opened Ramda
  import opened ReferenceHelpers

  /** The draw and style key of dot `id`: `'dots_' + id`. */
  function Key(id: string): (k: string)
    ensures |k| == |id| + 5 && k[..5] == "dots_" && k[5..] == id
  {
    "dots_" + id
  }

  /** Distinct ids give distinct dot keys. */
  lemma KeyInjective(id1: string, id2: string)
    requires Key(id1) == Key(id2)
    ensures id1 == id2
  {
  }

  /** checkDotSym: does the sheet declare a dot symbolizer? */
  predicate HasDot<Sheet>(h: Helpers<Sheet>, c3ss: Sheet)
  {
    h.checkSymbolizer("dot", c3ss)
  }

  /** getColor: `fill` folded with `opacity`, both read with their reference defaults. */
  function DotColor<Sheet>(h: Helpers<Sheet>, c3ss: Sheet): Value
  {
    h.colorFn(h.propertyOrDef("fill", DotReference, c3ss), h.propertyOrDef("opacity", DotReference, c3ss))
  }

  /** getDotWidth: `width`, possibly nil. */
  function DotWidth<Sheet>(h: Helpers<Sheet>, c3ss: Sheet): Value
  {
    h.propertyFnSafe("width", DotReference, c3ss)
  }

  /** getColors: `{color}` without nil keys. */
  function Colors<Sheet>(h: Helpers<Sheet>, c3ss: Sheet): (r: map<string, Value>)
    ensures r.Keys == if IsNil(DotColor(h, c3ss)) then {} else {"color"}
    ensures "color" in r ==> r["color"] == DotColor(h, c3ss)
  {
    PickNonNil(ApplySpec(map["color" := Getter(c => DotColor(h, c))], c3ss))
  }

  /** getWidths: `{size}` without nil keys. */
  function Widths<Sheet>(h: Helpers<Sheet>, c3ss: Sheet): (r: map<string, Value>)
    ensures r.Keys == if IsNil(DotWidth(h, c3ss)) then {} else {"size"}
    ensures "size" in r ==> r["size"] == DotWidth(h, c3ss)
  {
    PickNonNil(ApplySpec(map["size" := Getter(c => DotWidth(h, c))], c3ss))
  }

  /**
    Dots.getDraw: `{dots_<id>: {}}` without a dot symbolizer; otherwise the
    widths and colors records merged, which holds `size` and `color` exactly
    when each is not nil, and nothing else.
   */
  function GetDraw<Sheet>(h: Helpers<Sheet>, c3ss: Sheet, id: string): (draw: map<string, Value>)
    ensures draw.Keys == {Key(id)} && draw[Key(id)].Obj?
    ensures !HasDot(h, c3ss) ==> draw[Key(id)] == Obj(map[])
    ensures HasDot(h, c3ss) ==>
      var dot := draw[Key(id)].fields;
      && dot.Keys <= {"size", "color"}
      && ("size" in dot <==> !IsNil(DotWidth(h, c3ss)))
      && ("color" in dot <==> !IsNil(DotColor(h, c3ss)))
      && ("size" in dot ==> dot["size"] == DotWidth(h, c3ss))
      && ("color" in dot ==> dot["color"] == DotColor(h, c3ss))
    ensures NoNilFields(draw[Key(id)].fields)
  {
    var dot := if HasDot(h, c3ss) then MergeWith(Merge, Widths(h, c3ss), Colors(h, c3ss)) else map[];
    map[Key(id) := Obj(dot)]
  }

  /** A record `{key?}` without nil value is fixed by its value. */
  lemma SameRecord(r1: map<string, Value>, r2: map<string, Value>, key: string, v: Value)
    requires r1.Keys == (if IsNil(v) then {} else {key}) && r2.Keys == r1.Keys
    requires key in r1 ==> r1[key] == v && r2[key] == v
    ensures r1 == r2
  {
  }

  /**
    Two resolver records that answer alike the queries the dot translator
    makes on `c3ss`: the dot symbolizer guard; `fill` and `opacity` with their
    defaults; `width` as it is; and the color fold on the pair it is given.
    All with the dot reference.
   */
  predicate SameDotQueries<Sheet>(h1: Helpers<Sheet>, h2: Helpers<Sheet>, c3ss: Sheet)
  {
    && h1.checkSymbolizer("dot", c3ss) == h2.checkSymbolizer("dot", c3ss)
    && h1.propertyOrDef("fill", DotReference, c3ss) == h2.propertyOrDef("fill", DotReference, c3ss)
    && h1.propertyOrDef("opacity", DotReference, c3ss) == h2.propertyOrDef("opacity", DotReference, c3ss)
    && h1.propertyFnSafe("width", DotReference, c3ss) == h2.propertyFnSafe("width", DotReference, c3ss)
    && var fill := h1.propertyOrDef("fill", DotReference, c3ss);
       var alpha := h1.propertyOrDef("opacity", DotReference, c3ss);
       h1.colorFn(fill, alpha) == h2.colorFn(fill, alpha)
  }

  /**
    The dot translator asks the resolvers these questions and no others:
    resolvers that agree on them give the same draw object.
   */
  lemma DotQueriesDetermineDraw<Sheet>(h1: Helpers<Sheet>, h2: Helpers<Sheet>, c3ss: Sheet, id: string)
    requires SameDotQueries(h1, h2, c3ss)
    ensures GetDraw(h1, c3ss, id) == GetDraw(h2, c3ss, id)
  {
    SameRecord(Widths(h1, c3ss), Widths(h2, c3ss), "size", DotWidth(h1, c3ss));
    SameRecord(Colors(h1, c3ss), Colors(h2, c3ss), "color", DotColor(h1, c3ss));
    DrawCongruent(h1, h2, c3ss, id);
  }

  /** The draw object depends on the resolvers only through the guard and the two records. */
  lemma DrawCongruent<Sheet>(h1: Helpers<Sheet>, h2: Helpers<Sheet>, c3ss: Sheet, id: string)
    requires HasDot(h1, c3ss) == HasDot(h2, c3ss)
    requires Widths(h1, c3ss) == Widths(h2, c3ss) && Colors(h1, c3ss) == Colors(h2, c3ss)
    ensures GetDraw(h1, c3ss, id) == GetDraw(h2, c3ss, id)
  {
  }

  /** The two records share no key, so mergeWith(merge) is their plain union. */
  lemma DrawIsUnion<Sheet>(h: Helpers<Sheet>, c3ss: Sheet, id: string)
    requires HasDot(h, c3ss)
    ensures GetDraw(h, c3ss, id)[Key(id)] == Obj(Widths(h, c3ss) + Colors(h, c3ss))
  {
    MergeWithDisjoint(Merge, Widths(h, c3ss), Colors(h, c3ss));
  }

  /** Dots.getStyle: `{base: 'dots', blend: 'overlay', blend_order: ord || 1}` under `dots_<id>`. */
  function GetStyle<Sheet>(c3ss: Sheet, id: string, ord: Value): (style: map<string, Value>)
    ensures style.Keys == {Key(id)} && style[Key(id)].Obj?
    ensures
      var p := style[Key(id)].fields;
      && p.Keys == {"base", "blend", "blend_order"}
      && p["base"] == Str("dots")
      && p["blend"] == Str("overlay")
      && p["blend_order"] == (if Truthy(ord) then ord else Num(1.0))
  {
    map[Key(id) := Obj(map["base" := Str("dots"), "blend" := Str("overlay"), "blend_order" := Or(ord, Num(1.0))])]
  }

  /** The style of a dot does not depend on the style sheet at all. */
  lemma StyleIgnoresSheet<Sheet>(c1: Sheet, c2: Sheet, id: string, ord: Value)
    ensures GetStyle(c1, id, ord) == GetStyle(c2, id, ord)
  {
  }

  /** The draw and style descriptors of one dot carry the same single key. */
  lemma DrawAndStyleKeysAgree<Sheet>(h: Helpers<Sheet>, c3ss: Sheet, id: string, ord: Value)
    ensures GetDraw(h, c3ss, id).Keys == GetStyle(c3ss, id, ord).Keys == {Key(id)}
  {
  }

  /**
    A dot with fill `#ff0000`, opacity 0.5, width 4 and id "7": the draw object
    is `{dots_7: {color: <the folded color>, size: 4}}`.
   */
  lemma RedDotDrawExample<Sheet>(h: Helpers<Sheet>, c3ss: Sheet)
    requires HasDot(h, c3ss)
    requires h.propertyOrDef("fill", DotReference, c3ss) == Str("#ff0000")
    requires h.propertyOrDef("opacity", DotReference, c3ss) == Num(0.5)
    requires h.propertyFnSafe("width", DotReference, c3ss) == Num(4.0)
    requires !IsNil(h.colorFn(Str("#ff0000"), Num(0.5)))
    ensures GetDraw(h, c3ss, "7") == map["dots_7" := Obj(map["color" := h.colorFn(Str("#ff0000"), Num(0.5)), "size" := Num(4.0)])]
  {
    var color := h.colorFn(Str("#ff0000"), Num(0.5));
    var draw := GetDraw(h, c3ss, "7");
    assert Key("7") == "dots_7";
    var dot := draw["dots_7"].fields;
    assert dot.Keys == {"color", "size"};
    assert dot == map["color" := color, "size" := Num(4.0)] by {
      assert dot["color"] == DotColor(h, c3ss) == color;
      assert dot["size"] == DotWidth(h, c3ss) == Num(4.0);
    }
  }

  /** The same dot with no order: the style is `{dots_7: {base: 'dots', blend: 'overlay', blend_order: 1}}`. */
  lemma RedDotStyleExample<Sheet>(c3ss: Sheet)
    ensures GetStyle(c3ss, "7", Nil) == map["dots_7" := Obj(map["base" := Str("dots"), "blend" := Str("overlay"), "blend_order" := Num(1.0)])]
  {
    assert Key("7") == "dots_7";
    var p := GetStyle(c3ss, "7", Nil)["dots_7"].fields;
    assert p.Keys == {"base", "blend", "blend_order"};
  }
}
