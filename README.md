# Point and dot descriptors of tangram-carto, in Dafny

tangram-carto turns a compiled CartoCSS style sheet into the `draw` and
`style` objects of a Tangram scene. This project models the translators of two
primitives and proves what they produce:

- **point markers** (`src/basic/points.js`): `Point.getDraw` gives
  `{points_<id>: {size?, color?, outline: {width, color}, collide}}` when the
  sheet declares a marker symbolizer and `{points_<id>: {}}` otherwise;
  `Point.getStyle` gives `{points_<id>: {base: 'points', blend, blend_order}}`.
- **dots** (`src/basic/dots.js`): `Dots.getDraw` gives
  `{dots_<id>: {size?, color?}}` or `{dots_<id>: {}}`; `Dots.getStyle` gives
  the constant `{dots_<id>: {base: 'dots', blend: 'overlay', blend_order}}`.

Files:

- `js_value.dfy` (module `JsValue`): the JavaScript values the descriptors
  are made of (`Nil` for null and undefined, literals, `Dyn` for an
  unevaluated zoom- or feature-dependent closure, `Obj` for a plain object),
  truthiness, and `a || b`.
- `ramda.dfy` (module `Ramda`): the ramda functions the translators use:
  the predicate `isNil` and the four object combinators `pickBy(compose(not, isNil))`, `applySpec` (recursive over nested
  specifications), `merge` (`Object.assign({}, a, b)`, right-biased, one level)
  and `mergeWith`.
- `reference_helpers.dfy` (module `ReferenceHelpers`): the resolvers of
  `utils/reference-helpers.js` and the symbolizer guard of `utils/reference`,
  whose code is not part of this model. They are one record `Helpers` of
  function fields, passed to every operation that reads the sheet, over a
  style-sheet type `Sheet` that the model never looks into. Every property proved below holds for any
  such functions.
- `points.dfy` (module `Points`): the point translator. `getColors` and
  `getWidths` are pure pipelines and are functions; `Point.getDraw` and
  `Point.getStyle` build their result step by step (reassigning `point`,
  setting `collide` after the merge, overwriting `blend` through an alias of
  the style entry) and are methods whose locals are reassigned in the same
  order. The objects the source mutates are fresh locals nobody else sees, so
  they are map values here.
- `dots.dfy` (module `Dots`): the dot translator, all functions.
- `descriptor_keys.dfy` (module `DescriptorKeys`): the one fact that relates
  the two translators, that their keys never coincide. Neither source file
  depends on the other, so it sits in a module of its own.

Three behaviours of the source are easy to misread; the model follows the
source:

- The nested `outline` object may hold null/undefined leaves. `applySpec`
  puts `outline: {color: undefined}` in the colors record, `pickBy` looks at
  the top level only, and `Object.assign` copies undefined-valued properties.
  Only the top level of a draw object is free of nil (`NoNilFields`).
- With a marker symbolizer, `blend` is whatever `getBlending(c3ss)` returns.
  The point translator itself has no fallback to `'overlay'`; any fallback
  lives inside the blend helper.
- `blend_order` is `ord || 1`: every falsy order (`0`, `''`, `false`, null,
  undefined), not only a missing one, gives 1.

## Model

The one-call definitions named after the source's resolver constants
(`Points.HasMarker`, `FillColor`, `OutlineColor`, `MarkerWidth`,
`OutlineWidth`, `AllowOverlap`, `Blending`; `Dots.HasDot`, `DotColor`,
`DotWidth`) carry no contract of their own: which resolver each asks, for
which property and with which reference, is what
`Points.MarkerQueriesDetermineDescriptors` and `Dots.DotQueriesDetermineDraw`
state, and what each yields is used in the contracts of `Colors`, `Widths`,
`GetDraw` and `GetStyle`.

| member | source | states |
|---|---|---|
| `JsValue.Or` | src/basic/points.js:146 | JavaScript `a or b` on `ord` and 1 is `ord` exactly when `ord` is truthy and 1 otherwise; the result is truthy iff either operand is |
| `Ramda.PickNonNil` | src/basic/points.js:63 | `pickBy(compose(not, isNil))` keeps a top-level key iff its value is not nil, with its value unchanged; nothing nil remains |
| `Ramda.Merge` | src/basic/points.js:122 | `merge(a, b)` is an object with the keys of both; on a shared key `b` wins, otherwise the value of the side that has it |
| `Ramda.MergeWith` | src/basic/points.js:121-125 | `mergeWith(f, l, r)` has every key of either side; a shared key holds `f(l[k], r[k])`, any other key its side's value |
| `Ramda.MergeWithDisjoint` | src/basic/dots.js:60-64 | with no shared key, `mergeWith(f, l, r)` is the plain union `l + r`, whatever `f` is |
| `Ramda.MergeWithMergeNoNil` | src/basic/points.js:121-125 | merging two nil-free records with `merge` yields a nil-free record |
| `Ramda.Fill` | src/basic/points.js:64-69 | `applySpec` on `x` gives, at every depth, each getter's value on `x` at its leaf and an object with exactly the specification's keys wherever it nests |
| `Ramda.ApplySpec` | src/basic/points.js:64-69 | `applySpec(spec)(x)` has exactly the keys of `spec`, and every entry, however deeply nested, is what its specification gives on `x`; in particular a getter's value at a direct or a once-nested leaf |
| `Points.Key` | src/basic/points.js:130 | the key is `points_` followed by the id, unchanged |
| `Points.KeyInjective` | src/basic/points.js:130 | two ids with the same point key are equal |
| `Points.ColorsSpec` | src/basic/points.js:64-69 | the colors record has a getter `color` and a nested `outline` holding one getter `color`, and no other key |
| `Points.WidthsSpec` | src/basic/points.js:84-89 | the widths record has a getter `size` and a nested `outline` holding one getter `width`, and no other key |
| `Points.ColorsRecord` | src/basic/points.js:64-69 | `applySpec` of the colors record is exactly `{color: fill color, outline: {color: outline color}}` |
| `Points.WidthsRecord` | src/basic/points.js:84-89 | `applySpec` of the widths record is exactly `{size: marker width, outline: {width: outline width}}` |
| `Points.MarkerQueriesDetermineDescriptors` | src/basic/points.js:44-101 | resolvers that agree on the marker guard, `fill` (with default), `fill-opacity`/`opacity`, `stroke`, `stroke-opacity`/`opacity`, `width`, `stroke-width`, `allow-overlap`, the blend mode (all with the point reference) and the color fold on those pairs give the same guard, merged record, `allow-overlap` and blend: no other query is made |
| `Points.PickRecord` | src/basic/points.js:62-70 | `pickBy(compose(not, isNil))` over `applySpec` of a record `{leaf, outline: {inner}}` keeps `leaf` iff its getter's value is not nil and always keeps `outline` with the inner value, nil or not |
| `Points.Colors` | src/basic/points.js:52-70 | `getColors` has `color` iff the fill color (fill folded with `fill-opacity`, else `opacity`) is not nil, and always `outline: {color}` with the stroke color folded with `stroke-opacity`, else `opacity`, nil or not |
| `Points.Widths` | src/basic/points.js:78-90 | `getWidths` has `size` iff `width` is not nil, and always `outline: {width}` with `stroke-width`, nil or not |
| `Points.OutlineUnion` | src/basic/points.js:121-125 | merging `{width}` with `{color}` gives `{width, color}`: neither outline clobbers the other |
| `Points.MergeRecords` | src/basic/points.js:121-125 | `mergeWith(merge)` of a widths and a colors record holds `size` and `color` exactly when not nil, one `outline` with both width and color, and no top-level nil |
| `Points.MergedFields` | src/basic/points.js:119-125 | the merge of the sheet's widths and colors records is that merged record of the resolved width, fill color, stroke width and stroke color |
| `Points.AddCollide` | src/basic/points.js:127 | setting `collide` to `!allowOverlap` on the merged record adds `collide` and keeps every other key |
| `Points.MarkerDrawUnique` | src/basic/points.js:119-127 | two objects that both fit the marker draw description for the same values are equal, so that description fixes the draw object |
| `Points.GetDraw` | src/basic/points.js:115-133 | exactly one key `points_<id>`; without a marker symbolizer exactly `{}` (no resolver consulted); with one, `collide == !allow-overlap`, the merged `outline`, `size` and `color` iff each is not nil, and no other key |
| `Points.GetStyle` | src/basic/points.js:141-155 | exactly one key `points_<id>` holding exactly `base = 'points'`, `blend_order = ord` if truthy else 1, and `blend = 'overlay'` without a marker symbolizer or `getBlending(c3ss)` with one |
| `Points.NoMarkerExample` | src/basic/points.js:115-155 | with no marker symbolizer, id "a" and order 3: draw `{points_a: {}}`, style `{points_a: {base: 'points', blend: 'overlay', blend_order: 3}}` |
| `Dots.Key` | src/basic/dots.js:67 | the key is `dots_` followed by the id, unchanged |
| `Dots.KeyInjective` | src/basic/dots.js:67 | two ids with the same dot key are equal |
| `Dots.Colors` | src/basic/dots.js:14-24 | `getColors` is `{color}` with fill folded with `opacity` (both with defaults) when that is not nil, and `{}` otherwise |
| `Dots.Widths` | src/basic/dots.js:32-39 | `getWidths` is `{size}` with the safe `width` when that is not nil, and `{}` otherwise |
| `Dots.GetDraw` | src/basic/dots.js:55-70 | exactly one key `dots_<id>`; without a dot symbolizer exactly `{}`; with one, keys within `{size, color}`, each present iff its value is not nil and equal to it; never `outline` or `collide`, no nil |
| `Dots.DotQueriesDetermineDraw` | src/basic/dots.js:6-39 | resolvers that agree on the dot guard, `fill` and `opacity` (with defaults), `width` (all with the dot reference) and the color fold on that pair give the same draw object: no other query is made |
| `Dots.DrawIsUnion` | src/basic/dots.js:59-64 | with a dot symbolizer the draw object is the plain union of the widths and colors records |
| `Dots.GetStyle` | src/basic/dots.js:78-87 | exactly one key `dots_<id>` holding exactly `base = 'dots'`, `blend = 'overlay'`, `blend_order = ord` if truthy else 1 |
| `Dots.StyleIgnoresSheet` | src/basic/dots.js:78-87 | the dot style is the same for every style sheet |
| `Dots.DrawAndStyleKeysAgree` | src/basic/dots.js:67-80 | the draw and the style of one dot have the same single key |
| `DescriptorKeys.KeysOfKindsDiffer` | src/basic/dots.js:67 | a dot key never equals a point key, so the two kinds' descriptors cannot overwrite each other |
| `Dots.RedDotDrawExample` | src/basic/dots.js:55-70 | fill `#ff0000`, opacity 0.5, width 4, id "7": draw `{dots_7: {color: fold(#ff0000, 0.5), size: 4}}` |
| `Dots.RedDotStyleExample` | src/basic/dots.js:78-87 | id "7", no order: style `{dots_7: {base: 'dots', blend: 'overlay', blend_order: 1}}` |

## Left out

- The bodies of `utils/reference-helpers.js` and `utils/reference` are not part of this model. `getPropertyOrDefFn`, `getPropertyFnSafe`, `getEitherProp`, `getExecutedFn`, `getBlendFn` and `checkSymbolizer` are given functions. Alias order inside `getEitherProp`, the reference defaults and what `checkSymbolizer` inspects are therefore not modelled. The properties only say which helper is asked for which property names.
- `getColorFn` is taken to apply its two getters to the same sheet and fold the results with a given function. Color parsing and alpha arithmetic inside that fold are not modelled.
- Dynamic values are opaque `Dyn` tokens that are carried through. Evaluating them at a zoom level or on a feature is not modelled.
- `getExecutedFn` is taken to return a boolean. JavaScript's `!` on other values is not modelled.
- The id is a string. The number-to-string conversion that `'points_' + id` does on a numeric id is not modelled.
- Numbers are reals. NaN (falsy in `ord || 1`) is not modelled.
- Properties of objects are unordered maps. The insertion order of keys is not modelled.
- `Object.assign` copies no properties from sources that are not objects. Copying the characters of a string source is not modelled; no string ever reaches `merge` here, since the only shared key, `outline`, is an object on both sides.
- The ramda library is not modelled as such, only `isNil` and the four object combinators these files use.
- The `PR`/`DR` reference objects are tags (`PointReference`, `DotReference`) passed to the helpers. Their contents are not modelled.
- Module plumbing (`require`, `import`, `module.exports`, `export default`) and the ASCII banner are left out.
