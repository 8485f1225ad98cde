/**
  The property resolvers of `utils/reference-helpers.js` and the symbolizer
  guard of `utils/reference`, whose bodies are not part of this model. They
  are taken as given functions of a compiled style sheet of any type `Sheet`;
  every statement about the point and dot translators holds whatever these
  functions do.
 */
module ReferenceHelpers {
  import opened JsValue

  /** The reference schema a resolver reads defaults and aliases from. */
  datatype Reference =
    | PointReference   // TangramReference.getPoint(null)
    | DotReference     // TangramReference.getDot(null)

  datatype Helpers<-Sheet> = Helpers(
    /** getPropertyOrDefFn(prop, ref)(c3ss): the property, or the reference default. */
    propertyOrDef: (string, Reference, Sheet) -> Value,
    /** getPropertyFnSafe(prop, ref)(c3ss): the property, possibly nil. */
    propertyFnSafe: (string, Reference, Sheet) -> Value,
    /** getEitherProp(prop, alternative, ref)(c3ss): the property, else its alternative. */
    eitherProp: (string, string, Reference, Sheet) -> Value,
    /** getColorFn(colorGetter, alphaGetter)(c3ss) is this fold applied to the two getters' values on c3ss. */
    colorFn: (Value, Value) -> Value,
    /** getExecutedFn(prop, ref)(c3ss): the property forced to a static boolean. */
    executedFn: (string, Reference, Sheet) -> bool,
    /** getBlendFn(ref)(c3ss): the blend mode the style sheet asks for. */
    blendFn: (Reference, Sheet) -> Value,
    /** TangramReference.checkSymbolizer(kind)(c3ss): does the sheet declare that symbolizer? */
    checkSymbolizer: (string, Sheet) -> bool
  )
}
