/**
 * The document entities of src/types.ts. Numbers are JavaScript numbers; the
 * model uses `real` (only comparisons, min and max are applied to them).
 */
module Types {
  import opened Wrappers

  datatype Color = Color(r: real, g: real, b: real)

  datatype Point = Point(x: real, y: real)

  /** The discriminator `type` of a layer (`type` is a Dafny keyword, hence `kind`). */
  datatype LayerType = Rectangle | Ellipse | Path | Text | Frame

  datatype LayerShadow = LayerShadow(enabled: bool, x: real, y: real, blur: real, color: Color, opacity: real)

  datatype StrokeAlign = Inside | Center | Outside

  /**
   * A layer as the live object holds it: the fields every variant shares, then
   * the variant-specific ones as optional fields. A live layer object accepts
   * any key (a patch may write `fontSize` onto a rectangle), so one record with
   * a discriminator is the faithful shape; `WellTyped` states which optional
   * fields each variant of the tagged union must carry.
   */
  datatype Layer = Layer(
    kind: LayerType,
    x: real,
    y: real,
    height: real,
    width: real,
    fill: Color,
    fillOpacity: Option<real>,
    stroke: Color,
    strokeOpacity: Option<real>,
    strokeWidth: Option<real>,
    strokeAlign: Option<StrokeAlign>,
    opacity: real,
    rotation: Option<real>,
    shadow: Option<LayerShadow>,
    cornerRadius: Option<real>,
    clipContent: Option<bool>,
    points: Option<seq<seq<real>>>,
    text: Option<string>,
    fontSize: Option<real>,
    fontWeight: Option<real>,
    fontFamily: Option<string>)

  /** The required fields of each variant of the union are present. */
  predicate WellTyped(l: Layer) {
    match l.kind
    case Path => l.points.Some?
    case Text => l.text.Some? && l.fontSize.Some? && l.fontWeight.Some? && l.fontFamily.Some?
    case _ => true
  }
}
