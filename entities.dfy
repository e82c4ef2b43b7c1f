/** The decoded drawing primitives the processor consumes, as the drawing-file
    reader hands them over: a geometric shape plus the layer name and the
    visibility flag. */
module Entities {
  import opened Geometry

  /** The five entity types the processor understands. */
  datatype Kind = LineKind | LwPolylineKind | PolylineKind | CircleKind | ArcKind

  const RecognisedTypes: set<string> := {"LINE", "LWPOLYLINE", "POLYLINE", "CIRCLE", "ARC"}

  /** The type name of any other entity (SPLINE, TEXT, INSERT, ...). */
  type OtherTypeName = s: string | s !in RecognisedTypes witness "SPLINE"

  datatype Shape =
    | Line(start: Point, end: Point)
    | LwPolyline(points: seq<Point>)
    | Polyline(vertices: seq<Point>)
    | Circle(center: Point, radius: real)
      /** Angles in degrees, as the drawing stores them. */
    | Arc(center: Point, radius: real, startAngle: real, endAngle: real)
      /** An entity of a recognised type whose geometric attributes cannot be read. */
    | Malformed(kind: Kind)
    | Unsupported(name: OtherTypeName)

  datatype Entity = Entity(shape: Shape, layer: string, invisible: bool)

  function KindName(k: Kind): (t: string)
    ensures t in RecognisedTypes
  {
    match k
    case LineKind => "LINE"
    case LwPolylineKind => "LWPOLYLINE"
    case PolylineKind => "POLYLINE"
    case CircleKind => "CIRCLE"
    case ArcKind => "ARC"
  }

  /** The entity's type name (`dxftype()`). */
  function DxfType(e: Entity): (t: string)
    ensures t in RecognisedTypes <==> !e.shape.Unsupported?
  {
    match e.shape
    case Line(_, _) => "LINE"
    case LwPolyline(_) => "LWPOLYLINE"
    case Polyline(_) => "POLYLINE"
    case Circle(_, _) => "CIRCLE"
    case Arc(_, _, _, _) => "ARC"
    case Malformed(k) => KindName(k)
    case Unsupported(name) => name
  }

  /** Whether the processor handles this entity at all. */
  predicate IsRecognised(e: Entity)
  {
    DxfType(e) in RecognisedTypes
  }
}
