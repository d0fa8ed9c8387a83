/** The shape resolver: the front, top and side labels, looked up in a
    fixed table of four rows, name a solid or the "not recognized"
    sentinel. */
module ShapeResolver {
  import opened Outcomes
  import opened ContourClassifier

  /** The names the resolver returns; NotRecognized is the sentinel. */
  datatype Shape = Cube | Cylinder | Cone | Pyramid | NotRecognized {

    /** The string the program returns for this shape. */
    function Name(): string {
      match this
      case Cube => "Cube"
      case Cylinder => "Cylinder"
      case Cone => "Cone"
      case Pyramid => "Pyramid"
      case NotRecognized => "Shape not recognized"
    }
  }

  /** Two shapes with the same string are the same shape. */
  lemma ShapeNamesDistinct(a: Shape, b: Shape)
    ensures a.Name() == b.Name() <==> a == b
  {
  }

  /** The lookup table, row by row: the triple of labels each shape is
      recognised from. */
  function Preimage(shape: Shape): (triple: (PolygonLabel, PolygonLabel, PolygonLabel))
    requires shape != NotRecognized
    ensures Unknown !in {triple.0, triple.1, triple.2}
  {
    match shape
    case Cube => (Square, Square, Square)
    case Cylinder => (Rectangle, Circle, Rectangle)
    case Cone => (Triangle, Circle, Triangle)
    case Pyramid => (Triangle, Square, Triangle)
  }

  /** The table lookup over three labels, first matching row first. Every
      shape but the sentinel comes from exactly its own row, so the rows
      are pairwise distinct and their order does not matter. */
  function Resolve(front: PolygonLabel, top: PolygonLabel, side: PolygonLabel): (shape: Shape)
    ensures forall s: Shape :: s != NotRecognized ==> (shape == s <==> (front, top, side) == Preimage(s))
    ensures shape == NotRecognized <==>
      (front, top, side) !in {Preimage(Cube), Preimage(Cylinder), Preimage(Cone), Preimage(Pyramid)}
  {
    if front == Square && top == Square && side == Square then Cube
    else if front == Rectangle && top == Circle && side == Rectangle then Cylinder
    else if front == Triangle && top == Circle && side == Triangle then Cone
    else if front == Triangle && top == Square && side == Triangle then Pyramid
    else NotRecognized
  }

  /** A triple with an Unknown label, or with a label no row uses (Pentagon,
      Hexagon), is never recognised. */
  lemma ResolveRejectsForeignLabels(front: PolygonLabel, top: PolygonLabel, side: PolygonLabel)
    requires {front, top, side} * {Unknown, Pentagon, Hexagon} != {}
    ensures Resolve(front, top, side) == NotRecognized
  {
  }

  /** The resolver: front, top and side are classified in that order, the
      first missing image is the error reported, and otherwise the three
      labels are looked up in the table. */
  function Identify3DShape(front: Option<seq<Contour>>, top: Option<seq<Contour>>, side: Option<seq<Contour>>)
    : (r: Result<Shape>)
    ensures r.Err? <==> front.None? || top.None? || side.None?
    ensures front.None? ==> r == Err(ViewNotLoaded(Front))
    ensures front.Some? && top.None? ==> r == Err(ViewNotLoaded(Top))
    ensures front.Some? && top.Some? && side.None? ==> r == Err(ViewNotLoaded(Side))
    ensures r.Ok? ==> r.value == Resolve(
      DetectShape(front, Front).value, DetectShape(top, Top).value, DetectShape(side, Side).value)
  {
    match DetectShape(front, Front)
    case Err(e) => Err(e)
    case Ok(frontShape) =>
      match DetectShape(top, Top)
      case Err(e) => Err(e)
      case Ok(topShape) =>
        match DetectShape(side, Side)
        case Err(e) => Err(e)
        case Ok(sideShape) => Ok(Resolve(frontShape, topShape, sideShape))
  }

  /** A view with fewer than two contours is Unknown, and so the solid is
      not recognised, whatever the other two views show. */
  lemma SparseViewNotRecognized(front: seq<Contour>, top: seq<Contour>, side: seq<Contour>)
    requires |front| < 2 || |top| < 2 || |side| < 2
    ensures Identify3DShape(Some(front), Some(top), Some(side)) == Ok(NotRecognized)
  {
  }

  /** Examples: three squares make a cube, three circles are not
      recognised, a triangle-circle-triangle triple is named "Cone". */
  lemma ResolveExamples()
    ensures Resolve(Square, Square, Square) == Cube
    ensures Resolve(Circle, Circle, Circle) == NotRecognized
    ensures Resolve(Triangle, Circle, Triangle).Name() == "Cone"
  {
  }
}
