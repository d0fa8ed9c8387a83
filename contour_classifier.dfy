/** The contour classifier: one silhouette becomes one polygon label.

    The vision library's work (grey conversion, thresholding at 220, the
    contour tree, the 1% polygon approximation and the bounding box) is not
    modelled; what it hands back is the input here: the list of contours,
    each reduced to the vertex count of its approximating polygon and the
    width and height of that polygon's bounding box. */
module ContourClassifier {
  import opened Outcomes

  /** A bounding-box side in pixels; a bounding box is never empty. */
  type Extent = n: int | n >= 1 witness 1

  /** One contour after polygon approximation: the polygon's vertex count
      and the width and height of the polygon's bounding box. */
  datatype Contour = Contour(vertices: nat, width: Extent, height: Extent)

  /** The labels the classifier can return. */
  datatype PolygonLabel = Triangle | Square | Rectangle | Pentagon | Hexagon | Circle | Unknown {

    /** The string the program returns for this label. */
    function Name(): string {
      match this
      case Triangle => "Triangle"
      case Square => "Square"
      case Rectangle => "Rectangle"
      case Pentagon => "Pentagon"
      case Hexagon => "Hexagon"
      case Circle => "Circle"
      case Unknown => "Unknown"
    }
  }

  /** Two labels with the same string are the same label. */
  lemma LabelNamesDistinct(a: PolygonLabel, b: PolygonLabel)
    ensures a.Name() == b.Name() <==> a == b
  {
  }

  /** The aspect-ratio test of a four-vertex contour: width divided by
      height lies in [0.95, 1.05], both ends included. */
  predicate InSquareBand(width: Extent, height: Extent) {
    var ratio := width as real / height as real;
    0.95 <= ratio <= 1.05
  }

  /** The band in integers: 19 h <= 20 w <= 21 h. */
  lemma SquareBandInIntegers(width: Extent, height: Extent)
    ensures InSquareBand(width, height) <==> 19 * height <= 20 * width <= 21 * height
  {
    var w, h := width as real, height as real;
    RatioBound(w, h, 0.95);
    RatioBound(w, h, 1.05);
  }

  /** Comparing a quotient w / h (h > 0) with a constant c is comparing
      w with c * h. */
  lemma RatioBound(w: real, h: real, c: real)
    requires h > 0.0
    ensures c <= w / h <==> c * h <= w
    ensures w / h <= c <==> w <= c * h
  {
    var ratio := w / h;
    assert ratio * h == w;
    ScaleBound(c, ratio, h);
    ScaleBound(ratio, c, h);
  }

  /** Multiplying by a positive factor keeps an inequality. */
  lemma ScaleBound(a: real, b: real, h: real)
    requires h > 0.0
    ensures a <= b <==> a * h <= b * h
  {
  }

  /** The label of one approximated contour: the vertex count decides,
      and four vertices are split by the aspect-ratio band. */
  function Classify(c: Contour): (category: PolygonLabel)
    ensures category != Unknown
    ensures category == Square <==> c.vertices == 4 && 19 * c.height <= 20 * c.width <= 21 * c.height
    ensures category == Rectangle <==> c.vertices == 4 && !(19 * c.height <= 20 * c.width <= 21 * c.height)
    ensures category == Circle <==> c.vertices !in {3, 4, 5, 6}
  {
    SquareBandInIntegers(c.width, c.height);
    if c.vertices == 3 then Triangle
    else if c.vertices == 4 then
      if InSquareBand(c.width, c.height) then Square else Rectangle
    else if c.vertices == 5 then Pentagon
    else if c.vertices == 6 then Hexagon
    else Circle
  }

  /** Which vertex count gives which label, read backwards: a label tells
      the vertex count it came from. */
  lemma ClassifyByVertexCount(c: Contour)
    ensures Classify(c) == Triangle <==> c.vertices == 3
    ensures Classify(c) in {Square, Rectangle} <==> c.vertices == 4
    ensures Classify(c) == Pentagon <==> c.vertices == 5
    ensures Classify(c) == Hexagon <==> c.vertices == 6
  {
  }

  /** The loop over the enumerated contours, entered at position i:
      position 0 is passed over, the first later position decides the
      label, and running off the end gives Unknown. */
  function ScanFrom(contours: seq<Contour>, i: nat): (category: PolygonLabel)
    decreases |contours| - i
    ensures category == Unknown <==> i >= |contours| || (i == 0 && |contours| < 2)
    ensures 0 < i < |contours| ==> category == Classify(contours[i])
    ensures i == 0 && |contours| >= 2 ==> category == Classify(contours[1])
  {
    if i >= |contours| then Unknown
    else if i == 0 then ScanFrom(contours, i + 1)
    else Classify(contours[i])
  }

  /** The classifier: a missing image is an error naming the view;
      otherwise only the contour at position 1 is looked at. */
  function DetectShape(view: Option<seq<Contour>>, viewName: View): (r: Result<PolygonLabel>)
    ensures r.Err? <==> view.None?
    ensures r.Err? ==> r.error == ViewNotLoaded(viewName)
    ensures view.Some? && |view.value| < 2 ==> r == Ok(Unknown)
    ensures view.Some? && |view.value| >= 2 ==> r == Ok(Classify(view.value[1]))
  {
    match view
    case None => Err(ViewNotLoaded(viewName))
    case Some(contours) => Ok(ScanFrom(contours, 0))
  }

  /** The contour at position 0 and every contour from position 2 on never
      affect the label: two contour lists that agree at position 1 get
      the same label, whatever else they hold. */
  lemma DetectShapeReadsOnlySecond(a: seq<Contour>, b: seq<Contour>, viewName: View)
    requires |a| >= 2 && |b| >= 2 && a[1] == b[1]
    ensures DetectShape(Some(a), viewName) == DetectShape(Some(b), viewName)
  {
  }

  /** Unknown is returned exactly when the image holds fewer than two
      contours; with two or more the label is one of the six others. */
  lemma DetectShapeUnknown(contours: seq<Contour>, viewName: View)
    ensures DetectShape(Some(contours), viewName) == Ok(Unknown) <==> |contours| < 2
  {
  }

  /** The band edges: a ratio of exactly 1.0, 0.95 or 1.05 is a square,
      0.94 and 1.06 are rectangles. */
  lemma SquareBandEdges()
    ensures Classify(Contour(4, 100, 100)) == Square
    ensures Classify(Contour(4, 95, 100)) == Square
    ensures Classify(Contour(4, 105, 100)) == Square
    ensures Classify(Contour(4, 94, 100)) == Rectangle
    ensures Classify(Contour(4, 106, 100)) == Rectangle
  {
  }
}
