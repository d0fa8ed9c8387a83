/** The model builder: a shape name and the (width, depth, height) triple
    become one solid-geometry value, in the terms of OpenSCAD's three
    primitives the program uses: cube, cylinder (two end radii) and
    polyhedron (points and faces). Rendering it to a file is not part of
    this model. */
module ModelBuilder {
  import opened Outcomes

  /** Width (x), depth (y) and height (z) of the solid to build. */
  datatype Dimensions = Dimensions(width: real, depth: real, height: real)

  /** The dimensions the program builds every model with. */
  const DefaultDimensions: Dimensions := Dimensions(50.0, 50.0, 100.0)

  datatype Point = Point(x: real, y: real, z: real)

  /** The solid-geometry values the builder produces. */
  datatype Solid =
    | Box(sizeX: real, sizeY: real, sizeZ: real)                   // cube([x, y, z])
    | Frustum(bottomRadius: real, topRadius: real, height: real)   // cylinder(r1, r2, h)
    | Polyhedron(points: seq<Point>, faces: seq<seq<nat>>)         // polyhedron(points, faces)

  /** The pyramid's points: the four base corners at z = 0, then the apex
      above the centre of the base. */
  function PyramidPoints(dims: Dimensions): seq<Point> {
    [ Point(0.0, 0.0, 0.0), Point(dims.width, 0.0, 0.0),
      Point(dims.width, dims.depth, 0.0), Point(0.0, dims.depth, 0.0),
      Point(dims.width / 2.0, dims.depth / 2.0, dims.height) ]
  }

  /** The pyramid's faces as the program lists them: four sides, each a
      base edge followed by the apex, then the base. */
  function AsWrittenPyramidFaces(): seq<seq<nat>> {
    [[0, 1, 4], [1, 2, 4], [2, 3, 4], [3, 0, 4], [0, 1, 2, 3]]
  }

  /** The pyramid's faces with each side's base edge taken the other way
      round, so that every face is clockwise seen from outside. */
  function PyramidFaces(): seq<seq<nat>> {
    [[1, 0, 4], [2, 1, 4], [3, 2, 4], [0, 3, 4], [0, 1, 2, 3]]
  }

  /** The pyramid polyhedron exactly as the program builds it. */
  function AsWrittenPyramid(dims: Dimensions): Solid {
    Polyhedron(PyramidPoints(dims), AsWrittenPyramidFaces())
  }

  /** Two five-face lists with the same base (the last face) whose four
      sides are triangles that differ by swapping their first two corners. */
  predicate SidesSwapped(faces: seq<seq<nat>>, other: seq<seq<nat>>) {
    && |faces| == |other| == 5 && faces[4] == other[4]
    && forall i :: 0 <= i < 4 ==>
         |other[i]| == 3 && faces[i] == [other[i][1], other[i][0], other[i][2]]
  }

  /** The builder: each of the four names gives its solid, every other
      name is an unsupported-shape error naming it. The round solids are
      a cylinder with equal end radii and a cone tapering to radius 0,
      both of radius width / 2. */
  function CreateModel(shape: string, dims: Dimensions): (r: Result<Solid>)
    ensures r.Err? <==> shape !in {"Cube", "Cylinder", "Cone", "Pyramid"}
    ensures r.Err? ==> r.error == UnsupportedShape(shape)
    ensures shape == "Cube" ==> r == Ok(Box(dims.width, dims.depth, dims.height))
    ensures shape == "Cylinder" ==>
      r.Ok? && r.value.Frustum? && r.value.height == dims.height
      && r.value.bottomRadius == r.value.topRadius && 2.0 * r.value.bottomRadius == dims.width
    ensures shape == "Cone" ==>
      r.Ok? && r.value.Frustum? && r.value.height == dims.height
      && r.value.topRadius == 0.0 && 2.0 * r.value.bottomRadius == dims.width
    ensures shape == "Pyramid" ==> r.Ok? && r.value.Polyhedron? && r.value.points == PyramidPoints(dims)
  {
    if shape == "Cube" then Ok(Box(dims.width, dims.depth, dims.height))
    else if shape == "Cylinder" then
      var radius := dims.width / 2.0;
      Ok(Frustum(radius, radius, dims.height))
    else if shape == "Cone" then
      var radius := dims.width / 2.0;
      Ok(Frustum(radius, 0.0, dims.height))
    else if shape == "Pyramid" then Ok(Polyhedron(PyramidPoints(dims), PyramidFaces()))
    else Err(UnsupportedShape(shape))
  }

  /** Cylinder and cone are built from width and height alone: the depth
      never changes them. */
  lemma RoundSolidsIgnoreDepth(shape: string, a: Dimensions, b: Dimensions)
    requires shape in {"Cylinder", "Cone"}
    requires a.width == b.width && a.height == b.height
    ensures CreateModel(shape, a) == CreateModel(shape, b)
  {
  }

  // ---------------------------------------------------------------------
  // Polyhedron well-formedness, in OpenSCAD's terms

  /** Every face has at least three corners, each an index into points. */
  predicate WellIndexed(points: seq<Point>, faces: seq<seq<nat>>) {
    forall i :: 0 <= i < |faces| ==>
      |faces[i]| >= 3 && forall k :: 0 <= k < |faces[i]| ==> faces[i][k] < |points|
  }

  /** The directed edges a face walks along, the last corner back to the first. */
  function Edges(face: seq<nat>): set<(nat, nat)> {
    set k | 0 <= k < |face| :: EdgeAt(face, k)
  }

  /** The edge from corner k to the next corner. */
  function EdgeAt(face: seq<nat>, k: nat): (nat, nat)
    requires k < |face|
  {
    (face[k], face[(k + 1) % |face|])
  }

  /** No directed edge is walked by two faces. */
  predicate NoSharedDirectedEdge(faces: seq<seq<nat>>) {
    forall i, j :: 0 <= i < j < |faces| ==> Edges(faces[i]) !! Edges(faces[j])
  }

  /** Every directed edge is walked the other way by some face: the faces
      close up around the solid. */
  predicate Closed(faces: seq<seq<nat>>) {
    forall i, e :: 0 <= i < |faces| && e in Edges(faces[i]) ==>
      exists j :: 0 <= j < |faces| && (e.1, e.0) in Edges(faces[j])
  }

  function Sub(p: Point, q: Point): Point {
    Point(p.x - q.x, p.y - q.y, p.z - q.z)
  }

  function Cross(u: Point, v: Point): Point {
    Point(u.y * v.z - u.z * v.y, u.z * v.x - u.x * v.z, u.x * v.y - u.y * v.x)
  }

  function Dot(u: Point, v: Point): real {
    u.x * v.x + u.y * v.y + u.z * v.z
  }

  /** A face whose corners are in clockwise order seen from outside the
      solid has its right-hand-rule normal pointing into the solid, that
      is towards a point inside it. */
  predicate ClockwiseFromOutside(points: seq<Point>, face: seq<nat>, inside: Point) {
    HasCorners(points, face) && InwardTurn(points, face, inside) > 0.0
  }

  /** The opposite: the normal points out of the solid. */
  predicate CounterClockwiseFromOutside(points: seq<Point>, face: seq<nat>, inside: Point) {
    HasCorners(points, face) && InwardTurn(points, face, inside) < 0.0
  }

  /** The face has three first corners, each an index into points. */
  predicate HasCorners(points: seq<Point>, face: seq<nat>) {
    |face| >= 3 && face[0] < |points| && face[1] < |points| && face[2] < |points|
  }

  /** The right-hand-rule normal of the face's first three corners, taken
      along the direction from its first corner to the inside point. */
  function InwardTurn(points: seq<Point>, face: seq<nat>, inside: Point): real
    requires HasCorners(points, face)
  {
    var p, q, s := points[face[0]], points[face[1]], points[face[2]];
    Dot(Cross(Sub(q, p), Sub(s, p)), Sub(inside, p))
  }

  /** A point strictly inside the pyramid: above the centre of the base at
      a quarter of the height. */
  function PyramidCentre(dims: Dimensions): Point {
    Point(dims.width / 2.0, dims.depth / 2.0, dims.height / 4.0)
  }

  lemma TriangleEdges(a: nat, b: nat, c: nat)
    ensures Edges([a, b, c]) == {(a, b), (b, c), (c, a)}
  {
    var f := [a, b, c];
    assert (a, b) == EdgeAt(f, 0) && (b, c) == EdgeAt(f, 1) && (c, a) == EdgeAt(f, 2);
  }

  lemma QuadEdges(a: nat, b: nat, c: nat, d: nat)
    ensures Edges([a, b, c, d]) == {(a, b), (b, c), (c, d), (d, a)}
  {
    var f := [a, b, c, d];
    assert (a, b) == EdgeAt(f, 0) && (b, c) == EdgeAt(f, 1);
    assert (c, d) == EdgeAt(f, 2) && (d, a) == EdgeAt(f, 3);
  }

  /** The pyramid's layout: five points, the base corners at z = 0 on
      (0,0), (w,0), (w,d), (0,d) and the apex at (w/2, d/2, h); five faces
      indexing only those points, four sides of three corners ending in
      the apex and the base [0, 1, 2, 3]. */
  predicate PyramidShaped(p: Solid, dims: Dimensions) {
    && p.Polyhedron? && |p.points| == 5 && |p.faces| == 5
    && p.points[0] == Point(0.0, 0.0, 0.0) && p.points[1] == Point(dims.width, 0.0, 0.0)
    && p.points[2] == Point(dims.width, dims.depth, 0.0) && p.points[3] == Point(0.0, dims.depth, 0.0)
    && 2.0 * p.points[4].x == dims.width && 2.0 * p.points[4].y == dims.depth && p.points[4].z == dims.height
    && WellIndexed(p.points, p.faces)
    && (forall i :: 0 <= i < 4 ==> |p.faces[i]| == 3 && p.faces[i][2] == 4)
    && p.faces[4] == [0, 1, 2, 3]
  }

  /** The pyramid the builder produces has the pyramid's layout. */
  lemma PyramidLayout(dims: Dimensions)
    ensures CreateModel("Pyramid", dims).Ok?
    ensures PyramidShaped(CreateModel("Pyramid", dims).value, dims)
  {
  }

  /** The pyramid as the program writes it has the same layout, and it
      differs from the builder's only in the order of each side's base edge. */
  lemma AsWrittenPyramidLayout(dims: Dimensions)
    ensures PyramidShaped(AsWrittenPyramid(dims), dims)
    ensures var built := CreateModel("Pyramid", dims).value;
      && built.Polyhedron? && AsWrittenPyramid(dims).points == built.points
      && SidesSwapped(AsWrittenPyramid(dims).faces, built.faces)
  {
  }

  /** The directed edges of each face of the builder's pyramid. */
  lemma PyramidEdges()
    ensures var f := PyramidFaces();
      && Edges(f[0]) == {(1, 0), (0, 4), (4, 1)}
      && Edges(f[1]) == {(2, 1), (1, 4), (4, 2)}
      && Edges(f[2]) == {(3, 2), (2, 4), (4, 3)}
      && Edges(f[3]) == {(0, 3), (3, 4), (4, 0)}
      && Edges(f[4]) == {(0, 1), (1, 2), (2, 3), (3, 0)}
  {
    TriangleEdges(1, 0, 4);
    TriangleEdges(2, 1, 4);
    TriangleEdges(3, 2, 4);
    TriangleEdges(0, 3, 4);
    QuadEdges(0, 1, 2, 3);
  }

  /** No two faces of the builder's pyramid walk the same directed edge. */
  lemma PyramidNoSharedEdge()
    ensures NoSharedDirectedEdge(PyramidFaces())
  {
    var f := PyramidFaces();
    PyramidEdges();
    // Every edge of a side touches the apex or walks the base backwards;
    // the base walks forwards and never touches the apex.
    forall i, j | 0 <= i < j < |f|
      ensures Edges(f[i]) !! Edges(f[j])
    {
      if j == 4 {
        assert forall e :: e in Edges(f[i]) ==> e.0 == 4 || e.1 == 4 || e.0 == e.1 + 1 || e == (0, 3);
      }
    }
  }

  /** Every directed edge of the builder's pyramid is walked back by
      another face: the faces close up around the solid. */
  lemma PyramidClosed()
    ensures Closed(PyramidFaces())
  {
    var f := PyramidFaces();
    PyramidEdges();
    forall i, e | 0 <= i < |f| && e in Edges(f[i])
      ensures exists j :: 0 <= j < |f| && (e.1, e.0) in Edges(f[j])
    {
      // A side's base edge comes back in the base, its two slanted edges
      // in the neighbouring sides; a base edge comes back in its side.
      var back := (e.1, e.0);
      if i == 4 {
        var j := if e.0 == 3 then 3 else e.0;
        assert back in Edges(f[j]);
      } else {
        var previous, next := if i == 0 then 3 else i - 1, if i == 3 then 0 else i + 1;
        if e.1 == 4 {
          assert back in Edges(f[previous]);
        } else if e.0 == 4 {
          assert back in Edges(f[next]);
        } else {
          assert back in Edges(f[4]);
        }
      }
    }
  }

  /** Every face of the builder's pyramid is clockwise seen from outside. */
  lemma PyramidClockwise(dims: Dimensions)
    requires dims.width > 0.0 && dims.depth > 0.0 && dims.height > 0.0
    ensures forall i :: 0 <= i < |PyramidFaces()| ==>
      ClockwiseFromOutside(PyramidPoints(dims), PyramidFaces()[i], PyramidCentre(dims))
  {
  }

  /** The builder's pyramid is a closed polyhedron whose faces are all
      clockwise seen from outside, as OpenSCAD requires of a polyhedron:
      no directed edge is walked twice, every edge is walked back, and
      each face's normal points into the solid. */
  lemma PyramidWellOriented(dims: Dimensions)
    requires dims.width > 0.0 && dims.depth > 0.0 && dims.height > 0.0
    ensures var p := CreateModel("Pyramid", dims).value;
      && NoSharedDirectedEdge(p.faces) && Closed(p.faces)
      && forall i :: 0 <= i < |p.faces| ==> ClockwiseFromOutside(p.points, p.faces[i], PyramidCentre(dims))
  {
    PyramidNoSharedEdge();
    PyramidClosed();
    PyramidClockwise(dims);
  }

  /** The pyramid as the program writes it is not a consistently oriented
      polyhedron: all four side faces are counter-clockwise seen from
      outside while the base is clockwise, so the side [0, 1, 4] and the
      base [0, 1, 2, 3] both walk the edge from point 0 to point 1. */
  lemma AsWrittenPyramidMisoriented(dims: Dimensions)
    requires dims.width > 0.0 && dims.depth > 0.0 && dims.height > 0.0
    ensures var p := AsWrittenPyramid(dims);
      && (0, 1) in Edges(p.faces[0]) && (0, 1) in Edges(p.faces[4])
      && !NoSharedDirectedEdge(p.faces)
      && (forall i :: 0 <= i < 4 ==> CounterClockwiseFromOutside(p.points, p.faces[i], PyramidCentre(dims)))
      && ClockwiseFromOutside(p.points, p.faces[4], PyramidCentre(dims))
  {
    AsWrittenSharedEdge(dims);
    AsWrittenOrientation(dims);
  }

  /** The first side and the base of the pyramid as the program writes it
      both walk the edge from point 0 to point 1. */
  lemma AsWrittenSharedEdge(dims: Dimensions)
    ensures var p := AsWrittenPyramid(dims);
      && (0, 1) in Edges(p.faces[0]) && (0, 1) in Edges(p.faces[4])
      && !NoSharedDirectedEdge(p.faces)
  {
    var faces := AsWrittenPyramid(dims).faces;
    assert faces[0] == [0, 1, 4] && faces[4] == [0, 1, 2, 3];
    assert (0, 1) == EdgeAt(faces[0], 0) && (0, 1) == EdgeAt(faces[4], 0);
    assert (0, 1) in Edges(faces[0]) * Edges(faces[4]);
  }

  /** Each side of the pyramid as the program writes it has its normal
      pointing out of the solid, the base into it. */
  lemma AsWrittenOrientation(dims: Dimensions)
    requires dims.width > 0.0 && dims.depth > 0.0 && dims.height > 0.0
    ensures var p := AsWrittenPyramid(dims);
      && (forall i :: 0 <= i < 4 ==> CounterClockwiseFromOutside(p.points, p.faces[i], PyramidCentre(dims)))
      && ClockwiseFromOutside(p.points, p.faces[4], PyramidCentre(dims))
  {
  }

  /** The four solids for the program's own dimensions (50, 50, 100). */
  lemma ExampleModels()
    ensures CreateModel("Cube", DefaultDimensions) == Ok(Box(50.0, 50.0, 100.0))
    ensures CreateModel("Cylinder", DefaultDimensions) == Ok(Frustum(25.0, 25.0, 100.0))
    ensures CreateModel("Cone", DefaultDimensions) == Ok(Frustum(25.0, 0.0, 100.0))
    ensures CreateModel("Pyramid", DefaultDimensions).value.points[4] == Point(25.0, 25.0, 100.0)
  {
  }
}
