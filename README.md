# 3D shape generator, modelled in Dafny

The program infers a 3D primitive from three silhouettes (front, top and
side views) and writes an OpenSCAD description of it. Its own logic has
three steps, and each is a pure function here:

- **Contour classifier** (`ContourClassifier`). It gets the list of contours
  the vision library found in one view. Each contour is given as the vertex
  count of its approximating polygon plus the width and height of that
  polygon's bounding box. The classifier skips position 0 and classifies only the
  contour at position 1: 3 vertices give Triangle, 5 Pentagon, 6 Hexagon,
  every other count except 4 gives Circle. Four vertices give Square when
  0.95 <= w/h <= 1.05 and Rectangle otherwise. Fewer than two contours give
  Unknown. A missing image is an error that names the view.
- **Shape resolver** (`ShapeResolver`). It classifies front, top and side in
  that order and looks the triple up in a four-row table (Cube, Cylinder,
  Cone, Pyramid). Any other triple gives the sentinel "Shape not recognized".
- **Model builder** (`ModelBuilder`). It maps a shape name and
  (width, depth, height) to a solid: a box, a cylinder or cone given by two
  end radii, or a 5-point, 5-face polyhedron for the pyramid. Any other name
  is an unsupported-shape error.
- **Entry point** (`Generator`). This is the program's main block without
  its I/O. All three images must be loaded. A model, with the file name it
  is saved under, is built only when the resolved name is not the sentinel.

`Outcomes` holds the shared values: the views, the three raised errors
(with their exact messages), and the `Option`/`Result` wrappers. A missing
image is `None`; a raised exception is `Err`.

The pyramid as the program writes it has inconsistently wound faces (see
"## Findings"). The builder in this model uses the corrected faces. The
faces as written are kept as `ModelBuilder.AsWrittenPyramid`.

## Model

| member | source | states |
|---|---|---|
| `Outcomes.Error.Message` | 3D_Shape_Generator/code/main.py:9 | the missing-image message starts with the view's name; the unsupported-shape message raised at line 82 is the fixed 19-character prefix followed by the rejected name |
| `Outcomes.ViewErrorNamesView` | 3D_Shape_Generator/code/main.py:8-9 | the missing-image message starts with the view's name, and different views give different messages |
| `Outcomes.UnsupportedNamesShape` | 3D_Shape_Generator/code/main.py:81-82 | the unsupported-shape message tells apart any two rejected names |
| `ContourClassifier.LabelNamesDistinct` | 3D_Shape_Generator/code/main.py:22-38 | the seven label strings are pairwise distinct |
| `ContourClassifier.SquareBandInIntegers` | 3D_Shape_Generator/code/main.py:25-27 | 0.95 <= w/h <= 1.05 (both ends inclusive, exact division) holds exactly when 19h <= 20w <= 21h |
| `ContourClassifier.Classify` | 3D_Shape_Generator/code/main.py:22-36 | a contour is never Unknown; Square iff 4 vertices and 19h <= 20w <= 21h; Rectangle iff 4 vertices outside that band; Circle iff the vertex count is not 3, 4, 5 or 6 |
| `ContourClassifier.ClassifyByVertexCount` | 3D_Shape_Generator/code/main.py:22-34 | Triangle iff 3 vertices, Square or Rectangle iff 4, Pentagon iff 5, Hexagon iff 6 |
| `ContourClassifier.ScanFrom` | 3D_Shape_Generator/code/main.py:15-38 | the loop from position i gives Unknown exactly when it runs off the end; from position 0 it classifies the contour at position 1 |
| `ContourClassifier.DetectShape` | 3D_Shape_Generator/code/main.py:7-38 | error exactly for a missing image, naming the view; Unknown for fewer than two contours; otherwise the class of the contour at position 1 |
| `ContourClassifier.DetectShapeReadsOnlySecond` | 3D_Shape_Generator/code/main.py:15-36 | contour 0 and contours from position 2 on never change the label |
| `ContourClassifier.DetectShapeUnknown` | 3D_Shape_Generator/code/main.py:15-38 | the label is Unknown exactly when there are fewer than two contours |
| `ContourClassifier.SquareBandEdges` | 3D_Shape_Generator/code/main.py:24-30 | ratios 1.0, 0.95 and 1.05 give Square; 0.94 and 1.06 give Rectangle |
| `ShapeResolver.ShapeNamesDistinct` | 3D_Shape_Generator/code/main.py:47-56 | the five resolver strings are pairwise distinct |
| `ShapeResolver.Preimage` | 3D_Shape_Generator/code/main.py:47-54 | no table row contains Unknown |
| `ShapeResolver.Resolve` | 3D_Shape_Generator/code/main.py:47-56 | each of the four shapes is returned exactly for its own row, so the rows are distinct and their order is irrelevant; the sentinel is returned exactly for every triple outside the table |
| `ShapeResolver.ResolveRejectsForeignLabels` | 3D_Shape_Generator/code/main.py:47-56 | a triple containing Unknown, Pentagon or Hexagon is never recognised |
| `ShapeResolver.Identify3DShape` | 3D_Shape_Generator/code/main.py:42-56 | error exactly when an image is missing, and the first missing one in the order front, top, side is reported; otherwise the table lookup of the three labels |
| `ShapeResolver.SparseViewNotRecognized` | 3D_Shape_Generator/code/main.py:42-56 | a view with fewer than two contours makes the result the sentinel |
| `ShapeResolver.ResolveExamples` | 3D_Shape_Generator/code/main.py:47-56 | three squares give Cube, three circles give the sentinel, triangle-circle-triangle gives "Cone" |
| `ModelBuilder.CreateModel` | 3D_Shape_Generator/code/main.py:60-82 | error exactly for names outside Cube, Cylinder, Cone and Pyramid, naming the shape; Cube is a box of extents (w, d, h); Cylinder has equal radii w/2 and height h; Cone has radii w/2 and 0 and height h; Pyramid is a polyhedron on the pyramid's points |
| `ModelBuilder.RoundSolidsIgnoreDepth` | 3D_Shape_Generator/code/main.py:64-69 | cylinder and cone do not depend on the depth |
| `ModelBuilder.PyramidLayout` | 3D_Shape_Generator/code/main.py:71-80 | 5 points and 5 faces; base corners at z = 0 on (0,0), (w,0), (w,d), (0,d); apex at (w/2, d/2, h); every index is a valid point; the four sides have 3 indices ending in the apex 4; the base is [0,1,2,3] |
| `ModelBuilder.AsWrittenPyramidLayout` | 3D_Shape_Generator/code/main.py:71-80 | the pyramid as the program writes it has the same layout as the built one (points, five faces, valid indices, sides ending in the apex, base [0,1,2,3]); it has the builder's points and base, and each side is the builder's side with its first two corners swapped |
| `ModelBuilder.PyramidNoSharedEdge` | 3D_Shape_Generator/code/main.py:76-79 | no two faces of the pyramid walk the same directed edge |
| `ModelBuilder.PyramidClosed` | 3D_Shape_Generator/code/main.py:76-79 | every directed edge of the pyramid is walked back by some face |
| `ModelBuilder.PyramidClockwise` | 3D_Shape_Generator/code/main.py:71-80 | for positive dimensions every face is clockwise seen from outside (its normal points into the solid) |
| `ModelBuilder.PyramidWellOriented` | 3D_Shape_Generator/code/main.py:71-80 | the built pyramid is closed, consistently oriented and clockwise from outside, as OpenSCAD requires of a polyhedron |
| `ModelBuilder.AsWrittenPyramidMisoriented` | 3D_Shape_Generator/code/main.py:71-80 | with the faces as written, side [0,1,4] and base [0,1,2,3] both walk edge 0 to 1, so two faces share a directed edge; all four sides are counter-clockwise and the base clockwise seen from outside |
| `ModelBuilder.AsWrittenOrientation` | 3D_Shape_Generator/code/main.py:76-78 | for positive dimensions each side as written has its normal pointing out of the solid, the base into it |
| `ModelBuilder.ExampleModels` | 3D_Shape_Generator/code/main.py:109 | for (50, 50, 100): box (50, 50, 100), cylinder radii 25 and 25, cone radii 25 and 0, pyramid apex (25, 25, 100) |
| `Generator.Lower` | 3D_Shape_Generator/code/main.py:117 | lowering keeps the length and lowers each character |
| `Generator.OutputFileName` | 3D_Shape_Generator/code/main.py:117 | the file name is the shape name, each character lowered, followed by the 11-character suffix "_model.scad" |
| `Generator.OutputFileNames` | 3D_Shape_Generator/code/main.py:117 | the models are saved as cube_model.scad, cylinder_model.scad, cone_model.scad and pyramid_model.scad |
| `Generator.OutputFileNamesDistinct` | 3D_Shape_Generator/code/main.py:117 | two different recognised shapes never share a file name |
| `Generator.BuilderAcceptsResolvedShapes` | 3D_Shape_Generator/code/main.py:116-118 | the builder accepts every resolver output except the sentinel, and rejects the sentinel with an unsupported-shape error |
| `Generator.Run` | 3D_Shape_Generator/code/main.py:100-120 | error exactly when an image is missing, and then the entry point's own error; nothing is generated exactly when the resolver gives the sentinel; otherwise the model is the builder's result for the resolved name, saved under that name's file, and the unsupported-shape error never occurs |

## Left out

- The vision library calls (grey conversion, threshold at 220, contour tree retrieval, perimeter, polygon approximation with 1% tolerance, bounding box) are foreign. Their results (the contour list, each contour's vertex count, bounding-box width and height) are the classifier's input.
- Bounding-box width and height are typed as at least 1, which the bounding box of a non-empty point set always is. So the division by zero that a height of 0 would raise is not modelled.
- Image loading, the hard-coded Windows paths, creating the output folder, joining the folder to the file name, rendering to a .scad file and every console message are I/O and are not modelled. `Generator.Run` returns the model and the file name instead.
- The dimensions are fixed at (50, 50, 100) in the program. Here they are a parameter of `CreateModel` and `Generator.Run`, and `ModelBuilder.DefaultDimensions` holds the fixed value, used in `ModelBuilder.ExampleModels`.
- The view name is a string in the program. Here it is the three-valued `Outcomes.View`, because only "Front", "Top" and "Side" are ever passed.
- Floating point is not modelled. `w / float(h)` is compared with 0.95 and 1.05 as an exact rational, and `width / 2.0` is real division. For integer bounding boxes of realistic size the float comparison agrees with the exact one, but that argument is not proved here.
- Generator.Lower: lowers only the ASCII letters A to Z, not full Unicode case mapping. Every name it is applied to is ASCII.
- Exception classes and the process exit on an uncaught error are not modelled. Each raised exception is one `Outcomes.Error` constructor with its exact message.
- `ModelBuilder.CreateModel` builds the pyramid with the corrected side faces (see "## Findings"). The faces as written are in `ModelBuilder.AsWrittenPyramid`.
- `ModelBuilder.ClockwiseFromOutside` uses the first three corners of a face to get its normal. That is enough for the planar, convex faces of this pyramid, but it is not a general polyhedron check.

## Findings

| source | as written | input that shows it | evidently intended | confidence | as-written member | corrected member |
|---|---|---|---|---|---|---|
| 3D_Shape_Generator/code/main.py:76-78 | The side faces [0,1,4], [1,2,4], [2,3,4], [3,0,4] run counter-clockwise seen from outside, but the base [0,1,2,3] runs clockwise. So side [0,1,4] and the base both walk the edge from point 0 to point 1, and the polyhedron is not consistently oriented. | any positive dimensions, e.g. (50, 50, 100) | Every face clockwise seen from outside, which is OpenSCAD's rule for polyhedron faces. This gives the sides [1,0,4], [2,1,4], [3,2,4], [0,3,4] with the same points and base. | high (OpenSCAD's documented face rule, applied to the listed points); not executed | `ModelBuilder.AsWrittenPyramidMisoriented` | `ModelBuilder.PyramidWellOriented` |
