/** The program's entry point without its I/O: all three images must be
    loaded, the solid is identified, and a model is built only when the
    identified name is not the "not recognized" sentinel. */
module Generator {
  import opened Outcomes
  import opened ContourClassifier
  import opened ShapeResolver
  import opened ModelBuilder

  /** What one run produces: a model with the file name it is saved
      under, or nothing when the shape was not recognised. */
  datatype Outcome =
    | Generated(shape: Shape, fileName: string, model: Solid)
    | NotGenerated

  /** An ASCII letter in lower case; every other character unchanged. */
  function LowerChar(c: char): char {
    if 'A' <= c <= 'Z' then (c as int + 32) as char else c
  }

  /** A string in lower case, character by character. */
  function Lower(s: string): (t: string)
    ensures |t| == |s|
    ensures forall i :: 0 <= i < |s| ==> t[i] == LowerChar(s[i])
  {
    if s == [] then [] else [LowerChar(s[0])] + Lower(s[1..])
  }

  /** The file a model of the named shape is saved to: the name, letter by
      letter in lower case, followed by the suffix "_model.scad". */
  function OutputFileName(name: string): (f: string)
    ensures |f| == |name| + |"_model.scad"| && f[|name|..] == "_model.scad"
    ensures forall i :: 0 <= i < |name| ==> f[i] == LowerChar(name[i])
  {
    Lower(name) + "_model.scad"
  }

  /** The four file names a model can be saved under. */
  lemma OutputFileNames()
    ensures OutputFileName(Cube.Name()) == "cube" + "_model.scad"
    ensures OutputFileName(Cylinder.Name()) == "cylinder" + "_model.scad"
    ensures OutputFileName(Cone.Name()) == "cone" + "_model.scad"
    ensures OutputFileName(Pyramid.Name()) == "pyramid" + "_model.scad"
  {
    LowerNames();
  }

  /** The four recognised names in lower case. */
  lemma LowerNames()
    ensures Lower("Cube") == "cube" && Lower("Cylinder") == "cylinder"
    ensures Lower("Cone") == "cone" && Lower("Pyramid") == "pyramid"
  {
    LowerIs("Cube", "cube");
    LowerIs("Cylinder", "cylinder");
    LowerIs("Cone", "cone");
    LowerIs("Pyramid", "pyramid");
  }

  /** A string that is s lowered character by character is Lower(s). */
  lemma LowerIs(s: string, t: string)
    requires |s| == |t| && forall i :: 0 <= i < |s| ==> t[i] == LowerChar(s[i])
    ensures Lower(s) == t
  {
  }

  /** Two different recognised shapes are never saved to the same file. */
  lemma OutputFileNamesDistinct(a: Shape, b: Shape)
    requires a != NotRecognized && b != NotRecognized && a != b
    ensures OutputFileName(a.Name()) != OutputFileName(b.Name())
  {
    OutputFileNames();
    var s, t := OutputFileName(a.Name()), OutputFileName(b.Name());
    // Cube and Cone share a length and differ at position 2.
    assert |s| != |t| || s[2] != t[2];
  }

  /** The builder accepts every name the resolver returns except the
      sentinel, and rejects the sentinel with an unsupported-shape error. */
  lemma BuilderAcceptsResolvedShapes(shape: Shape, dims: Dimensions)
    ensures CreateModel(shape.Name(), dims).Ok? <==> shape != NotRecognized
    ensures shape == NotRecognized ==>
      CreateModel(shape.Name(), dims) == Err(UnsupportedShape("Shape not recognized"))
  {
  }

  /** One run: a missing image stops it with the entry point's own error
      (so the classifier's error is never the one reported); otherwise the
      identified shape is built unless it is the sentinel, which makes the
      builder's unsupported-shape error unreachable. */
  function Run(front: Option<seq<Contour>>, top: Option<seq<Contour>>, side: Option<seq<Contour>>, dims: Dimensions)
    : (r: Result<Outcome>)
    ensures r.Err? <==> front.None? || top.None? || side.None?
    ensures r.Err? ==> r.error == ImagesNotLoaded
    ensures r.Ok? ==> (r.value.NotGenerated? <==> Identify3DShape(front, top, side) == Ok(NotRecognized))
    ensures r.Ok? && r.value.Generated? ==>
      && Identify3DShape(front, top, side) == Ok(r.value.shape)
      && CreateModel(r.value.shape.Name(), dims) == Ok(r.value.model)
      && r.value.fileName == OutputFileName(r.value.shape.Name())
  {
    if front.None? || top.None? || side.None? then Err(ImagesNotLoaded)
    else
      match Identify3DShape(front, top, side)
      case Err(e) => Err(e)
      case Ok(shape) =>
        if shape == NotRecognized then Ok(NotGenerated)
        else
          BuilderAcceptsResolvedShapes(shape, dims);
          Ok(Generated(shape, OutputFileName(shape.Name()), CreateModel(shape.Name(), dims).value))
  }
}
