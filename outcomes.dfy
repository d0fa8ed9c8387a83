/** The values shared by every stage of the shape generator: the three
    silhouette views, the errors the program raises, and the wrappers that
    carry a missing image or a raised error as a value. */
module Outcomes {

  /** A value that may be absent: an image that could not be loaded is None. */
  datatype Option<+T> = None | Some(value: T)

  /** The three silhouettes, in the order the resolver classifies them. */
  datatype View = Front | Top | Side {

    /** The name the program passes to the classifier for this view. */
    function Name(): string {
      match this
      case Front => "Front"
      case Top => "Top"
      case Side => "Side"
    }
  }

  /** The exceptions the program raises, one constructor each. */
  datatype Error =
    | ViewNotLoaded(view: View)          // ValueError from the classifier
    | ImagesNotLoaded                    // FileNotFoundError from the entry point
    | UnsupportedShape(shape: string)    // ValueError from the model builder
  {
    /** The exception's message, character for character: a missing view's
        message starts with the view's name, an unsupported shape's ends
        with the rejected name. */
    function Message(): (m: string)
      ensures ViewNotLoaded? ==> |m| > |view.Name()| && m[..|view.Name()|] == view.Name()
      ensures UnsupportedShape? ==> |m| == 19 + |shape| && m[19..] == shape
    {
      match this
      case ViewNotLoaded(v) => v.Name() + " image could not be loaded. Check the file path."
      case ImagesNotLoaded => "One or more view images could not be loaded. Please check the file paths."
      case UnsupportedShape(s) => "Unsupported shape: " + s
    }
  }

  /** Either a value or the error that was raised instead. */
  datatype Result<+T> = Ok(value: T) | Err(error: Error)

  /** The classifier's error message starts with the name of the view it is
      about, so two different views never produce the same message. */
  lemma ViewErrorNamesView(v: View, w: View)
    ensures ViewNotLoaded(v).Message()[..|v.Name()|] == v.Name()
    ensures v != w ==> ViewNotLoaded(v).Message() != ViewNotLoaded(w).Message()
  {
  }

  /** The builder's error message repeats the rejected name after a fixed
      prefix, so it tells apart every two rejected names. */
  lemma UnsupportedNamesShape(s: string, t: string)
    ensures s != t ==> UnsupportedShape(s).Message() != UnsupportedShape(t).Message()
  {
    if s != t {
      var p := "Unsupported shape: ";
      assert (p + s)[|p|..] == s && (p + t)[|p|..] == t;
    }
  }
}
