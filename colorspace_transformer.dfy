/** The processing stage's strategy: how a frame is transformed. */
module Transformers {
  import opened Wrappers
  import opened VideoTasks

  datatype Colorspace = BYPASS | BGR2GRAY | BGR2HSV

  /** The cascades the application offers, one per "processing haar" name. */
  datatype HaarCascadeClassifierType =
    | Eyes | LeftEye | RightEye | EyesWithGlasses
    | FrontalFace | FrontalFaceAlt | FrontalFaceAlt2 | FrontalFaceAltTree | ProfileFace
    | Smile | FullBody | UpperBody | LowerBody
    | CatFrontalFace | CatFrontalFaceExtended

  datatype VideoTransformer =
    | BypassTransformer
    | BGR2GRAYTransformer
    | BGR2HSVTransformer
    | HaarCascadeClassifier(kind: HaarCascadeClassifierType)
  {
    /** The colorspace a colorspace transformer converts to. */
    function TargetColorspace(): Option<Colorspace>
    {
      match this
      case BypassTransformer => Some(BYPASS)
      case BGR2GRAYTransformer => Some(BGR2GRAY)
      case BGR2HSVTransformer => Some(BGR2HSV)
      case HaarCascadeClassifier(_) => None
    }

    /** Transform(frame). The bypass transformer leaves the frame as it is;
        the others are OpenCV calls, supplied as `library`. */
    function Transform(frame: Frame, library: (VideoTransformer, Frame) -> Frame): (r: Frame)
      ensures BypassTransformer? ==> r == frame
      ensures !BypassTransformer? ==> r == library(this, frame)
    {
      if BypassTransformer? then frame else library(this, frame)
    }
  }

  /** The transformer converting to `colorspace`. */
  function ColorspaceTransformer(colorspace: Colorspace): (t: VideoTransformer)
    ensures t.TargetColorspace() == Some(colorspace)
  {
    match colorspace
    case BYPASS => BypassTransformer
    case BGR2GRAY => BGR2GRAYTransformer
    case BGR2HSV => BGR2HSVTransformer
  }

  /** The colorspace factory; the constructor's colorspace defaults to BYPASS. */
  class ColorspaceTransformerFactory {
    var colorspace: Colorspace

    constructor (colorspace: Colorspace := BYPASS)
      ensures this.colorspace == colorspace
    {
      this.colorspace := colorspace;
    }

    /** Create(): a transformer converting to the factory's colorspace. The
        enumeration has exactly the three values, so no input leads to the
        null result; the factory is not changed. */
    function Create(): (t: VideoTransformer)
      reads this
      ensures t.TargetColorspace() == Some(colorspace)
    {
      ColorspaceTransformer(colorspace)
    }

    /** SetColorspace(colorspace): only the colorspace changes, and the next
        Create converts to it. */
    method SetColorspace(colorspace: Colorspace)
      modifies this
      ensures this.colorspace == colorspace && Create().TargetColorspace() == Some(colorspace)
    {
      this.colorspace := colorspace;
    }
  }

  /** The factories the processing stage accepts: a colorspace factory
      object, or a Haar cascade factory identified by its cascade. */
  datatype VideoTransformerFactory =
    | ColorspaceFactory(factory: ColorspaceTransformerFactory)
    | HaarCascadeClassifierFactory(cascade: HaarCascadeClassifierType)
  {
    function Create(): (t: VideoTransformer)
      reads if ColorspaceFactory? then {factory} else {}
      ensures ColorspaceFactory? ==> t.TargetColorspace() == Some(factory.colorspace)
      ensures HaarCascadeClassifierFactory? ==> t.TargetColorspace() == None && t.kind == cascade
    {
      match this
      case ColorspaceFactory(f) => f.Create()
      case HaarCascadeClassifierFactory(c) => HaarCascadeClassifier(c)
    }
  }

  /** Distinct colorspaces give distinct transformers, and the bypass
      transformer leaves every frame alone. */
  lemma {:induction false} CreateIsInjective(f: ColorspaceTransformerFactory, g: ColorspaceTransformerFactory,
                                             frame: Frame, library: (VideoTransformer, Frame) -> Frame)
    ensures f.Create() == g.Create() <==> f.colorspace == g.colorspace
    ensures f.colorspace == BYPASS ==> f.Create().Transform(frame, library) == frame
  {
    if f.Create() == g.Create() {
      assert f.Create().TargetColorspace() == g.Create().TargetColorspace();
    }
  }
}
