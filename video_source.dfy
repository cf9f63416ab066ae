/** The input stage's strategy: where frames come from. */
module VideoSources {

  datatype VideoSourceType = WEBCAM | FILE

  /** A source and whether its capture is open. Reading frames is OpenCV
      work and is not part of the model; the reading stage receives the frame
      read as a parameter. */
  datatype VideoSource = Webcam(isOpen: bool) | VideoFile(filename: string, isOpen: bool)
  {
    function SourceType(): VideoSourceType
    {
      if Webcam? then WEBCAM else FILE
    }

    /** Open(). `succeeded` is whether OpenCV managed to open the capture; a
        failure is only logged. An open webcam stays as it is; a file is
        always reopened. */
    function Open(succeeded: bool): (s: VideoSource)
      ensures s.SourceType() == SourceType()
      ensures s.VideoFile? ==> s.filename == filename
      ensures Webcam? && isOpen ==> s == this
      ensures !(Webcam? && isOpen) ==> s.isOpen == succeeded
    {
      match this
      case Webcam(wasOpen) => if wasOpen then this else Webcam(succeeded)
      case VideoFile(name, _) => VideoFile(name, succeeded)
    }

    /** Close(): releases the capture. */
    function Close(): (s: VideoSource)
      ensures s.SourceType() == SourceType() && !s.isOpen
      ensures s.VideoFile? ==> s.filename == filename
    {
      match this
      case Webcam(_) => Webcam(false)
      case VideoFile(name, _) => VideoFile(name, false)
    }
  }

  /** The factory the input stage keeps; the one-argument constructor is the
      default filename "". */
  datatype VideoSourceFactory = VideoSourceFactory(sourceType: VideoSourceType, filename: string := "")
  {
    /** Create(): a new, not yet isOpen source of the factory's type; a file
        source carries the factory's filename. The enumeration has exactly
        the two values, so no input leads to the null result. */
    function Create(): (s: VideoSource)
      ensures s.SourceType() == sourceType && !s.isOpen
      ensures s.VideoFile? ==> s.filename == filename
    {
      match sourceType
      case WEBCAM => Webcam(false)
      case FILE => VideoFile(filename, false)
    }
  }

  /** Create inverts the factory: the factory is recovered from the source it
      creates (a webcam factory's filename is not carried). */
  lemma CreateDeterminesFactory(f: VideoSourceFactory, g: VideoSourceFactory)
    requires f.Create() == g.Create()
    ensures f.sourceType == g.sourceType
    ensures f.sourceType == FILE ==> f.filename == g.filename
  {
  }
}
