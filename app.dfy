/** The application: owns the three stages and carries out typed commands. */
module Application {
  import opened VideoTasks
  import opened VideoSources
  import opened Transformers
  import opened VideoInputs
  import opened VideoProcessors
  import opened VideoOutputs
  import opened Commands
  import Pipeline

  /** The update periods the application gives its stages. */
  const InputPeriodMs := 33
  const OutputPeriodMs := 33

  /** What the commands can change: the shutdown flag and each stage's
      running flag and strategy. */
  datatype Settings = Settings(
    raised: bool,
    inputRunning: bool, sourceFactory: VideoSourceFactory, source: VideoSource,
    processorRunning: bool, transformer: VideoTransformer,
    outputRunning: bool, consumerFactory: VideoConsumerFactory, consumer: VideoConsumer)

  /** The effect of one command on the settings. `captureOpened` is whether
      the capture opens when "start" opens the input's source. Help, stats,
      a missing filename and the complaints only write to the log. */
  function Apply(s: Settings, c: Command, captureOpened: bool): (r: Settings)
    ensures r.raised == (s.raised || c.Quit?)
    // start runs every stage; pause, stop and a source change stop the input
    ensures r.inputRunning == (c.Start? || (s.inputRunning && !(c.Pause? || c.Stop? || c.SetSourceWebcam? || c.SetSourceVideoFile?)))
    ensures r.processorRunning == (c.Start? || (s.processorRunning && !(c.Pause? || c.Stop?)))
    ensures r.outputRunning == (c.Start? || (s.outputRunning && !(c.Pause? || c.Stop?)))
    // no command replaces the output stage's consumer
    ensures r.consumerFactory == s.consumerFactory && r.consumer == s.consumer
    ensures c.NoCommand? || c.Help? || c.PrintStats? || c.FilenameMissing? || IsComplaint(c) ==> r == s
  {
    match c
    case Quit => s.(raised := true)
    case Start =>
      s.(inputRunning := true, source := s.source.Open(captureOpened), processorRunning := true, outputRunning := true)
    case Pause => s.(inputRunning := false, processorRunning := false, outputRunning := false)
    case Stop => s.(inputRunning := false, processorRunning := false, outputRunning := false)
    case SetSourceWebcam =>
      var f := VideoSourceFactory(WEBCAM);
      s.(inputRunning := false, sourceFactory := f, source := f.Create())
    case SetSourceVideoFile(filename) =>
      var f := VideoSourceFactory(FILE, filename);
      s.(inputRunning := false, sourceFactory := f, source := f.Create())
    case SetTransformerColorspace(colorspace) => s.(transformer := ColorspaceTransformer(colorspace))
    case SetTransformerHaarCascadeClassifier(cascade) => s.(transformer := HaarCascadeClassifier(cascade))
    case _ => s
  }

  /** "pause" and "stop" have the same effect. */
  lemma PauseIsStop(s: Settings, captureOpened: bool)
    ensures Apply(s, Pause, captureOpened) == Apply(s, Stop, captureOpened)
  {
  }

  /** Repeating a command changes nothing more, provided the capture opens
      (or fails to) the same way both times. */
  lemma ApplyIsIdempotent(s: Settings, c: Command, captureOpened: bool)
    ensures Apply(Apply(s, c, captureOpened), c, captureOpened) == Apply(s, c, captureOpened)
  {
  }

  /** A source change followed by "start" opens the new source: the input
      runs a freshly created source, open exactly when the capture opened. */
  lemma SourceChangeThenStart(s: Settings, filename: string, captureOpened: bool)
    ensures var r := Apply(Apply(s, SetSourceVideoFile(filename), captureOpened), Start, captureOpened);
      r.inputRunning && r.source == VideoFile(filename, captureOpened)
  {
  }

  class App {
    const shuttingDown: ShutdownFlag
    const input: VideoInput
    const processor: VideoProcessor
    const output: VideoOutput

    ghost predicate Valid()
      reads this, input, processor, processor.timeStats, output, processor.task
    {
      && Pipeline.Wired(input, processor, output)
      && input.task.shuttingDown == shuttingDown
    }

    /** The current settings of the flag and the stages. */
    function Snapshot(): Settings
      reads shuttingDown, input, processor, output
    {
      Settings(shuttingDown.raised,
               input.running, input.sourceFactory, input.source,
               processor.running, processor.transformer,
               output.running, output.consumerFactory, output.consumer)
    }

    /** The stages as the constructor builds them: a webcam input, a bypass
        colorspace processor reading the input, and a video player reading
        the processor, all stopped. */
    constructor (shuttingDown: ShutdownFlag)
      ensures Valid() && this.shuttingDown == shuttingDown
      ensures fresh(input) && fresh(processor) && fresh(output)
      ensures input.sourceFactory == VideoSourceFactory(WEBCAM) && input.task.periodMs == InputPeriodMs
      ensures processor.transformer == BypassTransformer && processor.task.periodMs == 0
      ensures output.consumer == VideoPlayer("Video Player") && output.task.periodMs == OutputPeriodMs
      ensures !input.running && !processor.running && !output.running
      // the settings the commands start from
      ensures Snapshot() == Settings(shuttingDown.raised,
                                     false, VideoSourceFactory(WEBCAM), Webcam(false),
                                     false, BypassTransformer,
                                     false, VideoPlayerFactory("Video Player"), VideoPlayer("Video Player"))
      ensures processor.transformerFactory.ColorspaceFactory?
      ensures processor.transformerFactory.factory.colorspace == BYPASS
      // an empty timing window, and every stage's slots empty
      ensures processor.timeStats.pushed == [] && processor.timeStats.window == []
      ensures input.task.Current().Empty() && input.task.Next().Empty()
      ensures processor.task.Current().Empty() && processor.task.Next().Empty()
      ensures output.task.Current().Empty() && output.task.Next().Empty()
    {
      this.shuttingDown := shuttingDown;
      var i := new VideoInput(VideoSourceFactory(WEBCAM), InputPeriodMs, shuttingDown);
      var f := new ColorspaceTransformerFactory();
      var p := new VideoProcessor(i.task, ColorspaceFactory(f), shuttingDown);
      var o := new VideoOutput(p.task, VideoPlayerFactory("Video Player"), OutputPeriodMs, shuttingDown);
      input, processor, output := i, p, o;
    }

    /** Start(): input (opening its source), then processor, then output. */
    method Start(captureOpened: bool)
      requires Valid()
      modifies input, processor, output
      ensures Valid()
      ensures Snapshot() == Apply(old(Snapshot()), Commands.Start, captureOpened)
      ensures processor.transformerFactory == old(processor.transformerFactory)
    {
      input.Start(captureOpened);
      processor.Start();
      output.Start();
    }

    /** Pause(): output, then processor, then input stop. */
    method Pause()
      requires Valid()
      modifies input, processor, output
      ensures Valid()
      ensures Snapshot() == Apply(old(Snapshot()), Commands.Pause, false)
      ensures processor.transformerFactory == old(processor.transformerFactory)
    {
      output.Stop();
      processor.Stop();
      input.Stop();
    }

    /** Stop(): the same steps as Pause. */
    method Stop()
      requires Valid()
      modifies input, processor, output
      ensures Valid()
      ensures Snapshot() == Apply(old(Snapshot()), Commands.Stop, false)
      ensures processor.transformerFactory == old(processor.transformerFactory)
    {
      output.Stop();
      processor.Stop();
      input.Stop();
    }

    /** SetSourceWebcam(): the input changes to a new webcam factory. */
    method SetSourceWebcam()
      requires Valid()
      modifies input
      ensures Valid()
      ensures Snapshot() == Apply(old(Snapshot()), Commands.SetSourceWebcam, false)
    {
      input.ChangeSource(VideoSourceFactory(WEBCAM));
    }

    /** SetSourceVideoFile(filename): the input changes to a new file factory. */
    method SetSourceVideoFile(filename: string)
      requires Valid()
      modifies input
      ensures Valid()
      ensures Snapshot() == Apply(old(Snapshot()), Commands.SetSourceVideoFile(filename), false)
    {
      input.ChangeSource(VideoSourceFactory(FILE, filename));
    }

    /** SetTransformerColorspace(colorspace): the processor changes to a new
        colorspace factory. */
    method SetTransformerColorspace(colorspace: Colorspace)
      requires Valid()
      modifies processor
      ensures Valid()
      ensures Snapshot() == Apply(old(Snapshot()), Commands.SetTransformerColorspace(colorspace), false)
      ensures processor.transformerFactory.ColorspaceFactory?
      ensures processor.transformerFactory.factory.colorspace == colorspace
    {
      var f := new ColorspaceTransformerFactory(colorspace);
      processor.ChangeTransformer(ColorspaceFactory(f));
    }

    /** SetTrasformerHaarCascadeClassifier(type): the processor changes to a
        new Haar cascade factory. */
    method SetTransformerHaarCascadeClassifier(cascade: HaarCascadeClassifierType)
      requires Valid()
      modifies processor
      ensures Valid()
      ensures Snapshot() == Apply(old(Snapshot()), Commands.SetTransformerHaarCascadeClassifier(cascade), false)
      ensures processor.transformerFactory == HaarCascadeClassifierFactory(cascade)
    {
      processor.ChangeTransformer(HaarCascadeClassifierFactory(cascade));
    }

    /** Quit(): raises the shared shutdown flag. */
    method Quit()
      modifies shuttingDown
      ensures shuttingDown.raised
    {
      shuttingDown.raised := true;
    }

    /** Carries out one parsed command: the settings change as Apply says,
        and only a transformer command replaces the processor's factory. */
    method Execute(c: Command, captureOpened: bool)
      requires Valid()
      modifies input, processor, output, shuttingDown
      ensures Valid()
      ensures Snapshot() == Apply(old(Snapshot()), c, captureOpened)
      ensures !(c.SetTransformerColorspace? || c.SetTransformerHaarCascadeClassifier?) ==>
        processor.transformerFactory == old(processor.transformerFactory)
    {
      match c
      case Quit => Quit();
      case Start => Start(captureOpened);
      case Pause => Pause();
      case Stop => Stop();
      case SetSourceWebcam => SetSourceWebcam();
      case SetSourceVideoFile(filename) => SetSourceVideoFile(filename);
      case SetTransformerColorspace(colorspace) => SetTransformerColorspace(colorspace);
      case SetTransformerHaarCascadeClassifier(cascade) => SetTransformerHaarCascadeClassifier(cascade);
      case _ =>
    }

    /** ParseTokens(tokens) with its dispatch to ParseInputTokens and
        ParseProcessingTokens: the command the tokens denote is carried out. */
    method ParseTokens(tokens: seq<string>, captureOpened: bool)
      requires Valid()
      modifies input, processor, output, shuttingDown
      ensures Valid()
      ensures Snapshot() == Apply(old(Snapshot()), Commands.ParseTokens(tokens), captureOpened)
      ensures var c := Commands.ParseTokens(tokens);
        !(c.SetTransformerColorspace? || c.SetTransformerHaarCascadeClassifier?) ==>
        processor.transformerFactory == old(processor.transformerFactory)
      // an empty line or an unknown first word changes nothing
      ensures tokens == [] || tokens[0] !in CommandWords ==> Snapshot() == old(Snapshot())
    {
      Execute(Commands.ParseTokens(tokens), captureOpened);
    }

    /** One pass of TaskFcn's loop: while the flag is clear, one typed line is
        tokenized and its command carried out; once it is raised nothing
        changes. Waiting in Throttle is not modelled. */
    method Step(line: string, captureOpened: bool) returns (continues: bool)
      requires Valid()
      modifies input, processor, output, shuttingDown
      ensures Valid()
      ensures continues == !old(shuttingDown.raised)
      ensures !continues ==> Snapshot() == old(Snapshot())
      ensures continues ==> Snapshot() == Apply(old(Snapshot()), Commands.ParseTokens(Tokens(line)), captureOpened)
      ensures var c := Commands.ParseTokens(Tokens(line));
        !(continues && (c.SetTransformerColorspace? || c.SetTransformerHaarCascadeClassifier?)) ==>
        processor.transformerFactory == old(processor.transformerFactory)
    {
      if shuttingDown.raised {
        return false;
      }
      var tokens := GetTokenizedInput(line);
      ParseTokens(tokens, captureOpened);
      return true;
    }
  }
}
