/** The double-buffered base of every pipeline stage. */
module VideoTasks {

  /** A video frame (cv::Mat), abstracted to its pixel values; a default
      constructed frame has none and is empty. */
  datatype Frame = Frame(pixels: seq<int>)
  {
    predicate Empty()
    {
      pixels == []
    }
  }

  const EmptyFrame := Frame([])

  /** The process-wide shutdown flag (std::atomic<bool>&), shared by reference
      between the application, the user interface and every stage. */
  class ShutdownFlag {
    var raised: bool

    constructor ()
      ensures !raised
    {
      raised := false;
    }
  }

  /** A stage's two frame slots and its share of the shutdown flag.
      `current_buffer_` and `next_buffer_` are references bound once and for
      all to `buffer1_` and `buffer2_`, so the current slot is always
      `buffer1` and the next slot always `buffer2`. */
  class VideoTask {
    const periodMs: nat
    const shuttingDown: ShutdownFlag
    var buffer1: Frame
    var buffer2: Frame

    /** The frame downstream stages read. */
    function Current(): Frame
      reads this
    {
      buffer1
    }

    /** The frame the stage fills before the next swap. */
    function Next(): Frame
      reads this
    {
      buffer2
    }

    constructor (periodMs: nat, shuttingDown: ShutdownFlag)
      ensures this.periodMs == periodMs && this.shuttingDown == shuttingDown
      ensures Current() == EmptyFrame && Next() == EmptyFrame
    {
      this.periodMs := periodMs;
      this.shuttingDown := shuttingDown;
      buffer1, buffer2 := EmptyFrame, EmptyFrame;
    }

    /** GetOutputFrame(frame): the frame in the current slot; neither slot
        changes. The cv::Mat assignment shares the pixels with the slot; frames
        are values here, so that sharing is not modelled. */
    method GetOutputFrame() returns (frame: Frame)
      ensures frame == Current()
    {
      frame := buffer1;
    }

    /** SwapBuffers(): std::swap through the two references exchanges the
        slots' contents; nothing else changes. */
    method SwapBuffers()
      modifies this
      ensures Current() == old(Next()) && Next() == old(Current())
    {
      buffer1, buffer2 := buffer2, buffer1;
    }

    /** NotifyListeners(): wakes a waiting downstream stage. It may change no
        field: the condition variable is not part of the model. */
    method NotifyListeners()
      ensures Current() == old(Current()) && Next() == old(Next())
    {
    }

    /** Throttle(): waits up to periodMs for a notification. It may change no
        field: the wait is not part of the model. */
    method Throttle()
      ensures Current() == old(Current()) && Next() == old(Next())
    {
    }
  }

  /** Two swaps in a row give back the slots as they were. */
  method SwapTwiceRestores(t: VideoTask)
    modifies t
    ensures t.Current() == old(t.Current()) && t.Next() == old(t.Next())
  {
    t.SwapBuffers();
    t.SwapBuffers();
  }
}
