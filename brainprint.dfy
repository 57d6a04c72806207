/**
 * The session state of the Brainprint authentication screen: the rolling
 * sample buffer filled by the acquisition loop, the two session buttons, the
 * system log and the staged authentication run.
 *
 * Widgets, plotting and pacing are not modelled.  The acquisition loop and
 * the authentication worker run on their own threads in the application;
 * here the environment calls their bodies one after another.
 */
module Brainprint {
  import RollingBuffer
  import opened Stages

  /** Channels per sample: y1, y2, y3, y4. */
  const ChannelCount: nat := 4

  /** Length of the window authentication captures (`eeg_buffer[-100:]`). */
  const SegmentLength: nat := 100

  /** Every line the screen writes to its system log. */
  datatype Message =
    | Idle
    | StreamActive
    | StreamReceiving
    | Capturing
    | Preprocessing
    | ExtractingFeatures
    | PreparingTensor
    | RunningModel
    | MatchFound(user: string)
    | Complete

  /** The text of each log line. */
  function Text(m: Message): string
  {
    match m
    case Idle => "System Idle..."
    case StreamActive => "EEG Data Input Active."
    case StreamReceiving => "Receiving EEG Data Stream..."
    case Capturing => "Capturing 5s EEG segment..."
    case Preprocessing => "Preprocessing EEG..."
    case ExtractingFeatures => "Extracting Features..."
    case PreparingTensor => "Preparing input tensor for LSTM..."
    case RunningModel => "Running LSTM Model..."
    case MatchFound(user) => "Match Found: " + user
    case Complete => "Authentication Complete."
  }

  /** The text of a log, line by line. */
  function Transcript(lines: seq<Message>): (texts: seq<string>)
    ensures |texts| == |lines|
    ensures forall i :: 0 <= i < |lines| ==> texts[i] == Text(lines[i])
  {
    seq(|lines|, i requires 0 <= i < |lines| => Text(lines[i]))
  }

  /** Different log lines have different text. */
  lemma TextInjective(a: Message, b: Message)
    requires Text(a) == Text(b)
    ensures a == b
  {
    if a.MatchFound? || b.MatchFound? {
      // Only a match line starts with 'M'; past the prefix its text is the user.
      assert Text(a)[0] == 'M' && Text(b)[0] == 'M';
      assert a.MatchFound? && b.MatchFound?;
      assert a.user == Text(a)[13..] && b.user == Text(b)[13..];
    }
  }

  /** A log is determined by its transcript, so no line of the text log is ambiguous. */
  lemma TranscriptInjective(lines: seq<Message>, others: seq<Message>)
    requires Transcript(lines) == Transcript(others)
    ensures lines == others
  {
    forall i | 0 <= i < |lines|
      ensures lines[i] == others[i]
    {
      assert Transcript(lines)[i] == Transcript(others)[i];
      TextInjective(lines[i], others[i]);
    }
  }

  /** A completed run writes exactly these seven lines of text, in order. */
  lemma RunTranscript(user: string)
    ensures Transcript(AuthenticationLog(user))
         == ["Capturing 5s EEG segment...", "Preprocessing EEG...", "Extracting Features...",
             "Preparing input tensor for LSTM...", "Running LSTM Model...",
             "Match Found: " + user, "Authentication Complete."]
  {
  }

  /**
   * The four channel traces one acquisition tick synthesizes.  A trace is
   * opaque here (in the application it is an array of 100 noisy readings).
   */
  datatype Reading<W> = Reading(y1: W, y2: W, y3: W, y4: W)

  /** The sample a tick stores: its channels as a list, in channel order. */
  function Channels<W>(reading: Reading<W>): (sample: seq<W>)
    ensures |sample| == ChannelCount
    ensures sample[0] == reading.y1 && sample[1] == reading.y2
    ensures sample[2] == reading.y3 && sample[3] == reading.y4
  {
    [reading.y1, reading.y2, reading.y3, reading.y4]
  }

  /** Every sample in `buffer` has one entry per channel. */
  predicate AllFourChannels<W>(buffer: seq<seq<W>>)
  {
    forall i :: 0 <= i < |buffer| ==> |buffer[i]| == ChannelCount
  }

  /** The samples a run of ticks stores, one per reading, in order. */
  function SamplesOf<W>(readings: seq<Reading<W>>): seq<seq<W>>
  {
    seq(|readings|, i requires 0 <= i < |readings| => Channels(readings[i]))
  }

  /** The lines a run writes up to and including tensor assembly. */
  function AssemblyLog(): seq<Message>
  {
    [Capturing, Preprocessing, ExtractingFeatures, PreparingTensor]
  }

  /** The log lines of one authentication run that completes, in order. */
  function AuthenticationLog(user: string): seq<Message>
  {
    AssemblyLog() + [RunningModel, MatchFound(user), Complete]
  }

  /** The four stage announcements, one append at a time, are `AssemblyLog`. */
  lemma AssemblyLines(before: seq<Message>)
    ensures before + [Capturing] + [Preprocessing] + [ExtractingFeatures] + [PreparingTensor]
         == before + AssemblyLog()
  {
  }

  /** The remaining three lines complete `AuthenticationLog`. */
  lemma CompletionLines(before: seq<Message>, user: string)
    ensures before + AssemblyLog() + [RunningModel] + [MatchFound(user)] + [Complete]
         == before + AuthenticationLog(user)
  {
  }

  class BrainprintUI<W> {
    /** Set when streaming starts; nothing ever clears it. */
    var isRunning: bool
    /** The rolling buffer of samples, oldest first. */
    var eegBuffer: seq<seq<W>>
    /** Whether the "Input EEG Data" button accepts clicks. */
    var connectEnabled: bool
    /** Whether the "Authenticate Data" button accepts clicks. */
    var authEnabled: bool
    /** The lines written to the system log, oldest first. */
    var log: seq<Message>
    /** Authentication workers started and not yet finished. */
    ghost var runsInFlight: nat

    ghost predicate Valid()
      reads this`eegBuffer, this`isRunning, this`connectEnabled, this`authEnabled, this`runsInFlight
    {
      && |eegBuffer| <= RollingBuffer.Capacity
      && AllFourChannels(eegBuffer)
      && connectEnabled == !isRunning
      && (!isRunning ==> eegBuffer == [] && !authEnabled && runsInFlight == 0)
      && runsInFlight <= 1
      && (authEnabled ==> runsInFlight == 0)
    }

    /** A new screen: idle, empty buffer, only the connect button live. */
    constructor ()
      ensures Valid()
      ensures !isRunning && eegBuffer == []
      ensures connectEnabled && !authEnabled
      ensures log == [Idle] && runsInFlight == 0
    {
      isRunning := false;
      eegBuffer := [];
      connectEnabled := true;
      authEnabled := false;
      log := [];
      runsInFlight := 0;
      new;
      Log(Idle);
    }

    /** Appends one line to the system log. */
    method Log(message: Message)
      modifies this`log
      ensures log == old(log) + [message]
    {
      log := log + [message];
    }

    /**
     * The connect button's command: streaming becomes active, the connect
     * button is disabled and the authenticate button enabled.  Starting the
     * acquisition thread is the environment's next call to AnimateGraph.
     */
    method StartStream()
      requires Valid() && connectEnabled
      modifies this`isRunning, this`connectEnabled, this`authEnabled, this`log
      ensures Valid()
      ensures isRunning && !connectEnabled && authEnabled
      ensures log == old(log) + [StreamActive, StreamReceiving]
    {
      isRunning := true;
      connectEnabled := false;
      authEnabled := true;
      Log(StreamActive);
      Log(StreamReceiving);
    }

    /**
     * One pass of the acquisition loop: store the reading's channels as a
     * new sample and, past capacity, drop the oldest sample.
     */
    method Tick(reading: Reading<W>)
      requires Valid() && isRunning
      modifies this`eegBuffer
      ensures Valid()
      ensures eegBuffer == RollingBuffer.Push(old(eegBuffer), Channels(reading))
    {
      eegBuffer := eegBuffer + [Channels(reading)];
      if |eegBuffer| > RollingBuffer.Capacity {
        eegBuffer := eegBuffer[1..];
      }
    }

    /**
     * The acquisition loop, run while streaming is active over the readings
     * the environment supplies, one tick per reading.
     */
    method AnimateGraph(readings: seq<Reading<W>>)
      requires Valid()
      modifies this`eegBuffer
      ensures Valid()
      ensures isRunning ==> eegBuffer == RollingBuffer.PushAll(old(eegBuffer), SamplesOf(readings))
      ensures !isRunning ==> eegBuffer == old(eegBuffer)
    {
      ghost var samples := SamplesOf(readings);
      var i := 0;
      while isRunning && i < |readings|
        invariant 0 <= i <= |readings|
        invariant !isRunning ==> i == 0
        invariant Valid()
        invariant eegBuffer == RollingBuffer.PushAll(old(eegBuffer), samples[..i])
      {
        assert samples[..i + 1][..i] == samples[..i];
        assert samples[i] == Channels(readings[i]);
        Tick(readings[i]);
        i := i + 1;
      }
      assert samples[..|readings|] == samples;
    }

    /**
     * The authenticate button's command: the button is disabled and one
     * authentication worker is started (the environment's next call to
     * ProcessData).
     */
    method RunAuthentication()
      requires Valid() && authEnabled
      modifies this`authEnabled, this`runsInFlight
      ensures Valid()
      ensures !authEnabled && runsInFlight == 1
    {
      authEnabled := false;
      runsInFlight := runsInFlight + 1;
    }

    /**
     * The capture step of a run: the trailing window of the buffer, read
     * without changing it.  The buffer never outgrows the window, so the
     * window is the whole buffer.
     */
    method CaptureSegment() returns (segment: seq<seq<W>>)
      requires |eegBuffer| <= RollingBuffer.Capacity
      ensures |segment| == if |eegBuffer| < SegmentLength then |eegBuffer| else SegmentLength
      ensures segment == eegBuffer[|eegBuffer| - |segment|..]
      ensures segment == eegBuffer
    {
      segment := RollingBuffer.Last(eegBuffer, SegmentLength);
    }

    /**
     * The authentication worker: announce and run each stage in turn, then
     * publish `predictedUser` (the classifier's answer, supplied by the
     * environment).  Returns the tensor handed to the model, or `None` when
     * tensor assembly raises on an empty segment; the worker then stops
     * after four log lines and the authenticate button stays disabled.
     */
    method ProcessData(predictedUser: string) returns (modelInput: Option<seq<seq<seq<W>>>>)
      requires Valid() && runsInFlight == 1
      modifies this`log, this`authEnabled, this`runsInFlight
      ensures Valid() && runsInFlight == 0
      ensures modelInput == if eegBuffer == [] then None else Some([eegBuffer])
      ensures modelInput.Some? ==> authEnabled && log == old(log) + AuthenticationLog(predictedUser)
      ensures modelInput.None? ==> !authEnabled && log == old(log) + AssemblyLog()
    {
      Log(Capturing);
      var segment := CaptureSegment();
      Log(Preprocessing);
      var preprocessed := Preprocess(segment);
      Log(ExtractingFeatures);
      var features := ExtractFeatures(preprocessed);
      Log(PreparingTensor);
      AssemblyLines(old(log));
      modelInput := AssembleInput(features);
      if modelInput.None? {
        runsInFlight := runsInFlight - 1;
        return;
      }
      Log(RunningModel);
      Log(MatchFound(predictedUser));
      UpdateResult(predictedUser);
      CompletionLines(old(log), predictedUser);
    }

    /**
     * Publishes the result: the authenticate button is live again and the
     * run is over.  The result labels are presentation and not modelled.
     */
    method UpdateResult(name: string)
      requires Valid() && runsInFlight == 1
      modifies this`authEnabled, this`log, this`runsInFlight
      ensures Valid()
      ensures authEnabled && runsInFlight == 0
      ensures log == old(log) + [Complete]
    {
      authEnabled := true;
      Log(Complete);
      runsInFlight := runsInFlight - 1;
    }
  }

  /**
   * A whole session as the user drives it: open the screen, start
   * streaming, let `readings` arrive, authenticate.  The log reads the
   * start-up lines then the stage lines in order, and the model receives
   * the last `Capacity` samples as one batch; with no sample yet, the run
   * stops at tensor assembly and the authenticate button stays disabled.
   */
  method StreamAndAuthenticate<W>(readings: seq<Reading<W>>, user: string)
    returns (log: seq<Message>, authEnabled: bool, modelInput: Option<seq<seq<seq<W>>>>)
    ensures readings != [] ==> modelInput == Some([RollingBuffer.Last(SamplesOf(readings), RollingBuffer.Capacity)])
    ensures readings != [] ==> authEnabled
    ensures readings != [] ==>
      log == [Idle, StreamActive, StreamReceiving] + AuthenticationLog(user)
    ensures readings == [] ==> modelInput == None && !authEnabled
    ensures readings == [] ==>
      log == [Idle, StreamActive, StreamReceiving] + AssemblyLog()
  {
    var ui := new BrainprintUI<W>();
    ui.StartStream();
    ghost var startup := ui.log;
    assert startup == [Idle, StreamActive, StreamReceiving];
    ui.AnimateGraph(readings);
    ui.RunAuthentication();
    modelInput := ui.ProcessData(user);
    log, authEnabled := ui.log, ui.authEnabled;
    assert modelInput.Some? ==> log == startup + AuthenticationLog(user);
    assert modelInput.None? ==> log == startup + AssemblyLog();
    RollingBuffer.PushAllFromEmpty(SamplesOf(readings));
  }
}
