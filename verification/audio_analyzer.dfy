/** The shared analyser service: binds the player's audio element to one
    analyser node once, hands out byte frequency data, and resumes a
    suspended audio context. The audio graph itself is abstract: only the
    fields the service keeps are modelled. */
module AudioAnalyzer {
  import opened Common
  import Visualizer

  /** The analyser's FFT size and smoothing constant as configured. */
  const FftSize: nat := 64
  const Smoothing: real := 0.8

  /** `frequencyBinCount`: half the FFT size (section 1.8, AnalyserNode, of
      the W3C Web Audio API). */
  function FrequencyBinCount(fftSize: nat): nat
  {
    fftSize / 2
  }

  datatype ContextState = Suspended | Running | Closed

  datatype AnalyserNode = AnalyserNode(fftSize: nat, smoothing: real)

  /** The service's fields: the context (by its state), the analyser, whether
      a media source has been created, and the byte buffer. */
  datatype Service = Service(
    context: Option<ContextState>,
    analyser: Option<AnalyserNode>,
    source: bool,
    data: Option<seq<byte>>)

  const Fresh := Service(None, None, false, None)

  /** Where `init`'s set-up throws, if anywhere: constructing the context,
      creating the analyser, creating the media source (an element can feed
      only one source), or connecting the nodes. */
  datatype Failure = NoFailure | ContextFails | AnalyserFails | SourceFails | ConnectFails

  /** `init(audioElement)`. A second call after a source exists, or a call
      without an element, does nothing. The exception is caught, so the
      fields assigned before the failing step keep their new values;
      `startState` is the state the browser gives a new context. */
  function Init(s: Service, hasElement: bool, failure: Failure, startState: ContextState): (r: Service)
    ensures s.source || !hasElement ==> r == s
    ensures !s.source && hasElement && failure == NoFailure ==>
      r.source && r.context == Some(startState)
      && r.analyser == Some(AnalyserNode(FftSize, Smoothing))
      && r.data == Some(seq(FrequencyBinCount(FftSize), _ => 0 as byte))
    ensures !s.source && hasElement && failure == ContextFails ==> r == s
    ensures !s.source && hasElement && failure in {AnalyserFails, SourceFails} ==>
      !r.source && r.context == Some(startState)
    ensures !s.source && hasElement && failure == ConnectFails ==>
      r.source && r.analyser == Some(AnalyserNode(FftSize, Smoothing))
  {
    if s.source || !hasElement then s
    else
      var withContext := s.(context := Some(startState));
      var analyser := AnalyserNode(FftSize, Smoothing);
      var withAnalyser := withContext.(analyser := Some(analyser),
                                       data := Some(seq(FrequencyBinCount(analyser.fftSize), _ => 0 as byte)));
      match failure
      case ContextFails => s
      case AnalyserFails => withContext
      case SourceFails => withAnalyser
      case ConnectFails => withAnalyser.(source := true)
      case NoFailure => withAnalyser.(source := true)
  }

  /** The first binding wins: once a call got as far as creating the
      source, every later call is a no-op, whatever happens in it. */
  lemma FirstBindingWins(s: Service, f1: Failure, f2: Failure, st1: ContextState, st2: ContextState, has2: bool)
    requires f1 in {NoFailure, ConnectFails}
    ensures var once := Init(s, true, f1, st1);
      Init(once, has2, f2, st2) == once
  {
  }

  /** A failure before the source exists leaves the door open: a later
      successful call binds the element and configures the analyser. */
  lemma EarlyFailureCanRetry(s: Service, f: Failure, st1: ContextState, st2: ContextState)
    requires !s.source && f in {ContextFails, AnalyserFails, SourceFails}
    ensures var r := Init(Init(s, true, f, st1), true, NoFailure, st2);
      r.source && r.context == Some(st2) && r.analyser == Some(AnalyserNode(FftSize, Smoothing))
  {
  }

  /** A configured service holds a 32-byte buffer. */
  lemma BufferHoldsThirtyTwoBins(s: Service, st: ContextState)
    requires !s.source
    ensures var r := Init(s, true, NoFailure, st);
      r.data.Some? && |r.data.value| == 32
  {
  }

  /** `getByteFrequencyData(array)`: the current spectrum is copied into the
      buffer's leading entries; entries beyond the spectrum keep their old
      values. */
  function Fill(buffer: seq<byte>, spectrum: seq<byte>): (r: seq<byte>)
    ensures |r| == |buffer|
    ensures forall i :: 0 <= i < |r| ==> r[i] == (if i < |spectrum| then spectrum[i] else buffer[i])
  {
    seq(|buffer|, i requires 0 <= i < |buffer| => if i < |spectrum| then spectrum[i] else buffer[i])
  }

  datatype Frame = Frame(service: Service, bins: seq<byte>)

  /** `getFrequencyData()`: an empty array without an analyser or buffer,
      otherwise the refreshed buffer itself (the service keeps it). */
  function GetFrequencyData(s: Service, spectrum: seq<byte>): (r: Frame)
    ensures s.analyser.None? || s.data.None? ==> r == Frame(s, [])
    ensures s.analyser.Some? && s.data.Some? ==>
      r.service.data == Some(r.bins) && |r.bins| == |s.data.value|
      && r.service == s.(data := Some(r.bins))
    ensures s.analyser.Some? && s.data.Some? && |spectrum| >= |s.data.value| ==>
      r.bins == spectrum[..|s.data.value|]
  {
    if s.analyser.None? || s.data.None? then Frame(s, [])
    else
      var bins := Fill(s.data.value, spectrum);
      Frame(s.(data := Some(bins)), bins)
  }

  /** Once bound, each frame hands the visualizer 32 bins, so its sampling
      step is 1 and its twenty bars show bins 0 to 19, every one in range. */
  lemma FramesFeedTheFirstTwentyBins(s: Service, st: ContextState, spectrum: seq<byte>, i: nat)
    requires !s.source && |spectrum| == FrequencyBinCount(FftSize) && i < Visualizer.Bars
    ensures var bins := GetFrequencyData(Init(s, true, NoFailure, st), spectrum).bins;
      |bins| == 32 && Visualizer.Step(|bins|) == 1
      && Visualizer.BarValue(bins, i) == spectrum[i] as nat
  {
    var bins := GetFrequencyData(Init(s, true, NoFailure, st), spectrum).bins;
    assert bins == spectrum[..32];
  }

  /** `resume()` asks the context to resume only when it is suspended. */
  function ResumeRequested(s: Service): (b: bool)
    ensures b <==> s.context == Some(Suspended)
  {
    s.context.Some? && s.context.value == Suspended
  }

  /** The service once a requested resume has taken effect. */
  function Resume(s: Service): (r: Service)
    ensures ResumeRequested(s) ==> r == s.(context := Some(Running))
    ensures !ResumeRequested(s) ==> r == s
  {
    if ResumeRequested(s) then s.(context := Some(Running)) else s
  }

  /** Resuming is idempotent: a second call finds the context running and
      requests nothing. A closed context is never resumed. */
  lemma ResumeIdempotent(s: Service)
    ensures Resume(Resume(s)) == Resume(s)
    ensures !ResumeRequested(Resume(s))
    ensures s.context == Some(Closed) ==> Resume(s) == s
  {
  }
}
