/** The custom CNN endpoint around the network: the signal is cut or
    zero-padded to one second at 16 kHz, and the arg-max of the ten class
    probabilities names one of the ten sound classes. The spectrogram and
    the network are outside the model: their probabilities are a
    parameter. */
module CustomCnn {
  import AudioProcessor

  const SampleRate: nat := 16000

  /** The ten training classes, one per output of the final layer. */
  const Labels: seq<string> := [
    "Air Conditioner", "Car Horn", "Children Playing", "Dog Bark",
    "Drilling", "Engine Idling", "Gun Shot", "Jackhammer", "Siren", "Street Music"
  ]

  /** The final layer maps 64 * 4 * 2 features to this many classes. */
  const Outputs: nat := 10

  function Zeros(n: nat): (z: seq<real>)
    ensures |z| == n && forall k :: 0 <= k < n ==> z[k] == 0.0
  {
    seq(n, k => 0.0)
  }

  /** Longer than a second: keep the first second. Otherwise pad the end
      with silence up to a second. */
  function PadOrTrim(signal: seq<real>): (r: seq<real>)
    ensures |r| == SampleRate
  {
    if |signal| > SampleRate then signal[..SampleRate]
    else signal + Zeros(SampleRate - |signal|)
  }

  /** The result starts with the signal (as much as fits) and is silent
      after it; fitting it again changes nothing. */
  lemma PadOrTrimKeepsPrefix(signal: seq<real>)
    ensures var r := PadOrTrim(signal);
      (forall k :: 0 <= k < |signal| && k < SampleRate ==> r[k] == signal[k])
      && (forall k :: |signal| <= k < SampleRate ==> r[k] == 0.0)
    ensures PadOrTrim(PadOrTrim(signal)) == PadOrTrim(signal)
  {
    var r := PadOrTrim(signal);
    assert r + Zeros(0) == r;
  }

  function MinOf(xs: seq<real>): (m: real)
    requires |xs| > 0
    ensures m in xs && forall k :: 0 <= k < |xs| ==> m <= xs[k]
    decreases |xs|
  {
    if |xs| == 1 then xs[0]
    else
      var rest := MinOf(xs[1..]);
      if xs[0] <= rest then xs[0] else rest
  }

  /** The spectrogram's min-max scaling, `(x - min) / (max - min + eps)`:
      the smallest value goes to 0 and every value lands in [0, 1), even
      for a constant (silent) spectrogram. */
  function Rescale(xs: seq<real>, eps: real): (r: seq<real>)
    requires |xs| > 0 && eps > 0.0
    ensures |r| == |xs|
    ensures forall k :: 0 <= k < |r| ==> 0.0 <= r[k] < 1.0
    ensures exists k :: 0 <= k < |r| && r[k] == 0.0
  {
    var lo, hi := MinOf(xs), AudioProcessor.MaxOf(xs);
    var r := seq(|xs|, k requires 0 <= k < |xs| => Scale(xs[k], lo, hi - lo + eps));
    assert r[IndexOf(xs, lo)] == 0.0;
    r
  }

  /** One value shifted by the minimum and divided by the span. */
  function Scale(x: real, lo: real, d: real): (r: real)
    requires 0.0 <= x - lo < d
    ensures 0.0 <= r < 1.0
    ensures x == lo ==> r == 0.0
  {
    FractionBelowOne(x - lo, d);
    (x - lo) / d
  }

  function IndexOf(xs: seq<real>, v: real): (k: nat)
    requires v in xs
    ensures k < |xs| && xs[k] == v
  {
    if xs[0] == v then 0 else 1 + IndexOf(xs[1..], v)
  }

  lemma FractionBelowOne(a: real, d: real)
    requires 0.0 <= a < d
    ensures 0.0 <= a / d < 1.0
  {
  }

  /** Scaling keeps the order of the values, in both directions. */
  lemma RescaleKeepsOrder(xs: seq<real>, eps: real, i: nat, j: nat)
    requires |xs| > 0 && eps > 0.0 && i < |xs| && j < |xs|
    ensures xs[i] <= xs[j] <==> Rescale(xs, eps)[i] <= Rescale(xs, eps)[j]
  {
    var lo, hi := MinOf(xs), AudioProcessor.MaxOf(xs);
    assert Rescale(xs, eps)[i] == (xs[i] - lo) / (hi - lo + eps);
    assert Rescale(xs, eps)[j] == (xs[j] - lo) / (hi - lo + eps);
    DivisionMonotone(xs[i] - lo, xs[j] - lo, hi - lo + eps);
  }

  lemma DivisionMonotone(a: real, b: real, d: real)
    requires d > 0.0
    ensures a <= b <==> a / d <= b / d
  {
    if a <= b {
      assert b / d - a / d == (b - a) / d;
    } else {
      assert a / d - b / d == (a - b) / d;
    }
  }

  /** What the download and feature extraction did. */
  datatype Input = Decoded(signal: seq<real>) | Raised(message: string)

  datatype Reply = Prediction(name: string, confidence: real, model: string) | Failure(error: string)

  /** `torch.max(probs, 1)`: a position holding the largest probability. */
  predicate IsArgMax(probs: seq<real>, index: nat)
  {
    index < |probs| && forall k :: 0 <= k < |probs| ==> probs[k] <= probs[index]
  }

  /** `predict_with_custom_model`. A failure while downloading or
      preprocessing is reported first, with its message; the model is
      loaded only afterwards, and its absence gives "Model not loaded". */
  function Predict(input: Input, modelLoaded: bool, probs: seq<real>, index: nat): (r: Reply)
    requires |probs| == Outputs && IsArgMax(probs, index)
    ensures input.Raised? ==> r == Failure(input.message)
    ensures input.Decoded? && !modelLoaded ==> r == Failure("Model not loaded")
    ensures input.Decoded? && modelLoaded ==>
      r.Prediction? && r.model == "Custom CNN (UrbanSound8K)"
      && (exists i: nat :: IsArgMax(probs, i) && r.name == Labels[i] && r.confidence == probs[i])
      && r.name == Labels[index] && r.confidence == probs[index]
      && forall k :: 0 <= k < |probs| ==> probs[k] <= r.confidence
  {
    match input
    case Raised(msg) => Failure(msg)
    case Decoded(_) =>
      if !modelLoaded then Failure("Model not loaded")
      else Prediction(Labels[index], probs[index], "Custom CNN (UrbanSound8K)")
  }

  /** A class whose probability beats every other is the one named, with
      its own probability as the confidence. */
  lemma StrictTopIsNamed(signal: seq<real>, probs: seq<real>, index: nat, k: nat)
    requires |probs| == Outputs && IsArgMax(probs, index) && k < |probs|
    requires forall j :: 0 <= j < |probs| && j != k ==> probs[j] < probs[k]
    ensures Predict(Decoded(signal), true, probs, index)
      == Prediction(Labels[k], probs[k], "Custom CNN (UrbanSound8K)")
  {
  }

  /** Which of several tied positions `torch.max` reports changes at most
      the name: the confidence is the largest probability either way. */
  lemma TiesKeepTheConfidence(input: Input, loaded: bool, probs: seq<real>, i: nat, j: nat)
    requires |probs| == Outputs && IsArgMax(probs, i) && IsArgMax(probs, j)
    ensures Predict(input, loaded, probs, i).Prediction? ==>
      Predict(input, loaded, probs, i).confidence == Predict(input, loaded, probs, j).confidence
  {
  }

  /** Every output position has a class name of its own, so the lookup
      never fails and different positions give different names. */
  lemma LabelsMatchOutputs(i: nat, j: nat)
    ensures |Labels| == Outputs
    ensures i < j < Outputs ==> Labels[i] != Labels[j]
  {
  }
}
