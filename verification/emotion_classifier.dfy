/** Post-processing of the facial-emotion classifier: the data-URL prefix
    is cut off, a "neutral" top guess gives way to a close runner-up, and
    weak guesses are reported as neutral with score 0. Decoding the image
    and the network are outside the model: their outcome is a parameter. */
module EmotionClassifier {
  import opened Common

  datatype Guess = Guess(emotion: string, score: real)

  const NeutralFallback := Guess("neutral", 0.0)
  const OverrideGap: real := 0.2
  const MinConfidence: real := 0.25

  /** The text before the first comma (all of it when there is none). */
  function Before(s: string): (r: string)
    ensures ',' !in r && |r| <= |s| && r == s[..|r|]
    ensures ',' in s ==> |r| < |s| && s[|r|] == ','
    ensures ',' !in s ==> r == s
  {
    if |s| == 0 || s[0] == ',' then [] else [s[0]] + Before(s[1..])
  }

  /** The text after the first comma. */
  function After(s: string): (r: string)
    requires ',' in s
    ensures r == s[|Before(s)| + 1..]
  {
    s[|Before(s)| + 1..]
  }

  /** `base64_image.split(",")[1]` when the input has a comma: the segment
      between the first and the second comma. */
  function StripPrefix(s: string): (r: string)
    ensures ',' !in r
    ensures ',' !in s ==> r == s
  {
    if ',' in s then Before(After(s)) else s
  }

  /** A data URL loses its header; the payload, having no comma, is kept
      whole, and anything after a second comma is dropped. */
  lemma StripsDataUrl(header: string, payload: string, rest: string)
    requires ',' !in header && ',' !in payload
    ensures StripPrefix(header + "," + payload) == payload
    ensures StripPrefix(header + "," + payload + "," + rest) == payload
  {
    StripAfterHeader(header + "," + payload, header, payload);
    StripAfterHeader(header + "," + payload + "," + rest, header, payload + "," + rest);
    BeforeStopsAtComma(payload, rest);
  }

  /** Whatever follows the header's comma is cut at its own first comma. */
  lemma StripAfterHeader(s: string, header: string, tail: string)
    requires ',' !in header && s == header + "," + tail
    ensures StripPrefix(s) == Before(tail)
  {
    BeforeStopsAtComma(header, tail);
    assert s[|header|] == ',';
    assert s[|header| + 1..] == tail;
  }

  lemma {:induction false} BeforeStopsAtComma(a: string, b: string)
    requires ',' !in a
    ensures Before(a + "," + b) == a
    decreases |a|
  {
    if |a| == 0 {
      assert (a + "," + b)[0] == ',';
    } else {
      assert (a + "," + b)[1..] == a[1..] + "," + b;
      BeforeStopsAtComma(a[1..], b);
    }
  }

  /** What decoding and classifying produced: the predictions best first,
      or an exception. */
  datatype Outcome = Predicted(guesses: seq<Guess>) | Raised

  /** `detect_emotion` after decoding. Only the top three count; a
      "neutral" top guess is replaced by the second when it leads by less
      than 0.2; a chosen score under 0.25 gives neutral with score 0, as
      does any exception (an empty prediction list among them). */
  function Detect(o: Outcome): (r: Guess)
    ensures o.Raised? || (o.Predicted? && o.guesses == []) ==> r == NeutralFallback
    ensures r != NeutralFallback ==> r.score >= MinConfidence
    ensures r == NeutralFallback || (o.Predicted? && |o.guesses| > 0 && (r == o.guesses[0] || (|o.guesses| > 1 && r == o.guesses[1])))
  {
    match o
    case Raised => NeutralFallback
    case Predicted(guesses) =>
      var top := Take(guesses, 3);
      if |top| == 0 then NeutralFallback
      else
        var chosen :=
          if top[0].emotion == "neutral" && |top| > 1 && top[0].score - top[1].score < OverrideGap then top[1]
          else top[0];
        if chosen.score < MinConfidence then NeutralFallback else chosen
  }

  /** When the override happens: only from a top "neutral", only to the
      runner-up, only within the 0.2 gap, and only if that guess is
      confident enough. */
  lemma OverrideRule(guesses: seq<Guess>)
    requires |guesses| >= 2
    ensures var r := Detect(Predicted(guesses));
      var a, b := guesses[0], guesses[1];
      (a.emotion == "neutral" && a.score - b.score < OverrideGap ==>
         r == (if b.score < MinConfidence then NeutralFallback else b))
      && (!(a.emotion == "neutral" && a.score - b.score < OverrideGap) ==>
         r == (if a.score < MinConfidence then NeutralFallback else a))
  {
  }

  /** A lone guess is never overridden. */
  lemma SingleGuessStands(g: Guess)
    ensures Detect(Predicted([g])) == (if g.score < MinConfidence then NeutralFallback else g)
  {
  }

  /** Guesses below the top three change nothing. */
  lemma OnlyTopThreeCount(guesses: seq<Guess>, more: seq<Guess>)
    requires |guesses| >= 3
    ensures Detect(Predicted(guesses + more)) == Detect(Predicted(guesses))
  {
    assert Take(guesses + more, 3) == Take(guesses, 3);
  }
}
