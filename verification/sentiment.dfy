/** The sentiment endpoint: the polarity of a text (computed by the
    language library, a parameter here) is reported unchanged together
    with one of three bands. */
module Sentiment {

  datatype Band = Positive | Negative | Neutral

  const Cutoff: real := 0.1

  /** The band names as the endpoint spells them. */
  function BandName(b: Band): string
  {
    match b
    case Positive => "POSITIVE"
    case Negative => "NEGATIVE"
    case Neutral => "NEUTRAL"
  }

  /** Above 0.1 positive, below -0.1 negative, otherwise (both bounds
      included) neutral. */
  function BandOf(polarity: real): (b: Band)
    ensures b == Positive <==> polarity > Cutoff
    ensures b == Negative <==> polarity < -Cutoff
    ensures b == Neutral <==> -Cutoff <= polarity <= Cutoff
  {
    if polarity > Cutoff then Positive
    else if polarity < -Cutoff then Negative
    else Neutral
  }

  datatype Verdict = Verdict(score: real, name: string)

  /** `analyze_sentiment`: the raw polarity and the band's name. */
  function Analyze(polarity: real): (v: Verdict)
    ensures v.score == polarity
    ensures v.name == BandName(BandOf(polarity))
  {
    Verdict(polarity, BandName(BandOf(polarity)))
  }

  /** The bands as an order: negative, neutral, positive. */
  function Rank(b: Band): int
  {
    match b
    case Negative => -1
    case Neutral => 0
    case Positive => 1
  }

  /** A more positive text never lands in a lower band, and the band names
      tell the bands apart. */
  lemma BandsAreMonotone(p: real, q: real)
    requires p <= q
    ensures Rank(BandOf(p)) <= Rank(BandOf(q))
    ensures Analyze(p).name == Analyze(q).name <==> BandOf(p) == BandOf(q)
  {
  }

  /** The cut-off values themselves are neutral. */
  lemma BoundsAreNeutral()
    ensures Analyze(0.1).name == "NEUTRAL" && Analyze(-0.1).name == "NEUTRAL"
    ensures Analyze(0.11).name == "POSITIVE" && Analyze(-0.11).name == "NEGATIVE"
  {
  }
}
