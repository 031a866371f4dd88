/** The name post-processing of the sound classifier: each raw name is
    translated to a friendlier tag by exact key, else by the first key (in
    table order) found inside it ignoring case, else kept as it is. The
    network's predictions and any failure before them are parameters. */
module AudioClassifier {
  import opened Common

  /** The translation table, in its declaration order, which decides the
      partial matches; the sections follow the source's grouping. */
  const VibeTable: seq<(string, string)> :=
    NatureTags + ForestTags + UrbanTags + HomeTags + NoiseTags + MusicTags + FireTags

  const NatureTags: seq<(string, string)> := [
    ("Rain", "Rainfall"),
    ("Raindrop", "Light Rain"),
    ("Thunderstorm", "Thunder & Storm"),
    ("Thunder", "Distant Thunder"),
    ("Water", "Flowing Water"),
    ("Stream", "Forest Creek"),
    ("River", "Rushing River"),
    ("Ocean", "Ocean Waves"),
    ("Waves, surf", "Crashing Surf"),
    ("Beach, coast", "Coastal Breeze"),
    ("Waterfall", "Majestic Falls"),
    ("Drip", "Cave Droplets")
  ]

  const ForestTags: seq<(string, string)> := [
    ("Bird", "Morning Birds"),
    ("Bird vocalization, bird call, bird song", "Forest Canopy"),
    ("Owl", "Night Owl"),
    ("Cricket", "Summer Crickets"),
    ("Insect", "Nature Hum"),
    ("Frog", "Wetland Ambience"),
    ("Animal", "Wilderness"),
    ("Wind", "Breeze"),
    ("Rustling leaves", "Autumn Leaves"),
    ("Forest", "Deep Woods")
  ]

  const UrbanTags: seq<(string, string)> := [
    ("Traffic noise, roadway noise", "City Hum"),
    ("Car", "Urban Travel"),
    ("Vehicle", "City Transit"),
    ("Bus", "Night Bus"),
    ("Subway, metro, underground", "Underground Echo"),
    ("Train", "Rail Rhythm"),
    ("Siren", "City Alert"),
    ("Car horn, honking", "Downtown Chaos"),
    ("Street music", "Street Performer"),
    ("Crowd", "Public Space"),
    ("Chatter", "Coffee Shop Vibe"),
    ("Walk, footsteps", "City Walk")
  ]

  const HomeTags: seq<(string, string)> := [
    ("Typing", "Focus Work"),
    ("Computer keyboard", "Mechanical Typing"),
    ("Writing", "Study Session"),
    ("Clock", "Time Passing"),
    ("Tick-tock", "Focus Rhythm"),
    ("Door", "Entryway"),
    ("Dishes, pots, and pans", "Kitchen Ambience"),
    ("Frying (food)", "Cooking ASMR"),
    ("Microwave oven", "Late Night Snack"),
    ("Air conditioner", "Cooling Hum"),
    ("Fan", "White Noise Fan")
  ]

  const NoiseTags: seq<(string, string)> := [
    ("White noise", "Pure Focus"),
    ("Pink noise", "Deep Sleep"),
    ("Static", "Retro Radio"),
    ("Hum", "Generator Drone"),
    ("Silence", "Deep Silence"),
    ("Noise", "Industrial Texture"),
    ("Engine", "Low Rumble"),
    ("Idling", "Engine Drone")
  ]

  const MusicTags: seq<(string, string)> := [
    ("Music", "Melodic Background"),
    ("Musical instrument", "Instrumental"),
    ("Piano", "Calm Piano"),
    ("Guitar", "Acoustic Vibes"),
    ("Flute", "Meditative Flute"),
    ("Bell", "Temple Bell"),
    ("Chime", "Wind Chimes"),
    ("Singing bowl", "Tibetan Healing")
  ]

  const FireTags: seq<(string, string)> := [
    ("Fire", "Campfire"),
    ("Crackling, fire", "Fireplace Crackle")
  ]

  /** `VIBE_MAP.get(name)`: the value of the first entry with exactly this
      key (the keys are distinct, so it is the only one). */
  function Exact(table: seq<(string, string)>, name: string): (r: Option<string>)
    ensures r.None? <==> forall k :: 0 <= k < |table| ==> table[k].0 != name
    ensures r.Some? ==> exists k :: 0 <= k < |table| && table[k] == (name, r.value)
    decreases |table|
  {
    if |table| == 0 then None
    else if table[0].0 == name then Some(table[0].1)
    else Exact(table[1..], name)
  }

  /** The lower-cased key occurs in the lower-cased name. */
  predicate KeyInside(key: string, name: string)
  {
    Contains(Lower(name), Lower(key))
  }

  /** The partial-match loop: the value of the first key inside the name. */
  function Partial(table: seq<(string, string)>, name: string): (r: Option<string>)
    ensures r.None? <==> forall k :: 0 <= k < |table| ==> !KeyInside(table[k].0, name)
    decreases |table|
  {
    if |table| == 0 then None
    else if KeyInside(table[0].0, name) then Some(table[0].1)
    else Partial(table[1..], name)
  }

  /** Exact key, else partial key, else the raw name. Every table value is
      non-empty, so "not found" is the only falsy case. */
  function Friendly(name: string): (r: string)
  {
    match Exact(VibeTable, name)
    case Some(v) => v
    case None =>
      match Partial(VibeTable, name)
      case Some(v) => v
      case None => name
  }

  /** The first entry whose key lies inside the name gives the partial
      match: an earlier, shorter key beats a later, longer one. */
  lemma {:induction false} PartialIsFirstInside(table: seq<(string, string)>, name: string, i: nat)
    requires i < |table| && KeyInside(table[i].0, name)
    requires forall k :: 0 <= k < i ==> !KeyInside(table[k].0, name)
    ensures Partial(table, name) == Some(table[i].1)
    decreases i
  {
    if i > 0 {
      PartialIsFirstInside(table[1..], name, i - 1);
    }
  }

  /** The three cases in order: a key wins; otherwise the first key inside;
      otherwise the name itself. */
  lemma FriendlyCases(name: string)
    ensures (exists k :: 0 <= k < |VibeTable| && VibeTable[k].0 == name) ==> Friendly(name) == Exact(VibeTable, name).value
    ensures ((forall k :: 0 <= k < |VibeTable| ==> VibeTable[k].0 != name)
      && (forall k :: 0 <= k < |VibeTable| ==> !KeyInside(VibeTable[k].0, name))) ==> Friendly(name) == name
    ensures ((forall k :: 0 <= k < |VibeTable| ==> VibeTable[k].0 != name)
      && Partial(VibeTable, name).Some?) ==> Friendly(name) == Partial(VibeTable, name).value
  {
  }

  /** "Raindrop" is a key of its own, so it is not read as "Rain". */
  lemma ExactBeatsPartial()
    ensures Friendly("Raindrop") == "Light Rain"
  {
    assert VibeTable[..|NatureTags|] == NatureTags;
    assert VibeTable[0] == ("Rain", "Rainfall") && VibeTable[1] == ("Raindrop", "Light Rain");
    assert Exact(VibeTable[1..], "Raindrop") == Some("Light Rain");
  }

  /** No key of the table is sixteen characters long. */
  lemma {:induction false} NoSixteenCharacterKey(table: seq<(string, string)>, name: string)
    requires |name| == 16
    requires forall t :: t in table ==> |t.0| != 16
    ensures Exact(table, name).None?
    decreases |table|
  {
    if |table| > 0 {
      assert table[0] in table;
      NoSixteenCharacterKey(table[1..], name);
    }
  }

  /** No key of the table is sixteen characters long. */
  lemma KeyLengths()
    ensures forall t :: t in VibeTable ==> |t.0| != 16
  {
    NatureKeys();
    ForestKeys();
    UrbanKeys();
    HomeKeys();
    NoiseKeys();
    MusicKeys();
    FireKeys();
  }

  // The same fact, one table section at a time.
  lemma NatureKeys() ensures forall t :: t in NatureTags ==> |t.0| != 16 {}
  lemma ForestKeys() ensures forall t :: t in ForestTags ==> |t.0| != 16 {}
  lemma UrbanKeys() ensures forall t :: t in UrbanTags ==> |t.0| != 16 {}
  lemma HomeKeys() ensures forall t :: t in HomeTags ==> |t.0| != 16 {}
  lemma NoiseKeys() ensures forall t :: t in NoiseTags ==> |t.0| != 16 {}
  lemma MusicKeys() ensures forall t :: t in MusicTags ==> |t.0| != 16 {}
  lemma FireKeys() ensures forall t :: t in FireTags ==> |t.0| != 16 {}

  /** No sixteen-character label is a key of the table. */
  lemma SixteenIsNoKey(name: string)
    requires |name| == 16
    ensures Exact(VibeTable, name).None?
  {
    KeyLengths();
    NoSixteenCharacterKey(VibeTable, name);
  }

  /** Partial matching goes by table order, not by the best fit: "Gentle
      raindrops" is not a key, and the first key inside it is "Rain", so it
      becomes "Rainfall" although "Raindrop" occurs in it too. */
  lemma FirstKeyBeatsBetterKey(name: string)
    requires name == "Gentle raindrops"
    ensures Friendly(name) == "Rainfall"
  {
    SixteenIsNoKey(name);
    RainIsInside(name);
    FirstEntryIsRain();
    PartialIsFirstInside(VibeTable, name, 0);
  }

  lemma RainIsInside(name: string)
    requires name == "Gentle raindrops"
    ensures KeyInside("Rain", name)
  {
    assert Lower(name)[7..11] == "rain";
    assert Lower("Rain") == "rain";
    assert OccursAt(Lower(name), Lower("Rain"), 7);
  }

  lemma FirstEntryIsRain()
    ensures VibeTable[0] == ("Rain", "Rainfall")
  {
    assert VibeTable[..|NatureTags|] == NatureTags;
  }

  /** A raw prediction of the network. */
  datatype Raw = Raw(name: string, score: real)

  /** An entry of the answer: the mapped prediction, or the single error
      entry (which has no original name). */
  datatype Entry = Mapped(name: string, original: string, score: real) | ErrorEntry(name: string, score: real)

  function MapPredictions(raw: seq<Raw>): (r: seq<Entry>)
    ensures |r| == |raw|
    ensures forall k :: 0 <= k < |raw| ==>
      r[k] == Mapped(Friendly(raw[k].name), raw[k].name, raw[k].score)
  {
    seq(|raw|, k requires 0 <= k < |raw| => Mapped(Friendly(raw[k].name), raw[k].name, raw[k].score))
  }

  /** The network's answer, or the message of the exception raised while
      downloading, decoding or classifying. */
  datatype Outcome = Classified(raw: seq<Raw>) | Raised(message: string)

  /** `predict_sound_class`. A failure gives one entry with "Error: " and
      at most 50 characters of the message, and score 0. */
  function PredictSoundClass(o: Outcome): (r: seq<Entry>)
    ensures o.Raised? ==>
      (|r| == 1 && r[0].ErrorEntry? && r[0].score == 0.0
       && r[0].name == "Error: " + o.message[..Min(50, |o.message|)]
       && |r[0].name| <= 57)
    ensures o.Classified? ==>
      |r| == |o.raw| && forall k :: 0 <= k < |r| ==> r[k].Mapped? && r[k].original == o.raw[k].name && r[k].score == o.raw[k].score
  {
    match o
    case Raised(msg) => [ErrorEntry("Error: " + msg[..Min(50, |msg|)], 0.0)]
    case Classified(raw) => MapPredictions(raw)
  }
}
