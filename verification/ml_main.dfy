/** The ML gateway's own logic: the API-key gate, the masked database URL
    in the startup log, the similar-sounds filter, the emotion-to-query
    map of the face DJ, and the "surprise me" mix selection. The embedding
    model, the database and the vector search are outside the model: their
    answers are parameters. */
module MlMain {
  import opened Common

  // ---------------------------------------------------------------------
  // The API-key gate

  datatype Gate = Allowed | Forbidden(status: nat, detail: string)

  /** `verify_api_key`: with no server key configured (unset or empty)
      every request passes; otherwise only the exact header value does, and
      anything else, a missing header included, is refused with 403. */
  function VerifyApiKey(header: Option<string>, configured: Option<string>): (g: Gate)
    ensures g.Allowed? <==> configured.None? || configured == Some("") || header == configured
    ensures g.Forbidden? ==> g == Forbidden(403, "Could not validate credentials")
  {
    if configured.None? || configured.value == "" then Allowed
    else if header == configured then Allowed
    else Forbidden(403, "Could not validate credentials")
  }

  /** With a key configured, a request without the header never passes, and
      a request with the right header always does. */
  lemma KeyedServerNeedsTheKey(key: string, other: Option<string>)
    requires key != ""
    ensures VerifyApiKey(None, Some(key)).Forbidden?
    ensures VerifyApiKey(Some(key), Some(key)).Allowed?
    ensures other != Some(key) ==> VerifyApiKey(other, Some(key)) == Forbidden(403, "Could not validate credentials")
  {
  }

  // ---------------------------------------------------------------------
  // The masked URL in the startup log

  function Stars(n: nat): (s: string)
    ensures |s| == n && forall i :: 0 <= i < n ==> s[i] == '*'
  {
    if n == 0 then [] else Stars(n - 1) + ['*']
  }

  /** `_url[:8] + "*" * (len(_url) - 16) + _url[-8:]`, logged only when
      the URL is set and non-empty. Python's slices clamp, a negative
      repeat count gives "", and `_url[-8:]` of a short string is all of
      it. */
  function MaskUrl(u: string): (r: Option<string>)
    ensures u == "" <==> r.None?
    ensures |u| >= 16 ==> r.Some? && |r.value| == |u|
    ensures u != "" ==> |r.value| == Min(8, |u|) + Max(0, |u| - 16) + Min(8, |u|)
  {
    if u == "" then None
    else Some(u[..Min(8, |u|)] + Stars(Max(0, |u| - 16)) + u[Max(0, |u| - 8)..])
  }

  /** A long URL keeps its first and last eight characters and hides every
      one in between. */
  lemma LongUrlIsMasked(u: string)
    requires |u| >= 16
    ensures var m := MaskUrl(u).value;
      m[..8] == u[..8] && m[|u| - 8..] == u[|u| - 8..]
      && forall i :: 8 <= i < |u| - 8 ==> m[i] == '*'
  {
    var m := MaskUrl(u).value;
    assert m == u[..8] + Stars(|u| - 16) + u[|u| - 8..];
  }

  /** A URL of at most 16 characters is not masked at all: every character
      can be read back from the log line. */
  lemma ShortUrlLeaks(u: string)
    requires 0 < |u| <= 16
    ensures var m := MaskUrl(u).value;
      forall i :: 0 <= i < |u| ==>
        (i < 8 ==> m[i] == u[i]) && (i >= |u| - 8 ==> m[|m| - (|u| - i)] == u[i])
    ensures |u| == 16 ==> MaskUrl(u) == Some(u)
  {
    var m := MaskUrl(u).value;
    assert Stars(0) == [];
    assert m == u[..Min(8, |u|)] + u[Max(0, |u| - 8)..];
    if |u| == 16 {
      assert u[..8] + u[8..] == u;
    }
  }

  // ---------------------------------------------------------------------
  // Similar sounds

  /** A sound row; only its id matters to the logic. */
  datatype Sound = Sound(id: string, title: string)

  /** The `embedding` column of the source row: empty/null, or stored text
      or array which is (or, for text, is not) valid JSON. */
  datatype Embedding = NoEmbedding | Stored(parses: bool)

  datatype Reply = Results(sounds: seq<Sound>) | HttpError(status: nat)

  function Without(xs: seq<Sound>, id: string): (r: seq<Sound>)
    ensures forall s :: s in r <==> s in xs && s.id != id
    ensures |r| <= |xs|
  {
    if |xs| == 0 then []
    else if xs[0].id == id then Without(xs[1..], id)
    else [xs[0]] + Without(xs[1..], id)
  }

  /** `find_similar`. `source` is the embedding lookup (None: no row, or
      the lookup raised), `library` the four-row library query and
      `matches` the vector search (None: that call raised). A missing
      source raises 404 inside the `try`, whose generic handler turns it,
      like an unparseable embedding or a failed query, into 500. */
  function FindSimilar(sourceId: string, source: Option<Embedding>, library: Option<seq<Sound>>,
                       matches: Option<seq<Sound>>): (r: Reply)
    ensures r.HttpError? ==> r.status == 500
    ensures r.HttpError? <==>
      source.None? || source == Some(Stored(false))
      || (source == Some(NoEmbedding) && library.None?)
      || (source == Some(Stored(true)) && matches.None?)
    ensures source == Some(NoEmbedding) && library.Some? ==> r == Results(Take(library.value, 4))
    ensures source == Some(Stored(true)) && matches.Some? ==>
      r.Results? && (forall s :: s in r.sounds <==> s in matches.value && s.id != sourceId)
  {
    match source
    case None => HttpError(500)
    case Some(NoEmbedding) =>
      if library.None? then HttpError(500) else Results(Take(library.value, 4))
    case Some(Stored(parses)) =>
      if !parses || matches.None? then HttpError(500) else Results(Without(matches.value, sourceId))
  }

  /** The vector path never answers with the source itself, and keeps the
      search's order. */
  lemma VectorPathExcludesSource(sourceId: string, library: Option<seq<Sound>>, a: seq<Sound>, b: seq<Sound>)
    ensures forall s :: s in FindSimilar(sourceId, Some(Stored(true)), library, Some(a)).sounds ==> s.id != sourceId
    ensures Without(a + b, sourceId) == Without(a, sourceId) + Without(b, sourceId)
  {
    WithoutDistributes(a, b, sourceId);
  }

  /** Filtering a concatenation filters each part. */
  lemma {:induction false} WithoutDistributes(a: seq<Sound>, b: seq<Sound>, id: string)
    ensures Without(a + b, id) == Without(a, id) + Without(b, id)
    decreases |a|
  {
    if |a| > 0 {
      assert (a + b)[1..] == a[1..] + b;
      WithoutDistributes(a[1..], b, id);
    } else {
      assert a + b == b;
    }
  }

  /** The empty-embedding path does not filter: a source without an
      embedding that is among the first four rows is returned as similar
      to itself. */
  lemma EmptyEmbeddingCanReturnSource()
    ensures Sound("s1", "Rain") in FindSimilar("s1", Some(NoEmbedding), Some([Sound("s1", "Rain"), Sound("s2", "Wind")]), None).sounds
  {
    var lib := [Sound("s1", "Rain"), Sound("s2", "Wind")];
    assert Take(lib, 4) == lib;
  }

  // ---------------------------------------------------------------------
  // The face DJ

  const VibeMap: map<string, string> := map[
    "happy" := "energetic upbeat sunny",
    "sad" := "comforting rain cozy",
    "angry" := "calm zen meditation",
    "fear" := "safe reassuring warm",
    "surprise" := "magical ethereal",
    "neutral" := "focus deep work",
    "disgust" := "cleansing water fresh"
  ]

  /** `vibe_map.get(emotion, "relaxing")`. */
  function VibeQuery(emotion: string): (q: string)
    ensures emotion in VibeMap ==> q == VibeMap[emotion]
    ensures emotion !in VibeMap ==> q == "relaxing"
  {
    if emotion in VibeMap then VibeMap[emotion] else "relaxing"
  }

  /** The seven emotions each get their own query, none of them the
      default, so the query tells which emotion was seen. */
  lemma QueriesTellEmotionsApart(e1: string, e2: string)
    ensures VibeQuery(e1) == "relaxing" <==> e1 !in VibeMap
    ensures e1 in VibeMap && e2 in VibeMap && e1 != e2 ==> VibeQuery(e1) != VibeQuery(e2)
  {
  }

  /** The `/analyze-face` answer: the emotion, its score and the search
      result for the mapped query. */
  datatype FaceReply = Face(emotion: string, confidence: real, mix: seq<Sound>) | FaceError(status: nat)

  /** `analyze_face`: the emotion detector never raises, so only the
      search can fail, with 500. `search` answers the mapped query. */
  function AnalyzeFace(emotion: string, score: real, search: string -> Option<seq<Sound>>): (r: FaceReply)
    ensures search(VibeQuery(emotion)).None? <==> r == FaceError(500)
    ensures r.Face? ==> r.emotion == emotion && r.confidence == score && r.mix == search(VibeQuery(emotion)).value
  {
    match search(VibeQuery(emotion))
    case None => FaceError(500)
    case Some(rows) => Face(emotion, score, rows)
  }

  // ---------------------------------------------------------------------
  // The "surprise me" mix

  const MixSize: nat := 4
  const Volumes: seq<real> := [0.8, 0.5, 0.3, 0.2]

  /** The volume for the `i`-th pick (the 0.2 fallback is never reached,
      since at most four are picked). */
  function VolumeAt(i: nat): real
  {
    if i < |Volumes| then Volumes[i] else 0.2
  }

  datatype MixEntry = MixEntry(sound: Sound, volume: real)

  /** Fewer than four matches are topped up with the first ten library
      rows before selection. */
  function Candidates(matches: seq<Sound>, library: seq<Sound>): (c: seq<Sound>)
    ensures |matches| >= MixSize ==> c == matches
    ensures |matches| < MixSize ==> c == matches + Take(library, 10)
  {
    if |matches| < MixSize then matches + Take(library, 10) else matches
  }

  /** `random.shuffle` as a permutation of positions. */
  predicate IsPermutation(perm: seq<nat>, n: nat)
  {
    |perm| == n
    && (forall k :: 0 <= k < n ==> perm[k] < n)
    && (forall i, j :: 0 <= i < j < n ==> perm[i] != perm[j])
    && (forall v :: 0 <= v < n ==> v in perm)
  }

  function Shuffled(c: seq<Sound>, perm: seq<nat>): (s: seq<Sound>)
    requires IsPermutation(perm, |c|)
    ensures |s| == |c|
    ensures forall x :: x in s <==> x in c
  {
    var s := seq(|c|, k requires 0 <= k < |c| => c[perm[k]]);
    assert forall x :: x in c ==> x in s by {
      forall x | x in c ensures x in s {
        var v :| 0 <= v < |c| && c[v] == x;
        assert v in perm;
        var k :| 0 <= k < |perm| && perm[k] == v;
        assert s[k] == x;
      }
    }
    s
  }

  /** `sound['id'] in seen_ids`: some kept sound has this id. */
  predicate HasId(xs: seq<Sound>, id: string)
  {
    exists k :: 0 <= k < |xs| && xs[k].id == id
  }

  /** The reference selection: walk the shuffled candidates, keep a sound
      whose id is new, stop as soon as four are kept. */
  function Pick(xs: seq<Sound>, acc: seq<Sound>): seq<Sound>
    decreases |xs|
  {
    if |xs| == 0 then acc
    else
      var acc' := if HasId(acc, xs[0].id) then acc else acc + [xs[0]];
      if |acc'| >= MixSize then acc' else Pick(xs[1..], acc')
  }

  predicate DistinctIds(xs: seq<Sound>)
  {
    forall i, j :: 0 <= i < j < |xs| ==> xs[i].id != xs[j].id
  }

  /** One step of the selection keeps the ids distinct and records the
      scanned id. */
  lemma StepKeepsDistinct(acc: seq<Sound>, x: Sound)
    requires DistinctIds(acc)
    ensures var acc' := if HasId(acc, x.id) then acc else acc + [x];
      DistinctIds(acc') && HasId(acc', x.id) && acc'[..|acc|] == acc && |acc'| <= |acc| + 1
  {
    if !HasId(acc, x.id) {
      var acc' := acc + [x];
      assert acc'[|acc|] == x;
    }
  }

  /** The selection extends what was kept, never holds two sounds with the
      same id and never more than four. */
  lemma {:induction false} PickDistinct(xs: seq<Sound>, acc: seq<Sound>)
    requires DistinctIds(acc) && |acc| < MixSize
    ensures var r := Pick(xs, acc);
      DistinctIds(r) && |acc| <= |r| <= MixSize && r[..|acc|] == acc
    decreases |xs|
  {
    if |xs| > 0 {
      StepKeepsDistinct(acc, xs[0]);
      var acc' := if HasId(acc, xs[0].id) then acc else acc + [xs[0]];
      if |acc'| < MixSize {
        PickDistinct(xs[1..], acc');
        var r := Pick(xs[1..], acc');
        assert r[..|acc|] == r[..|acc'|][..|acc|];
      }
    }
  }

  /** Every kept sound was kept before or is one of the scanned ones. */
  lemma {:induction false} PickFrom(xs: seq<Sound>, acc: seq<Sound>)
    ensures forall s :: s in Pick(xs, acc) ==> s in acc || s in xs
    decreases |xs|
  {
    if |xs| > 0 {
      var acc' := if HasId(acc, xs[0].id) then acc else acc + [xs[0]];
      if |acc'| < MixSize {
        PickFrom(xs[1..], acc');
      }
    }
  }

  /** Kept ids stay kept. */
  lemma KeptStaysKept(acc: seq<Sound>, r: seq<Sound>, id: string)
    requires |acc| <= |r| && r[..|acc|] == acc && HasId(acc, id)
    ensures HasId(r, id)
  {
    var k :| 0 <= k < |acc| && acc[k].id == id;
    assert r[k] == acc[k];
  }

  /** A selection that ends with fewer than four sounds has seen every
      scanned id. */
  lemma {:induction false} PickMaximal(xs: seq<Sound>, acc: seq<Sound>)
    requires DistinctIds(acc) && |acc| < MixSize
    ensures var r := Pick(xs, acc);
      |r| < MixSize ==> forall s :: s in xs ==> HasId(r, s.id)
    decreases |xs|
  {
    if |xs| > 0 {
      StepKeepsDistinct(acc, xs[0]);
      var acc' := if HasId(acc, xs[0].id) then acc else acc + [xs[0]];
      if |acc'| < MixSize {
        PickMaximal(xs[1..], acc');
        PickDistinct(xs[1..], acc');
        KeptStaysKept(acc', Pick(xs[1..], acc'), xs[0].id);
        forall s | s in xs && |Pick(xs, acc)| < MixSize ensures HasId(Pick(xs, acc), s.id) {
          if s != xs[0] {
            assert s in xs[1..];
          }
        }
      }
    }
  }

  /** `generate_mix`: the shuffled candidates are scanned once, keeping new
      ids until four are kept, and the picks get 0.8, 0.5, 0.3, 0.2 by
      position. */
  method GenerateMix(matches: seq<Sound>, library: seq<Sound>, perm: seq<nat>) returns (mix: seq<MixEntry>)
    requires IsPermutation(perm, |Candidates(matches, library)|)
    ensures |mix| <= MixSize
    ensures forall i :: 0 <= i < |mix| ==> mix[i].volume == Volumes[i]
    ensures forall i :: 0 <= i < |mix| ==> mix[i].sound in Candidates(matches, library)
    ensures forall i, j :: 0 <= i < j < |mix| ==> mix[i].sound.id != mix[j].sound.id
    ensures |mix| < MixSize ==> forall s :: s in Candidates(matches, library) ==> exists i :: 0 <= i < |mix| && mix[i].sound.id == s.id
    ensures Sounds(mix) == Pick(Shuffled(Candidates(matches, library), perm), [])
  {
    var candidates := Candidates(matches, library);
    var shuffled := Shuffled(candidates, perm);
    var selected := Select(shuffled);
    PickDistinct(shuffled, []);
    PickFrom(shuffled, []);
    PickMaximal(shuffled, []);
    mix := seq(|selected|, k requires 0 <= k < |selected| => MixEntry(selected[k], VolumeAt(k)));
    assert Sounds(mix) == selected;
    assert forall s :: s in candidates ==> s in shuffled;
  }

  /** The `/generate-mix` answer: the mix, or the status of a caught error. */
  datatype MixReply = Mix(entries: seq<MixEntry>) | MixError(status: nat)

  /** The rows of a query that succeeded; a failed one contributes none. */
  function Rows(o: Option<seq<Sound>>): seq<Sound>
  {
    if o.Some? then o.value else []
  }

  /** `generate_mix` as an endpoint: the encode-and-search call (`search`,
      None when it raised) and, only when it found fewer than four sounds,
      the ten-row library query (`topUp`) can fail; either failure is
      caught and answered with 500. */
  method GenerateMixReply(search: Option<seq<Sound>>, topUp: Option<seq<Sound>>, perm: seq<nat>) returns (r: MixReply)
    requires search.Some? ==> IsPermutation(perm, |Candidates(search.value, Rows(topUp))|)
    ensures r.MixError? ==> r.status == 500
    ensures r.MixError? <==> search.None? || (|search.value| < MixSize && topUp.None?)
    ensures r.Mix? ==>
      Sounds(r.entries) == Pick(Shuffled(Candidates(search.value, Rows(topUp)), perm), [])
      && |r.entries| <= MixSize && forall i :: 0 <= i < |r.entries| ==> r.entries[i].volume == Volumes[i]
  {
    if search.None? || (|search.value| < MixSize && topUp.None?) {
      return MixError(500);
    }
    var mix := GenerateMix(search.value, Rows(topUp), perm);
    r := Mix(mix);
  }

  function Sounds(mix: seq<MixEntry>): (r: seq<Sound>)
    ensures |r| == |mix| && forall i :: 0 <= i < |mix| ==> r[i] == mix[i].sound
  {
    seq(|mix|, i requires 0 <= i < |mix| => mix[i].sound)
  }

  /** The selection loop over the shuffled candidates. */
  method Select(shuffled: seq<Sound>) returns (selected: seq<Sound>)
    ensures selected == Pick(shuffled, [])
  {
    selected := [];
    var i := 0;
    while i < |shuffled|
      invariant 0 <= i <= |shuffled|
      invariant |selected| < MixSize
      invariant Pick(shuffled[i..], selected) == Pick(shuffled, [])
    {
      var before := selected;
      assert shuffled[i..][0] == shuffled[i] && shuffled[i..][1..] == shuffled[i + 1..];
      if !HasId(selected, shuffled[i].id) {
        selected := selected + [shuffled[i]];
      }
      if |selected| >= MixSize {
        assert selected == Pick(shuffled[i..], before);
        break;
      }
      i := i + 1;
    }
    if |selected| < MixSize {
      assert shuffled[i..] == [];
    }
  }
}
