/** Voice commands: a recognised phrase is lower-cased and matched by
    substring against three intents in a fixed priority order. */
module VoiceControl {
  import opened Common
  import opened PlayerStore
  import opened MixerStore
  import opened MixCommand

  /** What a phrase asks for, in priority order. */
  datatype Intent = StartPlayback | StopPlayback | ClearMix | NoIntent

  /** The first rule whose words occur in the lower-cased phrase. */
  function IntentOf(command: string): (i: Intent)
    ensures var lower := Lower(command);
      (i == StartPlayback <==> Contains(lower, "play") || Contains(lower, "start"))
      && (i == StopPlayback <==>
            !(Contains(lower, "play") || Contains(lower, "start"))
            && (Contains(lower, "stop") || Contains(lower, "pause")))
      && (i == ClearMix <==>
            !(Contains(lower, "play") || Contains(lower, "start") || Contains(lower, "stop") || Contains(lower, "pause"))
            && (Contains(lower, "clear mix") || Contains(lower, "reset")))
  {
    var lower := Lower(command);
    if Contains(lower, "play") || Contains(lower, "start") then StartPlayback
    else if Contains(lower, "stop") || Contains(lower, "pause") then StopPlayback
    else if Contains(lower, "clear mix") || Contains(lower, "reset") then ClearMix
    else NoIntent
  }

  /** The widget's state. `live` holds, for every recogniser that was
      started and has not yet delivered a result or an error, the layer
      list its `onresult` handler closes over: each render builds a new
      recogniser and binds its own handlers to it, so the one started by a
      click reports to the handlers of the render that was current then. */
  datatype Voice = Voice(isListening: bool, transcript: string, player: PlayerState, mixer: MixerState,
                         live: seq<seq<MixerSound>>)

  /** `handleCommand` as bound in one render: start or stop playback, or
      remove every layer of `snapshot`, the list that render saw. Layers
      added since survive. */
  function HandleCommand(v: Voice, command: string, snapshot: seq<MixerSound>): (r: Voice)
    ensures r.isListening == v.isListening && r.transcript == v.transcript && r.live == v.live
    ensures IntentOf(command) == StartPlayback ==> r.player == SetIsPlaying(v.player, true) && r.mixer == v.mixer
    ensures IntentOf(command) == StopPlayback ==> r.player == SetIsPlaying(v.player, false) && r.mixer == v.mixer
    ensures IntentOf(command) == ClearMix ==>
      r.player == v.player
      && r.mixer.isOpen == v.mixer.isOpen && r.mixer.currentMood == v.mixer.currentMood
      && forall x :: x in r.mixer.activeSounds <==> x in v.mixer.activeSounds && !HasId(snapshot, x.track.id)
    ensures IntentOf(command) == NoIntent ==> r == v
  {
    match IntentOf(command)
    case StartPlayback => v.(player := SetIsPlaying(v.player, true))
    case StopPlayback => v.(player := SetIsPlaying(v.player, false))
    case ClearMix =>
      var m := RemoveEach(v.mixer, snapshot);
      forall x | x in v.mixer.activeSounds && !HasId(snapshot, x.track.id)
        ensures x in m.activeSounds
      {
        RemoveEachKeeps(v.mixer, snapshot, x);
      }
      v.(mixer := m)
    case NoIntent => v
  }

  /** When nothing changed since listening began, "clear mix" empties the
      mixer. */
  lemma ClearOfCurrentListEmpties(v: Voice, command: string)
    requires IntentOf(command) == ClearMix
    ensures HandleCommand(v, command, v.mixer.activeSounds).mixer.activeSounds == []
  {
    RemoveEachOfSelfEmpties(v.mixer);
  }

  /** Play wins over everything: "reset and play" plays and keeps the mix. */
  lemma PlayHasPriority(v: Voice)
    ensures HandleCommand(v, "Reset and PLAY", v.mixer.activeSounds).mixer == v.mixer
    ensures HandleCommand(v, "Reset and PLAY", v.mixer.activeSounds).player.isPlaying
  {
    SaysPlay("Reset and PLAY", 10);
  }

  /** Matching is by substring, so "display" counts as "play". */
  lemma SubstringMatches()
    ensures IntentOf("display the mix") == StartPlayback
  {
    SaysPlay("display the mix", 3);
  }

  /** "play" at position `p` in any letter case. */
  lemma SaysPlay(command: string, p: nat)
    requires p + 4 <= |command|
    requires LowerChar(command[p]) == 'p' && LowerChar(command[p + 1]) == 'l'
    requires LowerChar(command[p + 2]) == 'a' && LowerChar(command[p + 3]) == 'y'
    ensures Contains(Lower(command), "play")
  {
    OccursFour(Lower(command), "play", p);
  }

  /** Four matching characters at `p` are an occurrence. */
  lemma OccursFour(s: string, u: string, p: nat)
    requires |u| == 4 && p + 4 <= |s|
    requires s[p] == u[0] && s[p + 1] == u[1] && s[p + 2] == u[2] && s[p + 3] == u[3]
    ensures Contains(s, u)
  {
    var w := s[p..p + 4];
    SameFour(w, u);
    assert OccursAt(s, u, p);
  }

  lemma SameFour(w: string, u: string)
    requires |w| == 4 && |u| == 4
    requires w[0] == u[0] && w[1] == u[1] && w[2] == u[2] && w[3] == u[3]
    ensures w == u
  {
  }

  /** A phrase with none of the words leaves everything as it was. */
  lemma OtherPhrasesDoNothing(v: Voice)
    ensures HandleCommand(v, "hello", v.mixer.activeSounds) == v
  {
    assert Lower("hello") == "hello";
    FirstLetterAbsent("hello", "play");
    FirstLetterAbsent("hello", "start");
    FirstLetterAbsent("hello", "stop");
    FirstLetterAbsent("hello", "pause");
    FirstLetterAbsent("hello", "clear mix");
    FirstLetterAbsent("hello", "reset");
  }

  /** A pattern whose first letter the text lacks does not occur in it. */
  lemma FirstLetterAbsent(s: string, pat: string)
    requires |pat| > 0 && pat[0] !in s
    ensures !Contains(s, pat)
  {
    forall p | 0 <= p <= |s| - |pat| ensures !OccursAt(s, pat, p) {
      var w := s[p..p + |pat|];
      assert w[0] == s[p];
    }
  }

  /** `toggleListening`. Without a recogniser it only alerts. Starting
      starts the current render's recogniser, whose handler sees the layers
      of that render, and shows "Listening...". Stopping calls `stop` on
      the recogniser of the render current at the second click, which is a
      fresh one that was never started: the started one stays live. */
  function ToggleListening(v: Voice, hasRecognizer: bool): (r: Voice)
    ensures !hasRecognizer ==> r == v
    ensures hasRecognizer ==> r.isListening == !v.isListening
    ensures hasRecognizer && !v.isListening ==>
      r.transcript == "Listening..." && r.live == v.live + [v.mixer.activeSounds]
    ensures hasRecognizer && v.isListening ==> r.transcript == v.transcript && r.live == v.live
    ensures r.player == v.player && r.mixer == v.mixer
  {
    if !hasRecognizer then v
    else if v.isListening then v.(isListening := false)
    else v.(isListening := true, transcript := "Listening...", live := v.live + [v.mixer.activeSounds])
  }

  /** The live recognisers other than the `i`-th, in order. */
  function Finish(live: seq<seq<MixerSound>>, i: nat): (r: seq<seq<MixerSound>>)
    requires i < |live|
    ensures |r| == |live| - 1
    ensures forall k :: 0 <= k < i ==> r[k] == live[k]
    ensures forall k :: i <= k < |r| ==> r[k] == live[k + 1]
  {
    live[..i] + live[i + 1..]
  }

  /** A result from the `i`-th live recogniser: the phrase is shown in
      quotes, handled against that recogniser's layer list, and listening
      ends; the recogniser, not continuous, is done. */
  function OnResult(v: Voice, text: string, i: nat): (r: Voice)
    requires i < |v.live|
    ensures !r.isListening && r.transcript == "\"" + text + "\""
    ensures r.player == HandleCommand(v, text, v.live[i]).player
    ensures r.mixer == HandleCommand(v, text, v.live[i]).mixer
    ensures |r.live| == |v.live| - 1
  {
    HandleCommand(v, text, v.live[i]).(isListening := false, transcript := "\"" + text + "\"",
                                       live := Finish(v.live, i))
  }

  /** A recognition error from the `i`-th live recogniser ends listening
      with a message and ends that recogniser. */
  function OnError(v: Voice, i: nat): (r: Voice)
    requires i < |v.live|
    ensures !r.isListening && r.transcript == "Error listening."
    ensures r.player == v.player && r.mixer == v.mixer
    ensures |r.live| == |v.live| - 1
  {
    v.(isListening := false, transcript := "Error listening.", live := Finish(v.live, i))
  }

  /** A layer clicked in while listening survives a clearing phrase: only
      the layers present when the microphone was clicked are removed. */
  lemma LayerAddedWhileListeningSurvives(v: Voice, t: Track, phrase: string)
    requires !v.isListening && !HasId(v.mixer.activeSounds, t.id)
    requires IntentOf(phrase) == ClearMix
    ensures var a := ToggleListening(v, true);
      var b := a.(mixer := AddSound(a.mixer, t));
      forall x :: x in OnResult(b, phrase, |v.live|).mixer.activeSounds <==> x == MixerSound(t, DefaultVolume)
  {
    var a := ToggleListening(v, true);
    var b := a.(mixer := AddSound(a.mixer, t));
    var snapshot := v.mixer.activeSounds;
    assert b.live[|v.live|] == snapshot;
    assert b.mixer.activeSounds == snapshot + [MixerSound(t, DefaultVolume)];
  }

  /** Stopping does not stop the started recogniser: after a start and a
      stop it is still live, and its result is still handled. */
  lemma StopLeavesRecognizerLive(v: Voice)
    requires !v.isListening
    ensures var a := ToggleListening(ToggleListening(v, true), true);
      !a.isListening && a.live == v.live + [v.mixer.activeSounds]
  {
  }

  /** Toggling twice with a recogniser restores the listening flag. */
  lemma ToggleTwice(v: Voice)
    ensures ToggleListening(ToggleListening(v, true), true).isListening == v.isListening
  {
  }
}
