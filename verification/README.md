# Aura: a Dafny model of the audio-control core

Aura is a sound-wellness application in two parts:

- `aura-ai` is a Next.js front end. Two zustand stores hold the single-track player and the multi-layer mixer. Components change those stores: the sound cards, the mixer, the mood-based mix appliers, the voice and chat commands, and the XY blend pad. A few self-contained audio widgets sit beside them: a sleep timer, a breathing guide, a binaural beat generator, a spectrum visualizer, and a backend health badge.
- `aura-ml` is a FastAPI service. It holds the decision rules wrapped around the ML models: the API-key gate, mix selection, similar sounds, the recommender, and the post-processing of the classifiers and analyzers.

This project models that logic as immutable Dafny datatypes and pure transition functions, one module per source file:

| module | file | source |
|---|---|---|
| `Common` | common.dfy | shared options, bytes, ASCII lower-casing, substring search, JavaScript `trim`, decimal text |
| `PlayerStore` | player_store.dfy | aura-ai/src/store/playerStore.ts |
| `MixerStore` | mixer_store.dfy | aura-ai/src/store/mixerStore.ts |
| `MixCommand` | mix_command.dfy | shared by the mix appliers: clear, add a mix, the deferred 100 ms volume queue |
| `MixGenerator` | mix_generator.dfy | sound-mixer/MixGenerator.tsx |
| `SoundMixer` | sound_mixer.dfy | sound-mixer/SoundMixer.tsx |
| `SmartMixPad` | smart_mix_pad.dfy | sound-mixer/SmartMixPad.tsx |
| `MixerEngine` | mixer_engine.dfy | sound-mixer/MixerEngine.tsx |
| `SoundCard` | sound_card.dfy | sound-library/components/SoundCard.tsx |
| `FaceDJ` | face_dj.dfy | face-dj/FaceDJ.tsx |
| `VoiceControl` | voice_control.dfy | voice-control/VoiceControl.tsx |
| `ChatInterface` | chat_interface.dfy | ai-coach/ChatInterface.tsx |
| `AudioPlayer` | audio_player.dfy | audio-player/AudioPlayer.tsx |
| `AudioAnalyzer` | audio_analyzer.dfy | aura-ai/src/lib/audio/audioAnalyzer.ts |
| `Visualizer` | visualizer.dfy | audio-player/Visualizer.tsx |
| `SleepTimer` | sleep_timer.dfy | audio-player/SleepTimer.tsx |
| `BreathCircle` | breath_circle.dfy | breathwork/BreathCircle.tsx |
| `Binaural` | binaural.dfy | binaural-beats/BinauralBeatGenerator.tsx |
| `SystemHealth` | system_health.dfy | system/SystemHealth.tsx |
| `MlMain` | ml_main.dfy | aura-ml/main.py |
| `Recommender` | recommender.dfy | aura-ml/services/recommendation_engine.py |
| `AudioClassifier` | audio_classifier.dfy | aura-ml/services/audio_classifier.py |
| `EmotionClassifier` | emotion_classifier.dfy | aura-ml/services/emotion_classifier.py |
| `Sentiment` | sentiment.dfy | aura-ml/services/sentiment_analyzer.py |
| `AudioProcessor` | audio_processor.dfy | aura-ml/services/audio_processor.py |
| `CustomCnn` | custom_cnn.dfy | aura-ml/services/custom_cnn.py |

Component paths in this table are relative to `aura-ai/src/components/features/`.

How the model is built:

- Browser and runtime effects become explicit events and queues. A `setTimeout` is a deferred update flushed after the adds. An interval is a numbered handle that fires as a tick. A media element is the list of commands it was given.
- Whatever the code cannot decide itself is a parameter: network answers, database rows, random draws, `JSON.parse` results, and ML model outputs.
- Volumes, frequencies and scores are `real`.

The model follows the code wherever the documented behaviour says otherwise:

- Neither store clamps volumes. `setVolume` and `updateVolume` store the value exactly as given, and only the XY pad clamps, the cursor position rather than the volume.
- The player store does not tie `isPlaying` to the current track, so playing without a track is reachable.
- On the empty-embedding path, `find_similar` does not filter out the source sound itself.
- Voice control builds a new recogniser on every render. The one a click starts reports to the handlers of that render, so "clear mix" removes the layers listed then, and a layer added while listening survives. A second click calls `stop` on a fresh recogniser that was never started, so the started one stays live.
- Face DJ has the same stale list. `capture` closes over the layers of the render that created it and removes their ids only after the analysis answers, so a layer another writer adds during the request survives, and a returned mix lands after it.

## Model

| member | source | states |
|---|---|---|
| Common.Lower | aura-ai/src/components/features/voice-control/VoiceControl.tsx:30 | lower-casing keeps the length and maps each character on its own |
| Common.IndexOfFrom | aura-ai/src/components/features/ai-coach/ChatInterface.tsx:67-68 | the first position at or after the start where the pattern occurs, and none exactly when it occurs nowhere there |
| Common.ContainsIffIndexOf | aura-ai/src/components/features/voice-control/VoiceControl.tsx:33 | a text contains a pattern exactly when a first occurrence exists |
| Common.Trim | aura-ai/src/components/features/ai-coach/ChatInterface.tsx:38 | the text with only leading and trailing white space removed, starting and ending with a non-space character |
| Common.TrimEmptyIffBlank | aura-ai/src/components/features/ai-coach/ChatInterface.tsx:38 | a text trims to "" exactly when it is all white space |
| Common.NatToString | aura-ai/src/components/features/audio-player/SleepTimer.tsx:53 | the decimal text of a number is non-empty digits without a leading zero |
| Common.ParseNatToString | aura-ai/src/components/features/audio-player/SleepTimer.tsx:53 | the decimal text reads back as the number |
| PlayerStore.InitialState | aura-ai/src/store/playerStore.ts:41-46 | the store starts silent, unmuted, out of zen mode, at volume 0.5 and with no focused track |
| PlayerStore.SetIsPlaying | aura-ai/src/store/playerStore.ts:48 | only the playing flag changes, to the given value |
| PlayerStore.SetVolume | aura-ai/src/store/playerStore.ts:49 | the volume is stored as given and mute is always cleared; the other fields are kept |
| PlayerStore.SetTrack | aura-ai/src/store/playerStore.ts:50 | the track becomes the focused one and playback starts; mute, volume and zen mode are kept |
| PlayerStore.TogglePlay | aura-ai/src/store/playerStore.ts:51 | only the playing flag flips |
| PlayerStore.ToggleMute | aura-ai/src/store/playerStore.ts:52 | only the mute flag flips |
| PlayerStore.ToggleZenMode | aura-ai/src/store/playerStore.ts:53 | only the zen-mode flag flips |
| PlayerStore.TogglesAreInvolutions | aura-ai/src/store/playerStore.ts:51-53 | each toggle applied twice restores the state |
| PlayerStore.PlayingWithoutTrackIsReachable | aura-ai/src/store/playerStore.ts:42-48 | playing with no focused track is reachable from the initial store |
| PlayerStore.SetVolumeDoesNotClamp | aura-ai/src/store/playerStore.ts:49 | volumes outside [0, 1] are stored unchanged |
| MixerStore.InitialState | aura-ai/src/store/mixerStore.ts:37-40 | the mixer starts with no layers, closed and without a mood, so its ids are unique |
| MixerStore.FindFrom | aura-ai/src/store/mixerStore.ts:44 | the search returns the first position carrying the id, or none when no position does |
| MixerStore.AddSound | aura-ai/src/store/mixerStore.ts:42-46 | a present id leaves the state unchanged; otherwise the track is appended at volume 0.7; the id is present afterwards and unique ids stay unique |
| MixerStore.Without | aura-ai/src/store/mixerStore.ts:48-50 | the survivors are exactly the channels without the id; an absent id changes nothing; unique ids stay unique |
| MixerStore.RemoveSound | aura-ai/src/store/mixerStore.ts:48-50 | no channel with the id remains, every other channel does, and panel and mood are kept |
| MixerStore.WithVolume | aura-ai/src/store/mixerStore.ts:53-55 | every channel keeps its track; channels with the id get the new volume and all others keep theirs |
| MixerStore.UpdateVolume | aura-ai/src/store/mixerStore.ts:52-56 | the same per channel, with the volume written unclamped and unique ids kept |
| MixerStore.ToggleMixer | aura-ai/src/store/mixerStore.ts:58 | only the panel flag flips |
| MixerStore.SetMixerOpen | aura-ai/src/store/mixerStore.ts:59 | only the panel flag changes, to the given value |
| MixerStore.SetMood | aura-ai/src/store/mixerStore.ts:60 | only the mood changes |
| MixerStore.StopAll | aura-ai/src/store/mixerStore.ts:62-63 | layers and mood are cleared and the panel flag is kept |
| MixerStore.AddSoundIdempotent | aura-ai/src/store/mixerStore.ts:43-45 | adding a track twice equals adding it once, and with unique ids exactly one channel carries its id |
| MixerStore.RemoveKeepsOrder | aura-ai/src/store/mixerStore.ts:48-50 | with unique ids, removing the channel at position k leaves the others in their original order |
| MixerStore.WithoutAppend | aura-ai/src/store/mixerStore.ts:49 | filtering a concatenation filters each part |
| MixerStore.UpdateVolumeAt | aura-ai/src/store/mixerStore.ts:52-56 | with unique ids, updating one channel's id rewrites exactly that channel's volume |
| MixerStore.ActionsPreserveUniqueIds | aura-ai/src/store/mixerStore.ts:42-63 | no sequence of store actions creates two channels with one id |
| MixerStore.AddUpdateRemoveScenario | aura-ai/src/store/mixerStore.ts:42-50 | adding a layer, turning it down and removing it leaves the mixer empty |
| MixCommand.RemoveEach | aura-ai/src/components/features/sound-mixer/MixGenerator.tsx:27 | no surviving channel carries an id of the snapshot, every survivor was there before, and panel and mood are kept |
| MixCommand.RemoveEachOfSelfEmpties | aura-ai/src/components/features/sound-mixer/MixGenerator.tsx:27 | removing every sound of the current list empties the mixer and keeps mood and panel |
| MixCommand.AddEach | aura-ai/src/components/features/sound-mixer/MixGenerator.tsx:40-47 | adding the returned tracks only appends to the layer list and keeps panel and mood |
| MixCommand.AddEachCovers | aura-ai/src/components/features/sound-mixer/MixGenerator.tsx:40-47 | every returned id has a layer afterwards |
| MixCommand.AddEachFromMix | aura-ai/src/components/features/sound-mixer/MixGenerator.tsx:41-46 | every new layer is a returned track under the category label at volume 0.7 |
| MixCommand.AddEachKeepsUnique | aura-ai/src/components/features/sound-mixer/MixGenerator.tsx:40-47 | the adds never create two channels with one id |
| MixCommand.AddEachFresh | aura-ai/src/components/features/sound-mixer/MixGenerator.tsx:40-47 | fresh, pairwise distinct tracks are appended one layer each, in response order |
| MixCommand.Flush | aura-ai/src/components/features/sound-mixer/MixGenerator.tsx:48 | the queued updates keep every channel's track, and each channel ends at the last volume queued for its id or its own |
| MixCommand.LastQueuedUnique | aura-ai/src/components/features/sound-mixer/MixGenerator.tsx:48 | an id queued exactly once ends at that volume |
| MixCommand.LastQueuedAbsent | aura-ai/src/components/features/sound-mixer/MixGenerator.tsx:48 | an id never queued keeps its volume |
| MixCommand.QueueOf | aura-ai/src/components/features/sound-mixer/MixGenerator.tsx:48 | one deferred update per returned track, with its id and volume, in response order |
| MixCommand.FlushReturnedVolumes | aura-ai/src/components/features/sound-mixer/MixGenerator.tsx:40-49 | after the flush every new layer has its returned volume and every earlier layer is unchanged |
| MixCommand.ApplyMix | aura-ai/src/components/features/sound-mixer/MixGenerator.tsx:40-49 | adding and then flushing appends exactly the returned tracks, in order, at their returned volumes |
| MixGenerator.Begin | aura-ai/src/components/features/sound-mixer/MixGenerator.tsx:19-27 | while a scenario loads a click does nothing; otherwise the scenario loads, the player pauses and the mixer is emptied with its mood and panel kept |
| MixGenerator.Complete | aura-ai/src/components/features/sound-mixer/MixGenerator.tsx:36-56 | a body with a mix adds its tracks and queues their volumes; any failure adds nothing and raises one alert; loading always ends |
| MixGenerator.Generate | aura-ai/src/components/features/sound-mixer/MixGenerator.tsx:19-57 | a click ends with nothing loading and the player paused |
| MixGenerator.GenerateReplacesMix | aura-ai/src/components/features/sound-mixer/MixGenerator.tsx:19-57 | a successful mix with distinct ids leaves exactly the returned tracks, in order, at their returned volumes |
| MixGenerator.FailureKeepsTheClear | aura-ai/src/components/features/sound-mixer/MixGenerator.tsx:24-27 | a failed request still leaves the mixer empty, the mood kept and one alert raised |
| SoundMixer.PickScenario | aura-ai/src/components/features/sound-mixer/SoundMixer.tsx:32-33 | the random index always picks one of the five scenarios |
| SoundMixer.HandleSurprise | aura-ai/src/components/features/sound-mixer/SoundMixer.tsx:29-60 | an array of tracks is added under "Surprise" after the existing layers with volumes queued; anything else, a throw included, changes nothing; generating always ends |
| SoundMixer.SurpriseAppends | aura-ai/src/components/features/sound-mixer/SoundMixer.tsx:43-54 | with fresh distinct ids the flushed mixer is the old list followed by the returned tracks at their returned volumes |
| SoundMixer.PadGuardsAgree | aura-ai/src/components/features/sound-mixer/SoundMixer.tsx:88-90 | the panel mounts the pad exactly when the pad renders itself, and never together with the empty state |
| SoundMixer.DeleteRow | aura-ai/src/components/features/sound-mixer/SoundMixer.tsx:118 | the row's id is gone, and with unique ids the other rows stay in order |
| SoundMixer.SlideRow | aura-ai/src/components/features/sound-mixer/SoundMixer.tsx:132 | with unique ids exactly the moved row gets the new volume |
| SmartMixPad.Clamp01 | aura-ai/src/components/features/sound-mixer/SmartMixPad.tsx:25-26 | the result lies in [0, 1], equals values already inside, and is the nearest edge otherwise |
| SmartMixPad.WeightsAreConvex | aura-ai/src/components/features/sound-mixer/SmartMixPad.tsx:30-34 | inside the unit square every bilinear weight lies in [0, 1] and the four add up to 1 |
| SmartMixPad.WeightInUnit | aura-ai/src/components/features/sound-mixer/SmartMixPad.tsx:31-34 | one corner's weight lies in [0, 1] |
| SmartMixPad.WeightsAddUp | aura-ai/src/components/features/sound-mixer/SmartMixPad.tsx:31-34 | the four weights add up to 1 for any position |
| SmartMixPad.CentreIsEvenBlend | aura-ai/src/components/features/sound-mixer/SmartMixPad.tsx:15 | the starting position gives every corner a quarter |
| SmartMixPad.Mixable | aura-ai/src/components/features/sound-mixer/SmartMixPad.tsx:19 | the pad addresses the first four layers, or all when there are fewer |
| SmartMixPad.PadQueue | aura-ai/src/components/features/sound-mixer/SmartMixPad.tsx:31-34 | one update per present corner, in corner order, with that corner's layer id and weight |
| SmartMixPad.HandleMove | aura-ai/src/components/features/sound-mixer/SmartMixPad.tsx:21-35 | an unrendered pad changes nothing; otherwise the position is clamped, tracks and length are kept, and with unique ids each corner layer gets its weight while the others keep their volumes |
| SmartMixPad.PadVolumes | aura-ai/src/components/features/sound-mixer/SmartMixPad.tsx:31-34 | with unique ids the corner layers end at their weights and the other layers keep their volumes |
| SmartMixPad.FourCornersShareUnitVolume | aura-ai/src/components/features/sound-mixer/SmartMixPad.tsx:25-34 | with four or more unique layers, a move spreads a total volume of exactly 1 over the corners, each share in [0, 1] |
| SmartMixPad.OutsideActsAsEdge | aura-ai/src/components/features/sound-mixer/SmartMixPad.tsx:25-26 | a cursor outside the pad acts as the nearest edge |
| SoundCard.HandleClick | aura-ai/src/components/features/sound-library/components/SoundCard.tsx:83-109 | on the focused card only playback toggles; on another card the mix stops and the track is focused and played; a "play" row is logged exactly for a signed-in user |
| SoundCard.LoggingNeverChangesState | aura-ai/src/components/features/sound-library/components/SoundCard.tsx:91-107 | what the session lookup and the log do never changes the stores |
| SoundCard.ClickFocusesTheCard | aura-ai/src/components/features/sound-library/components/SoundCard.tsx:84-92 | after a click on another card that card is active and the mixer is empty with no mood |
| SoundCard.ClickTwiceOnCurrent | aura-ai/src/components/features/sound-library/components/SoundCard.tsx:84-88 | a click on the focused card flips whether it is active, and a second click restores the player |
| SoundCard.LayerClick | aura-ai/src/components/features/sound-library/components/SoundCard.tsx:146 | the layer button adds the track to the mixer and leaves the player alone |
| SoundCard.LoadWaveform | aura-ai/src/components/features/sound-library/components/SoundCard.tsx:56-81 | a cached locator is shown with no request; otherwise the answer's waveform, or an empty one, is cached and shown, and a failed request caches nothing |
| SoundCard.CacheServesLaterMounts | aura-ai/src/components/features/sound-library/components/SoundCard.tsx:59-63 | after one answered request every later mount for the locator is served from the cache unchanged |
| FaceDJ.Staggered | aura-ai/src/components/features/face-dj/FaceDJ.tsx:44-52 | every track keeps its id, title and locator; the first gets 0.8 and every other 0.4 |
| FaceDJ.Capture | aura-ai/src/components/features/face-dj/FaceDJ.tsx:24-70 | without a webcam or a screenshot nothing happens; a failed request only ends scanning; an answer without a mix removes exactly the layers whose ids were in the list the callback captured, judged against the mixer as it is when the answer arrives, and keeps everything else; an answer with a mix keeps those survivors in front, sets the mood, opens the panel, pauses the player, closes the dialog and queues the staggered volumes |
| FaceDJ.Clear | aura-ai/src/components/features/face-dj/FaceDJ.tsx:40 | a layer survives exactly when it is in the mixer now and no layer of the captured list has its id; panel and mood are kept |
| FaceDJ.ClearOfCurrentListEmpties | aura-ai/src/components/features/face-dj/FaceDJ.tsx:40 | when the mixer is still the captured list, the clear empties it |
| FaceDJ.Refill | aura-ai/src/components/features/face-dj/FaceDJ.tsx:42-55 | the mood is the emotion, the panel is open, and the adds only append |
| FaceDJ.RefillLands | aura-ai/src/components/features/face-dj/FaceDJ.tsx:42-53 | refilling a mixer that has none of the mix's ids and running the staggered updates leaves its layers first, then the mix's tracks in order under "Face: <emotion>", the first at 0.8 and the rest at 0.4 |
| FaceDJ.StaggeredLands | aura-ai/src/components/features/face-dj/FaceDJ.tsx:44-52 | the layers the updates leave are read position by position as the mix's tracks at 0.8, then 0.4 |
| FaceDJ.CaptureLayersMix | aura-ai/src/components/features/face-dj/FaceDJ.tsx:40-55 | after the deferred updates, a mix with distinct ids new to the surviving layers follows those survivors: its tracks in order, under "Face: <emotion>", the first at 0.8 and the rest at 0.4 |
| FaceDJ.CaptureOfCurrentListLayersMix | aura-ai/src/components/features/face-dj/FaceDJ.tsx:40-55 | when nothing changed the mixer during the request, the mixer becomes exactly the mix's tracks |
| FaceDJ.LayerAddedDuringRequestSurvives | aura-ai/src/components/features/face-dj/FaceDJ.tsx:24-40 | a layer another writer adds while the request is in flight is the only one left after an answer without a mix |
| FaceDJ.LayerAddedDuringRequestLeadsTheMix | aura-ai/src/components/features/face-dj/FaceDJ.tsx:24-55 | with a mix, that layer is the only survivor and the mix lands after it |
| FaceDJ.OnlySurvivor | aura-ai/src/components/features/face-dj/FaceDJ.tsx:40 | clearing the captured list after one fresh layer was added leaves exactly that layer |
| VoiceControl.IntentOf | aura-ai/src/components/features/voice-control/VoiceControl.tsx:29-43 | play or start wins; otherwise stop or pause; otherwise "clear mix" or reset; each case holds exactly when its words occur in the lower-cased phrase and no earlier rule's do |
| VoiceControl.HandleCommand | aura-ai/src/components/features/voice-control/VoiceControl.tsx:29-43 | start and stop set the playing flag and keep the mixer; clearing keeps a layer exactly when the handler's own layer list has no layer with its id, with panel and mood kept; any other phrase changes nothing |
| VoiceControl.ClearOfCurrentListEmpties | aura-ai/src/components/features/voice-control/VoiceControl.tsx:40-41 | when the layer list has not changed since listening began, a clearing phrase empties the mixer |
| VoiceControl.PlayHasPriority | aura-ai/src/components/features/voice-control/VoiceControl.tsx:33-42 | "Reset and PLAY" plays and keeps the mix |
| VoiceControl.SubstringMatches | aura-ai/src/components/features/voice-control/VoiceControl.tsx:33 | matching is by substring, so "display the mix" counts as play |
| VoiceControl.SaysPlay | aura-ai/src/components/features/voice-control/VoiceControl.tsx:30-33 | "play" in any letter case at any position is found after lower-casing |
| VoiceControl.OtherPhrasesDoNothing | aura-ai/src/components/features/voice-control/VoiceControl.tsx:29-43 | a phrase with none of the words changes nothing |
| VoiceControl.ToggleListening | aura-ai/src/components/features/voice-control/VoiceControl.tsx:45-59 | without a recogniser nothing changes; otherwise listening flips; starting shows "Listening..." and adds a live recogniser bound to the current layer list; stopping leaves every started recogniser live |
| VoiceControl.OnResult | aura-ai/src/components/features/voice-control/VoiceControl.tsx:61-69 | a result from a live recogniser is shown in quotes and handled against that recogniser's layer list; listening ends and that recogniser is done |
| VoiceControl.OnError | aura-ai/src/components/features/voice-control/VoiceControl.tsx:71-75 | an error from a live recogniser ends listening with the error text, leaves player and mixer alone, and ends that recogniser |
| VoiceControl.LayerAddedWhileListeningSurvives | aura-ai/src/components/features/voice-control/VoiceControl.tsx:20-69 | start listening, add a new layer, then say a clearing phrase: exactly the new layer remains |
| VoiceControl.StopLeavesRecognizerLive | aura-ai/src/components/features/voice-control/VoiceControl.tsx:20-58 | after a start and a stop the started recogniser is still live, with the layer list of the start |
| VoiceControl.ToggleTwice | aura-ai/src/components/features/voice-control/VoiceControl.tsx:51-58 | with a recogniser two toggles restore the listening flag |
| MixCommand.RemoveEachKeeps | aura-ai/src/components/features/voice-control/VoiceControl.tsx:41 | a layer whose id the snapshot lacks survives removing each snapshot layer |
| ChatInterface.FindBlock | aura-ai/src/components/features/ai-coach/ChatInterface.tsx:67-68 | a found block is a match of the lazy pattern, opener compared without case and the body ending at the first closer; no earlier start can match; none is found only when no start can match |
| ChatInterface.ReplaceFirst | aura-ai/src/components/features/ai-coach/ChatInterface.tsx:71 | replacing a text that does not occur changes nothing |
| ChatInterface.ReplaceRemovesMatch | aura-ai/src/components/features/ai-coach/ChatInterface.tsx:67-71 | replacing the matched block's text removes the block itself, since no earlier copy of it can exist |
| ChatInterface.CopyCanMatch | aura-ai/src/components/features/ai-coach/ChatInterface.tsx:67 | a copy of a match's text elsewhere is a place where the pattern can match |
| ChatInterface.Extract | aura-ai/src/components/features/ai-coach/ChatInterface.tsx:63-77 | with neither block the reply is shown unchanged and carries no command; a body is never longer than the reply |
| ChatInterface.HiddenBlockWins | aura-ai/src/components/features/ai-coach/ChatInterface.tsx:67-73 | with a hidden block its body is the command and the shown text is the reply without the block, trimmed; a fenced block is ignored |
| ChatInterface.FenceBlockFallback | aura-ai/src/components/features/ai-coach/ChatInterface.tsx:68-77 | without a hidden block a fenced block is used the same way |
| ChatInterface.UpperCaseOpenerMatches | aura-ai/src/components/features/ai-coach/ChatInterface.tsx:67 | the opener matches in upper and mixed case |
| ChatInterface.FirstEntry | aura-ai/src/components/features/ai-coach/ChatInterface.tsx:91 | a found entry is in the list with the id; none is found only when no entry has it |
| ChatInterface.Resolve | aura-ai/src/components/features/ai-coach/ChatInterface.tsx:84-87 | the rows kept are exactly the catalog rows some entry names |
| ChatInterface.AddResolved | aura-ai/src/components/features/ai-coach/ChatInterface.tsx:90-96 | the adds only append, and every queued update carries the truthy volume of its id's first entry; `AddResolvedQueuesEach` and `AddResolvedThenFlush` state the converse |
| ChatInterface.Requested | aura-ai/src/components/features/ai-coach/ChatInterface.tsx:91-93 | a volume is requested exactly when the id's first entry has a truthy volume, and it is that volume |
| ChatInterface.AddResolvedQueuesEach | aura-ai/src/components/features/ai-coach/ChatInterface.tsx:90-96 | every resolved track whose first entry has a truthy volume has that volume queued |
| ChatInterface.Queued | aura-ai/src/components/features/ai-coach/ChatInterface.tsx:90-96 | at most one queued change per track, each for an id among the tracks |
| ChatInterface.AddResolvedPendingIsQueued | aura-ai/src/components/features/ai-coach/ChatInterface.tsx:90-96 | the queue is exactly one change per track with a truthy requested volume, in track order, whatever the mixer already held |
| ChatInterface.PendingSkips | aura-ai/src/components/features/ai-coach/ChatInterface.tsx:93-94 | an id that no resolved track carries is never queued |
| ChatInterface.PendingLands | aura-ai/src/components/features/ai-coach/ChatInterface.tsx:90-96 | with distinct ids, running the queue leaves each track's channel at its requested volume, or at the volume it had when none is requested |
| ChatInterface.AddResolvedFresh | aura-ai/src/components/features/ai-coach/ChatInterface.tsx:90-92 | fresh tracks with distinct ids are appended one layer each, in order |
| ChatInterface.AddResolvedThenFlush | aura-ai/src/components/features/ai-coach/ChatInterface.tsx:89-96 | after the adds and the 100 ms updates, the mixer is the earlier layers followed by one layer per track, in order, at its requested volume or 0.7 |
| ChatInterface.AddResolvedLayers | aura-ai/src/components/features/ai-coach/ChatInterface.tsx:92 | every new layer is a resolved track as "AI Mix" at volume 0.7 |
| ChatInterface.AddResolvedCovers | aura-ai/src/components/features/ai-coach/ChatInterface.tsx:90-92 | every resolved track has a layer afterwards |
| ChatInterface.AddResolvedKeepsUnique | aura-ai/src/components/features/ai-coach/ChatInterface.tsx:90-92 | the adds never create two channels with one id |
| ChatInterface.TextToSend | aura-ai/src/components/features/ai-coach/ChatInterface.tsx:37 | the text is the override when it is a non-empty string, else the input |
| ChatInterface.ApplyCommand | aura-ai/src/components/features/ai-coach/ChatInterface.tsx:81-97 | no command changes nothing; a command opens the panel; failure happens exactly when the mix is not an array; new layers are named catalog rows and every named row gets a layer; queued volumes are exactly first-entry truthy volumes, each named row's one queued; without a mix array and catalog rows no layer is added |
| ChatInterface.ResolveDistinct | aura-ai/src/components/features/ai-coach/ChatInterface.tsx:84-87 | the rows a query on a table keyed by id returns keep distinct ids |
| ChatInterface.ApplyCommandLands | aura-ai/src/components/features/ai-coach/ChatInterface.tsx:81-97 | once the queued changes have run, the mixer is the earlier layers followed by the named catalog rows in catalog order, each at its requested volume or 0.7 |
| ChatInterface.HandleSend | aura-ai/src/components/features/ai-coach/ChatInterface.tsx:36-109 | a blank text or a pending reply changes nothing; otherwise the input clears, the user's message and the answer are appended, and loading ends |
| ChatInterface.Answer | aura-ai/src/components/features/ai-coach/ChatInterface.tsx:55-105 | an unreachable or empty reply says only the fallback; otherwise the cleaned text is said, followed by the fallback when applying the command failed; the adds only append |
| ChatInterface.NoCommandNoChange | aura-ai/src/components/features/ai-coach/ChatInterface.tsx:79-81 | a reply whose block does not decode to a command leaves the mixer as it was and queues nothing |
| ChatInterface.SendAlwaysAnswers | aura-ai/src/components/features/ai-coach/ChatInterface.tsx:38-107 | a send that goes through ends with the user's message followed by a coach message, and not loading |
| AudioPlayer.EffectiveVolume | aura-ai/src/components/features/audio-player/AudioPlayer.tsx:50 | the element is silent while muted and at the store volume otherwise |
| AudioPlayer.VolumeAndMute | aura-ai/src/store/playerStore.ts:49-52 | setting a volume makes it audible at exactly that level, and muting silences it at any level |
| AudioPlayer.NextSrc | aura-ai/src/components/features/audio-player/AudioPlayer.tsx:59-61 | a track with a locator leaves the element holding that locator; without one the source is kept |
| AudioPlayer.NextSrcIdempotent | aura-ai/src/components/features/audio-player/AudioPlayer.tsx:59-61 | running the source effect twice equals running it once |
| AudioPlayer.Effects | aura-ai/src/components/features/audio-player/AudioPlayer.tsx:16-72 | the analyzer is set up first, and exactly on the first mount |
| AudioPlayer.PlaybackEffects | aura-ai/src/components/features/audio-player/AudioPlayer.tsx:24-72 | pause is issued exactly when playback stopped, resume exactly when it started, play only while playing and always when a track starts or playback resumes |
| AudioPlayer.InParts | aura-ai/src/components/features/audio-player/AudioPlayer.tsx:16-72 | a command is issued exactly when one of the five effects issues it |
| AudioPlayer.VolumeEffects | aura-ai/src/components/features/audio-player/AudioPlayer.tsx:48-52 | the element volume is set exactly when volume or mute changed, and always to the audible level |
| AudioPlayer.SourceEffects | aura-ai/src/components/features/audio-player/AudioPlayer.tsx:55-62 | a source is assigned only from the current track's non-empty locator, and only when it differs from the element's |
| AudioPlayer.OnSyncPlayRejected | aura-ai/src/components/features/audio-player/AudioPlayer.tsx:36-41 | an AbortError leaves the store alone; any other error stops playback |
| AudioPlayer.OnMediaEvent | aura-ai/src/components/features/audio-player/AudioPlayer.tsx:78-80 | the store plays exactly after a play event, and only the playing flag changes |
| AudioPlayer.PlaybackErrorPauses | aura-ai/src/components/features/audio-player/AudioPlayer.tsx:30-45 | after a non-abort error the next commit pauses rather than retries; after an abort nothing is issued |
| AudioAnalyzer.Init | aura-ai/src/lib/audio/audioAnalyzer.ts:13-35 | with a source already bound or no element nothing changes; a full set-up binds the source, keeps the new context, and configures an analyser of FFT size 64 and smoothing 0.8 with a 32-byte buffer; a failing step keeps the fields assigned before it |
| AudioAnalyzer.FirstBindingWins | aura-ai/src/lib/audio/audioAnalyzer.ts:14 | once a call created the source every later call is a no-op |
| AudioAnalyzer.EarlyFailureCanRetry | aura-ai/src/lib/audio/audioAnalyzer.ts:14-34 | a failure before the source exists lets a later call bind and configure |
| AudioAnalyzer.BufferHoldsThirtyTwoBins | aura-ai/src/lib/audio/audioAnalyzer.ts:22-26 | a configured service holds a 32-byte buffer |
| AudioAnalyzer.Fill | aura-ai/src/lib/audio/audioAnalyzer.ts:39 | the spectrum overwrites the buffer's leading entries and the rest keep their values |
| AudioAnalyzer.GetFrequencyData | aura-ai/src/lib/audio/audioAnalyzer.ts:37-41 | without analyser or buffer the result is empty; otherwise the refreshed buffer is returned and kept, and a long enough spectrum fills it entirely |
| AudioAnalyzer.FramesFeedTheFirstTwentyBins | aura-ai/src/lib/audio/audioAnalyzer.ts:22-40 | once bound, each frame hands the visualizer 32 bins, its step is 1, and bar i shows bin i |
| AudioAnalyzer.ResumeRequested | aura-ai/src/lib/audio/audioAnalyzer.ts:43-47 | a resume is requested exactly when the context is suspended |
| AudioAnalyzer.Resume | aura-ai/src/lib/audio/audioAnalyzer.ts:43-47 | a requested resume makes the context running and otherwise nothing changes |
| AudioAnalyzer.ResumeIdempotent | aura-ai/src/lib/audio/audioAnalyzer.ts:43-47 | a second resume changes nothing and requests nothing, and a closed context is never resumed |
| Visualizer.StripFirstHash | aura-ai/src/components/features/audio-player/Visualizer.tsx:8 | only the first "#" is removed: a string without one is unchanged, one with a "#" is one shorter, and a leading "#" is cut off |
| Visualizer.Doubled | aura-ai/src/components/features/audio-player/Visualizer.tsx:11 | the result is twice as long and holds every character twice, in order |
| Visualizer.Expand | aura-ai/src/components/features/audio-player/Visualizer.tsx:10-12 | exactly three characters are doubled and any other length is kept as is |
| Visualizer.Substring | aura-ai/src/components/features/audio-player/Visualizer.tsx:14-16 | the slice is clamped at both ends to the string's length |
| Visualizer.HexPrefix | aura-ai/src/components/features/audio-player/Visualizer.tsx:14-16 | `parseInt` reads the longest leading run of hex digits and stops at the first non-digit |
| Visualizer.FromDigits | aura-ai/src/components/features/audio-player/Visualizer.tsx:14-22 | any pair that is NaN gives the amber fallback, otherwise the three parsed pairs |
| Visualizer.PairValue | aura-ai/src/components/features/audio-player/Visualizer.tsx:14 | two hex digits parse to 16 times the first plus the second |
| Visualizer.NoDigitIsNaN | aura-ai/src/components/features/audio-player/Visualizer.tsx:14-18 | a text starting with neither space, sign nor hex digit is NaN |
| Visualizer.ChannelValue | aura-ai/src/components/features/audio-player/Visualizer.tsx:14-16 | a channel over two hex digits is their pair value |
| Visualizer.ReadPairs | aura-ai/src/components/features/audio-player/Visualizer.tsx:7-22 | "#" and six hex digits give the three pair values |
| Visualizer.SixDigitRoundTrip | aura-ai/src/components/features/audio-player/Visualizer.tsx:7-22 | writing three bytes as "#rrggbb" and parsing reads back the same three bytes |
| Visualizer.ShorthandDoubles | aura-ai/src/components/features/audio-player/Visualizer.tsx:10-22 | "#xyz" gives each channel 17 times its digit |
| Visualizer.SecondHashFallsBack | aura-ai/src/components/features/audio-player/Visualizer.tsx:8-19 | `hexToRgba` given "##ffffff" keeps a "#" in the first pair and so answers amber (the component itself is stopped earlier by the canvas, which rejects that text as a colour) |
| Visualizer.ColourNameFallsBack | aura-ai/src/components/features/audio-player/Visualizer.tsx:8-19 | a colour name such as "red", which the canvas accepts, is read as the shorthand "rreedd" and falls back to amber |
| Visualizer.ThemeColor | aura-ai/src/components/features/audio-player/Visualizer.tsx:50 | the track's colour is used unless it is missing or empty, and then "#fbbf24" |
| Visualizer.DefaultThemeIsFallback | aura-ai/src/components/features/audio-player/Visualizer.tsx:7-54 | the default theme text parses to the same amber (251, 191, 36) that the parser falls back to, so without a track colour the gradient is amber either way |
| Visualizer.ShortColourFallsBack | aura-ai/src/components/features/audio-player/Visualizer.tsx:10-19 | a colour of at most four characters, other than three, falls back to amber |
| Visualizer.Step | aura-ai/src/components/features/audio-player/Visualizer.tsx:58 | the step is at least 1 and is the floor of length over 20 once there are 20 bins |
| Visualizer.BarValue | aura-ai/src/components/features/audio-player/Visualizer.tsx:61 | a bar reads its bin at `i * step` and reads 0 past the end |
| Visualizer.BarHeight | aura-ai/src/components/features/audio-player/Visualizer.tsx:62-63 | a bar is at least 4 high and never taller than a canvas of at least 4 |
| Visualizer.Frame | aura-ai/src/components/features/audio-player/Visualizer.tsx:46-81 | a frame draws 20 bars, bar i from bin `i * step` |
| Visualizer.BarsSampleInRange | aura-ai/src/components/features/audio-player/Visualizer.tsx:58-61 | with 20 bins or more every bar reads a real bin at strictly increasing indices; below that exactly the bars past the data read 0 |
| Visualizer.BarsWithinCanvas | aura-ai/src/components/features/audio-player/Visualizer.tsx:63 | every drawn bar lies between 4 and the canvas height |
| SleepTimer.ClearRef | aura-ai/src/components/features/audio-player/SleepTimer.tsx:27 | clearing removes the interval the ref holds and no other |
| SleepTimer.Start | aura-ai/src/components/features/audio-player/SleepTimer.tsx:26-42 | the old interval is cleared and a fresh one counts `minutes * 60` seconds with the popover closed; at most one interval stays live |
| SleepTimer.Cancel | aura-ai/src/components/features/audio-player/SleepTimer.tsx:44-48 | the countdown is dropped, the popover closes and no interval stays live |
| SleepTimer.Tick | aura-ai/src/components/features/audio-player/SleepTimer.tsx:32-41 | a cleared interval never fires; above 1 second the countdown drops by one; at 1 or less playback stops once, the countdown is dropped and the interval cleared |
| SleepTimer.CountdownStopsOnce | aura-ai/src/components/features/audio-player/SleepTimer.tsx:32-41 | with n seconds left the first k < n ticks only count down and from tick n on playback has stopped exactly once |
| SleepTimer.StaysStopped | aura-ai/src/components/features/audio-player/SleepTimer.tsx:35 | ticks of a cleared interval change nothing |
| SleepTimer.PresetStopsAfterItsSeconds | aura-ai/src/components/features/audio-player/SleepTimer.tsx:8-42 | every preset stops playback after exactly its minutes times 60 ticks |
| SleepTimer.CancelPreventsStop | aura-ai/src/components/features/audio-player/SleepTimer.tsx:44-48 | after a cancel no tick stops playback |
| SleepTimer.Pad2 | aura-ai/src/components/features/audio-player/SleepTimer.tsx:53 | the seconds field is always two digits |
| SleepTimer.FormatTime | aura-ai/src/components/features/audio-player/SleepTimer.tsx:50-54 | the label ends in a colon and two digits |
| SleepTimer.FormatTimeRoundTrip | aura-ai/src/components/features/audio-player/SleepTimer.tsx:50-54 | reading the "m:ss" label back gives the seconds again |
| BreathCircle.FiresFollowCycle | aura-ai/src/components/features/breathwork/BreathCircle.tsx:20-43 | after mount and k timeouts the circle is in phase k mod 3 of inhale, hold, exhale, with that phase's text, scale and timeout |
| BreathCircle.FiresFrom | aura-ai/src/components/features/breathwork/BreathCircle.tsx:26-38 | each fired timeout enters the next phase of the cycle |
| BreathCircle.ElapsedClosed | aura-ai/src/components/features/breathwork/BreathCircle.tsx:26-40 | the k-th transition happens 19 s per completed cycle plus 0, 4 or 11 s into the current one |
| BreathCircle.PhaseMatchesSchedule | aura-ai/src/components/features/breathwork/BreathCircle.tsx:7-43 | between two transitions the circle shows what the 19-second 4-7-8 schedule says for that moment |
| BreathCircle.OneCycle | aura-ai/src/components/features/breathwork/BreathCircle.tsx:20-43 | a whole cycle takes 19 s and returns to the mounted inhale state |
| BreathCircle.Unmount | aura-ai/src/components/features/breathwork/BreathCircle.tsx:45 | the cleanup leaves no timeout armed |
| BreathCircle.UnmountFreezes | aura-ai/src/components/features/breathwork/BreathCircle.tsx:45 | after the cleanup nothing fires and the display stays as it was |
| Binaural.InitAudio | aura-ai/src/components/features/binaural-beats/BinauralBeatGenerator.tsx:32-64 | a fresh open context with both oscillators running, the left at the base frequency panned hard left, the right higher by exactly the beat and panned hard right, and the gain at the volume |
| Binaural.TogglePlay | aura-ai/src/components/features/binaural-beats/BinauralBeatGenerator.tsx:66-76 | playing flips; stopping halts both oscillators and closes the context, starting builds a new graph; the slider values are untouched |
| Binaural.RampEffect | aura-ai/src/components/features/binaural-beats/BinauralBeatGenerator.tsx:79-86 | while stopped nothing is scheduled; while playing the left ramps to the base and the right to base plus beat, both ending 0.1 s from now |
| Binaural.SetVolume | aura-ai/src/components/features/binaural-beats/BinauralBeatGenerator.tsx:88-92 | a changed volume with a gain node queues a target change with time constant 0.1, and otherwise the graph is untouched |
| Binaural.Unmount | aura-ai/src/components/features/binaural-beats/BinauralBeatGenerator.tsx:94-100 | a referenced context ends up closed and one already closed is left alone |
| Binaural.InitialState | aura-ai/src/components/features/binaural-beats/BinauralBeatGenerator.tsx:22-25 | the generator starts stopped at 200 Hz base, 10 Hz beat and volume 0.5, satisfying the invariant |
| Binaural.RampRestores | aura-ai/src/components/features/binaural-beats/BinauralBeatGenerator.tsx:79-86 | after the effect a playing live graph heads for base on the left and base plus beat on the right |
| Binaural.EventsKeepInv | aura-ai/src/components/features/binaural-beats/BinauralBeatGenerator.tsx:66-178 | play, both sliders, the volume and every preset keep the invariant |
| Binaural.BeatIsTheDifference | aura-ai/src/components/features/binaural-beats/BinauralBeatGenerator.tsx:84-85 | while playing the right minus the left heads for the beat frequency |
| Binaural.NothingScheduledWhileStopped | aura-ai/src/components/features/binaural-beats/BinauralBeatGenerator.tsx:80 | the sliders schedule nothing on a stopped generator |
| Binaural.StopThenStart | aura-ai/src/components/features/binaural-beats/BinauralBeatGenerator.tsx:66-76 | stopping closes the context and starting again builds a fresh graph from the current values |
| Binaural.PresetFromStopped | aura-ai/src/components/features/binaural-beats/BinauralBeatGenerator.tsx:178 | a preset clicked while stopped starts at the previous values, then ramps to the preset within 0.1 s |
| Binaural.PresetsAscend | aura-ai/src/components/features/binaural-beats/BinauralBeatGenerator.tsx:8-14 | the presets' beats strictly increase and their carriers run from 100 Hz in 50 Hz steps |
| Binaural.UnmountCloses | aura-ai/src/components/features/binaural-beats/BinauralBeatGenerator.tsx:94-100 | a second unmount changes nothing |
| SystemHealth.Probe | aura-ai/src/components/features/system/SystemHealth.tsx:16-32 | a success resets the counter and clears the flag; a failure adds one; the flag is raised once the counter reaches 3 and a failure below that leaves it as it was |
| SystemHealth.Tick | aura-ai/src/components/features/system/SystemHealth.tsx:34-35 | a probe happens only while the interval is installed |
| SystemHealth.Unmount | aura-ai/src/components/features/system/SystemHealth.tsx:36 | the cleanup removes the interval and keeps the counter and flag |
| SystemHealth.Badge | aura-ai/src/components/features/system/SystemHealth.tsx:39-52 | the "AI Offline" badge is shown exactly while the flag is set |
| SystemHealth.ProbeKeepsInv | aura-ai/src/components/features/system/SystemHealth.tsx:16-36 | probes, ticks and the cleanup keep the flag equal to "three or more failures in a row" |
| SystemHealth.OfflineIffThreeFailures | aura-ai/src/components/features/system/SystemHealth.tsx:16-37 | from mount, the counter is the latest streak of failed probes and the badge shows exactly when that streak is at least 3 |
| SystemHealth.RunStreak | aura-ai/src/components/features/system/SystemHealth.tsx:16-35 | from any consistent polling state the counter after a run is the latest failure streak, added to the old count when no probe succeeded |
| SystemHealth.RunSplit | aura-ai/src/components/features/system/SystemHealth.tsx:35 | a run over outcomes followed by one more is that run and then one tick |
| SystemHealth.UnmountStopsPolling | aura-ai/src/components/features/system/SystemHealth.tsx:36 | after the cleanup no later tick changes anything |
| MixerEngine.Mount | aura-ai/src/components/features/sound-mixer/MixerEngine.tsx:23-52 | a layer without a locator renders nothing and never plays; otherwise the element loops, and with a volume in [0, 1] it takes that volume and is asked to play exactly once; a volume outside [0, 1] throws before `play()`, so the element keeps its default volume and never plays |
| MixerEngine.FollowVolume | aura-ai/src/components/features/sound-mixer/MixerEngine.tsx:44-48 | a rendered element takes a new volume in [0, 1]; outside that range the assignment throws and the volume stays; source, loop flag and play count are kept |
| MixerEngine.FindChannel | aura-ai/src/components/features/sound-mixer/MixerEngine.tsx:17 | a found channel is kept under that key and a miss means no channel has it |
| MixerEngine.Reconcile | aura-ai/src/components/features/sound-mixer/MixerEngine.tsx:14-19 | one channel per layer under its key, at the layer's volume when that is in range; a new key mounts, and a known key keeps its channel, play count and error log, and keeps its volume when the new one is out of range |
| MixerEngine.Settle | aura-ai/src/components/features/sound-mixer/MixerEngine.tsx:34-41 | an AbortError is dropped silently and any other rejection is logged once; the element is untouched |
| MixerEngine.SettleAllLogsNonAborts | aura-ai/src/components/features/sound-mixer/MixerEngine.tsx:34-41 | over any promise outcomes a channel keeps its element and logs exactly the non-abort rejections |
| MixerEngine.FirstRenderMountsEachLayer | aura-ai/src/components/features/sound-mixer/MixerEngine.tsx:11-52 | the first render gives each layer a channel that is well formed for it: one play attempt at the layer's volume when that is in range, no play attempt and a thrown effect otherwise |
| MixerEngine.VolumeChangeDoesNotReplay | aura-ai/src/components/features/sound-mixer/MixerEngine.tsx:16-48 | after a volume change no channel plays again, and only the addressed layer's volume moves, and only to a value in range; out of range its effect throws |
| MixerEngine.FindUnique | aura-ai/src/components/features/sound-mixer/MixerEngine.tsx:17 | with distinct keys a lookup by a channel's own key finds that channel |
| MlMain.VerifyApiKey | aura-ml/main.py:63-80 | a request passes exactly when no server key is set (unset or empty) or the header equals it; every refusal is 403 "Could not validate credentials" |
| MlMain.KeyedServerNeedsTheKey | aura-ml/main.py:63-80 | with a key set, a missing header is refused, the right header passes and any other value is refused with 403 |
| MlMain.Stars | aura-ml/main.py:51 | `"*" * n` is n stars |
| MlMain.MaskUrl | aura-ml/main.py:49-54 | nothing is logged for an unset or empty URL; the masked text has the first and last up to eight characters around `len - 16` stars, so a long URL keeps its length |
| MlMain.LongUrlIsMasked | aura-ml/main.py:51 | a URL of 16 characters or more keeps its first and last eight characters and hides every one in between |
| MlMain.ShortUrlLeaks | aura-ml/main.py:51 | a URL of at most 16 characters is logged without any star, so every character can be read back |
| MlMain.Without | aura-ml/main.py:246 | the filter keeps exactly the sounds whose id differs from the source's |
| MlMain.FindSimilar | aura-ml/main.py:223-249 | the reply is an error exactly when the source row is missing, its embedding does not parse, or the query that path needs (the four-row library query or the vector search) fails, and every error is 500; an empty embedding gives the first four library rows; otherwise exactly the search's matches other than the source |
| MlMain.VectorPathExcludesSource | aura-ml/main.py:246 | the vector path never answers with the source, and the filter keeps the search's order |
| MlMain.WithoutDistributes | aura-ml/main.py:245 | filtering out the source from two result lists joined is the same as filtering each and joining, so the filter keeps the order |
| MlMain.EmptyEmbeddingCanReturnSource | aura-ml/main.py:233-235 | the empty-embedding path does not filter: a source among the first four rows is returned as similar to itself |
| MlMain.VibeQuery | aura-ml/main.py:263-272 | each of the seven emotions maps to its query and anything else to "relaxing" |
| MlMain.QueriesTellEmotionsApart | aura-ml/main.py:263-272 | only an unknown emotion gives "relaxing", and different known emotions give different queries |
| MlMain.AnalyzeFace | aura-ml/main.py:252-289 | the reply is 500 exactly when the search fails, and otherwise carries the detected emotion, its score and the search result for the mapped query |
| MlMain.Candidates | aura-ml/main.py:314-317 | fewer than four matches are topped up with the first ten library rows; four or more are used as they are |
| MlMain.Shuffled | aura-ml/main.py:321 | a shuffle keeps the length and the same sounds |
| MlMain.StepKeepsDistinct | aura-ml/main.py:323-326 | one scan step keeps the kept ids distinct, records the scanned id and only appends |
| MlMain.PickDistinct | aura-ml/main.py:320-327 | the selection extends what was kept, holds no two sounds with the same id, and never more than four |
| MlMain.PickFrom | aura-ml/main.py:323-326 | every selected sound was scanned |
| MlMain.KeptStaysKept | aura-ml/main.py:326 | an id once seen stays seen |
| MlMain.PickMaximal | aura-ml/main.py:323-327 | a selection of fewer than four has seen every scanned id |
| MlMain.Select | aura-ml/main.py:320-327 | the loop with its early break selects what the reference scan selects |
| MlMain.GenerateMix | aura-ml/main.py:306-334 | at most four distinct-id sounds from the candidates, with volumes 0.8, 0.5, 0.3, 0.2 by position; fewer than four only when no other id was available |
| MlMain.GenerateMixReply | aura-ml/main.py:303-337 | the endpoint answers 500 exactly when the encode-and-search call fails or, with fewer than four matches, the library top-up fails; otherwise its mix is the reference scan of the shuffled candidates with volumes 0.8, 0.5, 0.3, 0.2 by position |
| Recommender.ColdStart | aura-ml/services/recommendation_engine.py:81-94 | three rows per sound in sound order, then 200 noise rows, every one rated 1 for a mock user and an existing sound |
| Recommender.SoundsOf | aura-ml/services/recommendation_engine.py:97 | the sound column of the frame, row by row |
| Recommender.EverySoundAtLeastThrice | aura-ml/services/recommendation_engine.py:84-88 | whatever the random draws, every sound occurs at least three times, so it becomes a matrix column |
| Recommender.SeededRowsAt | aura-ml/services/recommendation_engine.py:84-88 | rows 3i to 3i+2 are the seeds of sound i |
| Recommender.ThreeInARow | aura-ml/services/recommendation_engine.py:86-88 | a value three times in a row occurs at least three times |
| Recommender.TrainingRows | aura-ml/services/recommendation_engine.py:76-94 | more than 50 real rows are used one for one with rating 1; otherwise the synthetic cold-start rows are |
| Recommender.NComponents | aura-ml/services/recommendation_engine.py:106-108 | the component count is between 1 and 12, below the number of sounds once there are two, and 12 from 13 sounds on |
| Recommender.FirstSuccess | aura-ml/services/recommendation_engine.py:47-58 | the first successful attempt, and none exactly when every attempt failed |
| Recommender.Retrain | aura-ml/services/recommendation_engine.py:45-118 | only three attempts count; when all fail the id list is emptied and the old model kept; otherwise the fetched ids are kept; with a non-empty id list the model is always replaced: by the fit when it succeeds, and when the SVD or the correlation raises, by the rebuilt columns over the previous correlation rows (none on first training), since `self.model` and the pivot were already replaced |
| Recommender.FirstFetchDecides | aura-ml/services/recommendation_engine.py:47-58 | after a successful first fetch no later attempt matters |
| Recommender.ThreeFailuresSwitchOff | aura-ml/services/recommendation_engine.py:59-128 | three failed attempts switch recommendations off whatever a fourth would have returned |
| Recommender.FailedFirstFitStillAnswers | aura-ml/services/recommendation_engine.py:99-140 | a first training whose fit raises leaves a truthy model, so an unknown sound gets the fallback from the fetched ids rather than an empty answer, and the known sound, with no correlation rows, falls back as well |
| Recommender.Collect | aura-ml/services/recommendation_engine.py:148-154 | the scan keeps column positions other than the queried sound, at most `top_k` of them (one for a `top_k` of 0), and cannot fail when every ranked position is a column |
| Recommender.CollectDescends | aura-ml/services/recommendation_engine.py:145-154 | the kept sounds come in non-increasing order of correlation |
| Recommender.ReachesBadIndex | aura-ml/services/recommendation_engine.py:149-163 | a position past the columns that the scan reaches before it has `top_k` makes the scan fail |
| Recommender.Others | aura-ml/services/recommendation_engine.py:124 | the fallback candidates are exactly the other sounds |
| Recommender.Fallback | aura-ml/services/recommendation_engine.py:122-125 | up to `top_k` other sounds, never the queried one |
| Recommender.IndexOf | aura-ml/services/recommendation_engine.py:136 | the first position holding the sound |
| Recommender.Names | aura-ml/services/recommendation_engine.py:150 | each kept position is mapped to its column's sound id |
| Recommender.Recommend | aura-ml/services/recommendation_engine.py:120-163 | no model or no ids gives nothing; an unknown sound, or one whose index is past the correlation matrix, gives the fallback; for a known sound the answer is the column names the scan kept, in non-increasing correlation with the sound, or the fallback when the scan raised or kept nothing; the answer never holds the queried sound and has at most `top_k` (at least one allowed) entries |
| Recommender.UnknownSoundFallsBack | aura-ml/services/recommendation_engine.py:132-133 | with five sounds, asking for "sound_999" gives four of the five |
| Recommender.Corrcoef | aura-ml/services/recommendation_engine.py:113 | the correlation matrix is square in the number of row vectors |
| Recommender.FitAsWritten | aura-ml/services/recommendation_engine.py:111-113 | the correlation matrix is users by users while its rows are looked up by sound column |
| Recommender.FitIntended | aura-ml/services/recommendation_engine.py:113-142 | a sound-by-sound correlation, one row and column per sound |
| Recommender.UserCorrelationFallsBack | aura-ml/services/recommendation_engine.py:113-163 | as written, two sounds and three users always end in the random fallback, whatever the correlations |
| Recommender.RankedBySoundCorrelation | aura-ml/services/recommendation_engine.py:136-154 | with the intended matrix a known sound's scan cannot fail, never keeps the sound itself and keeps at most `top_k` in non-increasing order of correlation |
| Recommender.IntendedAnswersFromTheRow | aura-ml/services/recommendation_engine.py:136-159 | with the intended matrix and another sound present the answer is the ranked scan, not the fallback |
| Recommender.NonEmptyScan | aura-ml/services/recommendation_engine.py:149-154 | a scan that passes another sound's column keeps something |
| AudioClassifier.Exact | aura-ml/services/audio_classifier.py:141 | the exact lookup finds an entry with this very key, and misses exactly when no key equals the name |
| AudioClassifier.Partial | aura-ml/services/audio_classifier.py:144-148 | the partial lookup misses exactly when no key occurs in the name, ignoring case |
| AudioClassifier.PartialIsFirstInside | aura-ml/services/audio_classifier.py:145-148 | the partial match is the value of the first key, in table order, that occurs in the name |
| AudioClassifier.FriendlyCases | aura-ml/services/audio_classifier.py:139-152 | an exact key wins; with no exact key, the partial match is used when there is one; a name with neither is kept as it is |
| AudioClassifier.ExactBeatsPartial | aura-ml/services/audio_classifier.py:14-15 | "Raindrop" is its own key and so is not read as "Rain" |
| AudioClassifier.NoSixteenCharacterKey | aura-ml/services/audio_classifier.py:141 | a table without a sixteen-character key has no exact match for a sixteen-character name |
| AudioClassifier.KeyLengths | aura-ml/services/audio_classifier.py:12-89 | no key of the table is sixteen characters long |
| AudioClassifier.NatureKeys | aura-ml/services/audio_classifier.py:13-25 | no key of the nature section is sixteen characters long |
| AudioClassifier.ForestKeys | aura-ml/services/audio_classifier.py:27-37 | no key of the forest section is sixteen characters long |
| AudioClassifier.UrbanKeys | aura-ml/services/audio_classifier.py:39-51 | no key of the urban section is sixteen characters long |
| AudioClassifier.HomeKeys | aura-ml/services/audio_classifier.py:53-64 | no key of the home section is sixteen characters long |
| AudioClassifier.NoiseKeys | aura-ml/services/audio_classifier.py:66-74 | no key of the noise section is sixteen characters long |
| AudioClassifier.MusicKeys | aura-ml/services/audio_classifier.py:76-84 | no key of the music section is sixteen characters long |
| AudioClassifier.FireKeys | aura-ml/services/audio_classifier.py:86-88 | no key of the fire section is sixteen characters long |
| AudioClassifier.SixteenIsNoKey | aura-ml/services/audio_classifier.py:141 | no sixteen-character label has an exact match |
| AudioClassifier.FirstKeyBeatsBetterKey | aura-ml/services/audio_classifier.py:143-148 | partial matching goes by table order: "Gentle raindrops" becomes "Rainfall" although "Raindrop" also occurs in it |
| AudioClassifier.RainIsInside | aura-ml/services/audio_classifier.py:146 | "rain" occurs in "gentle raindrops" |
| AudioClassifier.FirstEntryIsRain | aura-ml/services/audio_classifier.py:14 | the first entry of the table is "Rain" to "Rainfall" |
| AudioClassifier.MapPredictions | aura-ml/services/audio_classifier.py:137-159 | one entry per raw prediction, in order, with the friendly name, the original name and the score |
| AudioClassifier.PredictSoundClass | aura-ml/services/audio_classifier.py:110-165 | a failure gives one entry "Error: " plus at most 50 characters of the message, score 0; otherwise each prediction keeps its original name and score |
| AudioProcessor.Abs | aura-ml/services/audio_processor.py:28 | a magnitude is non-negative and is the value or its negation |
| AudioProcessor.AbsAll | aura-ml/services/audio_processor.py:28 | every sample replaced by its magnitude |
| AudioProcessor.SumNonNegative | aura-ml/services/audio_processor.py:38 | non-negative values have a non-negative sum |
| AudioProcessor.Chunks | aura-ml/services/audio_processor.py:34-39 | the chunk loop gives no more values than samples and nothing exactly for an empty signal |
| AudioProcessor.ChunksNonNegative | aura-ml/services/audio_processor.py:35-39 | means of magnitudes are non-negative |
| AudioProcessor.ChunkIsMean | aura-ml/services/audio_processor.py:35-39 | value i is the mean of samples `i * step` up to `(i + 1) * step`, the last run possibly shorter |
| AudioProcessor.ChunkStep | aura-ml/services/audio_processor.py:35-36 | run j of the signal after its first run is run j + 1 of the whole |
| AudioProcessor.FirstChunkIsMean | aura-ml/services/audio_processor.py:36-39 | the first value is the mean of the first `step` samples |
| AudioProcessor.ChunkShift | aura-ml/services/audio_processor.py:35-36 | the slice `y_abs[i:i+step]` of the rest is the next slice of the whole |
| AudioProcessor.ChunkAfterFirst | aura-ml/services/audio_processor.py:35 | past the first run the values are those of the rest of the signal |
| AudioProcessor.ShiftedRun | aura-ml/services/audio_processor.py:36 | a slice of the rest is the slice `step` further on in the whole |
| AudioProcessor.ChunksCover | aura-ml/services/audio_processor.py:35 | the runs cover the signal: `step` times their number reaches its length |
| AudioProcessor.StepOneKeepsSamples | aura-ml/services/audio_processor.py:35-39 | with a step of one sample the values are the samples |
| AudioProcessor.StepBounds | aura-ml/services/audio_processor.py:31 | `len // n` whole runs fit in the signal, and the step is 0 exactly when the signal is shorter than `n` |
| AudioProcessor.MaxOf | aura-ml/services/audio_processor.py:43 | the maximum is one of the values and no value exceeds it |
| AudioProcessor.Normalize | aura-ml/services/audio_processor.py:42-45 | with a positive maximum every value is divided by it, and otherwise nothing changes |
| AudioProcessor.Waveform | aura-ml/services/audio_processor.py:28-45 | the scaled chunk means are never negative |
| AudioProcessor.NormalizeNonNegative | aura-ml/services/audio_processor.py:42-45 | scaling keeps values non-negative |
| AudioProcessor.ExtractWaveform | aura-ml/services/audio_processor.py:6-51 | a non-positive `n` gives nothing; the result has at most `n` values, none negative |
| AudioProcessor.ExactLength | aura-ml/services/audio_processor.py:31-47 | a signal shorter than `n` gives nothing and any other gives exactly `n` values |
| AudioProcessor.ScaledIntoUnitRange | aura-ml/services/audio_processor.py:41-47 | every value lies in [0, 1] |
| AudioProcessor.WaveformAt | aura-ml/services/audio_processor.py:28-47 | value k is the scaled k-th chunk mean of the magnitudes |
| AudioProcessor.AbsAllNonNegative | aura-ml/services/audio_processor.py:28 | magnitudes are non-negative |
| AudioProcessor.NormalizedAtMostOne | aura-ml/services/audio_processor.py:42-45 | scaled non-negative values lie in [0, 1] |
| AudioProcessor.SilenceStaysZero | aura-ml/services/audio_processor.py:44 | a silent signal stays all zeros, since nothing is scaled |
| AudioProcessor.SumOfZeros | aura-ml/services/audio_processor.py:38 | zeros sum to zero |
| AudioProcessor.ZeroChunksPeak | aura-ml/services/audio_processor.py:35-39 | silent runs average to zero |
| AudioProcessor.CutAfterScaling | aura-ml/services/audio_processor.py:42-47 | the cut follows the scaling, so the loudest kept value can be below 1: three samples for two points keep the two quiet ones |
| EmotionClassifier.Before | aura-ml/services/emotion_classifier.py:41 | the text before the first comma: a comma-free prefix followed by the comma, or the whole text when there is none |
| EmotionClassifier.After | aura-ml/services/emotion_classifier.py:41 | the text after the first comma |
| EmotionClassifier.StripPrefix | aura-ml/services/emotion_classifier.py:40-41 | the result never holds a comma, and a text without one is kept whole |
| EmotionClassifier.StripsDataUrl | aura-ml/services/emotion_classifier.py:39-41 | a data URL loses its header and keeps its payload; anything after a second comma is dropped |
| EmotionClassifier.StripAfterHeader | aura-ml/services/emotion_classifier.py:41 | after a comma-free header and its comma the result is the text up to the next comma |
| EmotionClassifier.BeforeStopsAtComma | aura-ml/services/emotion_classifier.py:41 | the first segment of "a,b" is a when a has no comma |
| EmotionClassifier.Detect | aura-ml/services/emotion_classifier.py:29-74 | an exception or no prediction gives neutral with score 0; any other answer is the first or second prediction with a score of at least 0.25 |
| EmotionClassifier.OverrideRule | aura-ml/services/emotion_classifier.py:52-67 | a top "neutral" gives way to the runner-up exactly when it leads by less than 0.2, and the chosen guess below 0.25 gives neutral with score 0 |
| EmotionClassifier.SingleGuessStands | aura-ml/services/emotion_classifier.py:57 | a lone guess is never overridden |
| EmotionClassifier.OnlyTopThreeCount | aura-ml/services/emotion_classifier.py:52 | predictions below the top three change nothing |
| Sentiment.BandOf | aura-ml/services/sentiment_analyzer.py:14-19 | positive exactly above 0.1, negative exactly below -0.1, neutral exactly in between with both bounds included |
| Sentiment.Analyze | aura-ml/services/sentiment_analyzer.py:3-24 | the score is the polarity unchanged and the label is the name of its band |
| Sentiment.BandsAreMonotone | aura-ml/services/sentiment_analyzer.py:14-19 | a higher polarity never gives a lower band, and two labels agree exactly when the bands do |
| Sentiment.BoundsAreNeutral | aura-ml/services/sentiment_analyzer.py:14-19 | 0.1 and -0.1 are neutral, 0.11 positive and -0.11 negative |
| CustomCnn.Zeros | aura-ml/services/custom_cnn.py:101 | n zeros |
| CustomCnn.PadOrTrim | aura-ml/services/custom_cnn.py:96-101 | the signal becomes exactly one second, 16000 samples |
| CustomCnn.PadOrTrimKeepsPrefix | aura-ml/services/custom_cnn.py:96-101 | the result starts with as much of the signal as fits and is silent after it; fitting twice changes nothing |
| CustomCnn.MinOf | aura-ml/services/custom_cnn.py:110 | the minimum is one of the values and none is smaller |
| CustomCnn.Rescale | aura-ml/services/custom_cnn.py:109-110 | the same number of values, all in [0, 1), the smallest at 0, even for a constant spectrogram |
| CustomCnn.Scale | aura-ml/services/custom_cnn.py:110 | a value above the minimum by less than the span lands in [0, 1), and the minimum itself at 0 |
| CustomCnn.IndexOf | aura-ml/services/custom_cnn.py:110 | a position holding the value |
| CustomCnn.FractionBelowOne | aura-ml/services/custom_cnn.py:110 | a fraction below its denominator lies in [0, 1) |
| CustomCnn.RescaleKeepsOrder | aura-ml/services/custom_cnn.py:110 | scaling keeps the order of any two values, in both directions |
| CustomCnn.DivisionMonotone | aura-ml/services/custom_cnn.py:110 | division by a positive span keeps order in both directions |
| CustomCnn.Predict | aura-ml/services/custom_cnn.py:77-132 | a failure while loading or preprocessing is reported with its message before the model is checked; a missing model gives "Model not loaded"; otherwise the label and probability of the position `torch.max` reports, which is an arg-max, so the confidence is at least every probability |
| CustomCnn.StrictTopIsNamed | aura-ml/services/custom_cnn.py:124-129 | a class whose probability beats all others is the one named, with that probability as confidence |
| CustomCnn.TiesKeepTheConfidence | aura-ml/services/custom_cnn.py:124-127 | whichever tied arg-max position is reported, the confidence is the same |
| CustomCnn.LabelsMatchOutputs | aura-ml/services/custom_cnn.py:37-52 | there are as many class names as outputs of the last layer, all different |

## Left out

- Network, database and storage I/O: `fetch`, `fetchAI`, the Supabase clients and `requests.get`. What they answer is a parameter: a response, rows, or a failure.
- ML numerics: sentence embeddings, the transformer and CNN forward passes, the mel spectrogram, the SVD fit, and the values of `np.corrcoef`. Their outputs are parameters. Only the shapes and the control flow around them are modelled.
- Randomness: `Math.random`, `random.shuffle`, `random.sample`, `random.randint` and `random.choice`. Each becomes the permutation, sample or draws it produced, passed in as a parameter.
- `JSON.parse` and `json.loads`: an oracle that returns a value or a failure.
- Web Audio and `HTMLAudioElement`: only the commands issued and the fields the code keeps are modelled. Sound, ramp curves and decoding are not.
- Real time: `setTimeout`, `setInterval`, `requestAnimationFrame` and React effect scheduling become explicit ticks, firings and queues. Overlapping asynchronous health probes are treated as if they ran one after another.
- FaceDJ.Capture: the list the callback closed over is a parameter (`snapshot`). Which render created the callback, and what other writers did during the request, are left to the caller.
- Rendering: markup, CSS classes and canvas drawing are left out. Only the values the drawing reads are modelled (bar heights, badge text, which panels show).
- Floating point: volumes, frequencies and scores are exact reals. IEEE rounding, NaN and `toFixed` are not modelled.
- Common.Lower: lower-cases ASCII letters only. `toLowerCase` and Python's `lower` also fold non-ASCII letters, and every pattern the code matches against is ASCII.
- Visualizer.FromDigits: produces the three numbers of the `rgba(...)` text. How the runtime prints `alpha` is a parameter of `Visualizer.Css`, because number-to-text conversion is runtime detail.
- SleepTimer: the component installs no cleanup, so an interval outlives an unmounted timer. Unmounting is not modelled.
- Recommender: NaN rows from `np.corrcoef` over constant vectors are not modelled. Ties in `np.argsort` are any valid ranking, given as a parameter.
- Recommender.Retrain: the pivot of the training rows is taken never to raise, because the rows are built from the fetched ids. Only a raise in the SVD fit or in `np.corrcoef` is modelled, and its one effect that `recommend_for_sound` reads is kept: the truthy new model over the rebuilt columns. A missing `corr_matrix` is modelled as no correlation rows, because both make `recommend_for_sound` fall back.
- CustomCnn.Predict: when several probabilities tie for the largest, any arg-max position is accepted. `torch.max` picks one by its own rule.
- CustomCnn.Rescale: the min-max scaling is modelled over a flat sequence of values, not over the 64-by-32 spectrogram.
- MlMain.FindSimilar: errors are modelled by their status code. The `detail` text, which is `str(e)` of the caught exception, is left out.
- MlMain.GenerateMixReply: like `find_similar`, an error is modelled by its status code only, and the encode and search calls fail together as one `search` outcome.
- MixerEngine: an out-of-range volume assignment is recorded on its channel as having thrown. What React then does with the uncaught `IndexSizeError` (an error boundary, or unmounting the tree) is not modelled.
- AudioPlayer: an element volume outside 0 to 1 (AudioPlayer.tsx:50) is recorded as the issued `SetElementVolume` command. The `IndexSizeError` the element raises for it is not modelled.
- AudioPlayer.TrackChanged: compares tracks by value. React compares the effect dependency by identity, so a new but equal track object set while playing issues `play` in the source and nothing in the model.
- VoiceControl: only the recognisers and the snapshot each one took when it started are modelled. Their callbacks are delivered as explicit results naming the recogniser.
- EmotionClassifier.StripPrefix: base64 decoding and image opening are not modelled. A failure there is part of the `Raised` outcome.
- The galaxy view, sound-library CRUD, the Gemini route handlers, the scheduler, ingestion scripts and smoke tests: these are not part of this model. They are UI, ETL or live-endpoint glue outside the audio-control core.

## Findings

| source | as written | input that shows it | evidently intended | confidence | as-written member | corrected member |
|---|---|---|---|---|---|---|
| aura-ml/services/recommendation_engine.py:113 | `np.corrcoef(self.matrix_reduced)` correlates the rows of the reduced matrix, which are users. The row is then looked up by a sound's column index, and the ranked indices are mapped back to sound columns. With more users than sounds, and no more sounds than `top_k`, the scan meets an index that is no sound column, raises `IndexError`, and answers with the random fallback. | two sounds, three users, `top_k` 4 | a sound-by-sound correlation, one latent vector per sound column | not executed | Recommender.UserCorrelationFallsBack | Recommender.RankedBySoundCorrelation |
