# TTMU ("Turn The Music Up") — verified model of the core

TTMU is a browser application. A hand detector reports the thumb tip and the
index fingertip of one hand, and the distance between them sets the volume of a
looping audio track. A closed pinch is loud and an open pinch is quiet. A
separate playlist object steps forward and backward through a fixed list of
songs. This project models those two pieces in Dafny and proves their
properties:

- `music_classes.dfy` (module `MusicClasses`) holds the `Song` record and the
  `Playlist` state machine. The cursor `currentTrackIndex` moves forward with
  `(i + 1) % n` and backward with `(i - 1 + n) % n`, and can be reset to 0.
  `Playlist` is a class whose methods update the cursor in place. The pure
  index arithmetic (`NextIndex`, `PrevIndex`, `Advance`) specifies those
  methods. Lemmas prove that the cursor stays in range, that next and previous
  undo each other, and that `k` forward steps from the start give `k % n`.
- `music_utils.dfy` (module `MusicUtils`) models the factory
  `populatePlaylist`: Adore U, One More Time, then The Less I Know The Better,
  positioned on Adore U. `src/app/utils/musicUtils.tsx:1-40` repeats the
  `Playlist` and `Song` classes of `src/app/utils/music_classes.tsx:1-40` word
  for word, so both are modelled once, in `MusicClasses`. The rows below cite
  whichever copy states the property.
- `video_canva.dfy` (module `VideoCanva`) models the gesture rule of the
  `VideoCanva` component:
  - the pinch distance between landmarks 4 and 8, from x and y only;
  - the clamped inverted volume `max(0, min(1, 1 - d))`;
  - the hand-result callback, which changes the distance and the volume only
    when a hand is reported;
  - the state effects of `toggleAudio`, of the `play()` rejection handler, of
    `startWebcam` and of `stopWebcam`.

  Component state is a class `VideoCanvaState`. Its `Valid()` invariant says
  that the playing flag agrees with the audio element, that the applied volume
  stays in [0, 1] and that the stored distance is never negative.

Arithmetic is over Dafny `int` and `real`, not IEEE doubles. With a
non-negative left operand, JavaScript's `%` agrees with Dafny's, and the
playlist's `%` only ever sees one. `Math.sqrt` is a foreign call, so it is a
function parameter `sqrt`. The predicate `IsSquareRoot(sqrt)` states what it
returns, and the lemmas that need a real square root require it.

Two facts about the code shape the model:

- The `Playlist` constructor accepts an empty list. The model's constructor
  does too and proves `Valid() <==> |tracks| > 0`; navigation requires
  `Valid()`.
- Nothing advances the playlist when a track ends: the `<audio>` element in
  `VideoCanva` loops one file, and no end event is wired to a `Playlist`.

## Model

| member | source | states |
|---|---|---|
| MusicClasses.NextIndex | src/app/utils/music_classes.tsx:15 | the forward step stays in `[0, n)`: it moves to `i + 1`, except from the last track, where it wraps to 0 |
| MusicClasses.PrevIndex | src/app/utils/music_classes.tsx:20-21 | the backward step stays in `[0, n)`: it moves to `i - 1`, except from the first track, where it wraps to `n - 1` |
| MusicClasses.NextPrevInverse | src/app/utils/musicUtils.tsx:14-23 | previous after next, and next after previous, both give back the original index |
| MusicClasses.Advance | src/app/utils/musicUtils.tsx:15 | the index after any number of forward steps is still a valid index |
| MusicClasses.AdvanceIsModular | src/app/utils/musicUtils.tsx:14-17 | `k` forward steps from index `i` land on `(i + k) % n` |
| MusicClasses.AdvanceFromStart | src/app/utils/musicUtils.tsx:15 | `k` forward steps from index 0 give `k % n`, and `n` steps bring every index back to itself |
| MusicClasses.Playlist.constructor | src/app/utils/music_classes.tsx:5-8 | the list is stored unchanged, the cursor is 0, and the playlist is valid exactly when the list is non-empty |
| MusicClasses.Playlist.GetCurrentTrack | src/app/utils/music_classes.tsx:10-12 | returns the song under the cursor, which is one of the playlist's tracks, and changes no state |
| MusicClasses.Playlist.NextTrack | src/app/utils/music_classes.tsx:14-17 | keeps the cursor valid, advances it with forward wraparound, leaves the tracks alone, and returns the new current song |
| MusicClasses.Playlist.PreviousTrack | src/app/utils/music_classes.tsx:19-23 | keeps the cursor valid, steps it back with backward wraparound, leaves the tracks alone, and returns the new current song |
| MusicClasses.Playlist.Reset | src/app/utils/music_classes.tsx:25-27 | the cursor becomes 0 whatever the history, the tracks are unchanged, and a non-empty playlist is valid afterwards |
| MusicUtils.PopulatePlaylist | src/app/utils/musicUtils.tsx:42-67 | a new valid playlist of exactly Adore U, One More Time and The Less I Know The Better, in that order, positioned on Adore U |
| MusicUtils.ChillHouseRoundTrip | src/app/utils/musicUtils.tsx:42-67 | on the factory playlist, the current song is Adore U; three next calls return One More Time, The Less I Know The Better, then Adore U again |
| MusicUtils.ChillHouseBackFromStart | src/app/utils/musicUtils.tsx:19-23 | on the factory playlist, previous from the first song returns the last song, The Less I Know The Better |
| VideoCanva.PinchSquared | src/app/components/VideoCanva.tsx:52-59 | the squared planar thumb-to-index distance is never negative |
| VideoCanva.CalculateDistance | src/app/components/VideoCanva.tsx:52-60 | with a true square root, the distance is non-negative and its square is `dx * dx + dy * dy` of landmarks 4 and 8; z takes no part |
| VideoCanva.DistanceIgnoresZ | src/app/components/VideoCanva.tsx:52-60 | two hands that agree on x and y of landmarks 4 and 8 have the same distance, whatever their z values and other landmarks |
| VideoCanva.DistanceSymmetric | src/app/components/VideoCanva.tsx:57-59 | exchanging the thumb tip and the index fingertip leaves the distance unchanged |
| VideoCanva.ClampedVolume | src/app/components/VideoCanva.tsx:66 | the volume is always in [0, 1]; it is 1 for a distance of 0 or less, 0 for a distance of 1 or more, and `1 - d` in between |
| VideoCanva.VolumeAntitone | src/app/components/VideoCanva.tsx:66 | a larger distance never gives a louder volume |
| VideoCanva.VolumeScenario | src/app/components/VideoCanva.tsx:64-66 | distance 0 gives volume 1; distances 1 and 1.5 give 0; a negative distance gives 1 |
| VideoCanva.SqrtMonotone | src/app/components/VideoCanva.tsx:59 | a true square root preserves the order of non-negative reals |
| VideoCanva.CloserPinchIsLouder | src/app/components/VideoCanva.tsx:52-67 | a hand whose fingertips are closer never gets a lower volume than one whose fingertips are farther apart |
| VideoCanva.TouchingFingersFullVolume | src/app/components/VideoCanva.tsx:52-66 | when the thumb tip and the index fingertip coincide in x and y, the distance is 0 and the volume is 1 |
| VideoCanva.VideoCanvaState.constructor | src/app/components/VideoCanva.tsx:45-47 | the component starts with the webcam off, nothing playing, and distance 0, and satisfies its invariant |
| VideoCanva.VideoCanvaState.UpdateVolume | src/app/components/VideoCanva.tsx:62-69 | with an audio element, its volume becomes the clamped volume of the distance; without one, nothing changes; playback state is untouched |
| VideoCanva.VideoCanvaState.OnResults | src/app/components/VideoCanva.tsx:96-106 | when the guard `HandPresent` (VideoCanva.tsx:97-100) holds, i.e. the hand list is present and non-empty, the stored distance and the element's volume come from the first hand; when the list is absent or empty, both keep their previous values |
| VideoCanva.VideoCanvaState.StartWebcam | src/app/components/VideoCanva.tsx:71-123 | the webcam is reported on once the whole acquisition block finished without throwing, even with no video element mounted; a caught failure leaves the flag as it was |
| VideoCanva.VideoCanvaState.ToggleAudio | src/app/components/VideoCanva.tsx:139-154 | with an element and loaded audio, the playing flag flips and the element follows it; otherwise the flag is unchanged; the volume is untouched |
| VideoCanva.VideoCanvaState.PlayRejected | src/app/components/VideoCanva.tsx:145-148 | after a refused `play()`, the flag is "not playing" and the invariant still holds |
| VideoCanva.VideoCanvaState.StopWebcam | src/app/components/VideoCanva.tsx:170-190 | the webcam is always off and the distance 0 afterwards; with an element, audio is paused and not playing; without one, the playing flag is unchanged |

## Left out

- Navigation on an empty playlist: in JavaScript, `getCurrentTrack` returns `undefined` and `% 0` yields NaN. The model's navigation methods require a non-empty, valid playlist.
- IEEE double behaviour (NaN, infinities, rounding): numbers are modelled as `int` and `real`.
- `Math.sqrt` is a parameter, not a definition. The distance lemmas that need a real square root require `IsSquareRoot(sqrt)`.
- VideoCanva.VideoCanvaState.StartWebcam: models only the `isOn` flag. Camera acquisition, the MediaPipe `Hands` object with its options and `send`, and the `requestAnimationFrame` loop (`src/app/components/VideoCanva.tsx:71-118`) are asynchronous browser and third-party calls. Whether the acquisition block finished without throwing is a parameter.
- VideoCanva.VideoCanvaState.StopWebcam: does not model stopping the stream tracks, clearing `srcObject`, `hands.close()` or `cancelAnimationFrame`. These release browser resources that the model does not represent.
- VideoCanva.VideoCanvaState.PlayRejected: the source handler only sets the flag to false. The model also marks the element paused, which is what the browser does when it refuses `play()`.
- VideoCanva.VideoCanvaState.OnResults: requires the first reported hand to hold landmarks 4 and 8 (`FirstHandComplete`), and `CalculateDistance` requires them too. The source reads `landmarks[4]` and `landmarks[8]` unchecked and would throw a TypeError on a shorter list; the detector always reports 21 points, so that throw is not modelled.
- MusicClasses.Playlist.constructor: stores the tracks as an immutable sequence. In the source, `tracks` is a public array shared by reference with the caller, so a caller that shrinks it in place could break the cursor invariant; that aliasing is not modelled.
- The `loadeddata` and `error` listeners (`src/app/components/VideoCanva.tsx:125-137`) are left out. `audioLoaded` is a parameter of `ToggleAudio`.
- Script injection and removal (`src/app/components/VideoCanva.tsx:156-168`) is DOM plumbing and is left out.
- The displayed text `(1 - distance).toFixed(3)` (`src/app/components/VideoCanva.tsx:209`) is unclamped display formatting, not the applied volume.
- The `multiHandedness` labels are never read by the callback, so they are not modelled.
- `src/app/components/AudioPlayer.tsx` is UI wiring and is not part of this model. Its "Previous" button calls `nextTrack`, "Next" has no handler, and it passes strings where songs are expected.
- `src/app/layout.tsx` and `src/app/page.tsx` hold page layout and script tags and are not part of this model.
- Serialising concurrent triggers: the code is single-threaded, and each method runs to completion.
