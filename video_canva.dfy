/** The gesture-to-volume rule of the VideoCanva component: the pinch
    distance between the thumb tip and the index fingertip, the clamped
    inverted volume it sets, and the component state that the hand-result
    callback, the audio toggle and the webcam teardown update. Numbers are
    reals, not IEEE doubles; `Math.sqrt` is a parameter `sqrt`. */
module VideoCanva {

  datatype Option<T> = None | Some(value: T)

  /** One point of the detector's hand schema. */
  datatype Landmark = Landmark(x: real, y: real, z: real)

  /** What the detector reports for one frame: a list of hands, each a list
      of landmarks, or nothing at all. Handedness labels are not read. */
  datatype HandResults = HandResults(multiHandLandmarks: Option<seq<seq<Landmark>>>)

  const ThumbTip: nat := 4
  const IndexTip: nat := 8

  /** `sqrt` returns the non-negative square root of every non-negative real. */
  ghost predicate IsSquareRoot(sqrt: real -> real)
  {
    forall x: real :: 0.0 <= x ==> 0.0 <= sqrt(x) && sqrt(x) * sqrt(x) == x
  }

  /** `Math.max` of two reals: one of them, and no smaller than either. */
  function Max(a: real, b: real): (r: real)
    ensures r == a || r == b
    ensures a <= r && b <= r
  {
    if a < b then b else a
  }

  /** `Math.min` of two reals: one of them, and no larger than either. */
  function Min(a: real, b: real): (r: real)
    ensures r == a || r == b
    ensures r <= a && r <= b
  {
    if a < b then a else b
  }

  /** The squared planar distance between thumb tip and index fingertip;
      z takes no part. */
  function PinchSquared(landmarks: seq<Landmark>): (r: real)
    requires IndexTip < |landmarks|
    ensures 0.0 <= r
  {
    var thumb := landmarks[ThumbTip];
    var index := landmarks[IndexTip];
    var dx := thumb.x - index.x;
    var dy := thumb.y - index.y;
    dx * dx + dy * dy
  }

  /** `calculateDistance`: the Euclidean distance, in x and y, between
      landmarks 4 and 8. With a true square root it is non-negative and its
      square is dx * dx + dy * dy. */
  function CalculateDistance(landmarks: seq<Landmark>, sqrt: real -> real): (d: real)
    requires IndexTip < |landmarks|
    ensures IsSquareRoot(sqrt) ==>
              var dx := landmarks[ThumbTip].x - landmarks[IndexTip].x;
              var dy := landmarks[ThumbTip].y - landmarks[IndexTip].y;
              0.0 <= d && d * d == dx * dx + dy * dy
  {
    sqrt(PinchSquared(landmarks))
  }

  /** Two hands that agree on x and y of landmarks 4 and 8 give the same
      distance, whatever their z values and their other landmarks. */
  lemma DistanceIgnoresZ(a: seq<Landmark>, b: seq<Landmark>, sqrt: real -> real)
    requires IndexTip < |a| && IndexTip < |b|
    requires a[ThumbTip].x == b[ThumbTip].x && a[ThumbTip].y == b[ThumbTip].y
    requires a[IndexTip].x == b[IndexTip].x && a[IndexTip].y == b[IndexTip].y
    ensures CalculateDistance(a, sqrt) == CalculateDistance(b, sqrt)
  {
    assert PinchSquared(a) == PinchSquared(b);
  }

  /** Exchanging thumb tip and index fingertip does not change the distance. */
  lemma DistanceSymmetric(landmarks: seq<Landmark>, sqrt: real -> real)
    requires IndexTip < |landmarks|
    ensures var swapped := landmarks[ThumbTip := landmarks[IndexTip]][IndexTip := landmarks[ThumbTip]];
            CalculateDistance(swapped, sqrt) == CalculateDistance(landmarks, sqrt)
  {
    var swapped := landmarks[ThumbTip := landmarks[IndexTip]][IndexTip := landmarks[ThumbTip]];
    assert swapped[ThumbTip] == landmarks[IndexTip] && swapped[IndexTip] == landmarks[ThumbTip];
    var dx := landmarks[ThumbTip].x - landmarks[IndexTip].x;
    var dy := landmarks[ThumbTip].y - landmarks[IndexTip].y;
    assert (-dx) * (-dx) == dx * dx && (-dy) * (-dy) == dy * dy;
    assert PinchSquared(swapped) == PinchSquared(landmarks);
  }

  /** The volume `updateVolume` applies: `max(0, min(1, 1 - d))`. A closed
      pinch is loud, an open one quiet, and the level never leaves [0, 1]. */
  function ClampedVolume(d: real): (v: real)
    ensures 0.0 <= v <= 1.0
    ensures d <= 0.0 ==> v == 1.0
    ensures 1.0 <= d ==> v == 0.0
    ensures 0.0 <= d <= 1.0 ==> v == 1.0 - d
  {
    Max(0.0, Min(1.0, 1.0 - d))
  }

  /** A larger distance never gives a louder volume. */
  lemma VolumeAntitone(d1: real, d2: real)
    requires d1 <= d2
    ensures ClampedVolume(d2) <= ClampedVolume(d1)
  {
  }

  /** The end points of the mapping: touching fingers give full volume, a
      distance of 1 or more (1.5, say) gives silence. */
  lemma VolumeScenario()
    ensures ClampedVolume(0.0) == 1.0
    ensures ClampedVolume(1.0) == 0.0
    ensures ClampedVolume(1.5) == 0.0
    ensures ClampedVolume(-0.25) == 1.0
  {
  }

  /** Between non-negative reals, a smaller product of equal factors has
      the smaller factor. */
  lemma SquareOrdered(a: real, a': real, b: real, b': real)
    requires 0.0 <= a && a == a' && 0.0 <= b && b == b' && a * a' <= b * b'
    ensures a <= b
  {
    if b < a {
      MulStrict(b, a, b', a');
    }
  }

  lemma MulStrict(b: real, a: real, c: real, d: real)
    requires 0.0 <= b < a && 0.0 <= c < d
    ensures b * c < a * d
  {
    assert b * c <= b * d;
    assert b * d < a * d;
  }

  lemma ZeroProduct(d: real, e: real)
    requires 0.0 <= d && d == e && d * e == 0.0
    ensures d == 0.0
  {
    if 0.0 < d {
      MulStrict(0.0, d, 0.0, e);
    }
  }

  /** Square roots preserve order on the non-negative reals. */
  lemma SqrtMonotone(sqrt: real -> real, x: real, y: real)
    requires IsSquareRoot(sqrt) && 0.0 <= x <= y
    ensures sqrt(x) <= sqrt(y)
  {
    var a, b := sqrt(x), sqrt(y);
    assert 0.0 <= a && a * a == x;
    assert 0.0 <= b && b * b == y;
    SquareOrdered(a, a, b, b);
  }

  /** Bringing thumb and index closer never lowers the volume. */
  lemma CloserPinchIsLouder(near: seq<Landmark>, far: seq<Landmark>, sqrt: real -> real)
    requires IndexTip < |near| && IndexTip < |far| && IsSquareRoot(sqrt)
    requires PinchSquared(near) <= PinchSquared(far)
    ensures ClampedVolume(CalculateDistance(far, sqrt)) <= ClampedVolume(CalculateDistance(near, sqrt))
  {
    SqrtMonotone(sqrt, PinchSquared(near), PinchSquared(far));
    VolumeAntitone(CalculateDistance(near, sqrt), CalculateDistance(far, sqrt));
  }

  /** Touching fingertips give full volume. */
  lemma TouchingFingersFullVolume(landmarks: seq<Landmark>, sqrt: real -> real)
    requires IndexTip < |landmarks| && IsSquareRoot(sqrt)
    requires landmarks[ThumbTip].x == landmarks[IndexTip].x
    requires landmarks[ThumbTip].y == landmarks[IndexTip].y
    ensures CalculateDistance(landmarks, sqrt) == 0.0
    ensures ClampedVolume(CalculateDistance(landmarks, sqrt)) == 1.0
  {
    var d := CalculateDistance(landmarks, sqrt);
    assert PinchSquared(landmarks) == 0.0;
    assert 0.0 <= d && d * d == 0.0;
    ZeroProduct(d, d);
  }

  /** The guard of the hand-result callback: the hand list is present and
      holds at least one hand. */
  predicate HandPresent(results: HandResults)
  {
    results.multiHandLandmarks.Some? && |results.multiHandLandmarks.value| > 0
  }

  /** The first reported hand carries landmarks 4 and 8 (the detector's
      schema has 21 points); the callback reads them unchecked. */
  predicate FirstHandComplete(results: HandResults)
  {
    HandPresent(results) ==> IndexTip < |results.multiHandLandmarks.value[0]|
  }

  /** The `<audio>` element the component drives. */
  class AudioElement {
    var volume: real
    var paused: bool

    /** The browser creates the element, paused at full volume; this
        constructor stands for that, so that clients can build a state. */
    constructor ()
      ensures volume == 1.0 && paused
    {
      volume := 1.0;
      paused := true;
    }
  }

  /** The state of one VideoCanva instance. */
  class VideoCanvaState {
    var isOn: bool
    var isPlaying: bool
    var distance: real
    /** `audioRef.current`; null before the element is mounted. */
    const audio: AudioElement?

    /** The play flag agrees with the element, the applied volume stays in
        [0, 1] and the stored distance is never negative. */
    ghost predicate Valid()
      reads this, audio
    {
      0.0 <= distance &&
      (audio == null ==> !isPlaying) &&
      (audio != null ==> isPlaying == !audio.paused && 0.0 <= audio.volume <= 1.0)
    }

    /** Initial state: webcam off, not playing, distance 0. */
    constructor (audio: AudioElement?)
      requires audio != null ==> audio.paused && 0.0 <= audio.volume <= 1.0
      ensures Valid() && this.audio == audio
      ensures !isOn && !isPlaying && distance == 0.0
    {
      this.audio := audio;
      isOn := false;
      isPlaying := false;
      distance := 0.0;
    }

    /** `updateVolume`: with an audio element, set its volume from the
        distance; without one, do nothing. */
    method UpdateVolume(newDistance: real)
      requires Valid()
      modifies audio
      ensures Valid()
      ensures audio != null ==> audio.volume == ClampedVolume(newDistance)
      ensures audio != null ==> audio.paused == old(audio.paused)
    {
      if audio != null {
        audio.volume := ClampedVolume(newDistance);
      }
    }

    /** The hand-result callback: when a hand is reported, store the pinch
        distance of the first hand and apply its volume; otherwise keep the
        previous distance and volume. */
    method OnResults(results: HandResults, sqrt: real -> real)
      requires Valid() && IsSquareRoot(sqrt) && FirstHandComplete(results)
      modifies this`distance, audio
      ensures Valid()
      ensures HandPresent(results) ==>
                var d := CalculateDistance(results.multiHandLandmarks.value[0], sqrt);
                distance == d && (audio != null ==> audio.volume == ClampedVolume(d))
      ensures !HandPresent(results) ==>
                distance == old(distance) && (audio != null ==> audio.volume == old(audio.volume))
      ensures audio != null ==> audio.paused == old(audio.paused)
    {
      if HandPresent(results) {
        var landmarks := results.multiHandLandmarks.value[0];
        var newDistance := CalculateDistance(landmarks, sqrt);
        distance := newDistance;
        UpdateVolume(newDistance);
      }
    }

    /** The state effect of `startWebcam`: `completed` says that the whole
        acquisition block (camera stream, video playback, detector set-up)
        finished without throwing. Only then is the webcam reported on, even
        when no video element was mounted; any failure is caught and logged
        and leaves the flag as it was. */
    method StartWebcam(completed: bool)
      modifies this`isOn
      ensures isOn == (old(isOn) || completed)
    {
      if completed {
        isOn := true;
      }
    }

    /** `toggleAudio`: with an element and loaded audio, pause when playing
        and play when paused; otherwise nothing changes. */
    method ToggleAudio(audioLoaded: bool)
      requires Valid()
      modifies this`isPlaying, audio
      ensures Valid()
      ensures audio != null && audioLoaded ==> isPlaying == !old(isPlaying)
      ensures !(audio != null && audioLoaded) ==> isPlaying == old(isPlaying)
      ensures audio != null ==> audio.volume == old(audio.volume)
    {
      if audio != null && audioLoaded {
        if isPlaying {
          audio.paused := true;
          isPlaying := false;
        } else {
          audio.paused := false;
          isPlaying := true;
        }
      }
    }

    /** The rejection handler of `play()`: the element stays paused and the
        flag drops back to not playing. */
    method PlayRejected()
      requires Valid()
      modifies this`isPlaying, audio
      ensures Valid() && !isPlaying
      ensures audio != null ==> audio.volume == old(audio.volume)
    {
      if audio != null {
        audio.paused := true;
      }
      isPlaying := false;
    }

    /** `stopWebcam`: pause any audio, and always turn the webcam off and zero
        the distance. Safe to call when nothing was started. */
    method StopWebcam()
      requires Valid()
      modifies this`isOn, this`isPlaying, this`distance, audio
      ensures Valid()
      ensures !isOn && distance == 0.0
      ensures audio != null ==> !isPlaying && audio.paused
      ensures audio == null ==> isPlaying == old(isPlaying)
      ensures audio != null ==> audio.volume == old(audio.volume)
    {
      if audio != null {
        audio.paused := true;
        isPlaying := false;
      }
      isOn := false;
      distance := 0.0;
    }
  }
}
