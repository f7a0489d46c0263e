/** The playlist state machine: a fixed, ordered list of songs and a cursor
    that steps forward and backward around it (music_classes.tsx; musicUtils.tsx
    carries an identical copy of both classes). */
module MusicClasses {

  /** A song record; the source never updates its fields after construction. */
  datatype Song = Song(title: string, artist: string, url: string)

  /** The index `nextTrack` moves to: `(i + 1) % n`. With `0 <= i < n` the
      JavaScript `%` agrees with Dafny's. */
  function NextIndex(i: nat, n: nat): (r: nat)
    requires i < n
    ensures r < n
    ensures i < n - 1 ==> r == i + 1
    ensures i == n - 1 ==> r == 0
  {
    (i + 1) % n
  }

  /** The index `previousTrack` moves to: `(i - 1 + n) % n`. The left operand
      is never negative here, so JavaScript's `%` agrees with Dafny's. */
  function PrevIndex(i: nat, n: nat): (r: nat)
    requires i < n
    ensures r < n
    ensures 0 < i ==> r == i - 1
    ensures i == 0 ==> r == n - 1
  {
    (i - 1 + n) % n
  }

  /** Stepping forward then back, or back then forward, restores the index. */
  lemma NextPrevInverse(i: nat, n: nat)
    requires i < n
    ensures PrevIndex(NextIndex(i, n), n) == i
    ensures NextIndex(PrevIndex(i, n), n) == i
  {
  }

  /** The index reached from `i` after `k` calls of `nextTrack`. */
  function Advance(i: nat, n: nat, k: nat): (r: nat)
    requires i < n
    ensures r < n
    decreases k
  {
    if k == 0 then i else Advance(NextIndex(i, n), n, k - 1)
  }

  lemma ModShift(x: nat, n: nat)
    requires 0 < n
    ensures (x + n) % n == x % n
  {
    var q, r := x / n, x % n;
    assert x == q * n + r;
    assert x + n == (q + 1) * n + r;
    ModUnique(x + n, n, q + 1, r);
  }

  lemma MulAtLeast(d: nat, n: nat)
    requires 0 < d
    ensures n <= d * n
  {
    assert d * n == n + (d - 1) * n;
  }

  /** Euclidean division has one remainder. */
  lemma ModUnique(a: nat, n: nat, q: nat, r: nat)
    requires 0 < n && r < n && a == q * n + r
    ensures a % n == r
  {
    var q', r' := a / n, a % n;
    assert a == q' * n + r';
    if q' < q {
      assert q * n == q' * n + (q - q') * n;
      MulAtLeast(q - q', n);
    } else if q < q' {
      assert q' * n == q * n + (q' - q) * n;
      MulAtLeast(q' - q, n);
    }
  }

  /** `k` forward steps from `i` land on `(i + k) % n`. */
  lemma {:induction false} AdvanceIsModular(i: nat, n: nat, k: nat)
    requires i < n
    ensures Advance(i, n, k) == (i + k) % n
    decreases k
  {
    if k == 0 {
      ModUnique(i, n, 0, i);
    } else if i < n - 1 {
      assert Advance(i, n, k) == Advance(i + 1, n, k - 1);
      AdvanceIsModular(i + 1, n, k - 1);
    } else {
      assert Advance(i, n, k) == Advance(0, n, k - 1);
      AdvanceIsModular(0, n, k - 1);
      ModShift(k - 1, n);
      assert (k - 1) + n == i + k;
    }
  }

  /** From the first track, `k` calls of `nextTrack` give index `k % n`, and
      `n` calls bring any position back to where it started. */
  lemma AdvanceFromStart(n: nat, k: nat)
    requires 0 < n
    ensures Advance(0, n, k) == k % n
    ensures forall i :: 0 <= i < n ==> Advance(i, n, n) == i
  {
    AdvanceIsModular(0, n, k);
    forall i | 0 <= i < n
      ensures Advance(i, n, n) == i
    {
      AdvanceIsModular(i, n, n);
      ModShift(i, n);
      ModUnique(i, n, 0, i);
    }
  }

  class Playlist {
    var tracks: seq<Song>
    var currentTrackIndex: nat

    /** The cursor names a track; this needs a non-empty list. */
    ghost predicate Valid()
      reads this
    {
      currentTrackIndex < |tracks|
    }

    /** Stores the list as given and points at its first entry. The source does
        not reject an empty list; such a playlist is simply not Valid. */
    constructor (tracks: seq<Song>)
      ensures this.tracks == tracks && currentTrackIndex == 0
      ensures Valid() <==> |tracks| > 0
    {
      this.tracks := tracks;
      currentTrackIndex := 0;
    }

    /** Reads the current track and changes nothing. */
    method GetCurrentTrack() returns (s: Song)
      requires Valid()
      ensures s == tracks[currentTrackIndex]
      ensures s in tracks
    {
      s := tracks[currentTrackIndex];
    }

    /** Steps forward, wrapping past the last track to the first, and returns
        the new current track. */
    method NextTrack() returns (s: Song)
      requires Valid()
      modifies this`currentTrackIndex
      ensures Valid() && tracks == old(tracks)
      ensures currentTrackIndex == NextIndex(old(currentTrackIndex), |tracks|)
      ensures s == tracks[currentTrackIndex]
    {
      currentTrackIndex := (currentTrackIndex + 1) % |tracks|;
      s := GetCurrentTrack();
    }

    /** Steps back, wrapping before the first track to the last, and returns
        the new current track. */
    method PreviousTrack() returns (s: Song)
      requires Valid()
      modifies this`currentTrackIndex
      ensures Valid() && tracks == old(tracks)
      ensures currentTrackIndex == PrevIndex(old(currentTrackIndex), |tracks|)
      ensures s == tracks[currentTrackIndex]
    {
      currentTrackIndex := (currentTrackIndex - 1 + |tracks|) % |tracks|;
      s := GetCurrentTrack();
    }

    /** Returns to the first track whatever the history. */
    method Reset()
      modifies this`currentTrackIndex
      ensures currentTrackIndex == 0 && tracks == old(tracks)
      ensures Valid() <==> |tracks| > 0
    {
      currentTrackIndex := 0;
    }
  }
}
