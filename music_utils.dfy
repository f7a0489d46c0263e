/** The factory of musicUtils.tsx: the static three-song playlist the
    application starts from. The file's own Playlist and Song classes are the
    same text as music_classes.tsx and are modelled once, in MusicClasses. */
module MusicUtils {
  import opened MusicClasses

  /** The three songs the factory builds, in playlist order. */
  const AdoreU := Song("Adore U", "Fred again..", "/audio/adore-u.mp3")
  const OneMoreTime := Song("One More Time", "Daft Punk", "/audio/one-more-time.mp3")
  const TheLessIKnowTheBetter :=
    Song("The Less I Know The Better", "Tame Impala", "/audio/the-less-i-know-the-better.mp3")

  /** Builds the "chill house" playlist, positioned on its first song. */
  method PopulatePlaylist() returns (p: Playlist)
    ensures fresh(p) && p.Valid()
    ensures p.tracks == [AdoreU, OneMoreTime, TheLessIKnowTheBetter]
    ensures p.currentTrackIndex == 0
  {
    p := new Playlist([AdoreU, OneMoreTime, TheLessIKnowTheBetter]);
  }

  /** A fresh playlist starts on Adore U, and three forward steps visit the
      other two songs in order and wrap back to Adore U. */
  method ChillHouseRoundTrip() returns (start: Song, second: Song, third: Song, wrapped: Song)
    ensures start == AdoreU && wrapped == AdoreU
    ensures second == OneMoreTime && third == TheLessIKnowTheBetter
  {
    var p := PopulatePlaylist();
    start := p.GetCurrentTrack();
    second := p.NextTrack();
    third := p.NextTrack();
    wrapped := p.NextTrack();
  }

  /** One step back from the first song lands on the last one. */
  method ChillHouseBackFromStart() returns (s: Song)
    ensures s == TheLessIKnowTheBetter
  {
    var p := PopulatePlaylist();
    s := p.PreviousTrack();
  }
}
