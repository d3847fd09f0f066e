/** The immutable summary of a track's descriptive data. */
module Metadata {
  import opened Wrappers
  import opened Text

  datatype TrackMetadata = TrackMetadata(
    title: string, artist: string,
    album: Option<string>, genre: Option<string>, bpm: Option<real>,
    key: Option<string>, year: Option<int>, comment: Option<string>)
  {
    /** `str(m)`: the artist, a spaced dash, then the title. */
    function ToString(): (r: string)
      ensures StartsWith(r, artist) && EndsWith(r, title)
      ensures |r| == |artist| + 3 + |title| && r[|artist|..|artist| + 3] == " - "
    {
      artist + " - " + title
    }
  }

  /** `TrackMetadata(title, artist)`: title and artist are required; the other fields default to nothing. */
  function NewTrackMetadata(title: string, artist: string): (m: TrackMetadata)
    ensures m.title == title && m.artist == artist
    ensures m.album.None? && m.genre.None? && m.bpm.None? && m.key.None? && m.year.None? && m.comment.None?
  {
    TrackMetadata(title, artist, None, None, None, None, None, None)
  }

  /** The rendering determines the title once the artist is known, so distinct titles of one artist render differently. */
  lemma ToStringInjectiveInTitle(m1: TrackMetadata, m2: TrackMetadata)
    requires m1.artist == m2.artist && m1.ToString() == m2.ToString()
    ensures m1.title == m2.title
  {
    var n := |m1.artist| + 3;
    assert m1.title == m1.ToString()[n..];
    assert m2.title == m2.ToString()[n..];
  }
}
