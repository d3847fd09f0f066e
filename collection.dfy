/** A DJ library: its tracks and playlists by id, and the ids of its top-level playlists. */
module Collections {
  import opened Wrappers
  import opened Ids
  import opened Sequences
  import opened OrderedDicts
  import opened Tracks
  import opened Playlists

  class Collection {
    var name: string
    var tracks: ODict<Uuid, Track>
    var playlists: ODict<Uuid, Playlist>
    var rootPlaylists: seq<Uuid>

    ghost predicate Valid()
      reads this
    {
      tracks.Valid() && playlists.Valid()
    }

    /** `Collection(name=...)`: no tracks, no playlists, no roots. */
    constructor (name: string)
      ensures Valid()
      ensures this.name == name && tracks == Empty() && playlists == Empty() && rootPlaylists == []
    {
      this.name := name;
      tracks, playlists, rootPlaylists := Empty(), Empty(), [];
    }

    /** `add_track`: the track is stored under its own id, replacing a track stored there; the id is returned. */
    method AddTrack(track: Track) returns (trackId: Uuid)
      requires Valid()
      modifies this`tracks
      ensures Valid()
      ensures trackId == track.id
      ensures tracks == old(tracks).Put(track.id, track)
    {
      tracks := tracks.Put(track.id, track);
      trackId := track.id;
    }

    /** `get_track`: the track stored under the id, or nothing. */
    function GetTrack(trackId: Uuid): (r: Option<Track>)
      reads this
      ensures r.Some? <==> trackId in tracks.items
      ensures r.Some? ==> r.value == tracks.items[trackId]
    {
      tracks.Get(trackId)
    }

    /**
     * `add_playlist`: the playlist is stored under its id and, when it has no parent, its id is appended to
     * the roots (even when already there). No playlist's children are touched.
     */
    method AddPlaylist(playlist: Playlist) returns (playlistId: Uuid)
      requires Valid()
      modifies this`playlists, this`rootPlaylists
      ensures Valid()
      ensures playlistId == playlist.id
      ensures playlists == old(playlists).Put(playlist.id, playlist)
      ensures playlist.parentId.None? ==> rootPlaylists == old(rootPlaylists) + [playlist.id]
      ensures playlist.parentId.Some? ==> rootPlaylists == old(rootPlaylists)
    {
      playlists := playlists.Put(playlist.id, playlist);
      if playlist.parentId.None? {
        rootPlaylists := rootPlaylists + [playlist.id];
      }
      playlistId := playlist.id;
    }

    /** `get_playlist`: the playlist stored under the id, or nothing. */
    function GetPlaylist(playlistId: Uuid): (r: Option<Playlist>)
      reads this
      ensures r.Some? <==> playlistId in playlists.items
      ensures r.Some? ==> r.value == playlists.items[playlistId]
    {
      playlists.Get(playlistId)
    }

    /**
     * `get_playlist_tracks`: nothing for an unknown playlist; otherwise the stored tracks of the playlist's
     * ids in playlist order, where ids without a stored track are skipped.
     */
    function GetPlaylistTracks(playlistId: Uuid): (r: seq<Track>)
      reads this, playlists.items.Values
      ensures playlistId !in playlists.items ==> r == []
      ensures playlistId in playlists.items ==> |r| <= |playlists.items[playlistId].trackIds|
      ensures forall t :: t in r ==> t in tracks.items.Values
    {
      match GetPlaylist(playlistId)
      case None => []
      case Some(p) => Present(p.trackIds, tracks.items)
    }
  }

  /**
   * When every id of a playlist has a stored track, its tracks are exactly those, one per id, in order;
   * `Sequences.PresentAppend` describes the general case.
   */
  lemma {:induction false} PlaylistTracksAllPresent(c: Collection, playlistId: Uuid)
    requires playlistId in c.playlists.items
    requires forall k :: k in c.playlists.items[playlistId].trackIds ==> k in c.tracks.items
    ensures |c.GetPlaylistTracks(playlistId)| == |c.playlists.items[playlistId].trackIds|
    ensures forall i :: 0 <= i < |c.GetPlaylistTracks(playlistId)| ==>
      c.GetPlaylistTracks(playlistId)[i] == c.tracks.items[c.playlists.items[playlistId].trackIds[i]]
  {
    PresentAll(c.playlists.items[playlistId].trackIds, c.tracks.items);
  }
}
