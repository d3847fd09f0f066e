/** An in-memory store of tracks by id, kept in insertion order. */
module TrackRepositories {
  import opened Wrappers
  import opened Ids
  import opened Sequences
  import opened OrderedDicts
  import opened Tracks

  class TrackRepository {
    var tracks: ODict<Uuid, Track>

    ghost predicate Valid()
      reads this
    {
      tracks.Valid()
    }

    /** `TrackRepository()`: an empty store. */
    constructor ()
      ensures Valid() && tracks == Empty()
    {
      tracks := Empty();
    }

    /** `add`: the track is stored under its own id, replacing whatever was stored there; the id is returned. */
    method Add(track: Track) returns (trackId: Uuid)
      requires Valid()
      modifies this`tracks
      ensures Valid()
      ensures trackId == track.id
      ensures tracks == old(tracks).Put(track.id, track)
    {
      tracks := tracks.Put(track.id, track);
      trackId := track.id;
    }

    /** `get`: the track stored under the id, or nothing. */
    function Get(trackId: Uuid): (r: Option<Track>)
      reads this
      ensures r.Some? <==> trackId in tracks.items
      ensures r.Some? ==> r.value == tracks.items[trackId]
    {
      tracks.Get(trackId)
    }

    /** `get_all`: every stored track once, in insertion order. */
    function GetAll(): (r: seq<Track>)
      requires Valid()
      reads this
      ensures |r| == |tracks.keys|
      ensures forall i :: 0 <= i < |r| ==> r[i] == tracks.items[tracks.keys[i]]
      ensures forall k :: k in tracks.items ==> tracks.items[k] in r
    {
      var r := tracks.Values();
      assert forall k :: k in tracks.items ==> tracks.items[k] in r by {
        forall k | k in tracks.items
          ensures tracks.items[k] in r
        {
          assert r[FirstIndex(tracks.keys, k)] == tracks.items[k];
        }
      }
      r
    }

    /**
     * `update`: nothing happens and false is returned when no track is stored under the track's id;
     * otherwise the stored track is replaced, in its place, and true is returned.
     */
    method Update(track: Track) returns (updated: bool)
      requires Valid()
      modifies this`tracks
      ensures Valid()
      ensures updated <==> track.id in old(tracks.items)
      ensures !updated ==> tracks == old(tracks)
      ensures updated ==> tracks.keys == old(tracks.keys) && tracks.items == old(tracks.items)[track.id := track]
    {
      if track.id !in tracks.items {
        return false;
      }
      tracks := tracks.Put(track.id, track);
      updated := true;
    }

    /** `delete`: false when nothing is stored under the id; otherwise only that entry goes, and true. */
    method Delete(trackId: Uuid) returns (deleted: bool)
      requires Valid()
      modifies this`tracks
      ensures Valid()
      ensures deleted <==> trackId in old(tracks.items)
      ensures !deleted ==> tracks == old(tracks)
      ensures deleted ==> tracks.items == old(tracks.items) - {trackId} && tracks.keys == Without(old(tracks.keys), trackId)
    {
      if trackId !in tracks.items {
        return false;
      }
      tracks := tracks.Remove(trackId);
      deleted := true;
    }

    /** The file paths of the stored tracks, in insertion order. */
    function Paths(): (ps: seq<string>)
      requires Valid()
      reads this, tracks.items.Values
      ensures |ps| == |tracks.keys|
      ensures forall i :: 0 <= i < |ps| ==> ps[i] == tracks.items[tracks.keys[i]].filePath
    {
      var vs := tracks.Values();
      seq(|vs|, i requires 0 <= i < |vs| reads vs => vs[i].filePath)
    }

    /** `find_by_path`: the first stored track, in insertion order, whose path is exactly `filePath`, if any. */
    method FindByPath(filePath: string) returns (r: Option<Track>)
      requires Valid()
      ensures r.None? <==> filePath !in Paths()
      ensures r.Some? ==> filePath in Paths() && r.value == tracks.items[tracks.keys[FirstIndex(Paths(), filePath)]]
    {
      var keys := tracks.keys;
      for i := 0 to |keys|
        invariant forall j :: 0 <= j < i ==> Paths()[j] != filePath
      {
        var track := tracks.items[keys[i]];
        if track.filePath == filePath {
          FirstIndexUnique(Paths(), filePath, i);
          return Some(track);
        }
      }
      return None;
    }
  }
}
