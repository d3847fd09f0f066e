/** A playlist or playlist folder of a DJ library, in the vendor-neutral model. */
module Playlists {
  import opened Wrappers
  import opened Ids
  import opened Sequences

  class Playlist {
    var id: Uuid
    var name: string
    var description: string
    var trackIds: seq<Uuid>
    var parentId: Option<Uuid>
    var children: seq<Playlist>

    /** `Playlist(id=..., name=..., ...)`: `__post_init__` gives a playlist built without an id a fresh one; it starts without children. */
    constructor (id: Option<Uuid>, inUse: set<Uuid>, name: string, description: string, trackIds: seq<Uuid>, parentId: Option<Uuid>)
      ensures id.Some? ==> this.id == id.value
      ensures id.None? ==> this.id !in inUse
      ensures this.name == name && this.description == description
      ensures this.trackIds == trackIds && this.parentId == parentId && children == []
    {
      var newId := FreshId(inUse);
      this.id := if id.Some? then id.value else newId;
      this.name, this.description := name, description;
      this.trackIds, this.parentId, children := trackIds, parentId, [];
    }

    /** `add_track`: a track already listed is not listed again; otherwise it goes at the end. */
    method AddTrack(trackId: Uuid)
      modifies this`trackIds
      ensures trackId in old(trackIds) ==> trackIds == old(trackIds)
      ensures trackId !in old(trackIds) ==> trackIds == old(trackIds) + [trackId]
      ensures trackId in trackIds
      ensures Distinct(old(trackIds)) ==> Distinct(trackIds)
    {
      if trackId !in trackIds {
        trackIds := trackIds + [trackId];
      }
    }

    /** `remove_track`: the first occurrence goes when there is one; see `Sequences.RemoveFirstAt` for what that means. */
    method RemoveTrack(trackId: Uuid)
      modifies this`trackIds
      ensures trackIds == RemoveFirst(old(trackIds), trackId)
    {
      if trackId in trackIds {
        trackIds := RemoveFirst(trackIds, trackId);
      }
    }

    /** `add_child`: the child is told its parent and appended, even when it is a child already. */
    method AddChild(playlist: Playlist)
      modifies playlist`parentId, this`children
      ensures playlist.parentId == Some(id)
      ensures children == old(children) + [playlist]
    {
      playlist.parentId := Some(id);
      children := children + [playlist];
    }

    /**
     * `remove_child`: the first child with the id is taken out, the others keep their order, and nothing
     * happens without a match. The removed child keeps its `parentId`.
     */
    method RemoveChild(playlistId: Uuid)
      modifies this`children
      ensures old(FirstWithId(children, playlistId)).None? ==> children == old(children)
      ensures old(FirstWithId(children, playlistId)).Some? ==>
        var i := old(FirstWithId(children, playlistId)).value;
        children == old(children[..i] + children[i + 1..])
    {
      var i := 0;
      while i < |children|
        invariant 0 <= i <= |children| && children == old(children)
        invariant forall j :: 0 <= j < i ==> children[j].id != playlistId
      {
        if children[i].id == playlistId {
          children := children[..i] + children[i + 1..];
          return;
        }
        i := i + 1;
      }
    }
  }

  /** The position of the first playlist in `cs` with the id, if any. */
  function FirstWithId(cs: seq<Playlist>, playlistId: Uuid): (r: Option<nat>)
    reads cs
    ensures r.Some? ==> r.value < |cs| && cs[r.value].id == playlistId
    ensures r.Some? ==> forall j :: 0 <= j < r.value ==> cs[j].id != playlistId
    ensures r.None? <==> forall j :: 0 <= j < |cs| ==> cs[j].id != playlistId
  {
    if cs == [] then None
    else if cs[0].id == playlistId then Some(0)
    else match FirstWithId(cs[1..], playlistId)
      case None => None
      case Some(i) => Some(i + 1)
  }
}
