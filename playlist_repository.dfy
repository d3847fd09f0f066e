/** An in-memory store of playlists by id, with the list of ids of the top-level playlists. */
module PlaylistRepositories {
  import opened Wrappers
  import opened Ids
  import opened Sequences
  import opened OrderedDicts
  import opened Playlists

  /** `roots` followed by those of `xs` it lacks, in order, each once: appending `x` unless already present, x by x. */
  function AppendMissing(roots: seq<Uuid>, xs: seq<Uuid>): (r: seq<Uuid>)
    ensures |r| >= |roots| && r[..|roots|] == roots
    ensures forall x :: x in r <==> x in roots || x in xs
  {
    if xs == [] then roots
    else
      var n := |xs| - 1;
      var r := AppendMissing(roots, xs[..n]);
      assert forall x :: x in xs <==> x in xs[..n] || x == xs[n] by {
        assert xs == xs[..n] + [xs[n]];
      }
      if xs[n] in r then r else r + [xs[n]]
  }

  /** Appending the missing ids never lists an id twice when `roots` does not. */
  lemma {:induction false} AppendMissingDistinct(roots: seq<Uuid>, xs: seq<Uuid>)
    requires Distinct(roots)
    ensures Distinct(AppendMissing(roots, xs))
  {
    if xs != [] {
      AppendMissingDistinct(roots, xs[..|xs| - 1]);
    }
  }

  /** The ids of `ids` whose parent link in `parents` is `Some(parent)`, in order. */
  function Orphans(ids: seq<Uuid>, parents: seq<Option<Uuid>>, parent: Uuid): (r: seq<Uuid>)
    requires |ids| == |parents|
    ensures forall x :: x in r <==> exists j :: 0 <= j < |ids| && ids[j] == x && parents[j] == Some(parent)
  {
    if ids == [] then []
    else
      var n := |ids| - 1;
      var r := Orphans(ids[..n], parents[..n], parent);
      assert forall j :: 0 <= j < n ==> ids[..n][j] == ids[j] && parents[..n][j] == parents[j];
      if parents[n] == Some(parent) then r + [ids[n]] else r
  }

  /** The parent link after `delete(parent)`: a link to the deleted playlist is cut. */
  function Reparented(link: Option<Uuid>, parent: Uuid): (r: Option<Uuid>)
    ensures r != Some(parent)
    ensures link != Some(parent) ==> r == link
  {
    if link == Some(parent) then None else link
  }

  /** The ids of `ps`, in order. */
  function IdsOf(ps: seq<Playlist>): (r: seq<Uuid>)
    reads ps
    ensures |r| == |ps| && forall j :: 0 <= j < |ps| ==> r[j] == ps[j].id
  {
    seq(|ps|, j requires 0 <= j < |ps| reads ps => ps[j].id)
  }

  /** The parent links of `ps`, in order. */
  function ParentsOf(ps: seq<Playlist>): (r: seq<Option<Uuid>>)
    reads ps
    ensures |r| == |ps| && forall j :: 0 <= j < |ps| ==> r[j] == ps[j].parentId
  {
    seq(|ps|, j requires 0 <= j < |ps| reads ps => ps[j].parentId)
  }

  /** The playlists of `ps` whose parent link is `Some(parent)`, in order. */
  function ChildrenIn(ps: seq<Playlist>, parent: Uuid): (r: seq<Playlist>)
    reads ps
    ensures |r| <= |ps|
    ensures forall j :: 0 <= j < |r| ==> r[j] in ps && r[j].parentId == Some(parent)
    ensures forall j :: 0 <= j < |ps| && ps[j].parentId == Some(parent) ==> ps[j] in r
  {
    if ps == [] then []
    else (if ps[0].parentId == Some(parent) then [ps[0]] else []) + ChildrenIn(ps[1..], parent)
  }

  /** The links `cur` after playlist `ps[i]` gets link `v`: every position holding that same playlist changes. */
  function Relink(ps: seq<Playlist>, cur: seq<Option<Uuid>>, i: nat, v: Option<Uuid>): (r: seq<Option<Uuid>>)
    requires |cur| == |ps| && i < |ps|
    ensures |r| == |ps|
    ensures forall k :: 0 <= k < |ps| ==> r[k] == if ps[k] == ps[i] then v else cur[k]
  {
    seq(|ps|, k requires 0 <= k < |ps| => if ps[k] == ps[i] then v else cur[k])
  }

  /**
   * Where the re-parenting loop of `delete(parent)` stands after the first `i` playlists of `ps`, which had
   * ids `ids0` and links `links0` when it began and have links `cur` now: the roots are `roots1` with the
   * orphans met so far appended; the playlists met so far have their links cut; any other has its old
   * link, or is an orphan met earlier under another position (the same playlist stored twice), already cut
   * and listed. The same playlist has the same link at each of its positions.
   */
  ghost predicate DeleteProgress(ps: seq<Playlist>, ids0: seq<Uuid>, links0: seq<Option<Uuid>>, cur: seq<Option<Uuid>>,
                                 roots1: seq<Uuid>, roots: seq<Uuid>, parent: Uuid, i: nat)
  {
    |ids0| == |ps| && |links0| == |ps| && |cur| == |ps| && i <= |ps|
    && roots == AppendMissing(roots1, Orphans(ids0[..i], links0[..i], parent))
    && (forall j, k :: 0 <= j < |ps| && 0 <= k < |ps| && ps[j] == ps[k] ==>
          ids0[j] == ids0[k] && links0[j] == links0[k] && cur[j] == cur[k])
    && (forall j :: 0 <= j < i ==> cur[j] == Reparented(links0[j], parent))
    && (forall j :: i <= j < |ps| ==>
          cur[j] == links0[j] || (links0[j] == Some(parent) && cur[j].None? && ids0[j] in roots))
  }

  /** One turn of the re-parenting loop, as `Reparent` makes it, keeps `DeleteProgress`. */
  lemma DeleteProgressStep(ps: seq<Playlist>, ids0: seq<Uuid>, links0: seq<Option<Uuid>>, cur: seq<Option<Uuid>>,
                           roots1: seq<Uuid>, roots: seq<Uuid>, parent: Uuid, i: nat, v: Option<Uuid>, roots': seq<Uuid>)
    requires DeleteProgress(ps, ids0, links0, cur, roots1, roots, parent, i) && i < |ps|
    requires cur[i] == Some(parent) ==> v.None? && roots' == AppendMissing(roots, [ids0[i]])
    requires cur[i] != Some(parent) ==> v == cur[i] && roots' == roots
    ensures DeleteProgress(ps, ids0, links0, Relink(ps, cur, i, v), roots1, roots', parent, i + 1)
  {
    var cur' := Relink(ps, cur, i, v);
    OrphansStep(ids0, links0, parent, i);
    AppendMissingStep(roots1, Orphans(ids0[..i], links0[..i], parent), ids0[i]);
    if links0[i] == Some(parent) {
      assert roots' == AppendMissing(roots, [ids0[i]]);
    } else {
      assert Orphans(ids0[..i + 1], links0[..i + 1], parent) == Orphans(ids0[..i], links0[..i], parent);
    }
    assert forall x :: x in roots ==> x in roots';
    forall j | 0 <= j < i + 1
      ensures cur'[j] == Reparented(links0[j], parent)
    {
      if j < i && ps[j] == ps[i] {
        assert cur[j] == cur[i];
      }
    }
    forall j | i + 1 <= j < |ps|
      ensures cur'[j] == links0[j] || (links0[j] == Some(parent) && cur'[j].None? && ids0[j] in roots')
    {
      if ps[j] == ps[i] {
        assert ids0[j] == ids0[i] && links0[j] == links0[i] && cur[j] == cur[i];
        if cur[i] == Some(parent) {
          assert ids0[i] in roots';
        }
      } else {
        assert cur'[j] == cur[j];
      }
    }
    forall j, k | 0 <= j < |ps| && 0 <= k < |ps| && ps[j] == ps[k]
      ensures cur'[j] == cur'[k]
    {
    }
  }

  class PlaylistRepository {
    var playlists: ODict<Uuid, Playlist>
    var rootPlaylists: seq<Uuid>

    ghost predicate Valid()
      reads this
    {
      playlists.Valid()
    }

    /** `PlaylistRepository()`: an empty store without roots. */
    constructor ()
      ensures Valid() && playlists == Empty() && rootPlaylists == []
    {
      playlists, rootPlaylists := Empty(), [];
    }

    /**
     * `add`: the playlist is stored under its id and, when it has no parent, its id is appended to the
     * roots, even when listed there already; the id is returned.
     */
    method Add(playlist: Playlist) returns (playlistId: Uuid)
      requires Valid()
      modifies this`playlists, this`rootPlaylists
      ensures Valid()
      ensures playlistId == playlist.id
      ensures playlists == old(playlists).Put(playlist.id, playlist)
      ensures playlist.parentId.None? ==> rootPlaylists == old(rootPlaylists) + [playlist.id]
      ensures playlist.parentId.Some? ==> rootPlaylists == old(rootPlaylists)
    {
      playlists := playlists.Put(playlist.id, playlist);
      if playlist.parentId.None? {
        rootPlaylists := rootPlaylists + [playlist.id];
      }
      playlistId := playlist.id;
    }

    /** `get`: the playlist stored under the id, or nothing. */
    function Get(playlistId: Uuid): (r: Option<Playlist>)
      reads this
      ensures r.Some? <==> playlistId in playlists.items
      ensures r.Some? ==> r.value == playlists.items[playlistId]
    {
      playlists.Get(playlistId)
    }

    /** `get_all`: every stored playlist once, in insertion order. */
    function GetAll(): (r: seq<Playlist>)
      requires Valid()
      reads this
      ensures |r| == |playlists.keys|
      ensures forall i :: 0 <= i < |r| ==> r[i] == playlists.items[playlists.keys[i]]
    {
      playlists.Values()
    }

    /** `get_root_playlists`: the stored playlists of the root ids, in root order, skipping ids not stored. */
    function GetRootPlaylists(): (r: seq<Playlist>)
      reads this
      ensures |r| <= |rootPlaylists|
      ensures forall p :: p in r ==> exists k :: k in rootPlaylists && k in playlists.items && playlists.items[k] == p
    {
      Present(rootPlaylists, playlists.items)
    }

    /** `get_children`: the stored playlists whose parent is the id, in insertion order. */
    function GetChildren(playlistId: Uuid): (r: seq<Playlist>)
      requires Valid()
      reads this, playlists.items.Values
      ensures forall j :: 0 <= j < |r| ==> r[j] in playlists.items.Values && r[j].parentId == Some(playlistId)
      ensures forall k :: k in playlists.items && playlists.items[k].parentId == Some(playlistId) ==> playlists.items[k] in r
    {
      var vs := playlists.Values();
      assert forall k :: k in playlists.items ==> playlists.items[k] == vs[FirstIndex(playlists.keys, k)];
      assert forall p :: p in vs ==> p in playlists.items.Values;
      ChildrenIn(vs, playlistId)
    }

    /**
     * `update`: false, and nothing changes, when no playlist is stored under the playlist's id. Otherwise the
     * stored playlist is replaced in its place, true is returned, and the roots follow the parent link:
     * gaining a parent drops the first occurrence of the id, losing one appends the id unless listed.
     */
    method Update(playlist: Playlist) returns (updated: bool)
      requires Valid()
      modifies this`playlists, this`rootPlaylists
      ensures Valid()
      ensures updated <==> playlist.id in old(playlists.items)
      ensures !updated ==> playlists == old(playlists) && rootPlaylists == old(rootPlaylists)
      ensures updated ==> playlists.keys == old(playlists.keys) && playlists.items == old(playlists.items)[playlist.id := playlist]
      ensures updated ==>
        var before := old(playlists.items[playlist.id].parentId);
        if before.None? && playlist.parentId.Some? then rootPlaylists == RemoveFirst(old(rootPlaylists), playlist.id)
        else if before.Some? && playlist.parentId.None? then rootPlaylists == AppendMissing(old(rootPlaylists), [playlist.id])
        else rootPlaylists == old(rootPlaylists)
    {
      if playlist.id !in playlists.items {
        return false;
      }
      var previous := playlists.items[playlist.id];
      if previous.parentId != playlist.parentId {
        if previous.parentId.None? && playlist.parentId.Some? {
          if playlist.id in rootPlaylists {
            rootPlaylists := RemoveFirst(rootPlaylists, playlist.id);
          }
        } else if previous.parentId.Some? && playlist.parentId.None? {
          if playlist.id !in rootPlaylists {
            rootPlaylists := rootPlaylists + [playlist.id];
          }
        }
      }
      playlists := playlists.Put(playlist.id, playlist);
      updated := true;
    }

    /**
     * `delete`: false, and nothing changes, when no playlist is stored under the id. Otherwise its entry
     * and the first occurrence of the id among the roots go; then every remaining playlist whose parent
     * was the deleted one loses its parent link and, in table order, its id is appended to the roots
     * unless listed there. Only parent links of stored playlists change: the deleted playlist keeps its
     * own unless the same object is still stored under another id.
     */
    method Delete(playlistId: Uuid) returns (deleted: bool)
      requires Valid()
      modifies this`playlists, this`rootPlaylists, playlists.items.Values`parentId
      ensures Valid()
      ensures deleted <==> playlistId in old(playlists.items)
      ensures !deleted ==> playlists == old(playlists) && rootPlaylists == old(rootPlaylists)
      ensures !deleted ==> forall p :: p in old(playlists.items.Values) ==> unchanged(p)
      ensures deleted ==> playlists == old(playlists.Remove(playlistId))
      ensures deleted ==>
        forall j :: 0 <= j < |playlists.keys| ==>
          playlists.Values()[j].parentId == Reparented(old(ParentsOf(playlists.Remove(playlistId).Values()))[j], playlistId)
      ensures deleted ==>
        rootPlaylists == AppendMissing(RemoveFirst(old(rootPlaylists), playlistId),
          old(Orphans(IdsOf(playlists.Remove(playlistId).Values()), ParentsOf(playlists.Remove(playlistId).Values()), playlistId)))
      ensures deleted && old(playlists.items[playlistId]) !in playlists.items.Values ==>
        old(playlists.items[playlistId]).parentId == old(playlists.items[playlistId].parentId)
    {
      ghost var ids0 := IdsOf(playlists.Remove(playlistId).Values());
      ghost var links0 := ParentsOf(playlists.Remove(playlistId).Values());
      if playlistId !in playlists.items {
        return false;
      }
      rootPlaylists := RemoveFirst(rootPlaylists, playlistId);
      playlists := playlists.Remove(playlistId);
      var ps := playlists.Values();
      AdoptOrphans(ps, playlistId, ids0, links0);
      deleted := true;
    }

    /**
     * The re-parenting loop of `delete(parent)` over the remaining playlists `ps`, in order: each one linked
     * to `parent` loses the link and its id is appended to the roots unless listed there.
     */
    method AdoptOrphans(ps: seq<Playlist>, parent: Uuid, ghost ids0: seq<Uuid>, ghost links0: seq<Option<Uuid>>)
      requires IdsOf(ps) == ids0 && ParentsOf(ps) == links0
      modifies this`rootPlaylists, ps`parentId
      ensures forall j :: 0 <= j < |ps| ==> ps[j].parentId == Reparented(links0[j], parent)
      ensures rootPlaylists == AppendMissing(old(rootPlaylists), Orphans(ids0, links0, parent))
    {
      ghost var roots1 := rootPlaylists;
      for i := 0 to |ps|
        invariant IdsOf(ps) == ids0
        invariant DeleteProgress(ps, ids0, links0, ParentsOf(ps), roots1, rootPlaylists, parent, i)
      {
        ghost var roots, links := rootPlaylists, ParentsOf(ps);
        Reparent(ps[i], parent);
        assert ParentsOf(ps) == Relink(ps, links, i, ps[i].parentId);
        DeleteProgressStep(ps, ids0, links0, links, roots1, roots, parent, i, ps[i].parentId, rootPlaylists);
      }
      assert ids0[..|ps|] == ids0 && links0[..|ps|] == links0;
    }

    /** One turn of the `delete` loop: a playlist linked to `parent` loses the link and becomes a root unless listed. */
    method Reparent(playlist: Playlist, parent: Uuid)
      modifies playlist`parentId, this`rootPlaylists
      ensures old(playlist.parentId) == Some(parent) ==>
        playlist.parentId.None? && rootPlaylists == AppendMissing(old(rootPlaylists), [playlist.id])
      ensures old(playlist.parentId) != Some(parent) ==>
        playlist.parentId == old(playlist.parentId) && rootPlaylists == old(rootPlaylists)
    {
      if playlist.parentId == Some(parent) {
        playlist.parentId := None;
        if playlist.id !in rootPlaylists {
          rootPlaylists := rootPlaylists + [playlist.id];
        }
      }
    }
  }

  /** Appending the missing ids of `xs + [x]` is appending those of `xs`, then `x` unless listed. */
  lemma AppendMissingStep(roots: seq<Uuid>, xs: seq<Uuid>, x: Uuid)
    ensures AppendMissing(roots, xs + [x]) == AppendMissing(AppendMissing(roots, xs), [x])
  {
    assert (xs + [x])[..|xs|] == xs;
  }

  /** One more entry adds its id to the orphans exactly when its link is the deleted parent. */
  lemma OrphansStep(ids: seq<Uuid>, links: seq<Option<Uuid>>, parent: Uuid, i: nat)
    requires |ids| == |links| && i < |ids|
    ensures Orphans(ids[..i + 1], links[..i + 1], parent)
      == Orphans(ids[..i], links[..i], parent) + (if links[i] == Some(parent) then [ids[i]] else [])
  {
    assert ids[..i + 1][..i] == ids[..i] && links[..i + 1][..i] == links[..i];
  }
}
