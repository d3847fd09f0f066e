/**
 * The domain service of the converter: rewriting hot cues as memory cues in place, and merging one
 * library into another with tracks deduplicated by file path.
 */
module Conversion {
  import opened Wrappers
  import opened Ids
  import opened Sequences
  import opened OrderedDicts
  import opened CuePoints
  import opened CueTypes
  import opened Tracks
  import opened Playlists
  import opened Collections

  /** `[t.file_path for t in ts]`, over track states. */
  function FilePaths(ss: seq<TrackState>): (ps: seq<string>)
    ensures |ps| == |ss| && forall i :: 0 <= i < |ss| ==> ps[i] == ss[i].details.filePath
  {
    seq(|ss|, i requires 0 <= i < |ss| => ss[i].details.filePath)
  }

  /** `[t.id for t in ts]`, over track states. */
  function TrackIds(ss: seq<TrackState>): (r: seq<Uuid>)
    ensures |r| == |ss| && forall i :: 0 <= i < |ss| ==> r[i] == ss[i].id
  {
    seq(|ss|, i requires 0 <= i < |ss| => ss[i].id)
  }

  lemma FilePathsAppend(a: seq<TrackState>, b: seq<TrackState>)
    ensures FilePaths(a + b) == FilePaths(a) + FilePaths(b)
  {
    assert forall i :: 0 <= i < |a + b| ==> FilePaths(a + b)[i] == (FilePaths(a) + FilePaths(b))[i];
  }

  lemma TrackIdsAppend(a: seq<TrackState>, b: seq<TrackState>)
    ensures TrackIds(a + b) == TrackIds(a) + TrackIds(b)
  {
    assert forall i :: 0 <= i < |a + b| ==> TrackIds(a + b)[i] == (TrackIds(a) + TrackIds(b))[i];
  }

  /**
   * A track as `merge_collections` builds it from a source track in state `s`: the same details and
   * containers, the given new id, imported `now`, never played.
   */
  function MergedState(s: TrackState, id: Uuid, now: Timestamp): (r: TrackState)
    ensures r.details == s.details && r.cuePoints == s.cuePoints && r.loops == s.loops
    ensures r.beatGrid == s.beatGrid && r.customTags == s.customTags
    ensures r.id == id && r.importDate == now && r.lastPlayed == None && r.playCount == 0
  {
    s.(id := id, importDate := now, lastPlayed := None, playCount := 0)
  }

  /**
   * `next((t for t in ts if t.file_path == path), None)`, as a position: the first track with exactly this
   * path, or nothing when no track has it.
   */
  function FirstWithPath(ts: seq<Track>, path: string): (r: Option<nat>)
    reads ts
    ensures r.None? <==> path !in FilePaths(States(ts))
    ensures r.Some? ==> path in FilePaths(States(ts)) && r.value == FirstIndex(FilePaths(States(ts)), path)
  {
    if ts == [] then None
    else
      assert States(ts) == [ts[0].State()] + States(ts[1..]);
      FilePathsAppend([ts[0].State()], States(ts[1..]));
      if ts[0].filePath == path then Some(0)
      else match FirstWithPath(ts[1..], path)
        case None => None
        case Some(i) => Some(i + 1)
  }

  /**
   * The paths a merge adds, in order: each path of `ps` that is not `known` and not met earlier in `ps`.
   * The merge adds one track for each of them.
   */
  function NewPaths(ps: seq<string>, known: seq<string>): (r: seq<string>)
    ensures Distinct(r)
    ensures forall p :: p in r <==> p in ps && p !in known
  {
    if ps == [] then []
    else
      var prev := NewPaths(ps[..|ps| - 1], known);
      var p := ps[|ps| - 1];
      assert forall q :: q in ps <==> q in ps[..|ps| - 1] || q == p;
      if p in known || p in prev then prev else prev + [p]
  }

  /** Taking one more source path adds it to the new paths exactly when it is neither known nor new already. */
  lemma NewPathsStep(ps: seq<string>, i: nat, known: seq<string>)
    requires i < |ps|
    ensures NewPaths(ps[..i + 1], known) ==
      if ps[i] in known || ps[i] in NewPaths(ps[..i], known) then NewPaths(ps[..i], known)
      else NewPaths(ps[..i], known) + [ps[i]]
  {
    assert ps[..i + 1][..i] == ps[..i];
  }

  /** The merge adds exactly as many tracks as there are distinct source paths the target did not have. */
  lemma NewPathsCount(ps: seq<string>, known: seq<string>)
    ensures |NewPaths(ps, known)| == |set p | p in ps && p !in known|
  {
    var r := NewPaths(ps, known);
    assert (set p | p in ps && p !in known) == set p | p in r;
    DistinctCard(r);
  }

  lemma {:induction false} DistinctCard(r: seq<string>)
    requires Distinct(r)
    ensures |set p | p in r| == |r|
  {
    if r != [] {
      var init := r[..|r| - 1];
      assert Distinct(init);
      DistinctCard(init);
      assert (set p | p in r) == (set p | p in init) + {r[|r| - 1]};
    }
  }

  /**
   * The target's track states after the track half of a merge, starting from target states `s0` and taking
   * the source states `ss` in order: a source track whose path the target has by then is skipped, any other
   * is copied with id `ids[i]`.
   */
  ghost function MergeStates(s0: seq<TrackState>, ss: seq<TrackState>, ids: seq<Uuid>, now: Timestamp): seq<TrackState>
    requires |ids| == |ss|
  {
    if ss == [] then s0
    else
      var n := |ss| - 1;
      var s := MergeStates(s0, ss[..n], ids[..n], now);
      if ss[n].details.filePath in FilePaths(s) then s else s + [MergedState(ss[n], ids[n], now)]
  }

  /** One more source track: the definition of `MergeStates` read forwards, as the merge loop runs. */
  lemma MergeStatesStep(s0: seq<TrackState>, ss: seq<TrackState>, ids: seq<Uuid>, now: Timestamp, i: nat, id: Uuid)
    requires |ids| == i < |ss|
    ensures MergeStates(s0, ss[..i + 1], ids + [id], now) ==
      var s := MergeStates(s0, ss[..i], ids, now);
      if ss[i].details.filePath in FilePaths(s) then s else s + [MergedState(ss[i], id, now)]
  {
    assert ss[..i + 1][..i] == ss[..i];
    assert (ids + [id])[..i] == ids;
  }

  /**
   * The paths after the merge are the target's paths followed by the source paths it lacked, each once and
   * in source order; every source path is then present.
   */
  lemma {:induction false} MergeStatesPaths(s0: seq<TrackState>, ss: seq<TrackState>, ids: seq<Uuid>, now: Timestamp)
    requires |ids| == |ss|
    ensures FilePaths(MergeStates(s0, ss, ids, now)) == FilePaths(s0) + NewPaths(FilePaths(ss), FilePaths(s0))
    ensures forall m :: 0 <= m < |ss| ==> ss[m].details.filePath in FilePaths(MergeStates(s0, ss, ids, now))
  {
    if ss != [] {
      var n := |ss| - 1;
      var s := MergeStates(s0, ss[..n], ids[..n], now);
      MergeStatesPaths(s0, ss[..n], ids[..n], now);
      var ps := FilePaths(ss);
      assert ps[..n] == FilePaths(ss[..n]);
      var r := MergeStates(s0, ss, ids, now);
      if ss[n].details.filePath !in FilePaths(s) {
        FilePathsAppend(s, [MergedState(ss[n], ids[n], now)]);
      }
      assert forall m :: 0 <= m < n ==> ss[m] == ss[..n][m];
    }
  }

  /** The merge keeps the target's states, in order, ahead of the copies. */
  lemma {:induction false} MergeStatesPrefix(s0: seq<TrackState>, ss: seq<TrackState>, ids: seq<Uuid>, now: Timestamp)
    requires |ids| == |ss|
    ensures |MergeStates(s0, ss, ids, now)| >= |s0| && MergeStates(s0, ss, ids, now)[..|s0|] == s0
  {
    if ss != [] {
      var n := |ss| - 1;
      MergeStatesPrefix(s0, ss[..n], ids[..n], now);
    }
  }

  /** Each state after the target's own is a copy, made by `MergedState`, of the first source track with its path. */
  lemma {:induction false} MergeStatesCopies(s0: seq<TrackState>, ss: seq<TrackState>, ids: seq<Uuid>, now: Timestamp)
    requires |ids| == |ss|
    ensures forall j :: |s0| <= j < |MergeStates(s0, ss, ids, now)| ==>
      var t := MergeStates(s0, ss, ids, now)[j];
      t.details.filePath in FilePaths(ss)
      && t == MergedState(ss[FirstIndex(FilePaths(ss), t.details.filePath)], t.id, now)
  {
    if ss != [] {
      var n := |ss| - 1;
      var s := MergeStates(s0, ss[..n], ids[..n], now);
      MergeStatesCopies(s0, ss[..n], ids[..n], now);
      var ps := FilePaths(ss);
      assert ps == FilePaths(ss[..n]) + [ss[n].details.filePath];
      forall j | |s0| <= j < |s|
        ensures s[j].details.filePath in ps
        ensures s[j] == MergedState(ss[FirstIndex(ps, s[j].details.filePath)], s[j].id, now)
      {
        var q := s[j].details.filePath;
        FirstIndexAppend(FilePaths(ss[..n]), ss[n].details.filePath, q);
        assert ss[FirstIndex(ps, q)] == ss[..n][FirstIndex(FilePaths(ss[..n]), q)];
      }
      if ss[n].details.filePath !in FilePaths(s) {
        MergeStatesLast(s0, ss, ids, now);
      }
    }
  }

  /** A source track whose path is not in the target by its turn is the first source track with that path. */
  lemma MergeStatesLast(s0: seq<TrackState>, ss: seq<TrackState>, ids: seq<Uuid>, now: Timestamp)
    requires |ids| == |ss| && ss != []
    requires ss[|ss| - 1].details.filePath !in FilePaths(MergeStates(s0, ss[..|ss| - 1], ids[..|ss| - 1], now))
    ensures FirstIndex(FilePaths(ss), ss[|ss| - 1].details.filePath) == |ss| - 1
  {
    var n := |ss| - 1;
    var p := ss[n].details.filePath;
    MergeStatesPaths(s0, ss[..n], ids[..n], now);
    assert forall m :: 0 <= m < n ==> FilePaths(ss)[m] == ss[..n][m].details.filePath;
    FirstIndexUnique(FilePaths(ss), p, n);
  }

  /**
   * The table built so far: the `m`-th source track went to the id of the first target track with its path,
   * in the target states `s`.
   */
  ghost predicate Matched(ss: seq<TrackState>, ids: seq<Uuid>, s: seq<TrackState>)
  {
    |ids| <= |ss|
    && forall m :: 0 <= m < |ids| ==>
         ss[m].details.filePath in FilePaths(s)
         && ids[m] == TrackIds(s)[FirstIndex(FilePaths(s), ss[m].details.filePath)]
  }

  /** Taking one more source track keeps the table right: the ids already given still name the first match. */
  lemma MatchedStep(ss: seq<TrackState>, ids: seq<Uuid>, s: seq<TrackState>, id: Uuid, x: TrackState)
    requires Matched(ss, ids, s) && |ids| < |ss|
    requires x.details.filePath == ss[|ids|].details.filePath && x.id == id
    requires ss[|ids|].details.filePath in FilePaths(s) ==>
      id == TrackIds(s)[FirstIndex(FilePaths(s), ss[|ids|].details.filePath)]
    ensures Matched(ss, ids + [id], if ss[|ids|].details.filePath in FilePaths(s) then s else s + [x])
  {
    var p := ss[|ids|].details.filePath;
    if p !in FilePaths(s) {
      var s' := s + [x];
      FilePathsAppend(s, [x]);
      TrackIdsAppend(s, [x]);
      assert FilePaths(s') == FilePaths(s) + [p];
      forall m | 0 <= m <= |ids|
        ensures ss[m].details.filePath in FilePaths(s')
        ensures FirstIndex(FilePaths(s'), ss[m].details.filePath) ==
          if m < |ids| then FirstIndex(FilePaths(s), ss[m].details.filePath) else |s|
      {
        var q := ss[m].details.filePath;
        assert q in FilePaths(s) + [p];
        FirstIndexAppend(FilePaths(s), p, q);
      }
    }
  }

  /** The keys the merge added so far: outside the target's original keys, each the id of its track. */
  ghost predicate NewKeys(newKeys: seq<Uuid>, taken: set<Uuid>, s0: seq<TrackState>, s: seq<TrackState>)
  {
    |s| == |s0| + |newKeys|
    && forall j :: 0 <= j < |newKeys| ==> newKeys[j] !in taken && newKeys[j] == s[|s0| + j].id
  }

  /** A copy stored under its own new id keeps the added keys in step with the added states. */
  lemma NewKeysStep(newKeys: seq<Uuid>, taken: set<Uuid>, s0: seq<TrackState>, s: seq<TrackState>, x: TrackState)
    requires NewKeys(newKeys, taken, s0, s) && x.id !in taken
    ensures NewKeys(newKeys + [x.id], taken, s0, s + [x])
  {
  }

  /**
   * What the track merge loop keeps after `i` source tracks, about values alone: the target's states are
   * `MergeStates` of the first `i` source states, the table so far names first matches, and the added keys are
   * new and belong to the added states.
   */
  ghost predicate MergeProgress(s0: seq<TrackState>, ss: seq<TrackState>, now: Timestamp, taken: set<Uuid>, i: nat,
                                cur: seq<TrackState>, chosen: seq<Uuid>, newKeys: seq<Uuid>)
  {
    |chosen| == i <= |ss| && cur == MergeStates(s0, ss[..i], chosen, now)
    && Matched(ss, chosen, cur) && NewKeys(newKeys, taken, s0, cur)
  }

  /** One more source track, matched to `id`: an existing target id, or a new one when its path is new. */
  lemma MergeProgressStep(s0: seq<TrackState>, ss: seq<TrackState>, now: Timestamp, taken: set<Uuid>, i: nat,
                          cur: seq<TrackState>, chosen: seq<Uuid>, newKeys: seq<Uuid>, id: Uuid)
    returns (cur': seq<TrackState>, newKeys': seq<Uuid>)
    requires MergeProgress(s0, ss, now, taken, i, cur, chosen, newKeys) && i < |ss|
    requires ss[i].details.filePath in FilePaths(cur) ==> id == TrackIds(cur)[FirstIndex(FilePaths(cur), ss[i].details.filePath)]
    requires ss[i].details.filePath !in FilePaths(cur) ==> id !in taken
    ensures MergeProgress(s0, ss, now, taken, i + 1, cur', chosen + [id], newKeys')
    ensures ss[i].details.filePath in FilePaths(cur) ==> cur' == cur && newKeys' == newKeys
    ensures ss[i].details.filePath !in FilePaths(cur) ==>
      cur' == cur + [MergedState(ss[i], id, now)] && newKeys' == newKeys + [id]
  {
    MergeStatesStep(s0, ss, chosen, now, i, id);
    var copy := MergedState(ss[i], id, now);
    MatchedStep(ss, chosen, cur, id, copy);
    if ss[i].details.filePath !in FilePaths(cur) {
      NewKeysStep(newKeys, taken, s0, cur, copy);
      cur', newKeys' := cur + [copy], newKeys + [id];
    } else {
      cur', newKeys' := cur, newKeys;
    }
  }

  /**
   * The track half of a merge, from target states `s0` under keys `k0` to states `s` under keys `keys`: the
   * original entries stay first; the paths are the original ones followed by the source paths they lacked,
   * in source order; each added entry is a `MergedState` copy of the first source track with its path,
   * under its own id, which is not one of the `taken` ids.
   */
  ghost predicate TracksMerged(s0: seq<TrackState>, ss: seq<TrackState>, k0: seq<Uuid>, keys: seq<Uuid>,
                               taken: set<Uuid>, s: seq<TrackState>, now: Timestamp)
  {
    |k0| == |s0| && |keys| == |s| && |s| >= |s0| && keys[..|k0|] == k0 && s[..|s0|] == s0
    && FilePaths(s) == FilePaths(s0) + NewPaths(FilePaths(ss), FilePaths(s0))
    && forall j :: |s0| <= j < |s| ==>
         keys[j] == s[j].id && s[j].id !in taken
         && s[j].details.filePath in FilePaths(ss)
         && s[j] == MergedState(ss[FirstIndex(FilePaths(ss), s[j].details.filePath)], s[j].id, now)
  }

  /**
   * The id table of a merge: exactly the source keys are mapped, each to the id of the first state in `s`
   * with the path of the source track under that key.
   */
  ghost predicate MappedToFirst(ss: seq<TrackState>, keys: seq<Uuid>, table: map<Uuid, Uuid>, s: seq<TrackState>)
  {
    |keys| == |ss|
    && (forall k :: k in table <==> k in keys)
    && forall m :: 0 <= m < |keys| ==>
         ss[m].details.filePath in FilePaths(s)
         && table[keys[m]] == TrackIds(s)[FirstIndex(FilePaths(s), ss[m].details.filePath)]
  }

  /** The id table after `i` turns of the track merge loop: the first `i` source keys, each to its chosen id. */
  ghost predicate MappedSoFar(keys: seq<Uuid>, i: nat, table: map<Uuid, Uuid>, chosen: seq<Uuid>)
  {
    i <= |keys| && |chosen| == i
    && (forall m :: 0 <= m < i ==> keys[m] in table && table[keys[m]] == chosen[m])
    && forall k :: k in table ==> k in keys[..i]
  }

  /** One more source key mapped to the id chosen for it. */
  lemma MappedSoFarStep(keys: seq<Uuid>, i: nat, table: map<Uuid, Uuid>, chosen: seq<Uuid>, id: Uuid)
    requires Distinct(keys) && i < |keys| && MappedSoFar(keys, i, table, chosen)
    ensures MappedSoFar(keys, i + 1, table[keys[i] := id], chosen + [id])
  {
    TakeSnoc(keys, i);
  }

  /** The table the track merge loop filled, one chosen id per source key, is the table of first matches. */
  lemma MappedToFirstDone(ss: seq<TrackState>, keys: seq<Uuid>, table: map<Uuid, Uuid>, chosen: seq<Uuid>,
                          s: seq<TrackState>)
    requires |keys| == |ss| && MappedSoFar(keys, |keys|, table, chosen)
    requires forall m :: 0 <= m < |ss| ==>
      ss[m].details.filePath in FilePaths(s) && chosen[m] == TrackIds(s)[FirstIndex(FilePaths(s), ss[m].details.filePath)]
    ensures MappedToFirst(ss, keys, table, s)
  {
    assert keys[..|keys|] == keys;
  }

  /** What the finished track merge loop gives. */
  lemma MergeProgressDone(s0: seq<TrackState>, ss: seq<TrackState>, now: Timestamp, taken: set<Uuid>,
                          cur: seq<TrackState>, chosen: seq<Uuid>, newKeys: seq<Uuid>, k0: seq<Uuid>)
    requires MergeProgress(s0, ss, now, taken, |ss|, cur, chosen, newKeys) && |k0| == |s0|
    ensures TracksMerged(s0, ss, k0, k0 + newKeys, taken, cur, now)
    ensures forall m :: 0 <= m < |ss| ==>
      ss[m].details.filePath in FilePaths(cur) && chosen[m] == TrackIds(cur)[FirstIndex(FilePaths(cur), ss[m].details.filePath)]
  {
    assert ss[..|ss|] == ss;
    MergeStatesPaths(s0, ss, chosen, now);
    MergeStatesPrefix(s0, ss, chosen, now);
    MergeStatesCopies(s0, ss, chosen, now);
    NewKeysAfterOld(newKeys, taken, s0, cur, k0);
  }

  /** Behind the original keys, the added keys name the added states and none of them was taken. */
  lemma NewKeysAfterOld(newKeys: seq<Uuid>, taken: set<Uuid>, s0: seq<TrackState>, s: seq<TrackState>, k0: seq<Uuid>)
    requires NewKeys(newKeys, taken, s0, s) && |k0| == |s0|
    ensures |k0 + newKeys| == |s|
    ensures forall j :: |s0| <= j < |s| ==> (k0 + newKeys)[j] == s[j].id && s[j].id !in taken
  {
    forall j | |s0| <= j < |s|
      ensures (k0 + newKeys)[j] == s[j].id && s[j].id !in taken
    {
      assert (k0 + newKeys)[j] == newKeys[j - |s0|];
    }
  }

  /** The target's side of the track merge loop: original entries kept, new keys appended, states as `cur`. */
  ghost predicate TargetTracks(target: Collection, k0: seq<Uuid>, items0: map<Uuid, Track>, cur: seq<TrackState>,
                               newKeys: seq<Uuid>)
    reads target, target.tracks.items.Values
  {
    target.Valid() && target.tracks.keys == k0 + newKeys
    && (forall k :: k in items0 ==> k in target.tracks.items && target.tracks.items[k] == items0[k])
    && States(target.tracks.Values()) == cur
  }

  /**
   * `np` is the merge's copy of source playlist `sp`: same name and description, no parent, no children,
   * and the track ids of `sp` that have an entry in the id table, mapped through it, in order.
   */
  ghost predicate CopiedPlaylist(np: Playlist, sp: Playlist, table: map<Uuid, Uuid>)
    reads np, sp
  {
    np.name == sp.name && np.description == sp.description && np.trackIds == Present(sp.trackIds, table)
    && np.parentId.None? && np.children == []
  }

  /**
   * The playlists `made` are the merge's copies of `sps`, one each and in the same order, and each one's id
   * is the matching entry of `ks`.
   */
  ghost predicate PlaylistsCopied(ks: seq<Uuid>, made: seq<Playlist>, sps: seq<Playlist>, table: map<Uuid, Uuid>)
    reads made, sps
  {
    |ks| == |made| == |sps|
    && forall j :: 0 <= j < |made| ==> made[j].id == ks[j] && CopiedPlaylist(made[j], sps[j], table)
  }

  /**
   * The playlist half of a merge, from table `d0` and roots `roots0` to `d` and `roots`: the original
   * entries stay, first and unchanged; after them come, under ids `d0` did not use, the copies of `sps`
   * one for one, and their ids are appended to the roots.
   */
  ghost predicate PlaylistsMerged(d0: ODict<Uuid, Playlist>, roots0: seq<Uuid>, d: ODict<Uuid, Playlist>, roots: seq<Uuid>,
                                  sps: seq<Playlist>, table: map<Uuid, Uuid>)
    requires d.Valid()
    reads d.items.Values, sps
  {
    |d.keys| == |d0.keys| + |sps| && d.keys[..|d0.keys|] == d0.keys
    && (forall k :: k in d0.items ==> k in d.items && d.items[k] == d0.items[k])
    && roots == roots0 + d.keys[|d0.keys|..]
    && (forall k :: k in d.keys[|d0.keys|..] ==> k !in d0.items)
    && PlaylistsCopied(d.keys[|d0.keys|..], d.Values()[|d0.keys|..], sps, table)
  }

  /** Adding one more copy under a new id keeps `PlaylistsMerged`. */
  lemma PlaylistsMergedStep(d0: ODict<Uuid, Playlist>, roots0: seq<Uuid>, d: ODict<Uuid, Playlist>, roots: seq<Uuid>,
                            sps: seq<Playlist>, i: nat, table: map<Uuid, Uuid>, key: Uuid, p: Playlist)
    requires i < |sps| && d.Valid() && PlaylistsMerged(d0, roots0, d, roots, sps[..i], table)
    requires key !in d.items && p.id == key && CopiedPlaylist(p, sps[i], table)
    ensures d.Put(key, p).Valid() && PlaylistsMerged(d0, roots0, d.Put(key, p), roots + [key], sps[..i + 1], table)
    ensures d.Put(key, p).Values()[|d0.keys|..] == d.Values()[|d0.keys|..] + [p]
  {
    var n0, e := |d0.keys|, d.Put(key, p);
    PutNewValues(d, key, p);
    assert e.keys[n0..] == d.keys[n0..] + [key];
    assert e.Values()[n0..] == d.Values()[n0..] + [p];
    assert sps[..i + 1] == sps[..i] + [sps[i]];
    assert key !in d0.items by {
      assert d0.keys == d.keys[..n0];
    }
  }

  /** Appending one key after a concatenation. */
  lemma SnocAssoc(k0: seq<Uuid>, ks: seq<Uuid>, k: Uuid)
    ensures (k0 + ks) + [k] == k0 + (ks + [k])
  {
  }

  class ConversionService {
    const cueTypeMapping: CueTypeMapping

    /** `ConversionService(mapping)`: the given table, or the default one. */
    constructor (cueTypeMapping: Option<CueTypeMapping>)
      ensures cueTypeMapping.Some? ==> this.cueTypeMapping == cueTypeMapping.value
      ensures cueTypeMapping.None? ==> this.cueTypeMapping == NewCueTypeMapping(None)
    {
      this.cueTypeMapping := if cueTypeMapping.Some? then cueTypeMapping.value else NewCueTypeMapping(None);
    }

    /**
     * `convert_hot_cues_to_memory_cues`: every cue of every track becomes a memory cue if it was a hot cue
     * and keeps its type otherwise; each track keeps the same cue objects in the same order, and the
     * collection itself is returned. Only the cue types change (cues shared between tracks are fine,
     * since the rewrite is idempotent).
     */
    method ConvertHotCuesToMemoryCues(collection: Collection) returns (r: Collection)
      requires collection.Valid()
      modifies collection.tracks.items.Values`cuePoints, CuesOf(collection.tracks.items.Values)`cueType
      ensures r == collection
      ensures forall t :: t in collection.tracks.items.Values ==> t.cuePoints == old(t.cuePoints)
      ensures forall t, c :: t in collection.tracks.items.Values && c in t.cuePoints ==> c.cueType == HotToMemory(old(c.cueType))
    {
      ghost var tracks := collection.tracks.items.Values;
      ghost var cues := CuesOf(tracks);
      assert forall t, c :: t in tracks && c in t.cuePoints ==> c in cues;
      ghost var converted: set<CuePoint> := {};
      var keys, ts := collection.tracks.keys, collection.tracks.Values();
      assert forall j :: 0 <= j < |ts| ==> ts[j] in tracks;
      for i := 0 to |keys|
        invariant forall t :: t in tracks ==> t.cuePoints == old(t.cuePoints)
        invariant forall c :: c in cues ==> c.cueType == if c in converted then HotToMemory(old(c.cueType)) else old(c.cueType)
        invariant forall j, c :: 0 <= j < i && c in ts[j].cuePoints ==> c in converted
      {
        var track := ts[i];
        ConvertTrackCues(track);
        converted := converted + set c | c in track.cuePoints;
      }
      forall t | t in tracks
        ensures forall c :: c in t.cuePoints ==> c in converted
      {
        var k :| k in collection.tracks.items && collection.tracks.items[k] == t;
        assert ts[FirstIndex(keys, k)] == t;
      }
      r := collection;
    }

    /** The loop body of the conversion for one track: its cues keep their order, hot cues become memory cues. */
    method ConvertTrackCues(track: Track)
      modifies track`cuePoints, (set c | c in track.cuePoints)`cueType
      ensures track.cuePoints == old(track.cuePoints)
      ensures forall c :: c in track.cuePoints ==> c.cueType == HotToMemory(old(c.cueType))
    {
      var converted: seq<CuePoint> := [];
      for k := 0 to |track.cuePoints|
        invariant track.cuePoints == old(track.cuePoints)
        invariant converted == track.cuePoints[..k]
        invariant forall c :: c in old(track.cuePoints) && c !in converted ==> c.cueType == old(c.cueType)
        invariant forall c :: c in converted ==> c.cueType == HotToMemory(old(c.cueType))
      {
        var cue := track.cuePoints[k];
        if cue.cueType == HotCue {
          var same := cue.ToMemoryCue();
          converted := converted + [same];
        } else {
          converted := converted + [cue];
        }
      }
      track.cuePoints := converted;
    }

    /**
     * The track half of `merge_collections`: for each source track, in order, the first target track with
     * exactly the same file path is reused; otherwise a copy with a new id is added to the target. The table
     * sends each source key to the id of the track it was matched with or copied to.
     */
    method MergeTracks(source: Collection, target: Collection, now: Timestamp) returns (idMapping: map<Uuid, Uuid>)
      requires source != target && source.Valid() && target.Valid()
      modifies target`tracks
      ensures target.Valid()
      ensures forall k :: k in old(target.tracks.items) ==>
        k in target.tracks.items && target.tracks.items[k] == old(target.tracks.items[k])
      ensures TracksMerged(old(States(target.tracks.Values())), States(source.tracks.Values()), old(target.tracks.keys),
                           target.tracks.keys, old(target.tracks.items.Keys), States(target.tracks.Values()), now)
      ensures MappedToFirst(States(source.tracks.Values()), source.tracks.keys, idMapping, States(target.tracks.Values()))
    {
      ghost var k0 := target.tracks.keys;
      ghost var items0 := target.tracks.items;
      ghost var ss := States(source.tracks.Values());
      ghost var s0 := States(target.tracks.Values());
      ghost var cur := s0;
      ghost var chosen: seq<Uuid> := [];
      ghost var newKeys: seq<Uuid> := [];
      idMapping := map[];
      var keys := source.tracks.keys;
      assert Distinct(keys);
      for i := 0 to |keys|
        invariant TargetTracks(target, k0, items0, cur, newKeys)
        invariant MergeProgress(s0, ss, now, items0.Keys, i, cur, chosen, newKeys)
        invariant MappedSoFar(keys, i, idMapping, chosen)
      {
        var track := source.tracks.items[keys[i]];
        assert track.State() == ss[i];
        var mappedId;
        ghost var prev := chosen;
        mappedId, cur, chosen, newKeys := MergeTrackStep(track, target, now, k0, items0, s0, ss, i, cur, chosen, newKeys);
        MappedSoFarStep(keys, i, idMapping, prev, mappedId);
        idMapping := idMapping[keys[i] := mappedId];
      }
      MergeProgressDone(s0, ss, now, items0.Keys, cur, chosen, newKeys, k0);
      MappedToFirstDone(ss, keys, idMapping, chosen, cur);
      assert States(source.tracks.Values()) == ss && States(target.tracks.Values()) == cur;
    }

    /** One turn of the track merge loop: `MergeTrack`, with the bookkeeping that carries its invariant. */
    method MergeTrackStep(track: Track, target: Collection, now: Timestamp, ghost k0: seq<Uuid>,
                          ghost items0: map<Uuid, Track>, ghost s0: seq<TrackState>, ghost ss: seq<TrackState>,
                          ghost i: nat, ghost cur: seq<TrackState>, ghost chosen: seq<Uuid>, ghost newKeys: seq<Uuid>)
      returns (mappedId: Uuid, ghost cur': seq<TrackState>, ghost chosen': seq<Uuid>, ghost newKeys': seq<Uuid>)
      requires TargetTracks(target, k0, items0, cur, newKeys)
      requires MergeProgress(s0, ss, now, items0.Keys, i, cur, chosen, newKeys)
      requires i < |ss| && track.State() == ss[i]
      modifies target`tracks
      ensures TargetTracks(target, k0, items0, cur', newKeys')
      ensures MergeProgress(s0, ss, now, items0.Keys, i + 1, cur', chosen', newKeys')
      ensures chosen' == chosen + [mappedId]
    {
      ghost var before := target.tracks;
      mappedId := MergeTrack(track, ss[i], target, now, cur);
      if ss[i].details.filePath in FilePaths(cur) {
        assert target.tracks == before;
      } else {
        assert mappedId !in items0;
        SnocAssoc(k0, newKeys, mappedId);
      }
      cur', newKeys' := MergeProgressStep(s0, ss, now, items0.Keys, i, cur, chosen, newKeys, mappedId);
      chosen' := chosen + [mappedId];
    }

    /**
     * The loop body of the track half of `merge_collections` for one source track: the id of the first target
     * track with the same path, or else the id of a copy appended to the target.
     */
    method MergeTrack(track: Track, ghost state: TrackState, target: Collection, now: Timestamp, ghost cur: seq<TrackState>)
      returns (mappedId: Uuid)
      requires target.Valid() && States(target.tracks.Values()) == cur && track.State() == state
      modifies target`tracks
      ensures target.Valid()
      ensures state.details.filePath in FilePaths(cur) ==>
        target.tracks == old(target.tracks)
        && mappedId == TrackIds(cur)[FirstIndex(FilePaths(cur), state.details.filePath)]
      ensures state.details.filePath !in FilePaths(cur) ==>
        mappedId !in old(target.tracks.items)
        && target.tracks.keys == old(target.tracks.keys) + [mappedId]
        && (forall k :: k in old(target.tracks.items) ==>
             k in target.tracks.items && target.tracks.items[k] == old(target.tracks.items[k]))
        && States(target.tracks.Values()) == cur + [MergedState(state, mappedId, now)]
    {
      var values := target.tracks.Values();
      var existing := FirstWithPath(values, track.filePath);
      if existing.Some? {
        mappedId := values[existing.value].id;
      } else {
        mappedId := CopyTrack(track, target, now);
      }
    }

    /** The copy `merge_collections` adds for a source track whose path the target lacks, under a new id. */
    method CopyTrack(track: Track, target: Collection, now: Timestamp) returns (newId: Uuid)
      requires target.Valid()
      modifies target`tracks
      ensures target.Valid()
      ensures newId !in old(target.tracks.items)
      ensures target.tracks.keys == old(target.tracks.keys) + [newId]
      ensures forall k :: k in old(target.tracks.items) ==>
        k in target.tracks.items && target.tracks.items[k] == old(target.tracks.items[k])
      ensures States(target.tracks.Values()) == old(States(target.tracks.Values())) + [MergedState(track.State(), newId, now)]
    {
      var values := target.tracks.Values();
      var t := new Track(target.tracks.items.Keys, now, track.Details(), track.cuePoints, track.loops,
                         track.beatGrid, track.customTags);
      PutNewValues(target.tracks, t.id, t);
      newId := target.AddTrack(t);
      StatesAppend(values, [t]);
    }

    /**
     * The playlist half of `merge_collections`: each source playlist, in table order, becomes one new target
     * playlist under a fresh id, with no parent (so it is appended to the roots), its name and description,
     * and its track ids looked up in the id table.
     */
    method MergePlaylists(source: Collection, target: Collection, idMapping: map<Uuid, Uuid>)
      requires source != target && source.Valid() && target.Valid()
      modifies target`playlists, target`rootPlaylists
      ensures target.Valid()
      ensures PlaylistsMerged(old(target.playlists), old(target.rootPlaylists), target.playlists, target.rootPlaylists,
                              source.playlists.Values(), idMapping)
      ensures forall p :: p in target.playlists.Values()[|old(target.playlists.keys)|..] ==> fresh(p)
      ensures States(target.tracks.Values()) == old(States(target.tracks.Values()))
      ensures States(source.tracks.Values()) == old(States(source.tracks.Values()))
    {
      ghost var d0, roots0 := target.playlists, target.rootPlaylists;
      ghost var n0 := |d0.keys|;
      ghost var sps := source.playlists.Values();
      var keys := source.playlists.keys;
      for i := 0 to |keys|
        invariant target.Valid()
        invariant PlaylistsMerged(d0, roots0, target.playlists, target.rootPlaylists, sps[..i], idMapping)
        invariant forall p :: p in target.playlists.Values()[n0..] ==> fresh(p)
      {
        ghost var made := MergePlaylistStep(source, target, idMapping, d0, roots0, sps, i);
      }
      assert sps[..|keys|] == sps;
    }

    /** One turn of the playlist merge loop: the copy of the `i`-th source playlist joins the merged ones. */
    method MergePlaylistStep(source: Collection, target: Collection, idMapping: map<Uuid, Uuid>,
                             ghost d0: ODict<Uuid, Playlist>, ghost roots0: seq<Uuid>, ghost sps: seq<Playlist>, i: nat)
      returns (ghost made: Playlist)
      requires source != target && source.Valid() && target.Valid()
      requires sps == source.playlists.Values() && i < |sps|
      requires PlaylistsMerged(d0, roots0, target.playlists, target.rootPlaylists, sps[..i], idMapping)
      modifies target`playlists, target`rootPlaylists
      ensures target.Valid()
      ensures PlaylistsMerged(d0, roots0, target.playlists, target.rootPlaylists, sps[..i + 1], idMapping)
      ensures fresh(made)
      ensures target.playlists.Values()[|d0.keys|..] == old(target.playlists.Values()[|d0.keys|..]) + [made]
    {
      ghost var before, roots := target.playlists, target.rootPlaylists;
      var key := CopyPlaylist(source.playlists.items[source.playlists.keys[i]], target, idMapping);
      made := target.playlists.items[key];
      PlaylistsMergedStep(d0, roots0, before, roots, sps, i, idMapping, key, made);
    }

    /** One turn of the playlist merge loop: a copy of `playlist` is added to `target` under a fresh id. */
    method CopyPlaylist(playlist: Playlist, target: Collection, idMapping: map<Uuid, Uuid>) returns (key: Uuid)
      requires target.Valid()
      modifies target`playlists, target`rootPlaylists
      ensures target.Valid() && key !in old(target.playlists.items) && key in target.playlists.items
      ensures target.playlists == old(target.playlists).Put(key, target.playlists.items[key])
      ensures target.rootPlaylists == old(target.rootPlaylists) + [key]
      ensures fresh(target.playlists.items[key]) && target.playlists.items[key].id == key
      ensures CopiedPlaylist(target.playlists.items[key], playlist, idMapping)
    {
      var newPlaylist := new Playlist(None, target.playlists.items.Keys, playlist.name, playlist.description,
                                      Present(playlist.trackIds, idMapping), None);
      key := target.AddPlaylist(newPlaylist);
    }

    /**
     * `merge_collections`: the tracks of `source` are merged into `target` as `MergeTracks` states, then its
     * playlists as `MergePlaylists` states, with the id table of the first step; `target` is returned.
     */
    method MergeCollections(source: Collection, target: Collection, now: Timestamp)
      returns (r: Collection, ghost idMapping: map<Uuid, Uuid>)
      requires source != target && source.Valid() && target.Valid()
      modifies target`tracks, target`playlists, target`rootPlaylists
      ensures r == target && target.Valid()
      ensures TracksMerged(old(States(target.tracks.Values())), States(source.tracks.Values()), old(target.tracks.keys),
                           target.tracks.keys, old(target.tracks.items.Keys), States(target.tracks.Values()), now)
      ensures MappedToFirst(States(source.tracks.Values()), source.tracks.keys, idMapping, States(target.tracks.Values()))
      ensures PlaylistsMerged(old(target.playlists), old(target.rootPlaylists), target.playlists, target.rootPlaylists,
                              source.playlists.Values(), idMapping)
      ensures forall p :: p in target.playlists.Values()[|old(target.playlists.keys)|..] ==> fresh(p)
    {
      var table := MergeTracks(source, target, now);
      MergePlaylists(source, target, table);
      idMapping := table;
      r := target;
    }
  }
}
