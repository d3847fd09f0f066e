/**
 * The Rekordbox XML exporter: writing a neutral-model collection as a Rekordbox `DJ_PLAYLISTS`
 * document. The document is an element tree whose `COLLECTION` holds one `TRACK` per track (with
 * a `POSITION_MARK` per cue point and per loop) and whose `PLAYLISTS` holds a `ROOT` node with the
 * root playlists below it, folders as `NODE Type="0"` and playlists as `NODE Type="1"` listing
 * their tracks by key.
 *
 * Each element is described by a function, and the exporter's loops and recursion are methods
 * proved to build exactly those elements. The walk over child playlists follows object links, so
 * it can run into a cycle; the interpreter's recursion limit is modelled as a budget `depth`, and
 * running out of it makes the export fail, as the exception it raises does.
 */
module RekordboxExport {
  import opened Wrappers
  import opened Ids
  import opened Sequences
  import opened OrderedDicts
  import opened Text
  import opened Numbers
  import opened Xml
  import opened CuePoints
  import opened Loops
  import opened Tracks
  import opened Playlists
  import opened Collections

  /** The format name under which the exporter registers. */
  const FormatName: string := "Rekordbox"

  /** The option that turns every hot cue into a memory cue on export. */
  const HotCueOption: string := "convert_hot_cues_to_memory_cues"

  /**
   * What the exporter takes from its surroundings: `os.name`, today's date as `strftime('%Y-%m-%d')`
   * writes it, and `str` on a float (used for the BPM).
   */
  datatype Host = Host(osName: string, today: string, floatText: real -> string)

  /** `options.get('convert_hot_cues_to_memory_cues', False)`. */
  function ConvertHotCues(options: map<string, bool>): bool
  {
    HotCueOption in options && options[HotCueOption]
  }

  // ---------------------------------------------------------------------------------------------
  // Locations
  // ---------------------------------------------------------------------------------------------

  const PosixScheme: string := "file://"
  const WindowsScheme: string := "file:///"

  /**
   * `_format_location`: on POSIX hosts `file://` and the path; on Windows (`os.name == 'nt'`) the
   * path with backslashes turned into slashes after `file:///`, its leading slashes dropped unless
   * it is a UNC path (one starting with two backslashes). No character is percent-encoded.
   */
  function FormatLocation(path: string, osName: string): string
  {
    if osName == "nt" then
      if StartsWith(path, "\\\\") then WindowsScheme + ReplaceChar(path, '\\', '/')
      else WindowsScheme + LStrip(ReplaceChar(path, '\\', '/'), '/')
    else PosixScheme + path
  }

  /** The path a POSIX location names: what follows `file://`. */
  function PosixPath(location: string): Option<string>
  {
    if StartsWith(location, PosixScheme) then Some(location[|PosixScheme|..]) else None
  }

  /** On a POSIX host the location gives back the path it was made from. */
  lemma PosixLocationRoundTrip(path: string, osName: string)
    requires osName != "nt"
    ensures PosixPath(FormatLocation(path, osName)) == Some(path)
  {
    var r := FormatLocation(path, osName);
    assert r[..|PosixScheme|] == PosixScheme && r[|PosixScheme|..] == path;
  }

  /** What follows `file:///` in a Windows location: the path with slashes for backslashes, leading slashes dropped unless UNC. */
  function WindowsTail(path: string): (r: string)
    ensures EndsWith(ReplaceChar(path, '\\', '/'), r)
    ensures StartsWith(path, "\\\\") ==> r == ReplaceChar(path, '\\', '/')
    ensures !StartsWith(path, "\\\\") ==> r == [] || r[0] != '/'
  {
    var s := ReplaceChar(path, '\\', '/');
    if StartsWith(path, "\\\\") then
      assert s[|s| - |s|..] == s;
      s
    else LStrip(s, '/')
  }

  /** A Windows location is `file:///` followed by `WindowsTail`. */
  lemma WindowsLocationTail(path: string)
    ensures FormatLocation(path, "nt") == WindowsScheme + WindowsTail(path)
  {
  }

  /** A Windows location has no backslash left in it. */
  lemma WindowsLocationSlashes(path: string)
    ensures '\\' !in FormatLocation(path, "nt")
  {
    var s, tail := ReplaceChar(path, '\\', '/'), WindowsTail(path);
    WindowsLocationTail(path);
    assert '\\' !in s;
    EndsWithMembers(s, tail);
    assert '\\' !in WindowsScheme;
  }

  /** Every character of a suffix occurs in the whole. */
  lemma EndsWithMembers(s: string, r: string)
    requires EndsWith(s, r)
    ensures forall c :: c in r ==> c in s
  {
    forall c | c in r
      ensures c in s
    {
      var i :| 0 <= i < |r| && r[i] == c;
      assert s[|s| - |r| + i] == c;
    }
  }

  /** A Windows location keeps a double slash after `file:///` exactly for UNC paths. */
  lemma WindowsLocationUnc(path: string)
    ensures StartsWith(path, "\\\\") <==> StartsWith(FormatLocation(path, "nt"), WindowsScheme + "//")
  {
    var r, tail := FormatLocation(path, "nt"), WindowsTail(path);
    WindowsLocationTail(path);
    if StartsWith(path, "\\\\") {
      assert tail[0] == '/' && tail[1] == '/';
      assert r[..|WindowsScheme| + 2] == WindowsScheme + "//";
    } else if tail != [] {
      assert r[|WindowsScheme|] == tail[0] != '/';
    }
  }

  // ---------------------------------------------------------------------------------------------
  // Tracks and their marks
  // ---------------------------------------------------------------------------------------------

  /** `index if index >= 0 else 0`: the pad number written for a cue or loop. */
  function PadNumber(index: int): nat
  {
    if index >= 0 then index else 0
  }

  /** The `Type` code of a cue's mark: 1 for a hot cue kept as such, 0 (memory cue) for any other. */
  function CueTypeCode(t: CueType, convertHot: bool): string
  {
    if t == HotCue && !convertHot then "1" else "0"
  }

  /** The `POSITION_MARK` of a cue point. */
  function CueMark(cue: CuePoint, convertHot: bool): Element
    reads cue
  {
    Element("POSITION_MARK", map["Name" := cue.name, "Type" := CueTypeCode(cue.cueType, convertHot),
                                 "Start" := IntToString(Millis(cue.position)), "Num" := IntToString(PadNumber(cue.index))], [])
  }

  /** The `POSITION_MARK` of a loop: type 2, with an end. */
  function LoopMark(l: Loop): Element
  {
    Element("POSITION_MARK", map["Name" := l.name, "Type" := "2", "Start" := IntToString(Millis(l.startPosition)),
                                 "End" := IntToString(Millis(l.endPosition)), "Num" := IntToString(PadNumber(l.index))], [])
  }

  function CueMarks(cues: seq<CuePoint>, convertHot: bool): (r: seq<Element>)
    reads cues
    ensures |r| == |cues| && forall i :: 0 <= i < |cues| ==> r[i] == CueMark(cues[i], convertHot)
  {
    seq(|cues|, i requires 0 <= i < |cues| reads cues => CueMark(cues[i], convertHot))
  }

  function LoopMarks(loops: seq<Loop>): (r: seq<Element>)
    ensures |r| == |loops| && forall i :: 0 <= i < |loops| ==> r[i] == LoopMark(loops[i])
  {
    seq(|loops|, i requires 0 <= i < |loops| => LoopMark(loops[i]))
  }

  /** The attributes of a track's `TRACK` element. */
  function TrackAttrs(t: Track, host: Host): map<string, string>
    reads t
  {
    map["TrackID" := CompactHex(t.id), "Name" := t.title, "Artist" := t.artist, "Album" := t.album,
        "Genre" := t.genre, "TotalTime" := IntToString(Trunc(t.duration)),
        "Location" := FormatLocation(t.filePath, host.osName), "Rating" := IntToString(t.rating),
        "Tonality" := t.key, "AverageBpm" := host.floatText(t.bpm), "DateAdded" := host.today]
  }

  /** `_add_track_to_collection`: the track's `TRACK` element, its cue marks first and then its loop marks. */
  function TrackElement(t: Track, convertHot: bool, host: Host): Element
    reads t, t.cuePoints
  {
    Element("TRACK", TrackAttrs(t, host), CueMarks(t.cuePoints, convertHot) + LoopMarks(t.loops))
  }

  /**
   * A track's marks: one per cue point and then one per loop, in order. A cue's mark has type 1 exactly
   * when the cue is a hot cue and hot cues are not converted, and type 0 otherwise; every loop's mark has
   * type 2 and an end.
   */
  lemma MarksLayout(t: Track, convertHot: bool, host: Host)
    ensures var ms := TrackElement(t, convertHot, host).children;
      |ms| == |t.cuePoints| + |t.loops|
      && (forall i :: 0 <= i < |t.cuePoints| ==>
            ("Type" in ms[i].attrs && "End" !in ms[i].attrs
             && (ms[i].attrs["Type"] == "1" <==> t.cuePoints[i].cueType == HotCue && !convertHot)
             && (ms[i].attrs["Type"] == "0" <==> !(t.cuePoints[i].cueType == HotCue && !convertHot))))
      && forall j :: |t.cuePoints| <= j < |ms| ==> "Type" in ms[j].attrs && ms[j].attrs["Type"] == "2" && "End" in ms[j].attrs
  {
    var ms := TrackElement(t, convertHot, host).children;
    var cs := CueMarks(t.cuePoints, convertHot);
    forall j | |t.cuePoints| <= j < |ms|
      ensures "Type" in ms[j].attrs && ms[j].attrs["Type"] == "2" && "End" in ms[j].attrs
    {
      assert ms[j] == LoopMark(t.loops[j - |cs|]);
    }
  }

  /**
   * A cue's mark reads back as whole milliseconds and a pad number: `Start` is the position in
   * milliseconds truncated toward zero, and `Num` is the cue's index, or 0 when it has none (a negative one).
   */
  lemma CueMarkNumbers(cue: CuePoint, convertHot: bool)
    ensures var m := CueMark(cue, convertHot);
      ParseInt(m.attrs["Start"]) == Some(Millis(cue.position))
      && ParseInt(m.attrs["Num"]) == Some(if cue.index >= 0 then cue.index else 0)
  {
    IntToStringRoundTrip(Millis(cue.position));
    IntToStringRoundTrip(PadNumber(cue.index));
  }

  /** A loop's mark reads back as its start and end in truncated milliseconds and its pad number. */
  lemma LoopMarkNumbers(l: Loop)
    ensures var m := LoopMark(l);
      ParseInt(m.attrs["Start"]) == Some(Millis(l.startPosition))
      && ParseInt(m.attrs["End"]) == Some(Millis(l.endPosition))
      && ParseInt(m.attrs["Num"]) == Some(if l.index >= 0 then l.index else 0)
  {
    IntToStringRoundTrip(Millis(l.startPosition));
    IntToStringRoundTrip(Millis(l.endPosition));
    IntToStringRoundTrip(PadNumber(l.index));
  }

  /** A cue imported from a whole number of milliseconds is written back at that number. */
  lemma ImportedCueStart(cue: CuePoint, convertHot: bool, ms: int)
    requires cue.position == Seconds(ms as real)
    ensures ParseInt(CueMark(cue, convertHot).attrs["Start"]) == Some(ms)
  {
    MillisRoundTrip(ms);
    IntToStringRoundTrip(ms);
  }

  /** The id is written as compact hex and the descriptive fields are copied as they are. */
  lemma TrackAttrsRead(t: Track, convertHot: bool, host: Host)
    ensures var a := TrackElement(t, convertHot, host).attrs;
      a["TrackID"] == CompactHex(t.id) && a["Name"] == t.title && a["Artist"] == t.artist
      && a["Album"] == t.album && a["Genre"] == t.genre && a["Tonality"] == t.key
  {
  }

  /** The duration and the rating read back from their attributes as the numbers written. */
  lemma TrackNumbersRead(t: Track, convertHot: bool, host: Host)
    ensures var a := TrackElement(t, convertHot, host).attrs;
      ParseInt(a["TotalTime"]) == Some(Trunc(t.duration)) && ParseInt(a["Rating"]) == Some(t.rating)
  {
    var a := TrackAttrs(t, host);
    assert a["TotalTime"] == IntToString(Trunc(t.duration)) && a["Rating"] == IntToString(t.rating);
    IntToStringRoundTrip(Trunc(t.duration));
    IntToStringRoundTrip(t.rating);
  }

  /** `_add_cue_points_to_track`: the cue marks in order, then the loop marks in order. */
  method AddCuePointsToTrack(t: Track, convertHot: bool) returns (marks: seq<Element>)
    ensures marks == CueMarks(t.cuePoints, convertHot) + LoopMarks(t.loops)
  {
    var cues, loops := t.cuePoints, t.loops;
    ghost var cueMarks, loopMarks := CueMarks(cues, convertHot), LoopMarks(loops);
    marks := [];
    for i := 0 to |cues|
      invariant marks == cueMarks[..i]
    {
      assert cueMarks[..i + 1] == cueMarks[..i] + [CueMark(cues[i], convertHot)];
      marks := marks + [CueMark(cues[i], convertHot)];
    }
    assert cueMarks[..|cues|] == cueMarks;
    for i := 0 to |loops|
      invariant marks == cueMarks + loopMarks[..i]
    {
      assert loopMarks[..i + 1] == loopMarks[..i] + [LoopMark(loops[i])];
      AppendAssoc(cueMarks, loopMarks[..i], [LoopMark(loops[i])]);
      marks := marks + [LoopMark(loops[i])];
    }
    assert loopMarks[..|loops|] == loopMarks;
  }

  /** `_add_track_to_collection`: the `TRACK` element of a track. */
  method AddTrackToCollection(t: Track, convertHot: bool, host: Host) returns (e: Element)
    ensures e == TrackElement(t, convertHot, host)
  {
    var marks := AddCuePointsToTrack(t, convertHot);
    e := Element("TRACK", TrackAttrs(t, host), marks);
  }

  // ---------------------------------------------------------------------------------------------
  // Playlists
  // ---------------------------------------------------------------------------------------------

  /** A playlist's entry for a track: its key, the compact id. */
  function TrackKey(id: Uuid): Element
  {
    Element("TRACK", map["Key" := CompactHex(id)], [])
  }

  /**
   * The entries of a playlist: one per id that has a track in the collection, in order. Fewer entries
   * than ids appear exactly when some id is dangling.
   */
  function LeafTracks(ids: seq<Uuid>, tracks: map<Uuid, Track>): (r: seq<Element>)
    ensures |r| <= |ids|
    ensures |r| == |ids| <==> forall i :: 0 <= i < |ids| ==> ids[i] in tracks
  {
    if ids == [] then []
    else LeafTracks(ids[..|ids| - 1], tracks) + if ids[|ids| - 1] in tracks then [TrackKey(ids[|ids| - 1])] else []
  }

  /** Each entry of a playlist is the key of one of its ids that has a track, and each such id has its entry. */
  lemma {:induction false} LeafTracksMembers(ids: seq<Uuid>, tracks: map<Uuid, Track>)
    ensures forall e :: e in LeafTracks(ids, tracks) <==> exists i :: 0 <= i < |ids| && ids[i] in tracks && e == TrackKey(ids[i])
  {
    if ids != [] {
      var front := ids[..|ids| - 1];
      LeafTracksMembers(front, tracks);
      forall e | e in LeafTracks(ids, tracks)
        ensures exists i :: 0 <= i < |ids| && ids[i] in tracks && e == TrackKey(ids[i])
      {
        if e in LeafTracks(front, tracks) {
          var i :| 0 <= i < |front| && front[i] in tracks && e == TrackKey(front[i]);
          assert ids[i] == front[i];
        } else {
          assert ids[|ids| - 1] in tracks && e == TrackKey(ids[|ids| - 1]);
        }
      }
      forall i | 0 <= i < |ids| && ids[i] in tracks
        ensures TrackKey(ids[i]) in LeafTracks(ids, tracks)
      {
        if i < |front| {
          assert front[i] == ids[i];
        }
      }
    }
  }

  /**
   * `_add_playlist_to_node`: a playlist with children becomes a folder node counting them, with their nodes
   * below it in order; one without children becomes a playlist node whose `Entries` counts all its ids,
   * dangling ones included, with an entry for each id that has a track. Nothing comes out when the
   * recursion budget `depth` runs out on the way, as the walk does on a cycle of children.
   */
  function PlaylistNode(p: Playlist, tracks: map<Uuid, Track>, depth: nat): (r: Option<Element>)
    reads *
    decreases depth, 0
  {
    if depth == 0 then None
    else if p.children != [] then
      match ChildNodes(p.children, tracks, depth - 1)
      case None => None
      case Some(kids) => Some(Element("NODE", map["Type" := "0", "Name" := p.name, "Count" := IntToString(|p.children|)], kids))
    else
      Some(Element("NODE", map["Type" := "1", "Name" := p.name, "KeyType" := "0", "Entries" := IntToString(|p.trackIds|)],
                   LeafTracks(p.trackIds, tracks)))
  }

  /** The nodes of the playlists `ps` in order, or nothing when one of them fails. */
  function ChildNodes(ps: seq<Playlist>, tracks: map<Uuid, Track>, depth: nat): (r: Option<seq<Element>>)
    reads *
    ensures r.Some? ==> |r.value| == |ps|
    decreases depth, |ps| + 1
  {
    if ps == [] then Some([])
    else
      match ChildNodes(ps[..|ps| - 1], tracks, depth)
      case None => None
      case Some(front) =>
        match PlaylistNode(ps[|ps| - 1], tracks, depth)
        case None => None
        case Some(last) => Some(front + [last])
  }

  /** One playlist more: its node follows those before it, and a failure anywhere is a failure of the row. */
  lemma ChildNodesSnoc(ps: seq<Playlist>, tracks: map<Uuid, Track>, depth: nat, i: nat)
    requires i < |ps|
    ensures ChildNodes(ps[..i + 1], tracks, depth)
         == match ChildNodes(ps[..i], tracks, depth)
            case None => None
            case Some(front) =>
              match PlaylistNode(ps[i], tracks, depth)
              case None => None
              case Some(last) => Some(front + [last])
  {
    assert ps[..i + 1][..i] == ps[..i];
  }

  /** Once a prefix of the row fails, so does the whole row. */
  lemma {:induction false} ChildNodesFailed(ps: seq<Playlist>, tracks: map<Uuid, Track>, depth: nat, i: nat)
    requires i <= |ps| && ChildNodes(ps[..i], tracks, depth).None?
    ensures ChildNodes(ps, tracks, depth).None?
    decreases |ps| - i
  {
    if i < |ps| {
      ChildNodesSnoc(ps, tracks, depth, i);
      ChildNodesFailed(ps, tracks, depth, i + 1);
    } else {
      assert ps[..i] == ps;
    }
  }

  /** When a row of playlists succeeds, every playlist in it does. */
  lemma {:induction false} ChildNodesAll(ps: seq<Playlist>, tracks: map<Uuid, Track>, depth: nat)
    requires ChildNodes(ps, tracks, depth).Some?
    ensures forall i :: 0 <= i < |ps| ==> PlaylistNode(ps[i], tracks, depth).Some?
    decreases |ps|
  {
    if ps != [] {
      var front := ps[..|ps| - 1];
      ChildNodesAll(front, tracks, depth);
      forall i | 0 <= i < |ps|
        ensures PlaylistNode(ps[i], tracks, depth).Some?
      {
        if i < |front| {
          assert ps[i] == front[i];
        }
      }
    }
  }

  /** A playlist that is among its own children can never be written: the walk runs out of budget. */
  lemma {:induction false} OwnChildFails(p: Playlist, tracks: map<Uuid, Track>, depth: nat)
    requires p in p.children
    ensures PlaylistNode(p, tracks, depth).None?
    decreases depth
  {
    if depth > 0 && ChildNodes(p.children, tracks, depth - 1).Some? {
      ChildNodesAll(p.children, tracks, depth - 1);
      var i :| 0 <= i < |p.children| && p.children[i] == p;
      OwnChildFails(p, tracks, depth - 1);
      assert false;
    }
  }

  /** More budget never changes a node that could be written. */
  lemma {:induction false} PlaylistNodeMoreBudget(p: Playlist, tracks: map<Uuid, Track>, depth: nat)
    requires PlaylistNode(p, tracks, depth).Some?
    ensures PlaylistNode(p, tracks, depth + 1) == PlaylistNode(p, tracks, depth)
    decreases depth, 0
  {
    if p.children != [] {
      ChildNodesMoreBudget(p.children, tracks, depth - 1);
    }
  }

  lemma {:induction false} ChildNodesMoreBudget(ps: seq<Playlist>, tracks: map<Uuid, Track>, depth: nat)
    requires ChildNodes(ps, tracks, depth).Some?
    ensures ChildNodes(ps, tracks, depth + 1) == ChildNodes(ps, tracks, depth)
    decreases depth, |ps| + 1
  {
    if ps != [] {
      ChildNodesMoreBudget(ps[..|ps| - 1], tracks, depth);
      PlaylistNodeMoreBudget(ps[|ps| - 1], tracks, depth);
    }
  }

  /**
   * A written folder node counts its children and holds one node per child; a written playlist node
   * counts all of its ids in `Entries` and holds one entry per id that has a track, as many as the ids
   * exactly when none is dangling.
   */
  lemma NodeCounts(p: Playlist, tracks: map<Uuid, Track>, depth: nat)
    requires PlaylistNode(p, tracks, depth).Some?
    ensures var n := PlaylistNode(p, tracks, depth).value;
      (p.children != [] ==> n.attrs["Type"] == "0" && ParseInt(n.attrs["Count"]) == Some(|p.children|)
                            && |n.children| == |p.children|)
      && (p.children == [] ==> n.attrs["Type"] == "1" && ParseInt(n.attrs["Entries"]) == Some(|p.trackIds|)
                               && |n.children| <= |p.trackIds|
                               && (|n.children| == |p.trackIds| <==> forall i :: 0 <= i < |p.trackIds| ==> p.trackIds[i] in tracks))
  {
    IntToStringRoundTrip(|p.children|);
    IntToStringRoundTrip(|p.trackIds|);
  }

  /**
   * The key of a playlist entry is the `TrackID` of the track it refers to, whenever that track is stored
   * under its own id, so the two sides of the document agree.
   */
  lemma EntryKeyMatchesTrack(p: Playlist, tracks: map<Uuid, Track>, depth: nat, e: Element)
    requires p.children == [] && PlaylistNode(p, tracks, depth).Some?
    requires e in PlaylistNode(p, tracks, depth).value.children
    requires forall k :: k in tracks ==> tracks[k].id == k
    ensures exists k :: k in p.trackIds && k in tracks && e == TrackKey(k) && e.attrs["Key"] == CompactHex(tracks[k].id)
  {
    LeafTracksMembers(p.trackIds, tracks);
    var i :| 0 <= i < |p.trackIds| && p.trackIds[i] in tracks && e == TrackKey(p.trackIds[i]);
    assert p.trackIds[i] in p.trackIds;
  }

  /** `_add_playlist_to_node`, proved to build the node `PlaylistNode` describes. */
  method AddPlaylistToNode(p: Playlist, c: Collection, depth: nat) returns (r: Option<Element>)
    ensures r == PlaylistNode(p, c.tracks.items, depth)
    decreases depth, 0
  {
    if depth == 0 {
      return None;
    }
    if p.children != [] {
      var kids := AddChildNodes(p.children, c, depth - 1);
      if kids.None? {
        return None;
      }
      return Some(Element("NODE", map["Type" := "0", "Name" := p.name, "Count" := IntToString(|p.children|)], kids.value));
    }
    var entries := AddTrackEntries(p.trackIds, c);
    return Some(Element("NODE", map["Type" := "1", "Name" := p.name, "KeyType" := "0", "Entries" := IntToString(|p.trackIds|)], entries));
  }

  /** The loop over a folder's children in `_add_playlist_to_node`: their nodes in order, or nothing once one fails. */
  method AddChildNodes(children: seq<Playlist>, c: Collection, depth: nat) returns (r: Option<seq<Element>>)
    ensures r == ChildNodes(children, c.tracks.items, depth)
    decreases depth, |children| + 1
  {
    var kids: seq<Element> := [];
    for i := 0 to |children|
      invariant ChildNodes(children[..i], c.tracks.items, depth) == Some(kids)
    {
      ChildNodesSnoc(children, c.tracks.items, depth, i);
      var node := AddPlaylistToNode(children[i], c, depth);
      if node.None? {
        ChildNodesFailed(children, c.tracks.items, depth, i + 1);
        return None;
      }
      kids := kids + [node.value];
    }
    assert children[..|children|] == children;
    return Some(kids);
  }

  /** The loop over a playlist's ids in `_add_playlist_to_node`: a `TRACK` entry for each id that has a track. */
  method AddTrackEntries(ids: seq<Uuid>, c: Collection) returns (entries: seq<Element>)
    ensures entries == LeafTracks(ids, c.tracks.items)
  {
    entries := [];
    for i := 0 to |ids|
      invariant entries == LeafTracks(ids[..i], c.tracks.items)
    {
      assert ids[..i + 1][..i] == ids[..i];
      var track := c.GetTrack(ids[i]);
      if track.Some? {
        entries := entries + [TrackKey(ids[i])];
      }
    }
    assert ids[..|ids|] == ids;
  }

  // ---------------------------------------------------------------------------------------------
  // The document
  // ---------------------------------------------------------------------------------------------

  /**
   * The nodes of the root playlists, in root order: an id with no stored playlist gives nothing, and
   * nothing at all comes out when one of the playlists fails.
   */
  function RootNodes(ids: seq<Uuid>, playlists: map<Uuid, Playlist>, tracks: map<Uuid, Track>, depth: nat): (r: Option<seq<Element>>)
    reads *
    ensures r.Some? ==> |r.value| == |Present(ids, playlists)|
  {
    if ids == [] then Some([])
    else
      var id := ids[|ids| - 1];
      PresentAppend(ids[..|ids| - 1], [id], playlists);
      assert ids[..|ids| - 1] + [id] == ids;
      match RootNodes(ids[..|ids| - 1], playlists, tracks, depth)
      case None => None
      case Some(front) =>
        if id !in playlists then Some(front)
        else
          match PlaylistNode(playlists[id], tracks, depth)
          case None => None
          case Some(node) => Some(front + [node])
  }

  lemma RootNodesSnoc(ids: seq<Uuid>, playlists: map<Uuid, Playlist>, tracks: map<Uuid, Track>, depth: nat, i: nat)
    requires i < |ids|
    ensures RootNodes(ids[..i + 1], playlists, tracks, depth)
         == match RootNodes(ids[..i], playlists, tracks, depth)
            case None => None
            case Some(front) =>
              if ids[i] !in playlists then Some(front)
              else
                match PlaylistNode(playlists[ids[i]], tracks, depth)
                case None => None
                case Some(node) => Some(front + [node])
  {
    assert ids[..i + 1][..i] == ids[..i];
  }

  lemma {:induction false} RootNodesFailed(ids: seq<Uuid>, playlists: map<Uuid, Playlist>, tracks: map<Uuid, Track>, depth: nat, i: nat)
    requires i <= |ids| && RootNodes(ids[..i], playlists, tracks, depth).None?
    ensures RootNodes(ids, playlists, tracks, depth).None?
    decreases |ids| - i
  {
    if i < |ids| {
      RootNodesSnoc(ids, playlists, tracks, depth, i);
      RootNodesFailed(ids, playlists, tracks, depth, i + 1);
    } else {
      assert ids[..i] == ids;
    }
  }

  const RootAttrs: map<string, string> :=
    map["Version" := "1.0.0", "xmlns:xsi" := "http://www.w3.org/2001/XMLSchema-instance",
        "xsi:noNamespaceSchemaLocation" := "https://raw.githubusercontent.com/rekordbox/xml-schema/master/rekordbox_xml_schema.xsd"]

  const Product: Element :=
    Element("PRODUCT", map["Name" := "DJ Library Converter", "Version" := "1.0.0", "Company" := "DJ Library Converter"], [])

  /** The cue points of the given tracks: what their elements read besides the tracks. */
  function TrackCues(ts: seq<Track>): (r: set<CuePoint>)
    reads ts
    ensures forall i, j :: 0 <= i < |ts| && 0 <= j < |ts[i].cuePoints| ==> ts[i].cuePoints[j] in r
  {
    set i, j | 0 <= i < |ts| && 0 <= j < |ts[i].cuePoints| :: ts[i].cuePoints[j]
  }

  /** The `TRACK` elements of the tracks, in order. */
  function TrackElements(ts: seq<Track>, convertHot: bool, host: Host): (r: seq<Element>)
    reads ts, TrackCues(ts)
    ensures |r| == |ts| && forall i :: 0 <= i < |ts| ==> r[i] == TrackElement(ts[i], convertHot, host)
  {
    seq(|ts|, i requires 0 <= i < |ts| reads ts, TrackCues(ts) => TrackElement(ts[i], convertHot, host))
  }

  /** The `COLLECTION` element: its `Entries` and one `TRACK` per track, in table order. */
  function CollectionElement(c: Collection, convertHot: bool, host: Host): Element
    requires c.tracks.Valid()
    reads *
  {
    Element("COLLECTION", map["Entries" := IntToString(|c.tracks.keys|)], TrackElements(c.tracks.Values(), convertHot, host))
  }

  /** The `ROOT` node: a folder counting all root ids, dangling ones included, over the given nodes. */
  function RootNode(c: Collection, nodes: seq<Element>): Element
    reads c
  {
    Element("NODE", map["Type" := "0", "Name" := "ROOT", "Count" := IntToString(|c.rootPlaylists|)], nodes)
  }

  /**
   * `export_library`'s tree: `DJ_PLAYLISTS` holding the product, the collection and the playlists
   * under `ROOT`, or nothing when a playlist cannot be written.
   */
  function ExportDocument(c: Collection, convertHot: bool, host: Host, depth: nat): (r: Option<Element>)
    requires c.tracks.Valid()
    reads *
  {
    match RootNodes(c.rootPlaylists, c.playlists.items, c.tracks.items, depth)
    case None => None
    case Some(nodes) =>
      Some(Element("DJ_PLAYLISTS", RootAttrs,
                   [Product, CollectionElement(c, convertHot, host), Element("PLAYLISTS", map[], [RootNode(c, nodes)])]))
  }

  /**
   * A written document lists every track once, in table order, under an `Entries` equal to their number;
   * its `ROOT` counts every root id but holds nodes only for the stored ones.
   */
  lemma ExportedCounts(c: Collection, convertHot: bool, host: Host, depth: nat)
    requires c.tracks.Valid() && ExportDocument(c, convertHot, host, depth).Some?
    ensures var d := ExportDocument(c, convertHot, host, depth).value;
      var coll, root := d.children[1], d.children[2].children[0];
      ParseInt(coll.attrs["Entries"]) == Some(|c.tracks.keys|) && |coll.children| == |c.tracks.keys|
      && (forall i :: 0 <= i < |c.tracks.keys| ==>
            coll.children[i] == TrackElement(c.tracks.items[c.tracks.keys[i]], convertHot, host))
      && ParseInt(root.attrs["Count"]) == Some(|c.rootPlaylists|)
      && |root.children| == |Present(c.rootPlaylists, c.playlists.items)| <= |c.rootPlaylists|
  {
    IntToStringRoundTrip(|c.tracks.keys|);
    IntToStringRoundTrip(|c.rootPlaylists|);
  }

  /** One pass of the loop over the tracks: the `TRACK` element of the next track appended. */
  method AddTrackStep(ts: seq<Track>, i: nat, convertHot: bool, host: Host, elems: seq<Element>, ghost want: seq<Element>)
    returns (elems': seq<Element>)
    requires i < |ts| && want == TrackElements(ts, convertHot, host) && elems == want[..i]
    ensures elems' == want[..i + 1]
  {
    var e := AddTrackToCollection(ts[i], convertHot, host);
    TakeSnoc(want, i);
    elems' := elems + [e];
  }

  /** The loop over `collection.tracks.items()` in `export_library`: one `TRACK` element per track, in table order. */
  method AddTracks(ts: seq<Track>, convertHot: bool, host: Host) returns (elems: seq<Element>)
    ensures elems == TrackElements(ts, convertHot, host)
  {
    ghost var want := TrackElements(ts, convertHot, host);
    elems := [];
    for i := 0 to |ts|
      invariant elems == want[..i]
    {
      elems := AddTrackStep(ts, i, convertHot, host, elems, want);
    }
    assert want[..|ts|] == want;
  }

  /** The loop over the root ids in `export_library`: the nodes of the stored root playlists, or nothing on a failure. */
  method AddRootPlaylists(c: Collection, depth: nat) returns (r: Option<seq<Element>>)
    ensures r == RootNodes(c.rootPlaylists, c.playlists.items, c.tracks.items, depth)
  {
    var roots := c.rootPlaylists;
    var nodes: seq<Element> := [];
    for i := 0 to |roots|
      invariant RootNodes(roots[..i], c.playlists.items, c.tracks.items, depth) == Some(nodes)
    {
      RootNodesSnoc(roots, c.playlists.items, c.tracks.items, depth, i);
      var p := c.GetPlaylist(roots[i]);
      if p.Some? {
        var node := AddPlaylistToNode(p.value, c, depth);
        if node.None? {
          RootNodesFailed(roots, c.playlists.items, c.tracks.items, depth, i + 1);
          return None;
        }
        nodes := nodes + [node.value];
      }
    }
    assert roots[..|roots|] == roots;
    return Some(nodes);
  }

  /**
   * `export_library`: builds the document, hands it to the writer and reports success. `written` is the
   * document built (nothing when a playlist could not be written); `writeOk` says whether serialising
   * and writing the file succeeded.
   */
  method ExportLibrary(c: Collection, options: map<string, bool>, host: Host, depth: nat, writeOk: bool)
    returns (ok: bool, written: Option<Element>)
    requires c.Valid()
    ensures written == ExportDocument(c, ConvertHotCues(options), host, depth)
    ensures ok <==> written.Some? && writeOk
  {
    var convertHot := ConvertHotCues(options);
    var trackElems := AddTracks(c.tracks.Values(), convertHot, host);
    var coll := Element("COLLECTION", map["Entries" := IntToString(|c.tracks.keys|)], trackElems);
    var nodes := AddRootPlaylists(c, depth);
    if nodes.None? {
      return false, None;
    }
    written := Some(Element("DJ_PLAYLISTS", RootAttrs, [Product, coll, Element("PLAYLISTS", map[], [RootNode(c, nodes.value)])]));
    ok := writeOk;
  }
}
