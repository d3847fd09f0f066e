/**
 * The Traktor NML importer: reading a Traktor collection document (an element tree whose root is
 * `NML`) into a neutral-model collection. Tracks come from the `ENTRY` elements of the first
 * `COLLECTION` element, playlists from a pre-order walk over the `NODE` elements under the first
 * `PLAYLISTS` element, and playlist entries are resolved to tracks through the Traktor path stored
 * on each imported track.
 *
 * Each decoding rule is a function here (paths, cue points, loops, whole entries and the playlist
 * walk), and the importer's loops and recursion are methods proved against those functions.
 */
module TraktorImport {
  import opened Wrappers
  import opened Ids
  import opened Sequences
  import opened OrderedDicts
  import opened Text
  import opened Numbers
  import opened Xml
  import opened CuePoints
  import opened Loops
  import opened Tracks
  import opened Playlists
  import opened Collections

  /** The separator between the volume, the directories and the file name of a Traktor path. */
  const Sep: string := "/:"

  /** The format name under which the importer registers. */
  const FormatName: string := "Traktor"

  /** The name of the collection an import creates. */
  const CollectionName: string := "Traktor Collection"

  // ---------------------------------------------------------------------------------------------
  // Paths

  /** A `DIR` attribute with one leading `/:` dropped. */
  function DirBody(dir: string): (r: string)
    ensures StartsWith(dir, Sep) ==> dir == Sep + r
    ensures !StartsWith(dir, Sep) ==> r == dir
  {
    if StartsWith(dir, Sep) then dir[2..] else dir
  }

  /** The directory names of a `DIR` attribute: one leading `/:` dropped, the rest cut at every `/:`. */
  function DirParts(dir: string): (parts: seq<string>)
    ensures |parts| >= 1
  {
    Split(DirBody(dir), Sep)
  }

  /** Joining the directory names with `/:` again gives `DIR` without its leading `/:`. */
  lemma DirPartsJoin(dir: string)
    ensures Join(Sep, DirParts(dir)) == DirBody(dir)
  {
    JoinSplit(DirBody(dir), Sep);
  }

  /** The neutral model's `file_path` of a `LOCATION`: POSIX `os.path.join(VOLUME, dirs joined by "/", FILE)`. */
  function LocationPath(volume: string, dir: string, file: string): (r: string)
    ensures EndsWith(r, file)
    ensures !StartsWith(Join("/", DirParts(dir)), "/") && !StartsWith(file, "/") ==> StartsWith(r, volume)
  {
    PathJoin(PathJoin(volume, Join("/", DirParts(dir))), file)
  }

  /**
   * The `traktor_path` tag of a `LOCATION`: the volume, then `/:`, then the directory names and the
   * file name joined by `/:`. Empty directory names are kept.
   */
  function TraktorPath(volume: string, dir: string, file: string): string
  {
    volume + Sep + Join(Sep, DirParts(dir) + [file])
  }

  /** The `traktor_path` tag is the volume, the directory names and the file name, joined by `/:`. */
  lemma TraktorPathJoin(volume: string, dir: string, file: string)
    ensures TraktorPath(volume, dir, file) == Join(Sep, [volume] + DirParts(dir) + [file])
  {
    JoinCons(Sep, volume, DirParts(dir) + [file]);
    assert [volume] + DirParts(dir) + [file] == [volume] + (DirParts(dir) + [file]);
  }

  /** `s` has no `/:` in it. */
  ghost predicate NoSep(s: string)
  {
    forall j: nat :: !OccursAt(s, Sep, j)
  }

  /** The pieces of a split on `/:` hold no `/:`. */
  lemma {:induction false} SplitPiecesNoSep(s: string)
    ensures forall k :: 0 <= k < |Split(s, Sep)| ==> NoSep(Split(s, Sep)[k])
    decreases |s|
  {
    match IndexOf(s, Sep)
    case None =>
    case Some(i) =>
      var rest := s[i + 2..];
      SplitPiecesNoSep(rest);
      forall j: nat
        ensures !OccursAt(s[..i], Sep, j)
      {
        if OccursAt(s[..i], Sep, j) {
          assert s[j..j + 2] == s[..i][j..j + 2];
          assert OccursAt(s, Sep, j);
          assert false;
        }
      }
      assert Split(s, Sep) == [s[..i]] + Split(rest, Sep);
  }

  /** Without a `/:` in `a`, the first `/:` of `a + "/:" + b` is the one placed after `a`. */
  lemma SplitAfterPiece(a: string, b: string)
    requires NoSep(a)
    ensures Split(a + Sep + b, Sep) == [a] + Split(b, Sep)
  {
    var s := a + Sep + b;
    assert OccursAt(s, Sep, |a|) by {
      assert s[|a|..|a| + 2] == Sep;
    }
    forall j: nat | j < |a|
      ensures !OccursAt(s, Sep, j)
    {
      if j + 2 <= |a| {
        assert s[j..j + 2] == a[j..j + 2];
        assert !OccursAt(a, Sep, j);
      } else {
        assert s[j + 1] == '/';
      }
    }
    assert IndexOf(s, Sep) == Some(|a|);
    assert s[..|a|] == a;
    assert s[|a| + 2..] == b;
  }

  /** Splitting a join on `/:` gives the pieces back when none of them holds a `/:`. */
  lemma {:induction false} SplitJoin(parts: seq<string>)
    requires |parts| >= 1
    requires forall k :: 0 <= k < |parts| ==> NoSep(parts[k])
    ensures Split(Join(Sep, parts), Sep) == parts
    decreases |parts|
  {
    if |parts| == 1 {
      var s := parts[0];
      assert IndexOf(s, Sep) == None;
    } else {
      SplitJoin(parts[1..]);
      SplitAfterPiece(parts[0], Join(Sep, parts[1..]));
      assert parts == [parts[0]] + parts[1..];
    }
  }

  /**
   * A playlist `KEY` equal to the `traktor_path` of a location splits back into the volume, the
   * directory names and the file name, as long as the volume and the file name hold no `/:` (the
   * directory names cannot). So the split has at least two parts and its last part is the file name.
   */
  lemma {:induction false} TraktorPathSplit(volume: string, dir: string, file: string)
    requires NoSep(volume) && NoSep(file)
    ensures Split(TraktorPath(volume, dir, file), Sep) == [volume] + DirParts(dir) + [file]
    ensures |Split(TraktorPath(volume, dir, file), Sep)| >= 2
    ensures Last(Split(TraktorPath(volume, dir, file), Sep)) == file
  {
    var parts := [volume] + DirParts(dir) + [file];
    SplitPiecesNoSep(DirBody(dir));
    forall k | 0 <= k < |parts|
      ensures NoSep(parts[k])
    {
      if 0 < k < |parts| - 1 {
        assert parts[k] == DirParts(dir)[k - 1];
      }
    }
    TraktorPathJoin(volume, dir, file);
    SplitJoin(parts);
  }

  /** The last element of a non-empty sequence. */
  function Last<T>(xs: seq<T>): T
    requires |xs| >= 1
  {
    xs[|xs| - 1]
  }

  /** A `DIR` that ends in `/:` (or an empty one) leaves an empty last directory name. */
  lemma {:induction false} DirEndingInSep(dir: string)
    requires dir == "" || EndsWith(dir, Sep)
    ensures Last(DirParts(dir)) == ""
  {
    var body := DirBody(dir);
    if body != "" {
      assert EndsWith(body, Sep) by {
        if StartsWith(dir, Sep) {
          assert dir[1] == dir[..2][1] == ':';
          assert dir[|dir| - 2] == dir[|dir| - 2..][0] == '/';
          assert body == dir[2..];
          assert body[|body| - 2..] == dir[|dir| - 2..];
        }
      }
    }
    SplitEndingInSep(body);
  }

  lemma {:induction false} SplitEndingInSep(s: string)
    requires s == "" || EndsWith(s, Sep)
    ensures Last(Split(s, Sep)) == ""
    decreases |s|
  {
    if s == "" {
      assert IndexOf(s, Sep) == None;
    } else {
      assert OccursAt(s, Sep, |s| - 2);
      var i := IndexOf(s, Sep).value;
      RestEndsInSep(s, i);
      SplitEndingInSep(s[i + 2..]);
      SplitLastStep(s);
    }
  }

  /** What follows an occurrence of `/:` in a string ending in `/:` is empty or ends in `/:` too. */
  lemma RestEndsInSep(s: string, i: nat)
    requires EndsWith(s, Sep) && OccursAt(s, Sep, i)
    ensures s[i + 2..] == "" || EndsWith(s[i + 2..], Sep)
  {
    var rest := s[i + 2..];
    if rest != "" {
      assert s[i + 1] == s[i..i + 2][1] == ':';
      assert s[|s| - 2] == s[|s| - 2..][0] == '/';
      assert rest[|rest| - 2..] == s[|s| - 2..];
    }
  }

  /** Cutting at the first `/:` keeps the last part. */
  lemma SplitLastStep(s: string)
    requires IndexOf(s, Sep).Some?
    ensures Last(Split(s, Sep)) == Last(Split(s[IndexOf(s, Sep).value + 2..], Sep))
  {
    var i := IndexOf(s, Sep).value;
    var parts := Split(s[i + 2..], Sep);
    assert Split(s, Sep) == [s[..i]] + parts;
    LastCons(s[..i], parts);
  }

  /** A sequence with one element put in front ends as it did. */
  lemma LastCons<T>(x: T, xs: seq<T>)
    requires |xs| >= 1
    ensures Last([x] + xs) == Last(xs)
  {
  }

  /**
   * An empty last directory name leaves an empty segment in the `traktor_path` tag: it ends with
   * `/:/:` and the file name (for example `DIR="/:Music/:"`).
   */
  lemma {:induction false} EmptySegmentKept(volume: string, dir: string, file: string)
    requires Last(DirParts(dir)) == ""
    ensures EndsWith(TraktorPath(volume, dir, file), Sep + Sep + file)
  {
    var joined := Sep + Join(Sep, DirParts(dir) + [file]);
    JoinEndsWithEmpty(DirParts(dir), file);
    EndsWithConcat(volume, joined, Sep + Sep + file);
    assert TraktorPath(volume, dir, file) == volume + joined;
  }

  /** `/:` and names ending in an empty one, joined by `/:` and followed by a file name, end in `/:/:` and that name. */
  lemma JoinEndsWithEmpty(parts: seq<string>, file: string)
    requires |parts| >= 1 && Last(parts) == ""
    ensures EndsWith(Sep + Join(Sep, parts + [file]), Sep + Sep + file)
  {
    var n, j := |parts|, Join(Sep, parts);
    if n == 1 {
      assert Sep + j == Sep;
    } else {
      assert parts == parts[..n - 1] + [""];
      JoinSnoc(Sep, parts[..n - 1], "");
      var j0 := Join(Sep, parts[..n - 1]);
      assert j == j0 + Sep;
      AppendAssoc(Sep, j0, Sep);
      EndsWithConcat(Sep + j0, Sep, Sep);
    }
    var x := Sep + j;
    assert Sep + Join(Sep, parts + [file]) == x + (Sep + file) by {
      JoinSnoc(Sep, parts, file);
      AppendAssoc(Sep, j + Sep, file);
      AppendAssoc(Sep, j, Sep);
      AppendAssoc(x, Sep, file);
    }
    AppendAssoc(Sep, Sep, file);
    EndsWithAppend(x, Sep, Sep + file);
  }

  /** Putting the same thing behind a string and behind its suffix keeps it a suffix. */
  lemma EndsWithAppend(s: string, t: string, u: string)
    requires EndsWith(s, t)
    ensures EndsWith(s + u, t + u)
  {
    assert (s + u)[|s + u| - |t + u|..] == s[|s| - |t|..] + u;
  }

  /** Putting something in front keeps a suffix. */
  lemma EndsWithConcat(a: string, b: string, t: string)
    requires EndsWith(b, t)
    ensures EndsWith(a + b, t)
  {
    assert (a + b)[|a + b| - |t|..] == b[|b| - |t|..];
  }

  // ---------------------------------------------------------------------------------------------
  // Cue points, loops and entries

  /** The cue type each Traktor cue `TYPE` names; a `TYPE` not listed here is read as a hot cue. */
  const CueTypeNames: map<string, CueType> :=
    map["cue" := HotCue, "fade-in" := HotCue, "fade-out" := HotCue, "load" := HotCue,
        "grid" := GridMarker, "loop" := HotCue]

  /** The cue type of a `TYPE` value: a grid marker for `grid` and a hot cue for every other value. */
  function CueTypeOf(typeName: string): (t: CueType)
    ensures t == GridMarker <==> typeName == "grid"
    ensures t == HotCue <==> typeName != "grid"
  {
    if typeName in CueTypeNames then CueTypeNames[typeName] else HotCue
  }

  /** Everything a cue point holds apart from its id. */
  datatype CueSpec = CueSpec(name: string, position: real, cueType: CueType, color: string, index: int)

  /** The fields of a cue point object, apart from its id. */
  function CueSpecOf(c: CuePoint): CueSpec
    reads c
  {
    CueSpec(c.name, c.position, c.cueType, c.color, c.index)
  }

  /**
   * A `CUE_V2` element as a cue point: `START` in milliseconds (default 0) as seconds, the cue type
   * of `TYPE` (default `cue`), `NAME` and `COLOR` with their defaults, and the pad number `HOTCUE`
   * (default -1), which is read for hot cues only. Nothing when a number does not parse.
   */
  function ParseCue(e: Element): (r: Option<CueSpec>)
    ensures r.Some? ==> r.value.cueType == HotCue || r.value.cueType == GridMarker
    ensures r.Some? ==> (r.value.cueType == GridMarker <==> e.Get("TYPE", "cue") == "grid")
    ensures r.Some? && r.value.cueType != HotCue ==> r.value.index == -1
    ensures r.None? <==>
      ParseFloat(e.Get("START", "0")).None? ||
      (e.Get("TYPE", "cue") != "grid" && ParseInt(e.Get("HOTCUE", "-1")).None?)
    ensures r.Some? ==> r.value.position * 1000.0 == ParseFloat(e.Get("START", "0")).value
    ensures r.Some? && r.value.cueType == HotCue ==> Some(r.value.index) == ParseInt(e.Get("HOTCUE", "-1"))
    ensures r.Some? ==> r.value.name == e.Get("NAME", "") && r.value.color == e.Get("COLOR", CuePoints.DefaultColor)
  {
    var cueType := CueTypeOf(e.Get("TYPE", "cue"));
    match ParseFloat(e.Get("START", "0"))
    case None => None
    case Some(start) =>
      var index := if cueType == HotCue then ParseInt(e.Get("HOTCUE", "-1")) else Some(-1);
      if index.None? then None
      else Some(CueSpec(e.Get("NAME", ""), Seconds(start), cueType, e.Get("COLOR", CuePoints.DefaultColor), index.value))
  }

  /** A cue whose `START` is a whole number of milliseconds keeps that number when the model's seconds go back to milliseconds. */
  lemma CueStartRoundTrip(e: Element, ms: int)
    requires e.Get("START", "0") == IntToString(ms)
    requires ParseCue(e).Some?
    ensures Millis(ParseCue(e).value.position) == ms
  {
    ParseFloatOfInt(ms);
    MillisRoundTrip(ms);
  }

  /** A grid marker's `HOTCUE` is never read: the cue is the same whatever `HOTCUE` says, or without one. */
  lemma GridMarkerIgnoresHotcue(e: Element, hotcue: string)
    requires e.Get("TYPE", "cue") == "grid"
    ensures ParseCue(e) == ParseCue(e.(attrs := e.attrs["HOTCUE" := hotcue]))
    ensures ParseCue(e) == ParseCue(e.(attrs := e.attrs - {"HOTCUE"}))
  {
    GridMarkerSameCue(e, e.(attrs := e.attrs["HOTCUE" := hotcue]));
    GridMarkerSameCue(e, e.(attrs := e.attrs - {"HOTCUE"}));
  }

  /** Two grid markers that agree on every attribute a cue reads apart from `HOTCUE` are the same cue. */
  lemma GridMarkerSameCue(e: Element, e': Element)
    requires e.Get("TYPE", "cue") == e'.Get("TYPE", "cue") == "grid"
    requires e.Get("START", "0") == e'.Get("START", "0") && e.Get("NAME", "") == e'.Get("NAME", "")
    requires e.Get("COLOR", CuePoints.DefaultColor) == e'.Get("COLOR", CuePoints.DefaultColor)
    ensures ParseCue(e) == ParseCue(e')
  {
  }

  /** Everything a loop holds apart from its id. */
  datatype LoopSpec = LoopSpec(name: string, startPosition: real, endPosition: real, loopType: LoopType,
                               color: string, index: int)

  /** The fields of a loop, apart from its id. */
  function LoopSpecOf(l: Loop): LoopSpec
  {
    LoopSpec(l.name, l.startPosition, l.endPosition, l.loopType, l.color, l.index)
  }

  /**
   * A `LOOP` element as a loop: `START` and `END` in milliseconds (default 0) as seconds, `NAME` and
   * `COLOR` with their defaults, always a regular loop without a pad number. Nothing when a number
   * does not parse.
   */
  function ParseLoopSpec(e: Element): (r: Option<LoopSpec>)
    ensures r.None? <==> ParseFloat(e.Get("START", "0")).None? || ParseFloat(e.Get("END", "0")).None?
    ensures r.Some? ==> r.value.loopType == Regular && r.value.index == -1
    ensures r.Some? ==> r.value.startPosition * 1000.0 == ParseFloat(e.Get("START", "0")).value
    ensures r.Some? ==> r.value.endPosition * 1000.0 == ParseFloat(e.Get("END", "0")).value
  {
    match (ParseFloat(e.Get("START", "0")), ParseFloat(e.Get("END", "0")))
    case (Some(start), Some(end)) =>
      Some(LoopSpec(e.Get("NAME", ""), Seconds(start), Seconds(end), Regular, e.Get("COLOR", Loops.DefaultColor), -1))
    case _ => None
  }

  /** Each element parsed in order, or nothing as soon as one of them does not parse. */
  function ParseEach<T>(es: seq<Element>, parse: Element -> Option<T>): (r: Option<seq<T>>)
    ensures r.Some? <==> forall i :: 0 <= i < |es| ==> parse(es[i]).Some?
    ensures r.Some? ==> |r.value| == |es| && forall i :: 0 <= i < |es| ==> r.value[i] == parse(es[i]).value
    decreases |es|
  {
    if es == [] then Some([])
    else match ParseEach(es[..|es| - 1], parse)
      case None => None
      case Some(front) =>
        match parse(es[|es| - 1])
        case None => None
        case Some(x) => Some(front + [x])
  }

  /** Parsing one more element extends the values parsed so far. */
  lemma ParseEachSnoc<T>(es: seq<Element>, i: nat, parse: Element -> Option<T>, front: seq<T>, x: T)
    requires i < |es| && ParseEach(es[..i], parse) == Some(front) && parse(es[i]) == Some(x)
    ensures ParseEach(es[..i + 1], parse) == Some(front + [x])
  {
    assert es[..i + 1][..i] == es[..i];
  }

  /** One element that does not parse makes the whole sequence fail. */
  lemma ParseEachFails<T>(es: seq<Element>, i: nat, parse: Element -> Option<T>)
    requires i < |es| && parse(es[i]).None?
    ensures ParseEach(es, parse).None?
  {
  }

  /** What an `ENTRY` yields: the track's details, its `traktor_path` tag, its cues and its loops. */
  datatype TrackSpec = TrackSpec(details: TrackDetails, traktorPath: string, cues: seq<CueSpec>, loops: seq<LoopSpec>)

  /** The neutral-model fields `_parse_track` fills from an `ENTRY`; the others keep their defaults. */
  function EntryDetails(entry: Element, filePath: string, duration: real, rating: int, bpm: real): TrackDetails
  {
    var info := entry.Find("INFO");
    var album := entry.Find("ALBUM");
    NoDetails.(
      title := entry.Get("TITLE", ""), artist := entry.Get("ARTIST", ""), key := entry.Get("KEY", ""),
      album := if album.Some? then album.value.Get("TITLE", "") else "",
      genre := if info.Some? then info.value.Get("GENRE", "") else "",
      comment := if info.Some? then info.value.Get("COMMENT", "") else "",
      filePath := filePath, duration := duration, rating := rating, bpm := bpm)
  }

  /** `PLAYTIME` (default 0) of the `INFO` child, or 0 without one; nothing when it does not parse. */
  function EntryDuration(entry: Element): Option<real>
  {
    match entry.Find("INFO")
    case None => Some(0.0)
    case Some(info) => ParseFloat(info.Get("PLAYTIME", "0"))
  }

  /** `RANKING` (default 0) of the `INFO` child, or 0 without one; nothing when it does not parse. */
  function EntryRating(entry: Element): Option<int>
  {
    match entry.Find("INFO")
    case None => Some(0)
    case Some(info) => ParseInt(info.Get("RANKING", "0"))
  }

  /** `BPM` (default 0) of the `TEMPO` child, or 0 without one; nothing when it does not parse. */
  function EntryBpm(entry: Element): Option<real>
  {
    match entry.Find("TEMPO")
    case None => Some(0.0)
    case Some(tempo) => ParseFloat(tempo.Get("BPM", "0"))
  }

  /**
   * A collection `ENTRY` as a track: nothing without a `LOCATION` child or when a number of the
   * entry, of a cue or of a loop does not parse; otherwise the location's path in both forms, the
   * entry's metadata, and all of its `CUE_V2` and `LOOP` children in document order.
   */
  function ParseEntry(entry: Element): (r: Option<TrackSpec>)
    ensures entry.Find("LOCATION").None? ==> r.None?
    ensures r.Some? ==>
      var loc := entry.Find("LOCATION").value;
      var volume, dir, file := loc.Get("VOLUME", ""), loc.Get("DIR", ""), loc.Get("FILE", "");
      r.value.details.filePath == LocationPath(volume, dir, file)
      && EndsWith(r.value.details.filePath, file)
      && r.value.traktorPath == TraktorPath(volume, dir, file)
      && |r.value.cues| == |entry.FindAll("CUE_V2")| && |r.value.loops| == |entry.FindAll("LOOP")|
    ensures r.Some? ==> forall i :: 0 <= i < |r.value.cues| ==> Some(r.value.cues[i]) == ParseCue(entry.FindAll("CUE_V2")[i])
    ensures r.Some? ==> forall i :: 0 <= i < |r.value.loops| ==> Some(r.value.loops[i]) == ParseLoopSpec(entry.FindAll("LOOP")[i])
  {
    match entry.Find("LOCATION")
    case None => None
    case Some(loc) =>
      var volume, dir, file := loc.Get("VOLUME", ""), loc.Get("DIR", ""), loc.Get("FILE", "");
      var duration, rating, bpm := EntryDuration(entry), EntryRating(entry), EntryBpm(entry);
      var cues := ParseEach(entry.FindAll("CUE_V2"), ParseCue);
      var loops := ParseEach(entry.FindAll("LOOP"), ParseLoopSpec);
      if duration.None? || rating.None? || bpm.None? || cues.None? || loops.None? then None
      else
        Some(TrackSpec(EntryDetails(entry, LocationPath(volume, dir, file), duration.value, rating.value, bpm.value),
                       TraktorPath(volume, dir, file), cues.value, loops.value))
  }

  /** When `ParseEntry` yields a track, and which one, spelled out part by part. */
  lemma ParseEntryCases(entry: Element)
    ensures ParseEntry(entry).Some? <==>
      entry.Find("LOCATION").Some? && EntryDuration(entry).Some? && EntryRating(entry).Some? && EntryBpm(entry).Some?
      && ParseEach(entry.FindAll("CUE_V2"), ParseCue).Some? && ParseEach(entry.FindAll("LOOP"), ParseLoopSpec).Some?
    ensures ParseEntry(entry).Some? ==>
      var loc := entry.Find("LOCATION").value;
      var volume, dir, file := loc.Get("VOLUME", ""), loc.Get("DIR", ""), loc.Get("FILE", "");
      ParseEntry(entry).value == TrackSpec(
        EntryDetails(entry, LocationPath(volume, dir, file), EntryDuration(entry).value, EntryRating(entry).value,
                     EntryBpm(entry).value),
        TraktorPath(volume, dir, file),
        ParseEach(entry.FindAll("CUE_V2"), ParseCue).value, ParseEach(entry.FindAll("LOOP"), ParseLoopSpec).value)
  {
  }

  /**
   * An entry with a location but no `INFO`, `ALBUM`, `TEMPO`, cue or loop child becomes a track
   * with an empty genre, comment and album, zero duration, rating and tempo, and no cues or loops.
   */
  lemma EntryDefaults(entry: Element)
    requires entry.Find("LOCATION").Some?
    requires forall c :: c in entry.children ==> c.tag !in {"INFO", "ALBUM", "TEMPO", "CUE_V2", "LOOP"}
    ensures ParseEntry(entry).Some?
    ensures var d := ParseEntry(entry).value.details;
      d.genre == "" && d.comment == "" && d.album == "" && d.duration == 0.0 && d.rating == 0 && d.bpm == 0.0
      && d.title == entry.Get("TITLE", "") && d.artist == entry.Get("ARTIST", "") && d.key == entry.Get("KEY", "")
      && d.fileSize == 0 && d.bitrate == 0 && d.sampleRate == 0 && d.year == None
    ensures ParseEntry(entry).value.cues == [] && ParseEntry(entry).value.loops == []
  {
    NoneWithTag(entry.children, "INFO");
    NoneWithTag(entry.children, "ALBUM");
    NoneWithTag(entry.children, "TEMPO");
    NoneWithTag(entry.children, "CUE_V2");
    NoneWithTag(entry.children, "LOOP");
  }

  // ---------------------------------------------------------------------------------------------
  // Importing tracks

  /** The cue specs of cue point objects, in order. */
  function CueSpecs(cs: seq<CuePoint>): (r: seq<CueSpec>)
    reads cs
    ensures |r| == |cs| && forall i :: 0 <= i < |cs| ==> r[i] == CueSpecOf(cs[i])
  {
    seq(|cs|, i requires 0 <= i < |cs| reads cs => CueSpecOf(cs[i]))
  }

  lemma CueSpecsSnoc(cs: seq<CuePoint>, c: CuePoint)
    ensures CueSpecs(cs + [c]) == CueSpecs(cs) + [CueSpecOf(c)]
  {
    assert forall i :: 0 <= i < |cs| + 1 ==> CueSpecs(cs + [c])[i] == (CueSpecs(cs) + [CueSpecOf(c)])[i];
  }

  /** One more cue point object that matches the next element extends the cues parsed so far. */
  lemma CueStep(es: seq<Element>, i: nat, cues: seq<CuePoint>, c: CuePoint)
    requires i < |es| && ParseEach(es[..i], ParseCue) == Some(CueSpecs(cues))
    requires ParseCue(es[i]) == Some(CueSpecOf(c))
    ensures ParseEach(es[..i + 1], ParseCue) == Some(CueSpecs(cues + [c]))
  {
    CueSpecsSnoc(cues, c);
    ParseEachSnoc(es, i, ParseCue, CueSpecs(cues), CueSpecOf(c));
  }

  /** One more parsed loop extends the parsed prefix by its spec. */
  lemma LoopStep(es: seq<Element>, i: nat, loops: seq<Loop>, l: Loop)
    requires i < |es| && ParseEach(es[..i], ParseLoopSpec) == Some(LoopSpecs(loops))
    requires ParseLoopSpec(es[i]) == Some(LoopSpecOf(l))
    ensures ParseEach(es[..i + 1], ParseLoopSpec) == Some(LoopSpecs(loops + [l]))
  {
    assert LoopSpecs(loops + [l]) == LoopSpecs(loops) + [LoopSpecOf(l)];
    ParseEachSnoc(es, i, ParseLoopSpec, LoopSpecs(loops), LoopSpecOf(l));
  }

  /** The loop specs of loops, in order. */
  function LoopSpecs(ls: seq<Loop>): (r: seq<LoopSpec>)
    ensures |r| == |ls| && forall i :: 0 <= i < |ls| ==> r[i] == LoopSpecOf(ls[i])
  {
    seq(|ls|, i requires 0 <= i < |ls| => LoopSpecOf(ls[i]))
  }

  /**
   * Track `t` is what the importer makes of an entry with spec `spec` at time `now`: the spec's
   * details, only the `traktor_path` tag, the spec's cues and loops in order, imported `now`, never
   * played, and an empty beat grid.
   */
  ghost predicate Realizes(t: Track, spec: TrackSpec, now: Timestamp)
    reads t, t.cuePoints
  {
    t.Details() == spec.details && t.customTags == map["traktor_path" := spec.traktorPath]
    && CueSpecs(t.cuePoints) == spec.cues && LoopSpecs(t.loops) == spec.loops
    && t.importDate == now && t.lastPlayed == None && t.playCount == 0 && t.beatGrid == []
  }

  /** `_parse_cue_point`: a new cue point object for a `CUE_V2` element, or nothing when a number does not parse. */
  method ParseCuePoint(e: Element) returns (r: Option<CuePoint>)
    ensures r.None? <==> ParseCue(e).None?
    ensures r.Some? ==> fresh(r.value) && CueSpecOf(r.value) == ParseCue(e).value
  {
    var typeName := e.Get("TYPE", "cue");
    var start := ParseFloat(e.Get("START", "0"));
    if start.None? {
      return None;
    }
    var cueType := CueTypeOf(typeName);
    var hotCueNumber := -1;
    if cueType == HotCue {
      var number := ParseInt(e.Get("HOTCUE", "-1"));
      if number.None? {
        return None;
      }
      hotCueNumber := number.value;
    }
    var cue := new CuePoint(None, {}, e.Get("NAME", ""), Seconds(start.value), cueType,
                            e.Get("COLOR", CuePoints.DefaultColor), hotCueNumber);
    r := Some(cue);
  }

  /** `_parse_loop`: a loop with a new id for a `LOOP` element, or nothing when a number does not parse. */
  method ParseLoop(e: Element) returns (r: Option<Loop>)
    ensures r.None? <==> ParseLoopSpec(e).None?
    ensures r.Some? ==> LoopSpecOf(r.value) == ParseLoopSpec(e).value
  {
    var start := ParseFloat(e.Get("START", "0"));
    var end := ParseFloat(e.Get("END", "0"));
    if start.None? || end.None? {
      return None;
    }
    var loop := NewLoop(None, {}, e.Get("NAME", ""), Seconds(start.value), Seconds(end.value), Regular,
                        e.Get("COLOR", Loops.DefaultColor), -1);
    r := Some(loop);
  }

  /**
   * `_parse_track`: a new track, under an id outside `inUse`, for a collection `ENTRY`, exactly when the
   * entry parses; its cue point objects are new as well.
   */
  method ParseTrack(entry: Element, inUse: set<Uuid>, now: Timestamp) returns (r: Option<Track>)
    ensures r.None? <==> ParseEntry(entry).None?
    ensures r.Some? ==> fresh(r.value) && r.value.id !in inUse && Realizes(r.value, ParseEntry(entry).value, now)
    ensures r.Some? ==> forall c :: c in r.value.cuePoints ==> fresh(c)
  {
    ParseEntryCases(entry);
    var location := entry.Find("LOCATION");
    if location.None? {
      return None;
    }
    var loc := location.value;
    var volume, dir, file := loc.Get("VOLUME", ""), loc.Get("DIR", ""), loc.Get("FILE", "");
    var filePath := LocationPath(volume, dir, file);
    var traktorPath := TraktorPath(volume, dir, file);
    var duration, rating, bpm := EntryDuration(entry), EntryRating(entry), EntryBpm(entry);
    if duration.None? || rating.None? || bpm.None? {
      return None;
    }
    var details := EntryDetails(entry, filePath, duration.value, rating.value, bpm.value);
    r := BuildTrack(inUse, now, details, traktorPath, entry.FindAll("CUE_V2"), entry.FindAll("LOOP"));
  }

  /**
   * The second half of `_parse_track`: the new track with the given details and `traktor_path` tag,
   * a new cue point for each `CUE_V2` element and a loop for each `LOOP` element, in order; nothing
   * when one of them does not parse.
   */
  method BuildTrack(inUse: set<Uuid>, now: Timestamp, details: TrackDetails, traktorPath: string,
                    cueElements: seq<Element>, loopElements: seq<Element>) returns (r: Option<Track>)
    ensures r.None? <==> ParseEach(cueElements, ParseCue).None? || ParseEach(loopElements, ParseLoopSpec).None?
    ensures r.Some? ==> fresh(r.value) && r.value.id !in inUse
    ensures r.Some? ==> Realizes(r.value, TrackSpec(details, traktorPath, ParseEach(cueElements, ParseCue).value,
                                                   ParseEach(loopElements, ParseLoopSpec).value), now)
    ensures r.Some? ==> forall c :: c in r.value.cuePoints ==> fresh(c)
  {
    var cues := ParseCuePoints(cueElements);
    if cues.None? {
      return None;
    }
    var loops := ParseLoops(loopElements);
    if loops.None? {
      return None;
    }
    var track := new Track(inUse, now, details, cues.value, loops.value, [], map["traktor_path" := traktorPath]);
    r := Some(track);
  }

  /** The cue loop of `_parse_track`: a new cue point for each `CUE_V2` element, in order, or nothing when one does not parse. */
  method ParseCuePoints(es: seq<Element>) returns (r: Option<seq<CuePoint>>)
    ensures r.None? <==> ParseEach(es, ParseCue).None?
    ensures r.Some? ==> ParseEach(es, ParseCue) == Some(CueSpecs(r.value))
    ensures r.Some? ==> forall c :: c in r.value ==> fresh(c)
  {
    var cues: seq<CuePoint> := [];
    ghost var specs: seq<CueSpec> := [];
    for i := 0 to |es|
      invariant ParseEach(es[..i], ParseCue) == Some(specs) && CueSpecs(cues) == specs
      invariant forall c :: c in cues ==> fresh(c)
    {
      var cue := ParseCuePoint(es[i]);
      if cue.None? {
        ParseEachFails(es, i, ParseCue);
        return None;
      }
      CueStep(es, i, cues, cue.value);
      cues, specs := cues + [cue.value], CueSpecs(cues + [cue.value]);
    }
    assert es[..|es|] == es;
    r := Some(cues);
  }

  /** The loop loop of `_parse_track`: a loop for each `LOOP` element, in order, or nothing when one does not parse. */
  method ParseLoops(es: seq<Element>) returns (r: Option<seq<Loop>>)
    ensures r.None? <==> ParseEach(es, ParseLoopSpec).None?
    ensures r.Some? ==> ParseEach(es, ParseLoopSpec) == Some(LoopSpecs(r.value))
  {
    var loops: seq<Loop> := [];
    for i := 0 to |es|
      invariant ParseEach(es[..i], ParseLoopSpec) == Some(LoopSpecs(loops))
    {
      var loop := ParseLoop(es[i]);
      if loop.None? {
        ParseEachFails(es, i, ParseLoopSpec);
        return None;
      }
      LoopStep(es, i, loops, loop.value);
      loops := loops + [loop.value];
    }
    assert es[..|es|] == es;
    r := Some(loops);
  }

  // ---------------------------------------------------------------------------------------------
  // The collection's tracks
  // ---------------------------------------------------------------------------------------------

  /** The `ENTRY` children of the first `COLLECTION` element below the root (`root.find('.//COLLECTION')`), if any. */
  function CollectionEntries(root: Element): seq<Element>
  {
    match FindDescendant(root, "COLLECTION")
    case None => []
    case Some(node) => node.FindAll("ENTRY")
  }

  /** The specs of the entries that parse, in document order; the others are skipped. */
  function ParsedEntries(es: seq<Element>): (r: seq<TrackSpec>)
    ensures |r| <= |es|
    decreases |es|
  {
    if es == [] then []
    else
      var spec := ParseEntry(es[|es| - 1]);
      ParsedEntries(es[..|es| - 1]) + if spec.Some? then [spec.value] else []
  }

  /** One entry more adds its spec when it parses. */
  lemma ParsedEntriesSnoc(es: seq<Element>, i: nat)
    requires i < |es|
    ensures ParseEntry(es[i]).None? ==> ParsedEntries(es[..i + 1]) == ParsedEntries(es[..i])
    ensures ParseEntry(es[i]).Some? ==> ParsedEntries(es[..i + 1]) == ParsedEntries(es[..i]) + [ParseEntry(es[i]).value]
  {
    assert es[..i + 1][..i] == es[..i];
  }

  /**
   * A track table `keys`/`items` is the table `keys0`/`items0` with one new track per spec of `specs`
   * appended in order: each stored under its own id, realizing its spec at time `now`.
   */
  ghost predicate TracksImported(keys: seq<Uuid>, items: map<Uuid, Track>, keys0: seq<Uuid>, items0: map<Uuid, Track>,
                                 specs: seq<TrackSpec>, now: Timestamp)
    reads items.Values, CuesOf(items.Values)
  {
    |keys| == |keys0| + |specs| && keys[..|keys0|] == keys0
    && (forall k :: k in items0 ==> k in items && items[k] == items0[k])
    && forall i :: |keys0| <= i < |keys| ==>
         keys[i] in items && items[keys[i]].id == keys[i] && Realizes(items[keys[i]], specs[i - |keys0|], now)
  }

  /** Storing one more track under its own, new id extends an import by that track's spec. */
  lemma TracksImportedStep(d: ODict<Uuid, Track>, keys0: seq<Uuid>, items0: map<Uuid, Track>, specs: seq<TrackSpec>,
                           t: Track, spec: TrackSpec, now: Timestamp)
    requires d.Valid() && TracksImported(d.keys, d.items, keys0, items0, specs, now)
    requires t.id !in d.items && Realizes(t, spec, now)
    ensures TracksImported(d.Put(t.id, t).keys, d.Put(t.id, t).items, keys0, items0, specs + [spec], now)
  {
    var e := d.Put(t.id, t);
    assert e.keys == d.keys + [t.id];
    assert e.keys[..|keys0|] == d.keys[..|keys0|];
    forall i | |keys0| <= i < |e.keys|
      ensures e.keys[i] in e.items && e.items[e.keys[i]].id == e.keys[i]
      ensures Realizes(e.items[e.keys[i]], (specs + [spec])[i - |keys0|], now)
    {
      if i < |d.keys| {
        assert e.keys[i] == d.keys[i] != t.id;
      }
    }
  }

  /**
   * `_import_tracks`: each `ENTRY` of the collection that parses becomes a new track of `c`, in document
   * order; entries that do not parse are skipped, and the tracks already there stay.
   */
  method ImportTracks(root: Element, c: Collection, now: Timestamp)
    requires c.Valid()
    modifies c`tracks
    ensures c.Valid()
    ensures TracksImported(c.tracks.keys, c.tracks.items, old(c.tracks.keys), old(c.tracks.items),
                           ParsedEntries(CollectionEntries(root)), now)
  {
    var node := FindDescendant(root, "COLLECTION");
    if node.None? {
      return;
    }
    var entries := node.value.FindAll("ENTRY");
    ghost var keys0, items0 := c.tracks.keys, c.tracks.items;
    ghost var specs: seq<TrackSpec> := [];
    for i := 0 to |entries|
      invariant c.Valid() && specs == ParsedEntries(entries[..i])
      invariant TracksImported(c.tracks.keys, c.tracks.items, keys0, items0, specs, now)
    {
      ParsedEntriesSnoc(entries, i);
      specs := ImportEntry(entries[i], c, now, keys0, items0, specs);
    }
    assert entries[..|entries|] == entries;
  }

  /** `collection.add_track(track)` in `_import_tracks`: a track realizing `spec`, under a new id, extends the import. */
  method AddImported(c: Collection, t: Track, ghost spec: TrackSpec, now: Timestamp, ghost keys0: seq<Uuid>,
                     ghost items0: map<Uuid, Track>, ghost specs: seq<TrackSpec>)
    requires c.Valid() && TracksImported(c.tracks.keys, c.tracks.items, keys0, items0, specs, now)
    requires t.id !in c.tracks.items && Realizes(t, spec, now)
    modifies c`tracks
    ensures c.Valid() && TracksImported(c.tracks.keys, c.tracks.items, keys0, items0, specs + [spec], now)
  {
    TracksImportedStep(c.tracks, keys0, items0, specs, t, spec, now);
    var _ := c.AddTrack(t);
  }

  /** One turn of the loop of `_import_tracks`: the entry's track, when it parses, is added to `c`. */
  method ImportEntry(entry: Element, c: Collection, now: Timestamp, ghost keys0: seq<Uuid>,
                     ghost items0: map<Uuid, Track>, ghost specs: seq<TrackSpec>) returns (ghost specs': seq<TrackSpec>)
    requires c.Valid() && TracksImported(c.tracks.keys, c.tracks.items, keys0, items0, specs, now)
    modifies c`tracks
    ensures c.Valid() && TracksImported(c.tracks.keys, c.tracks.items, keys0, items0, specs', now)
    ensures ParseEntry(entry).None? ==> specs' == specs
    ensures ParseEntry(entry).Some? ==> specs' == specs + [ParseEntry(entry).value]
  {
    var track := ParseTrack(entry, c.tracks.items.Keys, now);
    specs' := specs;
    if track.Some? {
      assert TracksImported(c.tracks.keys, c.tracks.items, keys0, items0, specs, now);
      AddImported(c, track.value, ParseEntry(entry).value, now, keys0, items0, specs);
      specs' := specs + [ParseEntry(entry).value];
    }
  }

  // ---------------------------------------------------------------------------------------------
  // Resolving playlist entries
  // ---------------------------------------------------------------------------------------------

  /** What the playlist import looks at in a track: its id, its `traktor_path` tag if any, and its path. */
  datatype TrackRef = TrackRef(id: Uuid, traktorPath: Option<string>, filePath: string)

  function RefOf(t: Track): TrackRef
    reads t`id, t`customTags, t`filePath
  {
    TrackRef(t.id, if "traktor_path" in t.customTags then Some(t.customTags["traktor_path"]) else None, t.filePath)
  }

  /** The references of the tracks, in order. */
  function Refs(ts: seq<Track>): (r: seq<TrackRef>)
    reads ts`id, ts`customTags, ts`filePath
    ensures |r| == |ts| && forall i :: 0 <= i < |ts| ==> r[i] == RefOf(ts[i])
  {
    if ts == [] then [] else Refs(ts[..|ts| - 1]) + [RefOf(ts[|ts| - 1])]
  }

  /** The position of the first track whose `traktor_path` tag is `key`, if any. */
  function ByTraktorPath(refs: seq<TrackRef>, key: string): (r: Option<nat>)
    ensures r.Some? ==> r.value < |refs| && refs[r.value].traktorPath == Some(key)
    ensures r.Some? ==> forall j :: 0 <= j < r.value ==> refs[j].traktorPath != Some(key)
    ensures r.None? <==> forall j :: 0 <= j < |refs| ==> refs[j].traktorPath != Some(key)
  {
    if refs == [] then None
    else if refs[0].traktorPath == Some(key) then Some(0)
    else
      var rest := ByTraktorPath(refs[1..], key);
      if rest.Some? then Some(rest.value + 1) else None
  }

  /** The position of the first track whose path ends in `fileName`, if any. */
  function ByFileName(refs: seq<TrackRef>, fileName: string): (r: Option<nat>)
    ensures r.Some? ==> r.value < |refs| && EndsWith(refs[r.value].filePath, fileName)
    ensures r.Some? ==> forall j :: 0 <= j < r.value ==> !EndsWith(refs[j].filePath, fileName)
    ensures r.None? <==> forall j :: 0 <= j < |refs| ==> !EndsWith(refs[j].filePath, fileName)
  {
    if refs == [] then None
    else if EndsWith(refs[0].filePath, fileName) then Some(0)
    else
      var rest := ByFileName(refs[1..], fileName);
      if rest.Some? then Some(rest.value + 1) else None
  }

  /** The `KEY` of an entry's `PRIMARYKEY` child (empty without the attribute), or nothing without the child. */
  function EntryKey(entry: Element): Option<string>
  {
    var pk := entry.Find("PRIMARYKEY");
    if pk.Some? then Some(pk.value.Get("KEY", "")) else None
  }

  /**
   * The track a playlist `ENTRY` names: its `KEY` must be non-empty and split on `/:` into at least two
   * parts; the track is then the first whose `traktor_path` tag is the key, or else the first whose path
   * ends in the last part.
   */
  function EntryTrack(entry: Element, refs: seq<TrackRef>): (r: Option<Uuid>)
    ensures r.Some? ==> exists i :: 0 <= i < |refs| && refs[i].id == r.value
  {
    var key := EntryKey(entry);
    if key.None? then None else KeyTrack(key.value, refs)
  }

  /** The track a playlist entry's `KEY` names; see `EntryTrack`. */
  function KeyTrack(key: string, refs: seq<TrackRef>): (r: Option<Uuid>)
    ensures r.Some? ==> exists i :: 0 <= i < |refs| && refs[i].id == r.value
  {
    if key == "" || |Split(key, Sep)| < 2 then None
    else
      var found := Lookup(refs, key, Last(Split(key, Sep)));
      if found.Some? then Some(refs[found.value].id) else None
  }

  /** The first track whose `traktor_path` tag is `key`, or else the first whose path ends in `fileName`. */
  function Lookup(refs: seq<TrackRef>, key: string, fileName: string): (r: Option<nat>)
    ensures r.Some? ==> r.value < |refs|
  {
    var byPath := ByTraktorPath(refs, key);
    if byPath.Some? then byPath else ByFileName(refs, fileName)
  }

  /**
   * An entry whose key is the `traktor_path` of an imported location resolves to the first track carrying
   * that tag: the key passes the two-part test, and the tag search finds the track before the file-name
   * search is tried.
   */
  lemma ImportedKeyResolves(entry: Element, refs: seq<TrackRef>, i: nat, volume: string, dir: string, file: string)
    requires NoSep(volume) && NoSep(file)
    requires EntryKey(entry) == Some(TraktorPath(volume, dir, file))
    requires i < |refs| && refs[i].traktorPath == Some(TraktorPath(volume, dir, file))
    requires forall j :: 0 <= j < i ==> refs[j].traktorPath != Some(TraktorPath(volume, dir, file))
    ensures EntryTrack(entry, refs) == Some(refs[i].id)
  {
    TraktorPathSplit(volume, dir, file);
  }

  /**
   * A key that ends in `/:` leaves an empty file name, and every path ends in the empty string: without a
   * track carrying the key as its tag, such an entry resolves to the first track of the collection.
   */
  lemma EmptyFileNameMatchesFirst(entry: Element, refs: seq<TrackRef>, volume: string)
    requires NoSep(volume) && EntryKey(entry) == Some(volume + Sep)
    requires refs != [] && forall j :: 0 <= j < |refs| ==> refs[j].traktorPath != Some(volume + Sep)
    ensures EntryTrack(entry, refs) == Some(refs[0].id)
  {
    SplitAfterPiece(volume, "");
    assert volume + Sep + "" == volume + Sep;
    assert Split("", Sep) == [""];
    assert Split(volume + Sep, Sep) == [volume, ""];
    assert EndsWith(refs[0].filePath, "");
  }

  /** What each entry of a playlist resolves to, in order. */
  function Resolved(entries: seq<Element>, refs: seq<TrackRef>): (r: seq<Option<Uuid>>)
    ensures |r| == |entries| && forall i :: 0 <= i < |entries| ==> r[i] == EntryTrack(entries[i], refs)
  {
    seq(|entries|, i requires 0 <= i < |entries| => EntryTrack(entries[i], refs))
  }

  /** The values found, in order of first appearance, each once: a list grown by `add_track`. */
  function Collect<T(==)>(os: seq<Option<T>>): (r: seq<T>)
    ensures |r| <= |os|
  {
    if os == [] then []
    else
      var front := Collect(os[..|os| - 1]);
      var o := os[|os| - 1];
      if o.Some? && o.value !in front then front + [o.value] else front
  }

  /** One more value found is collected unless it was collected before. */
  lemma CollectSnoc<T>(os: seq<Option<T>>, i: nat)
    requires i < |os|
    ensures os[i].Some? && os[i].value !in Collect(os[..i]) ==> Collect(os[..i + 1]) == Collect(os[..i]) + [os[i].value]
    ensures !(os[i].Some? && os[i].value !in Collect(os[..i])) ==> Collect(os[..i + 1]) == Collect(os[..i])
  {
    assert os[..i + 1][..i] == os[..i];
  }

  /** No value is collected twice. */
  lemma {:induction false} CollectDistinct<T>(os: seq<Option<T>>)
    ensures Distinct(Collect(os))
  {
    if os != [] {
      CollectDistinct(os[..|os| - 1]);
    }
  }

  /** A value is collected exactly when it was found. */
  lemma {:induction false} CollectMembers<T>(os: seq<Option<T>>)
    ensures forall x :: x in Collect(os) <==> Some(x) in os
  {
    if os != [] {
      CollectMembers(os[..|os| - 1]);
      assert forall o :: o in os <==> o in os[..|os| - 1] || o == os[|os| - 1];
    }
  }

  /** The track ids of a playlist's entries, in order of first mention, each once. */
  function EntryIds(entries: seq<Element>, refs: seq<TrackRef>): seq<Uuid>
  {
    Collect(Resolved(entries, refs))
  }

  /** A playlist the import fills lists no track twice, and lists exactly the tracks its entries resolve to. */
  lemma EntryIdsSpec(entries: seq<Element>, refs: seq<TrackRef>)
    ensures Distinct(EntryIds(entries, refs))
    ensures forall x :: x in EntryIds(entries, refs) <==>
      exists i :: 0 <= i < |entries| && EntryTrack(entries[i], refs) == Some(x)
  {
    var os := Resolved(entries, refs);
    CollectDistinct(os);
    CollectMembers(os);
    forall x
      ensures Some(x) in os <==> exists i :: 0 <= i < |entries| && EntryTrack(entries[i], refs) == Some(x)
    {
      if Some(x) in os {
        var i :| 0 <= i < |os| && os[i] == Some(x);
      }
    }
  }

  /** The first search of `_process_playlist_node`: the first track whose `traktor_path` tag is `key`. */
  method FindByTraktorPath(refs: seq<TrackRef>, key: string) returns (r: Option<nat>)
    ensures r == ByTraktorPath(refs, key)
  {
    for i := 0 to |refs|
      invariant forall j :: 0 <= j < i ==> refs[j].traktorPath != Some(key)
    {
      if refs[i].traktorPath == Some(key) {
        return Some(i);
      }
    }
    return None;
  }

  /** The second search of `_process_playlist_node`: the first track whose path ends in `fileName`. */
  method FindByFileName(refs: seq<TrackRef>, fileName: string) returns (r: Option<nat>)
    ensures r == ByFileName(refs, fileName)
  {
    for i := 0 to |refs|
      invariant forall j :: 0 <= j < i ==> !EndsWith(refs[j].filePath, fileName)
    {
      if EndsWith(refs[i].filePath, fileName) {
        return Some(i);
      }
    }
    return None;
  }

  /** The body of the entry loop of `_process_playlist_node`: the id of the track an entry names, if any. */
  method ResolveEntry(entry: Element, refs: seq<TrackRef>) returns (r: Option<Uuid>)
    ensures r == EntryTrack(entry, refs)
  {
    var pk := entry.Find("PRIMARYKEY");
    if pk.None? {
      return None;
    }
    r := ResolveKey(pk.value.Get("KEY", ""), refs);
  }

  /** The id of the track a playlist key names, if any: the two-part test, then the two searches. */
  method ResolveKey(key: string, refs: seq<TrackRef>) returns (r: Option<Uuid>)
    ensures r == KeyTrack(key, refs)
  {
    if key == "" {
      return None;
    }
    var parts := Split(key, Sep);
    if |parts| < 2 {
      return None;
    }
    var found := FindByTraktorPath(refs, key);
    if found.None? {
      found := FindByFileName(refs, parts[|parts| - 1]);
    }
    r := if found.Some? then Some(refs[found.value].id) else None;
  }

  /** The entry loop of `_process_playlist_node`: each entry's track, when it has one, is added to `p`. */
  method FillPlaylist(p: Playlist, entries: seq<Element>, refs: seq<TrackRef>)
    requires p.trackIds == []
    modifies p`trackIds
    ensures p.trackIds == EntryIds(entries, refs)
  {
    ghost var os := Resolved(entries, refs);
    for i := 0 to |entries|
      invariant p.trackIds == Collect(os[..i])
    {
      CollectSnoc(os, i);
      var id := ResolveEntry(entries[i], refs);
      assert id == os[i];
      if id.Some? {
        p.AddTrack(id.value);
      }
    }
    assert os[..|entries|] == os;
  }

  // ---------------------------------------------------------------------------------------------
  // The playlist tree
  // ---------------------------------------------------------------------------------------------

  /** Where a new playlist hangs: at the top (no parent), or under the `index`-th playlist the import made. */
  datatype ParentRef = Outer | Made(index: nat)

  /** A playlist the import makes: its name, its parent and its track ids (a folder has none). */
  datatype PlaylistSpec = PlaylistSpec(name: string, parent: ParentRef, trackIds: seq<Uuid>)

  /** `e.findall('./NODE')`: the `NODE` children of an element, each below it in the tree. */
  function NodeChildren(e: Element): (r: seq<Element>)
    ensures forall i :: 0 <= i < |r| ==> r[i] < e
  {
    var r := e.FindAll("NODE");
    WithTagMembers(e.children, "NODE");
    assert forall i :: 0 <= i < |r| ==> r[i] in e.children;
    r
  }

  /** The nodes a folder holds: the `NODE` children of its first `SUBNODES` child, or its own `NODE` children without one. */
  function FolderNodes(node: Element): (r: seq<Element>)
    ensures forall i :: 0 <= i < |r| ==> r[i] < node
  {
    var sub := node.Find("SUBNODES");
    if sub.Some? then NodeChildren(sub.value) else NodeChildren(node)
  }

  /** The track ids of a `PLAYLIST` node: those of the entries of its first `PLAYLIST` child, or none without one. */
  function PlaylistNodeIds(node: Element, refs: seq<TrackRef>): seq<Uuid>
  {
    var pe := node.Find("PLAYLIST");
    if pe.Some? then EntryIds(pe.value.FindAll("ENTRY"), refs) else []
  }

  /**
   * The playlists `_process_playlist_node` makes for a node, in the order it makes them, when the node's
   * own playlist is the `base`-th of the import: a `FOLDER` gives an empty playlist and then the playlists
   * of the nodes it holds, hung under it; a `PLAYLIST` gives one playlist with its entries' tracks; any
   * other node gives nothing, and what is inside it is not visited.
   */
  function Walk(node: Element, parent: ParentRef, base: nat, refs: seq<TrackRef>): (r: seq<PlaylistSpec>)
    decreases node, 1, 0
  {
    var kind, name := node.Get("TYPE", ""), node.Get("NAME", "");
    if kind == "FOLDER" then [PlaylistSpec(name, parent, [])] + Forest(node, FolderNodes(node), Made(base), base + 1, refs)
    else if kind == "PLAYLIST" then [PlaylistSpec(name, parent, PlaylistNodeIds(node, refs))]
    else []
  }

  /** The playlists made for the nodes `ks` (all below `owner`) one after the other, all under `parent`, from the `base`-th on. */
  function Forest(owner: Element, ks: seq<Element>, parent: ParentRef, base: nat, refs: seq<TrackRef>): (r: seq<PlaylistSpec>)
    requires forall i :: 0 <= i < |ks| ==> ks[i] < owner
    decreases owner, 0, |ks|
  {
    if ks == [] then []
    else
      var front := Forest(owner, ks[..|ks| - 1], parent, base, refs);
      front + Walk(ks[|ks| - 1], parent, base + |front|, refs)
  }

  /** One node more adds its playlists after those of the nodes before it. */
  lemma ForestSnoc(owner: Element, ks: seq<Element>, parent: ParentRef, base: nat, refs: seq<TrackRef>, i: nat)
    requires forall j :: 0 <= j < |ks| ==> ks[j] < owner
    requires i < |ks|
    ensures Forest(owner, ks[..i + 1], parent, base, refs)
         == Forest(owner, ks[..i], parent, base, refs) + Walk(ks[i], parent, base + |Forest(owner, ks[..i], parent, base, refs)|, refs)
  {
    assert ks[..i + 1][..i] == ks[..i];
  }

  /**
   * The playlists `specs`, the `base`-th of the import onwards, form a tree in the order they are made:
   * each one's parent is made before it, and no playlist lists a track twice.
   */
  ghost predicate TreeOrdered(specs: seq<PlaylistSpec>, base: nat)
  {
    forall j :: 0 <= j < |specs| ==>
      (specs[j].parent.Made? ==> specs[j].parent.index < base + j) && Distinct(specs[j].trackIds)
  }

  lemma TreeOrderedAppend(a: seq<PlaylistSpec>, b: seq<PlaylistSpec>, base: nat)
    requires TreeOrdered(a, base) && TreeOrdered(b, base + |a|)
    ensures TreeOrdered(a + b, base)
  {
    forall j | 0 <= j < |a + b|
      ensures ((a + b)[j].parent.Made? ==> (a + b)[j].parent.index < base + j) && Distinct((a + b)[j].trackIds)
    {
      if j >= |a| {
        assert (a + b)[j] == b[j - |a|];
      }
    }
  }

  /** A node's playlists come parents first, each with distinct tracks, when its parent is made before it. */
  lemma {:induction false} WalkTreeOrdered(node: Element, parent: ParentRef, base: nat, refs: seq<TrackRef>)
    requires parent.Made? ==> parent.index < base
    ensures TreeOrdered(Walk(node, parent, base, refs), base)
    decreases node, 1, 0
  {
    var kind := node.Get("TYPE", "");
    if kind == "FOLDER" {
      var kids := FolderNodes(node);
      ForestTreeOrdered(node, kids, Made(base), base + 1, refs);
      TreeOrderedAppend([PlaylistSpec(node.Get("NAME", ""), parent, [])], Forest(node, kids, Made(base), base + 1, refs), base);
    } else if kind == "PLAYLIST" {
      var pe := node.Find("PLAYLIST");
      if pe.Some? {
        EntryIdsSpec(pe.value.FindAll("ENTRY"), refs);
      }
    }
  }

  /** The playlists made so far, followed by those of `ks[i]`, are those of the nodes up to `ks[i]`. */
  lemma ForestGrows(owner: Element, ks: seq<Element>, i: nat, parent: ParentRef, refs: seq<TrackRef>,
                    specs: seq<PlaylistSpec>, done: seq<PlaylistSpec>, done': seq<PlaylistSpec>)
    requires (forall j :: 0 <= j < |ks| ==> ks[j] < owner) && i < |ks|
    requires done == specs + Forest(owner, ks[..i], parent, |specs|, refs)
    requires done' == done + Walk(ks[i], parent, |done|, refs)
    ensures done' == specs + Forest(owner, ks[..i + 1], parent, |specs|, refs)
  {
    ForestSnoc(owner, ks, parent, |specs|, refs, i);
    AppendAssoc(specs, Forest(owner, ks[..i], parent, |specs|, refs), Walk(ks[i], parent, |done|, refs));
  }

  /** The playlists of a row of nodes come parents first, each with distinct tracks. */
  lemma {:induction false} ForestTreeOrdered(owner: Element, ks: seq<Element>, parent: ParentRef, base: nat, refs: seq<TrackRef>)
    requires forall i :: 0 <= i < |ks| ==> ks[i] < owner
    requires parent.Made? ==> parent.index < base
    ensures TreeOrdered(Forest(owner, ks, parent, base, refs), base)
    decreases owner, 0, |ks|
  {
    if ks != [] {
      var front := Forest(owner, ks[..|ks| - 1], parent, base, refs);
      ForestTreeOrdered(owner, ks[..|ks| - 1], parent, base, refs);
      WalkTreeOrdered(ks[|ks| - 1], parent, base + |front|, refs);
      TreeOrderedAppend(front, Walk(ks[|ks| - 1], parent, base + |front|, refs), base);
    }
  }

  /** The playlists the import makes from a document: those of the `NODE` children of its first `PLAYLISTS` element, at the top. */
  function ImportedPlaylists(root: Element, refs: seq<TrackRef>): seq<PlaylistSpec>
  {
    var node := FindDescendant(root, "PLAYLISTS");
    if node.None? then [] else Forest(node.value, NodeChildren(node.value), Outer, 0, refs)
  }

  /** The playlists of a whole import form a tree in the order they are made. */
  lemma ImportedPlaylistsOrdered(root: Element, refs: seq<TrackRef>)
    ensures TreeOrdered(ImportedPlaylists(root, refs), 0)
  {
    var node := FindDescendant(root, "PLAYLISTS");
    if node.Some? {
      ForestTreeOrdered(node.value, NodeChildren(node.value), Outer, 0, refs);
    }
  }

  // ---------------------------------------------------------------------------------------------
  // Importing playlists
  // ---------------------------------------------------------------------------------------------

  /** The parent id a parent reference stands for, given the ids made so far (from position `n0` of `keys`). */
  function ParentId(parent: ParentRef, keys: seq<Uuid>, n0: nat): Option<Uuid>
  {
    if parent.Made? && n0 + parent.index < |keys| then Some(keys[n0 + parent.index]) else None
  }

  /** The ids among `ks` whose playlist has no parent, in order. */
  function TopIds(ks: seq<Uuid>, specs: seq<PlaylistSpec>): (r: seq<Uuid>)
    requires |ks| == |specs|
    ensures |r| <= |ks|
  {
    if ks == [] then []
    else TopIds(ks[..|ks| - 1], specs[..|specs| - 1]) + if specs[|specs| - 1].parent.Outer? then [ks[|ks| - 1]] else []
  }

  /** One id more is a root exactly when its playlist has no parent. */
  lemma TopIdsSnoc(ks: seq<Uuid>, specs: seq<PlaylistSpec>, k: Uuid, spec: PlaylistSpec)
    requires |ks| == |specs|
    ensures TopIds(ks + [k], specs + [spec]) == TopIds(ks, specs) + if spec.parent.Outer? then [k] else []
  {
    assert (ks + [k])[..|ks|] == ks;
    assert (specs + [spec])[..|specs|] == specs;
  }

  /** Playlist `p`, stored under `key`, is the one `spec` describes, with the parent ids of `keys` from position `n0`. */
  ghost predicate MadeAs(p: Playlist, key: Uuid, spec: PlaylistSpec, keys: seq<Uuid>, n0: nat)
    reads p
  {
    p.id == key && p.name == spec.name && p.description == "" && p.trackIds == spec.trackIds
    && p.parentId == ParentId(spec.parent, keys, n0) && p.children == []
  }

  /**
   * The playlist table `d` and roots `roots` are those of `keys0`, `items0` and `roots0` with the playlists
   * `specs` added: the old entries stay, first and unchanged; after them come, under new ids and in order,
   * one playlist per spec, with the parent the spec names; the ids of those without a parent are appended
   * to the roots; and each parent is made before its children.
   */
  ghost predicate PlaylistsImported(d: ODict<Uuid, Playlist>, roots: seq<Uuid>, keys0: seq<Uuid>, items0: map<Uuid, Playlist>,
                                    roots0: seq<Uuid>, specs: seq<PlaylistSpec>)
    reads d.items.Values
  {
    |d.keys| == |keys0| + |specs| && d.keys[..|keys0|] == keys0
    && (forall k :: k in items0 ==> k in d.items && d.items[k] == items0[k])
    && roots == roots0 + TopIds(d.keys[|keys0|..], specs)
    && ParentsBefore(specs) && AllMade(d, |keys0|, items0, specs)
  }

  /** Each playlist's parent, if it has one among `specs`, comes before it. */
  ghost predicate ParentsBefore(specs: seq<PlaylistSpec>)
  {
    forall j :: 0 <= j < |specs| && specs[j].parent.Made? ==> specs[j].parent.index < j
  }

  /** From position `n0` on, the ids of `d` are new ones, one per spec, each stored with the playlist made as that spec. */
  ghost predicate AllMade(d: ODict<Uuid, Playlist>, n0: nat, items0: map<Uuid, Playlist>, specs: seq<PlaylistSpec>)
    reads d.items.Values
  {
    |d.keys| == n0 + |specs|
    && forall i :: n0 <= i < |d.keys| ==>
         d.keys[i] in d.items && d.keys[i] !in items0 && MadeAs(d.items[d.keys[i]], d.keys[i], specs[i - n0], d.keys, n0)
  }

  /** Storing one more playlist, under a new id and with a parent made before it, extends an import by its spec. */
  lemma PlaylistsImportedStep(d: ODict<Uuid, Playlist>, e: ODict<Uuid, Playlist>, roots: seq<Uuid>, keys0: seq<Uuid>,
                              items0: map<Uuid, Playlist>, roots0: seq<Uuid>, specs: seq<PlaylistSpec>, p: Playlist, spec: PlaylistSpec)
    requires PlaylistsImported(d, roots, keys0, items0, roots0, specs)
    requires p.id !in d.items && e.keys == d.keys + [p.id] && e.items == d.items[p.id := p]
    requires spec.parent.Made? ==> spec.parent.index < |specs|
    requires p.name == spec.name && p.description == "" && p.trackIds == spec.trackIds && p.children == []
    requires p.parentId == ParentId(spec.parent, d.keys, |keys0|)
    ensures PlaylistsImported(e, roots + (if spec.parent.Outer? then [p.id] else []), keys0, items0, roots0, specs + [spec])
  {
    var n0 := |keys0|;
    assert e.keys[..n0] == d.keys[..n0];
    assert e.keys[n0..] == d.keys[n0..] + [p.id];
    TopIdsSnoc(d.keys[n0..], specs, p.id, spec);
    AllMadeStep(d, e, n0, items0, specs, p, spec);
  }

  /** `AllMade` extended by one more playlist, stored under a new id. */
  lemma AllMadeStep(d: ODict<Uuid, Playlist>, e: ODict<Uuid, Playlist>, n0: nat, items0: map<Uuid, Playlist>,
                    specs: seq<PlaylistSpec>, p: Playlist, spec: PlaylistSpec)
    requires AllMade(d, n0, items0, specs) && ParentsBefore(specs)
    requires (forall k :: k in items0 ==> k in d.items) && p.id !in d.items
    requires e.keys == d.keys + [p.id] && e.items == d.items[p.id := p]
    requires spec.parent.Made? ==> spec.parent.index < |specs|
    requires p.name == spec.name && p.description == "" && p.trackIds == spec.trackIds && p.children == []
    requires p.parentId == ParentId(spec.parent, d.keys, n0)
    ensures AllMade(e, n0, items0, specs + [spec])
  {
    forall i | n0 <= i < |e.keys|
      ensures e.keys[i] in e.items && e.keys[i] !in items0
      ensures MadeAs(e.items[e.keys[i]], e.keys[i], (specs + [spec])[i - n0], e.keys, n0)
    {
      if i < |d.keys| {
        assert e.keys[i] == d.keys[i] != p.id;
        assert (specs + [spec])[i - n0] == specs[i - n0];
        MadeAsExtended(d.items[d.keys[i]], d.keys[i], specs[i - n0], d.keys, e.keys, n0);
      } else {
        assert e.keys[i] == p.id && (specs + [spec])[i - n0] == spec;
        MadeAsExtended(p, p.id, spec, d.keys, e.keys, n0);
      }
    }
  }

  /** A playlist made as `spec` stays so when more ids are made, as long as its parent was made before. */
  lemma MadeAsExtended(p: Playlist, key: Uuid, spec: PlaylistSpec, keys: seq<Uuid>, keys': seq<Uuid>, n0: nat)
    requires |keys| <= |keys'| && keys'[..|keys|] == keys
    requires spec.parent.Made? ==> n0 + spec.parent.index < |keys|
    requires MadeAs(p, key, spec, keys, n0)
    ensures MadeAs(p, key, spec, keys', n0)
  {
    if spec.parent.Made? {
      assert keys'[n0 + spec.parent.index] == keys[n0 + spec.parent.index];
    }
  }

  /** `collection.add_playlist(playlist)` in `_process_playlist_node`: a playlist made as `spec` extends the import. */
  method AddMade(c: Collection, p: Playlist, ghost spec: PlaylistSpec, ghost keys0: seq<Uuid>,
                 ghost items0: map<Uuid, Playlist>, ghost roots0: seq<Uuid>, ghost specs: seq<PlaylistSpec>)
    requires c.Valid() && PlaylistsImported(c.playlists, c.rootPlaylists, keys0, items0, roots0, specs)
    requires p.id !in c.playlists.items && (spec.parent.Made? ==> spec.parent.index < |specs|)
    requires p.name == spec.name && p.description == "" && p.trackIds == spec.trackIds && p.children == []
    requires p.parentId == ParentId(spec.parent, c.playlists.keys, |keys0|)
    modifies c`playlists, c`rootPlaylists
    ensures c.Valid() && PlaylistsImported(c.playlists, c.rootPlaylists, keys0, items0, roots0, specs + [spec])
    ensures c.playlists.keys == old(c.playlists.keys) + [p.id]
  {
    ghost var d := c.playlists;
    PlaylistsImportedStep(d, ODict(d.keys + [p.id], d.items[p.id := p]), c.rootPlaylists, keys0, items0, roots0, specs, p, spec);
    var _ := c.AddPlaylist(p);
  }

  /**
   * `_process_playlist_node`: the node's playlists, as `Walk` lists them, are added to `c` in order, the
   * node's own one under `parentId`; `added` are their ids.
   */
  method ProcessPlaylistNode(node: Element, parentId: Option<Uuid>, c: Collection, refs: seq<TrackRef>,
                             ghost parent: ParentRef, ghost keys0: seq<Uuid>, ghost items0: map<Uuid, Playlist>,
                             ghost roots0: seq<Uuid>, ghost specs: seq<PlaylistSpec>)
    returns (ghost specs': seq<PlaylistSpec>, ghost added: seq<Uuid>)
    requires c.Valid() && PlaylistsImported(c.playlists, c.rootPlaylists, keys0, items0, roots0, specs)
    requires parentId == ParentId(parent, c.playlists.keys, |keys0|) && (parent.Made? ==> parent.index < |specs|)
    modifies c`playlists, c`rootPlaylists
    ensures c.Valid() && PlaylistsImported(c.playlists, c.rootPlaylists, keys0, items0, roots0, specs')
    ensures specs' == specs + Walk(node, parent, |specs|, refs)
    ensures c.playlists.keys == old(c.playlists.keys) + added
    decreases node, 1, 0
  {
    var kind := node.Get("TYPE", "");
    if kind == "FOLDER" {
      specs', added := ProcessFolder(node, parentId, c, refs, parent, keys0, items0, roots0, specs);
    } else if kind == "PLAYLIST" {
      specs', added := ProcessPlaylist(node, parentId, c, refs, parent, keys0, items0, roots0, specs);
    } else {
      specs', added := specs, [];
      assert specs' == specs + [] && c.playlists.keys == old(c.playlists.keys) + [];
    }
  }

  /** A `FOLDER` node: an empty playlist under `parentId`, then the playlists of the nodes it holds, under it. */
  method ProcessFolder(node: Element, parentId: Option<Uuid>, c: Collection, refs: seq<TrackRef>,
                       ghost parent: ParentRef, ghost keys0: seq<Uuid>, ghost items0: map<Uuid, Playlist>,
                       ghost roots0: seq<Uuid>, ghost specs: seq<PlaylistSpec>)
    returns (ghost specs': seq<PlaylistSpec>, ghost added: seq<Uuid>)
    requires node.Get("TYPE", "") == "FOLDER"
    requires c.Valid() && PlaylistsImported(c.playlists, c.rootPlaylists, keys0, items0, roots0, specs)
    requires parentId == ParentId(parent, c.playlists.keys, |keys0|) && (parent.Made? ==> parent.index < |specs|)
    modifies c`playlists, c`rootPlaylists
    ensures c.Valid() && PlaylistsImported(c.playlists, c.rootPlaylists, keys0, items0, roots0, specs')
    ensures specs' == specs + Walk(node, parent, |specs|, refs)
    ensures c.playlists.keys == old(c.playlists.keys) + added
    decreases node, 0, |FolderNodes(node)| + 1
  {
    var name := node.Get("NAME", "");
    ghost var spec := PlaylistSpec(name, parent, []);
    var id := AddFolder(name, parentId, c, spec, keys0, items0, roots0, specs);
    ghost var rest;
    specs', rest := ProcessNodes(node, FolderNodes(node), Some(id), c, refs, Made(|specs|), keys0, items0, roots0, specs + [spec]);
    added := [id] + rest;
    AppendAssoc(old(c.playlists.keys), [id], rest);
    FolderWalk(node, parent, specs, refs, specs');
  }

  /** The folder's own playlist in `_process_playlist_node`: empty, under `parentId`, added to `c`; its id. */
  method AddFolder(name: string, parentId: Option<Uuid>, c: Collection, ghost spec: PlaylistSpec, ghost keys0: seq<Uuid>,
                   ghost items0: map<Uuid, Playlist>, ghost roots0: seq<Uuid>, ghost specs: seq<PlaylistSpec>)
    returns (id: Uuid)
    requires c.Valid() && PlaylistsImported(c.playlists, c.rootPlaylists, keys0, items0, roots0, specs)
    requires spec.name == name && spec.trackIds == [] && (spec.parent.Made? ==> spec.parent.index < |specs|)
    requires parentId == ParentId(spec.parent, c.playlists.keys, |keys0|)
    modifies c`playlists, c`rootPlaylists
    ensures c.Valid() && PlaylistsImported(c.playlists, c.rootPlaylists, keys0, items0, roots0, specs + [spec])
    ensures c.playlists.keys == old(c.playlists.keys) + [id]
    ensures Some(id) == ParentId(Made(|specs|), c.playlists.keys, |keys0|)
  {
    var p := new Playlist(None, c.playlists.items.Keys, name, "", [], parentId);
    AddMade(c, p, spec, keys0, items0, roots0, specs);
    id := p.id;
  }

  /** A folder's playlists: the folder's own, then those of the nodes it holds, under it. */
  lemma FolderWalk(node: Element, parent: ParentRef, specs: seq<PlaylistSpec>, refs: seq<TrackRef>, specs': seq<PlaylistSpec>)
    requires node.Get("TYPE", "") == "FOLDER"
    requires var spec := PlaylistSpec(node.Get("NAME", ""), parent, []);
      specs' == (specs + [spec]) + Forest(node, FolderNodes(node), Made(|specs|), |specs + [spec]|, refs)
    ensures specs' == specs + Walk(node, parent, |specs|, refs)
  {
    var spec := PlaylistSpec(node.Get("NAME", ""), parent, []);
    AppendAssoc(specs, [spec], Forest(node, FolderNodes(node), Made(|specs|), |specs| + 1, refs));
  }

  /** A `PLAYLIST` node: one playlist under `parentId`, holding the tracks of its entries. */
  method ProcessPlaylist(node: Element, parentId: Option<Uuid>, c: Collection, refs: seq<TrackRef>,
                         ghost parent: ParentRef, ghost keys0: seq<Uuid>, ghost items0: map<Uuid, Playlist>,
                         ghost roots0: seq<Uuid>, ghost specs: seq<PlaylistSpec>)
    returns (ghost specs': seq<PlaylistSpec>, ghost added: seq<Uuid>)
    requires node.Get("TYPE", "") == "PLAYLIST"
    requires c.Valid() && PlaylistsImported(c.playlists, c.rootPlaylists, keys0, items0, roots0, specs)
    requires parentId == ParentId(parent, c.playlists.keys, |keys0|) && (parent.Made? ==> parent.index < |specs|)
    modifies c`playlists, c`rootPlaylists
    ensures c.Valid() && PlaylistsImported(c.playlists, c.rootPlaylists, keys0, items0, roots0, specs')
    ensures specs' == specs + Walk(node, parent, |specs|, refs)
    ensures c.playlists.keys == old(c.playlists.keys) + added
  {
    var name := node.Get("NAME", "");
    var p := new Playlist(None, c.playlists.items.Keys, name, "", [], parentId);
    var pe := node.Find("PLAYLIST");
    if pe.Some? {
      FillPlaylist(p, pe.value.FindAll("ENTRY"), refs);
    }
    ghost var spec := PlaylistSpec(name, parent, PlaylistNodeIds(node, refs));
    AddMade(c, p, spec, keys0, items0, roots0, specs);
    specs', added := specs + [spec], [p.id];
  }

  /** The loops over child nodes of `_process_playlist_node` and `_import_playlists`: each node of `ks` in turn. */
  method ProcessNodes(owner: Element, ks: seq<Element>, parentId: Option<Uuid>, c: Collection, refs: seq<TrackRef>,
                      ghost parent: ParentRef, ghost keys0: seq<Uuid>, ghost items0: map<Uuid, Playlist>,
                      ghost roots0: seq<Uuid>, ghost specs: seq<PlaylistSpec>)
    returns (ghost specs': seq<PlaylistSpec>, ghost added: seq<Uuid>)
    requires forall i :: 0 <= i < |ks| ==> ks[i] < owner
    requires c.Valid() && PlaylistsImported(c.playlists, c.rootPlaylists, keys0, items0, roots0, specs)
    requires parentId == ParentId(parent, c.playlists.keys, |keys0|) && (parent.Made? ==> parent.index < |specs|)
    modifies c`playlists, c`rootPlaylists
    ensures c.Valid() && PlaylistsImported(c.playlists, c.rootPlaylists, keys0, items0, roots0, specs')
    ensures specs' == specs + Forest(owner, ks, parent, |specs|, refs)
    ensures c.playlists.keys == old(c.playlists.keys) + added
    decreases owner, 0, |ks|
  {
    specs', added := specs, [];
    assert specs' == specs + Forest(owner, ks[..0], parent, |specs|, refs);
    assert c.playlists.keys == old(c.playlists.keys) + added;
    for i := 0 to |ks|
      invariant c.Valid() && PlaylistsImported(c.playlists, c.rootPlaylists, keys0, items0, roots0, specs')
      invariant specs' == specs + Forest(owner, ks[..i], parent, |specs|, refs)
      invariant c.playlists.keys == old(c.playlists.keys) + added
      invariant parentId == ParentId(parent, c.playlists.keys, |keys0|)
    {
      ghost var more;
      specs', more := ProcessNodesStep(owner, ks, i, parentId, c, refs, parent, keys0, items0, roots0, specs, specs');
      AppendAssoc(old(c.playlists.keys), added, more);
      added := added + more;
    }
    assert ks[..|ks|] == ks;
  }

  /** One turn of the loop over child nodes: the playlists of `ks[i]` follow those of the nodes before it. */
  method ProcessNodesStep(owner: Element, ks: seq<Element>, i: nat, parentId: Option<Uuid>, c: Collection, refs: seq<TrackRef>,
                          ghost parent: ParentRef, ghost keys0: seq<Uuid>, ghost items0: map<Uuid, Playlist>,
                          ghost roots0: seq<Uuid>, ghost specs: seq<PlaylistSpec>, ghost done: seq<PlaylistSpec>)
    returns (ghost done': seq<PlaylistSpec>, ghost added: seq<Uuid>)
    requires (forall j :: 0 <= j < |ks| ==> ks[j] < owner) && i < |ks|
    requires c.Valid() && PlaylistsImported(c.playlists, c.rootPlaylists, keys0, items0, roots0, done)
    requires done == specs + Forest(owner, ks[..i], parent, |specs|, refs)
    requires parentId == ParentId(parent, c.playlists.keys, |keys0|) && (parent.Made? ==> parent.index < |specs|)
    modifies c`playlists, c`rootPlaylists
    ensures c.Valid() && PlaylistsImported(c.playlists, c.rootPlaylists, keys0, items0, roots0, done')
    ensures done' == specs + Forest(owner, ks[..i + 1], parent, |specs|, refs)
    ensures c.playlists.keys == old(c.playlists.keys) + added
    ensures parentId == ParentId(parent, c.playlists.keys, |keys0|)
    decreases owner, 0, i
  {
    done', added := ProcessPlaylistNode(ks[i], parentId, c, refs, parent, keys0, items0, roots0, done);
    ForestGrows(owner, ks, i, parent, refs, specs, done, done');
  }

  /**
   * `_import_playlists`: the playlists of the `NODE` children of the first `PLAYLISTS` element are added to
   * `c`, as `ImportedPlaylists` lists them, with entries resolved against the tracks `c` holds.
   */
  method ImportPlaylists(root: Element, c: Collection)
    requires c.Valid()
    modifies c`playlists, c`rootPlaylists
    ensures c.Valid() && c.tracks == old(c.tracks)
    ensures unchanged(c.tracks.items.Values) && unchanged(old(CuesOf(c.tracks.items.Values)))
    ensures Refs(c.tracks.Values()) == old(Refs(c.tracks.Values()))
    ensures PlaylistsImported(c.playlists, c.rootPlaylists, old(c.playlists.keys), old(c.playlists.items),
                              old(c.rootPlaylists), ImportedPlaylists(root, old(Refs(c.tracks.Values()))))
  {
    ghost var d0, roots0 := c.playlists, c.rootPlaylists;
    PlaylistsImportedNone(d0, roots0);
    var refs := Refs(c.tracks.Values());
    var node := FindDescendant(root, "PLAYLISTS");
    if node.None? {
      assert ImportedPlaylists(root, refs) == [];
      return;
    }
    var nodes := NodeChildren(node.value);
    if nodes == [] {
      assert ImportedPlaylists(root, refs) == [];
      return;
    }
    ghost var specs, _ := ProcessNodes(node.value, nodes, None, c, refs, Outer, d0.keys, d0.items, roots0, []);
    assert specs == ImportedPlaylists(root, refs);
  }

  /** Before any playlist is made, the import is the collection as it was. */
  lemma PlaylistsImportedNone(d: ODict<Uuid, Playlist>, roots: seq<Uuid>)
    ensures PlaylistsImported(d, roots, d.keys, d.items, roots, [])
  {
    assert d.keys[..|d.keys|] == d.keys && d.keys[|d.keys|..] == [];
  }

  // ---------------------------------------------------------------------------------------------
  // Importing a library
  // ---------------------------------------------------------------------------------------------

  /**
   * `can_import`: the path ends in `.nml` in any case, and the document (absent when the file could not
   * be parsed) has an `NML` root.
   */
  predicate CanImport(path: string, doc: Option<Element>)
  {
    EndsWith(Lower(path), ".nml") && doc.Some? && doc.value.tag == "NML"
  }

  /** The extension test ignores case: a document with an `NML` root is accepted from `.NML` and `.Nml` files too. */
  lemma ExtensionCaseIgnored(stem: string, e: Element)
    requires e.tag == "NML"
    ensures CanImport(stem + ".nml", Some(e)) && CanImport(stem + ".NML", Some(e)) && CanImport(stem + ".Nml", Some(e))
  {
    ExtensionLowered(stem, ".nml");
    ExtensionLowered(stem, ".NML");
    ExtensionLowered(stem, ".Nml");
  }

  lemma ExtensionLowered(stem: string, ext: string)
    requires |ext| == 4 && Lower(ext) == ".nml"
    ensures EndsWith(Lower(stem + ext), ".nml")
  {
    var l := Lower(stem + ext);
    forall i | 0 <= i < 4
      ensures l[|l| - 4..][i] == ".nml"[i]
    {
      assert (stem + ext)[|stem| + i] == ext[i];
    }
  }

  /**
   * `import_library`: nothing unless the file can be imported; otherwise a new collection named
   * "Traktor Collection" holding the document's tracks and then its playlists, their entries resolved
   * against those tracks.
   */
  method ImportLibrary(path: string, doc: Option<Element>, now: Timestamp) returns (r: Option<Collection>)
    ensures r.None? <==> !CanImport(path, doc)
    ensures r.Some? ==> fresh(r.value) && r.value.Valid() && r.value.name == CollectionName
    ensures r.Some? ==> TracksImported(r.value.tracks.keys, r.value.tracks.items, [], map[],
                                       ParsedEntries(CollectionEntries(doc.value)), now)
    ensures r.Some? ==> PlaylistsImported(r.value.playlists, r.value.rootPlaylists, [], map[], [],
                                          ImportedPlaylists(doc.value, Refs(r.value.tracks.Values())))
  {
    if !CanImport(path, doc) {
      return None;
    }
    var c := ImportDocument(doc.value, now);
    return Some(c);
  }

  /** The body of `import_library` once the file is accepted: a new collection, its tracks, then its playlists. */
  method ImportDocument(root: Element, now: Timestamp) returns (c: Collection)
    ensures fresh(c) && c.Valid() && c.name == CollectionName
    ensures TracksImported(c.tracks.keys, c.tracks.items, [], map[], ParsedEntries(CollectionEntries(root)), now)
    ensures PlaylistsImported(c.playlists, c.rootPlaylists, [], map[], [], ImportedPlaylists(root, Refs(c.tracks.Values())))
  {
    c := new Collection(CollectionName);
    ImportTracks(root, c, now);
    ImportPlaylists(root, c);
  }
}
