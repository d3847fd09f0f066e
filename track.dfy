/** A music track of a DJ library, with its metadata, cue points, loops and tags, in the vendor-neutral model. */
module Tracks {
  import opened Wrappers
  import opened Ids
  import opened CuePoints
  import opened Loops

  /** A moment given by the environment clock (`datetime.now()`); only compared for equality here. */
  datatype Timestamp = Timestamp(ticks: int)

  /** An entry of a track's beat grid. No operation of the library fills the grid; it is only carried along. */
  datatype BeatMarker = BeatMarker(position: real)

  /**
   * The descriptive fields of a track that callers pass to its constructor by keyword:
   * everything except the id, the dates, the play count and the containers.
   */
  datatype TrackDetails = TrackDetails(
    title: string, artist: string, album: string, genre: string,
    bpm: real, key: string, duration: real,   // duration in seconds
    filePath: string, fileSize: int, bitrate: int, sampleRate: int,
    comment: string, year: Option<int>, rating: int)

  /** Everything a track holds, as one value. */
  datatype TrackState = TrackState(
    id: Uuid, details: TrackDetails, importDate: Timestamp, lastPlayed: Option<Timestamp>, playCount: int,
    cuePoints: seq<CuePoint>, loops: seq<Loop>, beatGrid: seq<BeatMarker>, customTags: map<string, string>)

  /** The keyword defaults: empty strings, zero numbers and no year. */
  const NoDetails: TrackDetails := TrackDetails("", "", "", "", 0.0, "", 0.0, "", 0, 0, 0, "", None, 0)

  class Track {
    var id: Uuid
    var title: string
    var artist: string
    var album: string
    var genre: string
    var bpm: real
    var key: string
    var duration: real
    var filePath: string
    var fileSize: int
    var bitrate: int
    var sampleRate: int
    var comment: string
    var year: Option<int>
    var rating: int
    var importDate: Timestamp
    var lastPlayed: Option<Timestamp>
    var playCount: int
    var cuePoints: seq<CuePoint>
    var loops: seq<Loop>
    var beatGrid: seq<BeatMarker>
    var customTags: map<string, string>

    /** The descriptive fields as one value. */
    function Details(): TrackDetails
      reads this`title, this`artist, this`album, this`genre, this`bpm, this`key, this`duration, this`filePath
      reads this`fileSize, this`bitrate, this`sampleRate, this`comment, this`year, this`rating
    {
      TrackDetails(title, artist, album, genre, bpm, key, duration, filePath, fileSize, bitrate, sampleRate,
                   comment, year, rating)
    }

    /** All fields as one value. */
    function State(): TrackState
      reads this
    {
      TrackState(id, Details(), importDate, lastPlayed, playCount, cuePoints, loops, beatGrid, customTags)
    }

    /**
     * `Track(title=..., ..., cue_points=..., ...)`: a fresh id (from `uuid4`), the import date taken from the
     * clock, no last-played date, a play count of 0, and the given details and containers.
     */
    constructor (inUse: set<Uuid>, now: Timestamp, details: TrackDetails, cuePoints: seq<CuePoint>,
                 loops: seq<Loop>, beatGrid: seq<BeatMarker>, customTags: map<string, string>)
      ensures id !in inUse
      ensures Details() == details
      ensures importDate == now && lastPlayed == None && playCount == 0
      ensures this.cuePoints == cuePoints && this.loops == loops && this.beatGrid == beatGrid
      ensures this.customTags == customTags
    {
      var newId := FreshId(inUse);
      id := newId;
      title, artist, album, genre := details.title, details.artist, details.album, details.genre;
      bpm, key, duration := details.bpm, details.key, details.duration;
      filePath, fileSize, bitrate, sampleRate := details.filePath, details.fileSize, details.bitrate, details.sampleRate;
      comment, year, rating := details.comment, details.year, details.rating;
      importDate, lastPlayed, playCount := now, None, 0;
      this.cuePoints, this.loops, this.beatGrid, this.customTags := cuePoints, loops, beatGrid, customTags;
    }

    /** `Track()`: every default, empty containers of its own, and a fresh id. */
    constructor Default(inUse: set<Uuid>, now: Timestamp)
      ensures id !in inUse
      ensures title == "" && artist == "" && album == "" && genre == "" && key == "" && filePath == "" && comment == ""
      ensures bpm == 0.0 && duration == 0.0 && fileSize == 0 && bitrate == 0 && sampleRate == 0 && rating == 0
      ensures year == None && lastPlayed == None && playCount == 0 && importDate == now
      ensures cuePoints == [] && loops == [] && beatGrid == [] && customTags == map[]
    {
      var newId := FreshId(inUse);
      id := newId;
      title, artist, album, genre, key, filePath, comment := "", "", "", "", "", "", "";
      bpm, duration, fileSize, bitrate, sampleRate, rating := 0.0, 0.0, 0, 0, 0, 0;
      year, lastPlayed, playCount, importDate := None, None, 0, now;
      cuePoints, loops, beatGrid, customTags := [], [], [], map[];
    }

    /** `add_cue_point`: the cue goes at the end; the earlier cues keep their order. */
    method AddCuePoint(cue: CuePoint)
      modifies this`cuePoints
      ensures cuePoints == old(cuePoints) + [cue]
    {
      cuePoints := cuePoints + [cue];
    }

    /** `add_loop`: the loop goes at the end; the earlier loops keep their order. */
    method AddLoop(loop: Loop)
      modifies this`loops
      ensures loops == old(loops) + [loop]
    {
      loops := loops + [loop];
    }

    /** `add_custom_tag`: the key now maps to the value, replacing an earlier value; other tags stay. */
    method AddCustomTag(k: string, v: string)
      modifies this`customTags
      ensures customTags == old(customTags)[k := v]
    {
      customTags := customTags[k := v];
    }
  }

  /** Every cue point of the given tracks. */
  ghost function CuesOf(ts: set<Track>): (r: set<CuePoint>)
    reads ts
    ensures forall t :: t in ts ==> forall c :: c in t.cuePoints ==> c in r
  {
    set t, c | t in ts && c in t.cuePoints :: c
  }

  /** The states of the tracks, in order. */
  function States(ts: seq<Track>): (r: seq<TrackState>)
    reads ts
    ensures |r| == |ts| && forall i :: 0 <= i < |ts| ==> r[i] == ts[i].State()
  {
    seq(|ts|, i requires 0 <= i < |ts| reads ts => ts[i].State())
  }

  lemma StatesAppend(a: seq<Track>, b: seq<Track>)
    ensures States(a + b) == States(a) + States(b)
  {
    assert forall i :: 0 <= i < |a + b| ==> States(a + b)[i] == (States(a) + States(b))[i];
  }
}
