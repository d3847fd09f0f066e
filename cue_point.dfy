/** A cue point: a marker at a position of a track, in the vendor-neutral model. */
module CuePoints {
  import opened Wrappers
  import opened Ids

  datatype CueType = HotCue | MemoryCue | GridMarker | LoopIn | LoopOut | LoadMarker | FadeIn | FadeOut

  const DefaultColor: string := "#FFFFFF"

  /** The cue type after `to_memory_cue` is applied to hot cues only, as the conversion service does. */
  function HotToMemory(t: CueType): (r: CueType)
    ensures r != HotCue
    ensures t != HotCue ==> r == t
    ensures t == HotCue ==> r == MemoryCue
  {
    if t == HotCue then MemoryCue else t
  }

  /** Rewriting hot cues twice is rewriting them once. */
  lemma HotToMemoryIdempotent(t: CueType)
    ensures HotToMemory(HotToMemory(t)) == HotToMemory(t)
  {
  }

  class CuePoint {
    var id: Uuid
    var name: string
    var position: real  // seconds
    var cueType: CueType
    var color: string
    var index: int      // pad number of a hot cue; -1 when unassigned

    /** `CuePoint(id=..., name=..., ...)`: `__post_init__` gives a cue built without an id a fresh one. */
    constructor (id: Option<Uuid>, inUse: set<Uuid>, name: string, position: real, cueType: CueType, color: string, index: int)
      ensures id.Some? ==> this.id == id.value
      ensures id.None? ==> this.id !in inUse
      ensures this.name == name && this.position == position && this.cueType == cueType
      ensures this.color == color && this.index == index
    {
      var newId := FreshId(inUse);
      this.id := if id.Some? then id.value else newId;
      this.name := name;
      this.position := position;
      this.cueType := cueType;
      this.color := color;
      this.index := index;
    }

    /** `CuePoint()`: the field defaults, and a fresh id. */
    constructor Default(inUse: set<Uuid>)
      ensures id !in inUse
      ensures name == "" && position == 0.0 && cueType == HotCue && color == DefaultColor && index == -1
    {
      var newId := FreshId(inUse);
      id := newId;
      name, position, cueType, color, index := "", 0.0, HotCue, DefaultColor, -1;
    }

    /** `to_memory_cue`: the cue becomes a memory cue in place and is returned itself; nothing else about it changes. */
    method ToMemoryCue() returns (self: CuePoint)
      modifies this`cueType
      ensures self == this
      ensures cueType == MemoryCue
    {
      cueType := MemoryCue;
      self := this;
    }
  }
}
