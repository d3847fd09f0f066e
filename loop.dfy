/** A saved loop region of a track, in the vendor-neutral model. Loops are never changed after construction. */
module Loops {
  import opened Wrappers
  import opened Ids

  datatype LoopType = Regular | Saved | Autoloop

  const DefaultColor: string := "#FFFFFF"

  datatype Loop = Loop(id: Uuid, name: string, startPosition: real, endPosition: real, loopType: LoopType, color: string, index: int)
  {
    /** The `length` property, in seconds: the start plus the length is the end, and it is negative exactly when the end lies before the start (the constructor does not forbid that). */
    function Length(): (r: real)
      ensures startPosition + r == endPosition
      ensures r >= 0.0 <==> endPosition >= startPosition
    {
      endPosition - startPosition
    }
  }

  /** `Loop(id=..., ...)`: `__post_init__` gives a loop built without an id a fresh one; a given id is kept. */
  method NewLoop(id: Option<Uuid>, inUse: set<Uuid>, name: string, startPosition: real, endPosition: real,
                 loopType: LoopType, color: string, index: int) returns (l: Loop)
    ensures id.Some? ==> l.id == id.value
    ensures id.None? ==> l.id !in inUse
    ensures l.name == name && l.startPosition == startPosition && l.endPosition == endPosition
    ensures l.loopType == loopType && l.color == color && l.index == index
  {
    var newId := FreshId(inUse);
    l := Loop(if id.Some? then id.value else newId, name, startPosition, endPosition, loopType, color, index);
  }

  /** `Loop()`: the field defaults, and a fresh id. */
  method DefaultLoop(inUse: set<Uuid>) returns (l: Loop)
    ensures l.id !in inUse
    ensures l.name == "" && l.startPosition == 0.0 && l.endPosition == 0.0
    ensures l.loopType == Regular && l.color == DefaultColor && l.index == -1 && l.Length() == 0.0
  {
    l := NewLoop(None, inUse, "", 0.0, 0.0, Regular, DefaultColor, -1);
  }
}
