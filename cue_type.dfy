/** Cue kinds of the two DJ programs and the table that relates them. */
module CueTypes {
  import opened Wrappers

  /** Traktor's cue kinds, with the strings Traktor writes for them. */
  datatype TraktorCueType = Cue | FadeIn | FadeOut | Load | Grid | Loop
  {
    function Value(): string
    {
      match this
      case Cue => "cue"
      case FadeIn => "fade-in"
      case FadeOut => "fade-out"
      case Load => "load"
      case Grid => "grid"
      case Loop => "loop"
    }
  }

  /** Rekordbox's cue kinds, with the strings used for them. */
  datatype RekordboxCueType = Memory | Hot | RLoop
  {
    function Value(): string
    {
      match this
      case Memory => "memory"
      case Hot => "hot"
      case RLoop => "loop"
    }
  }

  /** `TraktorCueType(s)`: the kind whose string is `s`, if any. */
  function TraktorCueTypeOf(s: string): (r: Option<TraktorCueType>)
    ensures r.Some? ==> r.value.Value() == s
    ensures r.None? ==> forall t: TraktorCueType :: t.Value() != s
  {
    if s == "cue" then Some(Cue)
    else if s == "fade-in" then Some(FadeIn)
    else if s == "fade-out" then Some(FadeOut)
    else if s == "load" then Some(Load)
    else if s == "grid" then Some(Grid)
    else if s == "loop" then Some(Loop)
    else None
  }

  /** Each Traktor kind is recovered from its string, so the strings are pairwise different. */
  lemma TraktorCueTypeRoundTrip(t: TraktorCueType)
    ensures TraktorCueTypeOf(t.Value()) == Some(t)
  {
  }

  /** The frozen `CueTypeMapping`: a table from Traktor kinds to Rekordbox kinds. */
  datatype CueTypeMapping = CueTypeMapping(traktorToRekordbox: map<TraktorCueType, RekordboxCueType>)
  {
    /** `get_rekordbox_type`: the kind the table gives, or nothing for a kind it lacks. */
    function GetRekordboxType(t: TraktorCueType): (r: Option<RekordboxCueType>)
      ensures r.None? <==> t !in traktorToRekordbox
      ensures r.Some? ==> r.value == traktorToRekordbox[t]
    {
      if t in traktorToRekordbox then Some(traktorToRekordbox[t]) else None
    }
  }

  const DefaultTable: map<TraktorCueType, RekordboxCueType> :=
    map[Cue := Hot, FadeIn := Memory, FadeOut := Memory, Load := Memory, Grid := Memory, Loop := RLoop]

  /** `CueTypeMapping(table)`: `__post_init__` installs the default table only when no table is given; a given table, even an empty one, is kept as it is. */
  function NewCueTypeMapping(table: Option<map<TraktorCueType, RekordboxCueType>>): (m: CueTypeMapping)
    ensures table.Some? ==> m.traktorToRekordbox == table.value
    ensures table.None? ==> m.traktorToRekordbox == DefaultTable
  {
    CueTypeMapping(if table.Some? then table.value else DefaultTable)
  }

  /** The default table sends cues to hot cues, loops to loops, and fades, load markers and grid markers to memory cues. */
  lemma DefaultMappingTable(t: TraktorCueType)
    ensures NewCueTypeMapping(None).GetRekordboxType(t) ==
      Some(if t == Cue then Hot else if t == Loop then RLoop else Memory)
  {
    match t
    case Cue =>
    case FadeIn =>
    case FadeOut =>
    case Load =>
    case Grid =>
    case Loop =>
  }

  /** The default table has an entry for every Traktor kind, so with it no lookup fails. */
  lemma DefaultMappingCovers()
    ensures forall t: TraktorCueType :: t in NewCueTypeMapping(None).traktorToRekordbox
  {
    forall t: TraktorCueType
      ensures t in NewCueTypeMapping(None).traktorToRekordbox
    {
      DefaultMappingTable(t);
    }
  }
}
