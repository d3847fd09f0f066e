# dj_conv in Dafny

dj_conv converts the library of one DJ program into the library of another: it reads a Traktor
collection file (`collection.nml`), builds a vendor-neutral collection of tracks, cue points,
loops and playlists, optionally rewrites hot cues as memory cues or merges collections, and
writes a Rekordbox XML library. This project models its core and proves properties of that
model:

- the domain entities (`CuePoint`, `Loop`, `Track`, `Playlist`, `Collection`) as classes whose
  methods update their fields in place, with the ids that `uuid4()` hands out replaced by an
  oracle that returns an id not yet in use;
- the cue-type taxonomy and its default Traktor-to-Rekordbox table, and `TrackMetadata`;
- the in-memory track and playlist repositories, over an insertion-ordered dictionary
  (`OrderedDicts.ODict`, the model of a Python `dict`);
- `ConversionService`: the in-place hot-cue rewrite and the merge of one collection into another;
- the Traktor NML importer and the Rekordbox XML exporter, on XML element trees (`Xml.Element`);
- the importer and exporter registries and the `ConversionOrchestrator` that runs
  import, processing and export while reporting progress.

Python's `str` operations, `int(...)`/`float(...)` on decimal text, `str(int)`, `str(uuid)` and
POSIX `os.path.join` are written out in the modules `Text`, `Numbers` and `Ids`; the model
follows Python on the inputs those modules accept and reports the others as errors, except that
numbers are exact rather than IEEE doubles and lower-casing maps only ASCII letters (see
"## Left out").

## Model

| member | source | states |
|---|---|---|
| CuePoints.CuePoint.constructor | src/domain/entities/cue_point.py:26-35 | a cue built without an id gets one not in use, a given id is kept, and every other field is the argument given |
| CuePoints.CuePoint.Default | src/domain/entities/cue_point.py:26-35 | `CuePoint()` has the declared defaults: empty name, position 0, hot cue, colour `#FFFFFF`, index -1, and a fresh id |
| CuePoints.CuePoint.ToMemoryCue | src/domain/entities/cue_point.py:37-40 | the cue becomes a memory cue in place, nothing else of it changes, and the same object is returned |
| CuePoints.HotToMemory | src/domain/services/conversion_service.py:33-37 | the type a cue has after the conversion: never a hot cue, a hot cue becomes a memory cue, every other type is kept |
| CuePoints.HotToMemoryIdempotent | src/domain/services/conversion_service.py:33-37 | converting twice is converting once |
| Loops.Loop.Length | src/domain/entities/loop.py:33-36 | start plus length is end, and the length is non-negative exactly when the end is not before the start |
| Loops.NewLoop | src/domain/entities/loop.py:21-31 | a loop built without an id gets one not in use, a given id is kept, the other fields are the arguments |
| Loops.DefaultLoop | src/domain/entities/loop.py:21-31 | `Loop()` has the declared defaults (regular, colour `#FFFFFF`, index -1, length 0) and a fresh id |
| Tracks.Track.constructor | src/domain/entities/track.py:15-36 | a fresh id, the import date from the clock, never played, and the given details and containers |
| Tracks.Track.Default | src/domain/entities/track.py:15-36 | `Track()` has every declared default: empty strings, zero numbers, no year, empty containers, a fresh id |
| Tracks.Track.AddCuePoint | src/domain/entities/track.py:38-40 | the cue is appended and the earlier cues keep their order |
| Tracks.Track.AddLoop | src/domain/entities/track.py:42-44 | the loop is appended and the earlier loops keep their order |
| Tracks.Track.AddCustomTag | src/domain/entities/track.py:46-48 | the tag now maps to the value, replacing an earlier one; other tags stay |
| Playlists.Playlist.constructor | src/domain/entities/playlist.py:14-23 | a playlist built without an id gets one not in use, a given id is kept; it starts without children |
| Playlists.Playlist.AddTrack | src/domain/entities/playlist.py:25-28 | a listed track is not listed again, a new one is appended; the track is listed afterwards and a list without duplicates stays so |
| Playlists.Playlist.RemoveTrack | src/domain/entities/playlist.py:30-33 | the first occurrence of the track goes (`Sequences.RemoveFirstAt`, `RemoveFirstMultiset` and `RemoveFirstDistinct` say what that keeps) |
| Playlists.Playlist.AddChild | src/domain/entities/playlist.py:35-38 | the child's parent becomes this playlist and the child is appended, even when it is a child already |
| Playlists.Playlist.RemoveChild | src/domain/entities/playlist.py:40-45 | the first child with the id is removed, the others keep their order, and nothing changes without a match |
| Playlists.FirstWithId | src/domain/entities/playlist.py:42-43 | the position of the first playlist with the id, or none exactly when no playlist has it |
| Sequences.RemoveFirst | src/domain/entities/playlist.py:32-33 | `list.remove`: without the value the list is unchanged; with it, one element fewer |
| Sequences.RemoveFirstAt | src/domain/entities/playlist.py:32-33 | removing the first occurrence is cutting out the element at `FirstIndex` |
| Sequences.RemoveFirstMultiset | src/domain/entities/playlist.py:32-33 | exactly one copy of a present value is removed and nothing else changes in the multiset |
| Sequences.RemoveFirstDistinct | src/domain/entities/playlist.py:32-33 | in a list without duplicates the value is gone afterwards and the list stays without duplicates |
| Collections.Collection.constructor | src/domain/entities/collection.py:17-20 | a named collection without tracks, playlists or roots |
| Collections.Collection.AddTrack | src/domain/entities/collection.py:22-25 | the track is stored under its own id, replacing an earlier one, and its id is returned |
| Collections.Collection.GetTrack | src/domain/entities/collection.py:27-29 | the stored track, and nothing exactly when the id is not stored |
| Collections.Collection.AddPlaylist | src/domain/entities/collection.py:31-36 | the playlist is stored under its id, and its id is appended to the roots exactly when it has no parent |
| Collections.Collection.GetPlaylist | src/domain/entities/collection.py:38-40 | the stored playlist, and nothing exactly when the id is not stored |
| Collections.Collection.GetPlaylistTracks | src/domain/entities/collection.py:42-48 | nothing for an unknown playlist; otherwise stored tracks only, at most one per listed id |
| Collections.PlaylistTracksAllPresent | src/domain/entities/collection.py:42-48 | when every listed id is stored, the result is exactly those tracks, one per id, in playlist order |
| Sequences.PresentAppend | src/domain/entities/collection.py:48 | the filtered lookup of a concatenation is the concatenation of the lookups |
| CueTypes.TraktorCueTypeOf | src/domain/value_objects/cue_type.py:9-16 | `TraktorCueType(s)`: the kind whose string is `s`, and none exactly when no kind has that string |
| CueTypes.TraktorCueTypeRoundTrip | src/domain/value_objects/cue_type.py:9-16 | each kind is recovered from its string, so the six strings are distinct |
| CueTypes.CueTypeMapping.GetRekordboxType | src/domain/value_objects/cue_type.py:43-45 | the table's entry, and none exactly when the kind has no entry |
| CueTypes.NewCueTypeMapping | src/domain/value_objects/cue_type.py:29-41 | a given table (even an empty one) is kept; without one the default table is installed |
| CueTypes.DefaultMappingTable | src/domain/value_objects/cue_type.py:34-41 | the default table sends cues to hot cues, loops to loops and every other kind to memory cues |
| CueTypes.DefaultMappingCovers | src/domain/value_objects/cue_type.py:34-41 | the default table has an entry for every Traktor kind |
| Metadata.TrackMetadata.ToString | src/domain/value_objects/track_metadata.py:20-21 | the text starts with the artist, then ` - `, and ends with the title |
| Metadata.NewTrackMetadata | src/domain/value_objects/track_metadata.py:11-18 | title and artist as given, every optional field absent |
| Metadata.ToStringInjectiveInTitle | src/domain/value_objects/track_metadata.py:20-21 | for one artist, equal renderings mean equal titles |
| OrderedDicts.ODict.Put | src/infrastructure/repositories/track_repository.py:28 | `d[k] = v`: an existing key keeps its place, a new key goes last, and the key now maps to the value |
| OrderedDicts.ODict.Remove | src/infrastructure/repositories/track_repository.py:81 | `del d[k]`: the key leaves the order and the map, the other entries keep theirs |
| OrderedDicts.ODict.Values | src/infrastructure/repositories/track_repository.py:50 | `d.values()`: one value per key, in key order |
| TrackRepositories.TrackRepository.constructor | src/infrastructure/repositories/track_repository.py:15-16 | an empty store |
| TrackRepositories.TrackRepository.Add | src/infrastructure/repositories/track_repository.py:18-29 | the track is stored under its own id, replacing an earlier one; the id is returned |
| TrackRepositories.TrackRepository.Get | src/infrastructure/repositories/track_repository.py:31-41 | the stored track, and nothing exactly when the id is not stored |
| TrackRepositories.TrackRepository.GetAll | src/infrastructure/repositories/track_repository.py:43-50 | every stored track, one per key, in insertion order |
| TrackRepositories.TrackRepository.Update | src/infrastructure/repositories/track_repository.py:52-66 | false and no change for an unknown id; otherwise true and the track replaces the stored one in its place |
| TrackRepositories.TrackRepository.Delete | src/infrastructure/repositories/track_repository.py:68-82 | false and no change for an unknown id; otherwise true and only that entry goes |
| TrackRepositories.TrackRepository.FindByPath | src/infrastructure/repositories/track_repository.py:84-98 | the first stored track, in insertion order, with exactly that path, and nothing exactly when no track has it |
| PlaylistRepositories.PlaylistRepository.constructor | src/infrastructure/repositories/playlist_repository.py:15-17 | an empty store without roots |
| PlaylistRepositories.PlaylistRepository.Add | src/infrastructure/repositories/playlist_repository.py:19-35 | the playlist is stored under its id; its id is appended to the roots exactly when it has no parent, even when listed already |
| PlaylistRepositories.PlaylistRepository.Get | src/infrastructure/repositories/playlist_repository.py:37-47 | the stored playlist, and nothing exactly when the id is not stored |
| PlaylistRepositories.PlaylistRepository.GetAll | src/infrastructure/repositories/playlist_repository.py:49-56 | every stored playlist, one per key, in insertion order |
| PlaylistRepositories.PlaylistRepository.GetRootPlaylists | src/infrastructure/repositories/playlist_repository.py:58-65 | the stored playlists of the root ids, in root order, skipping ids not stored |
| PlaylistRepositories.PlaylistRepository.GetChildren | src/infrastructure/repositories/playlist_repository.py:67-77 | exactly the stored playlists whose parent is the id, in insertion order |
| PlaylistRepositories.PlaylistRepository.Update | src/infrastructure/repositories/playlist_repository.py:79-105 | false and no change for an unknown id; otherwise the stored playlist is replaced in place, gaining a parent drops the first occurrence of the id from the roots, losing one appends it unless listed |
| PlaylistRepositories.PlaylistRepository.Delete | src/infrastructure/repositories/playlist_repository.py:107-134 | false and no change for an unknown id; otherwise the entry and the first root occurrence go, every playlist whose parent it was loses the link, and those ids are appended to the roots in table order unless listed; the deleted playlist keeps its own parent link unless it is still stored under another id |
| PlaylistRepositories.PlaylistRepository.AdoptOrphans | src/infrastructure/repositories/playlist_repository.py:128-132 | after the re-parenting loop the roots are the old roots plus the orphans not yet listed, and no playlist links to the deleted one |
| PlaylistRepositories.PlaylistRepository.Reparent | src/infrastructure/repositories/playlist_repository.py:129-132 | one orphan loses its link and becomes a root unless listed; a playlist with another parent is untouched |
| PlaylistRepositories.AppendMissing | src/infrastructure/repositories/playlist_repository.py:131-132 | the old roots first, then each missing id once, in order; every id given ends up listed |
| PlaylistRepositories.AppendMissingDistinct | src/infrastructure/repositories/playlist_repository.py:131-132 | roots without duplicates stay without duplicates |
| PlaylistRepositories.Orphans | src/infrastructure/repositories/playlist_repository.py:128-129 | exactly the ids whose link names the deleted playlist, in order |
| PlaylistRepositories.ChildrenIn | src/infrastructure/repositories/playlist_repository.py:77 | exactly the playlists linked to the parent, in order |
| PlaylistRepositories.DeleteProgressStep | src/infrastructure/repositories/playlist_repository.py:128-132 | one turn of the re-parenting loop keeps the loop's invariant, also when one playlist is stored twice |
| Conversion.ConversionService.constructor | src/domain/services/conversion_service.py:18-19 | the given cue-type table, or the default one |
| Conversion.ConversionService.ConvertHotCuesToMemoryCues | src/domain/services/conversion_service.py:21-40 | every track keeps the same cues in the same order, each hot cue becomes a memory cue, every other cue keeps its type, and the collection itself is returned |
| Conversion.ConversionService.ConvertTrackCues | src/domain/services/conversion_service.py:32-38 | the per-track loop: same cues, same order, hot cues rewritten |
| Conversion.FirstWithPath | src/domain/services/conversion_service.py:59-62 | the first track with exactly the path, and none exactly when no track has it |
| Conversion.NewPathsCount | src/domain/services/conversion_service.py:57-89 | a merge adds one track per distinct source path the target lacked |
| Conversion.MergeStatesPaths | src/domain/services/conversion_service.py:57-89 | after the track merge the paths are the target's, then the missing source paths once each in source order; every source path is present |
| Conversion.MergeStatesPrefix | src/domain/services/conversion_service.py:57-89 | the target's tracks stay first and unchanged |
| Conversion.MergeStatesCopies | src/domain/services/conversion_service.py:66-88 | each added track copies the details and containers of the first source track with its path, under a new id, imported now, never played |
| Conversion.MergedState | src/domain/services/conversion_service.py:68-87 | the copy has the source's details and containers, the new id, the clock's date and no play history |
| Conversion.MappedToFirstDone | src/domain/services/conversion_service.py:54-89 | the id table maps exactly the source keys, each to the first merged track with its path |
| Conversion.ConversionService.MergeTracks | src/domain/services/conversion_service.py:57-89 | the track half of the merge reaches `TracksMerged` and the id table of first matches |
| Conversion.ConversionService.MergeTrack | src/domain/services/conversion_service.py:59-89 | the id of the first target track with the path, or else of a copy appended under a new id |
| Conversion.ConversionService.CopyTrack | src/domain/services/conversion_service.py:68-88 | the copy is added under an id not used before, with the state `MergedState` describes |
| Conversion.ConversionService.MergePlaylists | src/domain/services/conversion_service.py:91-103 | every source playlist becomes one new root playlist under a fresh id, with its name, description and the mapped track ids; the target's playlists stay first and unchanged |
| Conversion.ConversionService.CopyPlaylist | src/domain/services/conversion_service.py:95-103 | one copy with no parent, no children, the name, description and mapped track ids, under a fresh id |
| Conversion.PlaylistsMergedStep | src/domain/services/conversion_service.py:91-103 | one more copy keeps the playlist-merge invariant |
| Conversion.ConversionService.MergeCollections | src/domain/services/conversion_service.py:42-105 | tracks merged as `MergeTracks` states, then playlists as `MergePlaylists` states with its id table; the target is returned |
| TraktorImport.DirPartsJoin | src/infrastructure/adapters/importers/traktor_importer.py:86-88 | joining the directory names with `/:` gives back `DIR` without its leading `/:` |
| TraktorImport.LocationPath | src/infrastructure/adapters/importers/traktor_importer.py:86-92 | the `file_path` ends with the file name and, when neither the joined directory names nor the file name start with `/`, starts with the volume (an absolute part replaces what precedes it, as in `os.path.join`) |
| TraktorImport.TraktorPathJoin | src/infrastructure/adapters/importers/traktor_importer.py:95 | the `traktor_path` tag is the volume, the directory names and the file name joined by `/:` |
| TraktorImport.TraktorPathSplit | src/infrastructure/adapters/importers/traktor_importer.py:258-266 | a playlist key equal to a track's tag splits back into volume, directory names and file name, so it passes the two-part test and its last part is the file name |
| TraktorImport.SplitJoin | src/infrastructure/adapters/importers/traktor_importer.py:88-89 | splitting a `/:`-join gives the pieces back when none of them holds `/:` |
| TraktorImport.DirEndingInSep | src/infrastructure/adapters/importers/traktor_importer.py:86-88 | a `DIR` ending in `/:` leaves an empty last directory name |
| TraktorImport.EmptySegmentKept | src/infrastructure/adapters/importers/traktor_importer.py:95 | then the tag ends in `/:/:` and the file name: the empty segment is kept |
| TraktorImport.CueTypeOf | src/infrastructure/adapters/importers/traktor_importer.py:161-170 | a grid marker exactly for `grid`, a hot cue for every other `TYPE`, listed or not |
| TraktorImport.ParseCue | src/infrastructure/adapters/importers/traktor_importer.py:155-183 | only hot cues and grid markers come out; a grid marker has pad -1 and a hot cue the parsed `HOTCUE` (default -1); the position times 1000 is the parsed `START` (default 0); name and colour are `NAME` and `COLOR` with their defaults; it fails exactly when `START` does not parse or a hot cue's `HOTCUE` does not |
| TraktorImport.CueStartRoundTrip | src/infrastructure/adapters/importers/traktor_importer.py:158 | in exact arithmetic, a whole number of milliseconds survives the division by 1000 and the exporter's multiplication back (the source's doubles do not always; see "## Left out") |
| TraktorImport.GridMarkerIgnoresHotcue | src/infrastructure/adapters/importers/traktor_importer.py:173-175 | a grid marker's `HOTCUE` is never read: changing or dropping it changes nothing |
| TraktorImport.ParseLoopSpec | src/infrastructure/adapters/importers/traktor_importer.py:185-196 | always a regular loop without pad; start and end are `START` and `END` over 1000; it fails exactly when one of them does not parse |
| TraktorImport.ParseEach | src/infrastructure/adapters/importers/traktor_importer.py:141-148 | every element parsed in order, and nothing exactly when one of them fails |
| TraktorImport.ParseEachFails | src/infrastructure/adapters/importers/traktor_importer.py:151-153 | one bad cue or loop makes the whole entry fail |
| TraktorImport.ParseEntry | src/infrastructure/adapters/importers/traktor_importer.py:72-153 | nothing without `LOCATION`; otherwise the path in both forms (the neutral one ending in the file name), one cue per `CUE_V2` and one loop per `LOOP`, each as parsed, in order |
| TraktorImport.ParseEntryCases | src/infrastructure/adapters/importers/traktor_importer.py:72-153 | an entry yields a track exactly when it has a location and all its numbers, cues and loops parse, and then exactly the spec assembled from them |
| TraktorImport.EntryDefaults | src/infrastructure/adapters/importers/traktor_importer.py:103-135 | without `INFO`, `ALBUM`, `TEMPO`, cues and loops the track has the declared defaults and the entry's title, artist and key |
| TraktorImport.ParseCuePoint | src/infrastructure/adapters/importers/traktor_importer.py:155-183 | a new cue point object carrying exactly what `ParseCue` gives, or nothing exactly when that fails |
| TraktorImport.ParseLoop | src/infrastructure/adapters/importers/traktor_importer.py:185-196 | a loop carrying exactly what `ParseLoopSpec` gives, or nothing exactly when that fails |
| TraktorImport.ParseTrack | src/infrastructure/adapters/importers/traktor_importer.py:72-153 | a new track under an id not in use, realizing `ParseEntry`'s spec, exactly when the entry parses |
| TraktorImport.BuildTrack | src/infrastructure/adapters/importers/traktor_importer.py:123-150 | the track with the details, only the `traktor_path` tag, and the parsed cues and loops in order; nothing exactly when a cue or loop fails |
| TraktorImport.ParseCuePoints | src/infrastructure/adapters/importers/traktor_importer.py:141-143 | the cue loop yields new cue objects whose fields are `ParseEach` of the elements |
| TraktorImport.ParseLoops | src/infrastructure/adapters/importers/traktor_importer.py:146-148 | the loop loop yields loops whose fields are `ParseEach` of the elements |
| TraktorImport.ImportTracks | src/infrastructure/adapters/importers/traktor_importer.py:61-70 | each entry of the first `COLLECTION` that parses becomes one new track under its own new id, in document order; earlier tracks stay |
| TraktorImport.ImportEntry | src/infrastructure/adapters/importers/traktor_importer.py:67-70 | one loop turn: the entry's track, if it parses, extends the import |
| TraktorImport.EntryTrack | src/infrastructure/adapters/importers/traktor_importer.py:250-287 | a resolved entry always names a track of the collection |
| TraktorImport.Lookup | src/infrastructure/adapters/importers/traktor_importer.py:274-286 | the tag search first, the file-name search only when it finds nothing |
| TraktorImport.ImportedKeyResolves | src/infrastructure/adapters/importers/traktor_importer.py:250-287 | a key equal to an imported track's tag resolves to the first track with that tag |
| TraktorImport.EmptyFileNameMatchesFirst | src/infrastructure/adapters/importers/traktor_importer.py:280-286 | a key ending in `/:` with no tag match resolves to the first track of the collection, since every path ends with the empty string |
| TraktorImport.EntryIdsSpec | src/infrastructure/adapters/importers/traktor_importer.py:288-291 | a filled playlist lists no track twice and lists exactly the tracks its entries resolve to |
| TraktorImport.CollectDistinct | src/infrastructure/adapters/importers/traktor_importer.py:291 | ids gathered through `add_track` are never listed twice |
| TraktorImport.CollectMembers | src/infrastructure/adapters/importers/traktor_importer.py:291 | an id is gathered exactly when some entry found it |
| TraktorImport.FindByTraktorPath | src/infrastructure/adapters/importers/traktor_importer.py:275-278 | the loop finds the first track whose `traktor_path` tag is the key |
| TraktorImport.FindByFileName | src/infrastructure/adapters/importers/traktor_importer.py:281-286 | the loop finds the first track whose path ends with the file name |
| TraktorImport.ResolveKey | src/infrastructure/adapters/importers/traktor_importer.py:255-287 | the entry loop's body resolves a key as `KeyTrack` says |
| TraktorImport.ResolveEntry | src/infrastructure/adapters/importers/traktor_importer.py:251-287 | the entry loop's body resolves an entry as `EntryTrack` says |
| TraktorImport.FillPlaylist | src/infrastructure/adapters/importers/traktor_importer.py:250-291 | a new playlist ends up with exactly the ids of `EntryIds` |
| TraktorImport.WalkTreeOrdered | src/infrastructure/adapters/importers/traktor_importer.py:213-242 | a node's playlists come parents first, and none lists a track twice |
| TraktorImport.ForestTreeOrdered | src/infrastructure/adapters/importers/traktor_importer.py:228-234 | the same for a row of sibling nodes |
| TraktorImport.ImportedPlaylistsOrdered | src/infrastructure/adapters/importers/traktor_importer.py:198-211 | the playlists of a whole import form a tree in the order they are made |
| TraktorImport.ProcessPlaylistNode | src/infrastructure/adapters/importers/traktor_importer.py:213-291 | the node's playlists are added as `Walk` lists them, the node's own under the given parent |
| TraktorImport.ProcessFolder | src/infrastructure/adapters/importers/traktor_importer.py:218-234 | an empty folder playlist, then the nodes of its first `SUBNODES` (or its own `NODE` children without one) under it |
| TraktorImport.ProcessPlaylist | src/infrastructure/adapters/importers/traktor_importer.py:236-291 | one playlist under the parent, holding the tracks of its entries; without a `PLAYLIST` child it stays empty |
| TraktorImport.ProcessNodes | src/infrastructure/adapters/importers/traktor_importer.py:209-234 | the playlists of a row of nodes, one node after the other |
| TraktorImport.ImportPlaylists | src/infrastructure/adapters/importers/traktor_importer.py:198-211 | the playlists `ImportedPlaylists` lists are added under new ids, roots appended, parents first; the tracks are untouched |
| TraktorImport.PlaylistsImportedStep | src/infrastructure/adapters/importers/traktor_importer.py:220-242 | storing one more playlist under a new id, with its parent made before it, extends the import |
| TraktorImport.ExtensionCaseIgnored | src/infrastructure/adapters/importers/traktor_importer.py:27-37 | a document with an `NML` root is accepted from `.nml`, `.NML` and `.Nml` files alike |
| TraktorImport.ImportLibrary | src/infrastructure/adapters/importers/traktor_importer.py:39-59 | nothing exactly when the file cannot be imported; otherwise a new "Traktor Collection" with the document's tracks, then its playlists resolved against them |
| TraktorImport.ImportDocument | src/infrastructure/adapters/importers/traktor_importer.py:44-56 | a new collection, its tracks as `ParsedEntries`, then its playlists as `ImportedPlaylists` |
| RekordboxExport.PosixLocationRoundTrip | src/infrastructure/adapters/exporters/rekordbox_exporter.py:105-115 | on a POSIX host the location is `file://` and the path, which gives the path back |
| RekordboxExport.WindowsTail | src/infrastructure/adapters/exporters/rekordbox_exporter.py:108-113 | the Windows tail is a suffix of the path with slashes for backslashes, the whole of it for a UNC path, and starts with no slash otherwise |
| RekordboxExport.WindowsLocationTail | src/infrastructure/adapters/exporters/rekordbox_exporter.py:108-113 | a Windows location is `file:///` followed by that tail |
| RekordboxExport.WindowsLocationSlashes | src/infrastructure/adapters/exporters/rekordbox_exporter.py:108-113 | a Windows location holds no backslash |
| RekordboxExport.WindowsLocationUnc | src/infrastructure/adapters/exporters/rekordbox_exporter.py:108-113 | a Windows location keeps two slashes after `file:///` exactly for UNC paths |
| RekordboxExport.CueMarks | src/infrastructure/adapters/exporters/rekordbox_exporter.py:121-134 | one mark per cue point, in order |
| RekordboxExport.LoopMarks | src/infrastructure/adapters/exporters/rekordbox_exporter.py:137-148 | one mark per loop, in order |
| RekordboxExport.MarksLayout | src/infrastructure/adapters/exporters/rekordbox_exporter.py:117-148 | a track's marks are its cue marks then its loop marks; a cue's mark has type 1 exactly for a hot cue when hot cues are not converted, 0 otherwise; a loop's mark has type 2 and an end |
| RekordboxExport.CueMarkNumbers | src/infrastructure/adapters/exporters/rekordbox_exporter.py:126-134 | `Start` reads back as the position in milliseconds truncated toward zero, `Num` as the index or 0 for a negative one |
| RekordboxExport.LoopMarkNumbers | src/infrastructure/adapters/exporters/rekordbox_exporter.py:138-147 | a loop's `Start` and `End` read back as truncated milliseconds, `Num` as its pad number |
| RekordboxExport.ImportedCueStart | src/infrastructure/adapters/exporters/rekordbox_exporter.py:126 | in exact arithmetic, a cue imported from a whole number of milliseconds is written back at that number (the source's doubles do not always; see "## Left out") |
| RekordboxExport.TrackAttrsRead | src/infrastructure/adapters/exporters/rekordbox_exporter.py:88-100 | `TrackID` is the compact hex of the id and the descriptive fields are copied unchanged |
| RekordboxExport.TrackNumbersRead | src/infrastructure/adapters/exporters/rekordbox_exporter.py:94-96 | `TotalTime` reads back as the truncated duration and `Rating` as the rating |
| RekordboxExport.AddCuePointsToTrack | src/infrastructure/adapters/exporters/rekordbox_exporter.py:117-148 | the loops produce the cue marks in order and then the loop marks in order |
| RekordboxExport.AddTrackToCollection | src/infrastructure/adapters/exporters/rekordbox_exporter.py:85-103 | the loop-built `TRACK` element is the one `TrackElement` describes |
| RekordboxExport.LeafTracks | src/infrastructure/adapters/exporters/rekordbox_exporter.py:173-179 | at most one entry per id, and exactly one per id when none is dangling |
| RekordboxExport.LeafTracksMembers | src/infrastructure/adapters/exporters/rekordbox_exporter.py:173-179 | an entry exists exactly for each id that has a stored track |
| RekordboxExport.ChildNodes | src/infrastructure/adapters/exporters/rekordbox_exporter.py:161-163 | one node per child when the row succeeds |
| RekordboxExport.ChildNodesFailed | src/infrastructure/adapters/exporters/rekordbox_exporter.py:161-163 | once a child fails, the whole folder fails |
| RekordboxExport.ChildNodesAll | src/infrastructure/adapters/exporters/rekordbox_exporter.py:161-163 | when a folder is written, every child is |
| RekordboxExport.OwnChildFails | src/infrastructure/adapters/exporters/rekordbox_exporter.py:150-163 | a playlist among its own children can never be written: the recursion runs out |
| RekordboxExport.PlaylistNodeMoreBudget | src/infrastructure/adapters/exporters/rekordbox_exporter.py:150-179 | more recursion budget never changes a node that could be written |
| RekordboxExport.NodeCounts | src/infrastructure/adapters/exporters/rekordbox_exporter.py:150-179 | a folder node counts its children and holds one node each; a playlist node counts every id, dangling ones included, and holds one entry per id with a track |
| RekordboxExport.EntryKeyMatchesTrack | src/infrastructure/adapters/exporters/rekordbox_exporter.py:174-179 | a playlist entry's `Key` is the `TrackID` written for the track it names |
| RekordboxExport.AddPlaylistToNode | src/infrastructure/adapters/exporters/rekordbox_exporter.py:150-179 | the recursion builds exactly the node `PlaylistNode` describes, or fails exactly when it does |
| RekordboxExport.AddChildNodes | src/infrastructure/adapters/exporters/rekordbox_exporter.py:161-163 | the loop over the children builds exactly `ChildNodes` |
| RekordboxExport.AddTrackEntries | src/infrastructure/adapters/exporters/rekordbox_exporter.py:173-179 | the loop over the ids builds exactly `LeafTracks` |
| RekordboxExport.RootNodes | src/infrastructure/adapters/exporters/rekordbox_exporter.py:63-67 | one node per root id that has a stored playlist, when none fails |
| RekordboxExport.RootNodesFailed | src/infrastructure/adapters/exporters/rekordbox_exporter.py:63-67 | once a root playlist fails, the whole export fails |
| RekordboxExport.TrackElements | src/infrastructure/adapters/exporters/rekordbox_exporter.py:51-53 | one `TRACK` element per track, in order |
| RekordboxExport.ExportedCounts | src/infrastructure/adapters/exporters/rekordbox_exporter.py:46-67 | a written document lists every track once, in table order, under `Entries` equal to their number, and its `ROOT` counts every root id but holds nodes only for stored ones |
| RekordboxExport.AddTracks | src/infrastructure/adapters/exporters/rekordbox_exporter.py:51-53 | the loop over the tracks builds exactly `TrackElements` |
| RekordboxExport.AddRootPlaylists | src/infrastructure/adapters/exporters/rekordbox_exporter.py:63-67 | the loop over the root ids builds exactly `RootNodes` |
| RekordboxExport.ExportLibrary | src/infrastructure/adapters/exporters/rekordbox_exporter.py:27-83 | the document built is `ExportDocument` with the hot-cue option, and the result is true exactly when it could be built and written |
| Ids.CompactHexInjective | src/infrastructure/adapters/exporters/rekordbox_exporter.py:89 | two different ids never share a `TrackID`, so track keys stay unique |
| Ids.CompactHexIsDigits | src/infrastructure/adapters/exporters/rekordbox_exporter.py:89 | removing the dashes of `str(id)` leaves exactly its 32 hex digits |
| Numbers.Trunc | src/infrastructure/adapters/exporters/rekordbox_exporter.py:94 | `int(x)` truncates toward zero |
| Numbers.IntToStringRoundTrip | src/infrastructure/adapters/exporters/rekordbox_exporter.py:48 | `int(str(n)) == n` for every integer |
| Numbers.MillisRoundTrip | src/infrastructure/adapters/exporters/rekordbox_exporter.py:126 | in exact arithmetic, whole milliseconds survive the division by 1000 on import and the truncated multiplication on export (not a property of the source's doubles; see "## Left out") |
| Numbers.ParseFloatOfInt | src/infrastructure/adapters/importers/traktor_importer.py:158 | an integer numeral such as `START="12345"` reads through `float(...)` as that integer |
| Text.JoinSplit | src/infrastructure/adapters/importers/traktor_importer.py:88-89 | joining the pieces of a split with the same separator gives the string back |
| Text.LowerIdempotent | src/infrastructure/adapters/importer_registry.py:24 | lower-casing twice is lower-casing once, so registry keys are stable |
| Text.PathJoin | src/infrastructure/adapters/importers/traktor_importer.py:92 | `os.path.join` ends with its last part and, for a relative last part, starts with the first |
| Xml.WithTagMembers | src/infrastructure/adapters/importers/traktor_importer.py:67 | `findall` lists exactly the children with the tag |
| Xml.FindIsFirstOfFindAll | src/infrastructure/adapters/importers/traktor_importer.py:75 | `find` returns the first child `findall` would list |
| Xml.FindNone | src/infrastructure/adapters/importers/traktor_importer.py:75-77 | `find` finds nothing exactly when no child has the tag |
| Xml.FindDescendantOfChild | src/infrastructure/adapters/importers/traktor_importer.py:63 | a direct child with the tag guarantees that `.//TAG` finds something |
| ImporterRegistries.ImporterRegistry.constructor | src/infrastructure/adapters/importer_registry.py:14-15 | an empty table |
| ImporterRegistries.ImporterRegistry.Register | src/infrastructure/adapters/importer_registry.py:17-24 | stored under the lower-cased name, replacing one that differs only in case in its place; the name then finds it and every other name finds what it found |
| ImporterRegistries.ImporterRegistry.GetImporter | src/infrastructure/adapters/importer_registry.py:26-36 | found exactly when the lower-cased name is a key; a found importer's name equals the asked one up to case |
| ImporterRegistries.ImporterRegistry.GetAllImporters | src/infrastructure/adapters/importer_registry.py:38-45 | each stored importer once, in table order, no two with the same name up to case |
| ImporterRegistries.ImporterRegistry.GetFormatNames | src/infrastructure/adapters/importer_registry.py:47-54 | the names as registered, in table order, each lower-casing to its key |
| ImporterRegistries.NamesFindTheirImporters | src/infrastructure/adapters/importer_registry.py:36-54 | asking for a listed name gives back the importer listed at the same place |
| ImporterRegistries.NamesCoverTable | src/infrastructure/adapters/importer_registry.py:36-54 | a name is found exactly when it matches a listed name up to case |
| ExporterRegistries.ExporterRegistry.constructor | src/infrastructure/adapters/exporter_registry.py:14-15 | an empty table |
| ExporterRegistries.ExporterRegistry.Register | src/infrastructure/adapters/exporter_registry.py:17-24 | stored under the lower-cased name, replacing one that differs only in case in its place; the name then finds it and every other name finds what it found |
| ExporterRegistries.ExporterRegistry.GetExporter | src/infrastructure/adapters/exporter_registry.py:26-36 | found exactly when the lower-cased name is a key; a found exporter's name equals the asked one up to case |
| ExporterRegistries.ExporterRegistry.GetAllExporters | src/infrastructure/adapters/exporter_registry.py:38-45 | each stored exporter once, in table order, no two with the same name up to case |
| ExporterRegistries.ExporterRegistry.GetFormatNames | src/infrastructure/adapters/exporter_registry.py:47-54 | the names as registered, in table order, each lower-casing to its key |
| ExporterRegistries.NamesFindTheirExporters | src/infrastructure/adapters/exporter_registry.py:36-54 | asking for a listed name gives back the exporter listed at the same place |
| ExporterRegistries.NamesCoverTable | src/infrastructure/adapters/exporter_registry.py:36-54 | a name is found exactly when it matches a listed name up to case |
| Orchestration.ProgressLog.Call | src/application/services/conversion_orchestrator.py:28-35 | the callback records each report once, in order |
| Orchestration.ConversionOrchestrator.constructor | src/application/services/conversion_orchestrator.py:17-26 | the collaborators as given, no callback, no calls made |
| Orchestration.ConversionOrchestrator.SetProgressCallback | src/application/services/conversion_orchestrator.py:28-35 | the callback is replaced |
| Orchestration.ConversionOrchestrator.ReportProgress | src/application/services/conversion_orchestrator.py:37-40 | without a callback nothing happens; with one it receives the pair once |
| Orchestration.ProgressPercentages | src/application/services/conversion_orchestrator.py:42-102 | a successful run reports 10, 40, 70, 100; a failed import 10, 100; a failed export 10, 40, 70, 100 |
| Orchestration.ProgressOrdered | src/application/services/conversion_orchestrator.py:42-102 | every run ends with exactly one report at 100 and the percentages rise |
| Orchestration.ProgressOutcome | src/application/services/conversion_orchestrator.py:94-102 | the last report says the conversion completed exactly when the run succeeded |
| Orchestration.StepsOrder | src/application/services/conversion_orchestrator.py:66-93 | import first; hot cues converted exactly when a collection came back and the option asks for it; export exactly when a collection came back, last, with that collection and the options unchanged |
| Orchestration.ConversionOrchestrator.Convert | src/application/services/conversion_orchestrator.py:42-102 | the callback receives `Progress`, the collaborators receive `Steps`, and the result is true exactly when the run succeeded; the imported tracks keep their cue lists, and each cue becomes a memory cue if it was a hot cue and the option is set, otherwise keeps its type |
| Orchestration.ConversionOrchestrator.ProcessLibrary | src/application/services/conversion_orchestrator.py:76-83 | reports 40; when the option asks for it every cue of the tracks is rewritten as `HotToMemory` says, otherwise no cue changes; the cue lists and the collection stay the same objects |
| Orchestration.ConversionOrchestrator.ExportStage | src/application/services/conversion_orchestrator.py:85-102 | reports 70, calls the export once, then reports 100 with its outcome |

Where the code departs from the behaviour its design describes, the model follows the code:

- A playlist's exported `Entries` counts every track id, dangling ones included; only the `TRACK`
  references skip ids without a track (`RekordboxExport.NodeCounts`).
- On Windows a UNC path keeps its leading slashes, so its location is `file:///` followed by `//`
  (`RekordboxExport.WindowsLocationUnc`); on other hosts every path gets `file://`.
- The importer links playlists to their parents through `parent_id` only and never fills
  `children` (`TraktorImport.MadeAs` demands `children == []`), while the exporter walks
  `children`. An imported folder is therefore written as an empty leaf playlist, and playlists
  below the top level are not written at all.
- Every Traktor cue `TYPE` other than `grid` becomes a hot cue, including `fade-in`, `fade-out`,
  `load` and `loop` (`TraktorImport.CueTypeOf`); the `CueTypeMapping` table is not consulted.

## Left out

- File and console I/O: reading and parsing the NML file, serialising and pretty-printing the Rekordbox document, writing it to disk, and `print`/logging. Documents are `Xml.Element` trees. The exporter's write step becomes its `writeOk` parameter, and a document that does not parse becomes `None` for `ImportLibrary`.
- XML attribute order and character escaping: attributes are a map.
- Floating point: numbers are `real`. `float(...)` and `int(...)` are modelled only for an optional sign followed by decimal digits with an optional fraction. Anything else (`1e3`, `inf`, `nan`, surrounding spaces, `_` separators) is a parse failure, whereas Python accepts some of these. `str(float)` for `AverageBpm` is the host function `Host.floatText`.
- `Numbers.MillisRoundTrip`, `TraktorImport.CueStartRoundTrip` and `RekordboxExport.ImportedCueStart` hold for the model's exact numbers only. With IEEE doubles, `float("1005") / 1000.0` is 1.00499999999999989…, times 1000.0 it rounds to 1004.9999999999999, and `int(...)` gives 1004. So a cue imported with `START="1005"` is exported with `Start="1004"`; many other whole-millisecond values behave the same way.
- `Text.Lower` maps only `A`–`Z`; Python's `str.lower()` maps every Unicode cased letter (and can change a string's length). `ImporterRegistries.ImporterRegistry.Register`, `ImporterRegistries.ImporterRegistry.GetImporter`, `ExporterRegistries.ExporterRegistry.Register` and `ExporterRegistries.ExporterRegistry.GetExporter` fold case with it, so names that differ only in non-ASCII case (`"Äx"` and `"äx"`) are one key in the source and two in the model. The `.nml` test of `TraktorImport.CanImport` uses the same function.
- `Tracks.Track.constructor` takes no `id` argument and always draws a fresh id. The dataclass accepts `id=`, but its only caller that passes one (traktor_importer.py:123) passes a fresh `uuid4()`, so no behaviour is lost.
- `Playlists.Playlist.constructor` takes no `children` argument: every playlist starts without children, which is how every caller in the source builds one (the dataclass field at playlist.py:19 is never passed).
- `uuid4()`: `Ids.FreshId` returns an id outside the set passed to it. Randomness and the 128-bit width are not modelled.
- `datetime.now()`: the import date is a `Timestamp` parameter, and the export's `DateAdded` is the host string `Host.today`.
- `os.name`: the host string `Host.osName`.
- `os.path.join` is the POSIX version; the Windows join rules are not modelled.
- Python's recursion limit: `RekordboxExport.PlaylistNode` takes a `depth` budget. The export fails when the budget runs out, as the source fails on a cycle of children through `RecursionError`. The exact limit is not modelled.
- Exceptions inside the import are modelled as `None`: a failing `float`/`int` inside an entry skips that entry. The only other failure on a parsed tree is the recursion limit, next line.
- `TraktorImport.ImportLibrary` promises a collection whenever the file can be imported. In the source, `_process_playlist_node` (traktor_importer.py:213-234) recurses once per folder level, so folders nested deeper than Python's recursion limit raise `RecursionError`; `import_library` catches it (:57-59) and returns `None`. The playlist walk of the model has no depth budget, so this failure is not modelled.
- `can_import` and `import_library` parse the file twice; the model gives both the same parsed document.
- The unused `file_path` that `_process_playlist_node` computes with `os.path.join` is not modelled.
- `Conversion.ConversionService.MergeCollections` requires `source != target`, so a self-merge is not modelled. In the source every track of a self-merge matches itself by path (conversion_service.py:59-65), so no track is added. A collection without playlists therefore comes back unchanged. With at least one playlist, the loop at :91-101 adds to the dict it iterates over, and Python raises `RuntimeError`.
- `TraktorImport.BuildTrack`: the cue point and loop lists are built first and the track is created with them and its one tag. The source creates the track first and appends. The result is the same, and a failing entry is dropped in both.
- `TraktorImport.ProcessPlaylist`: a playlist's track ids are filled before the playlist is stored in the collection, whereas the source stores it first. Nothing reads the playlist in between, so the result is the same.
- `TraktorImport.ImportPlaylists` resolves entries against the tracks as they stand when the playlist import starts (`Refs`). The playlist import never changes tracks, so these are the tracks the source scans.
- Options are `map<string, bool>`: an option's value counts only by its truthiness.
- Import and export use cases and the importer/exporter objects they look up are collaborators. The orchestrator sees each use case as a function from its arguments to an `Outcome` (a value or a raised message). The registries see an importer or exporter only as a format name and an identity.
- `Orchestration.ConversionOrchestrator.Convert` requires that a collection returned by the import use case is allocated and `Valid`, as any collection the importer builds is.
- `Orchestration.ConversionOrchestrator.ProcessLibrary`: `convert_hot_cues_to_memory_cues` cannot raise on a valid collection, so the `except` branch of the processing stage is not modelled.
- The progress callback is the `ProgressLog` class, which records every call; any other side effect of a callback is not modelled.
- The GUI, the command-line entry point and the example scripts are not part of this model.
