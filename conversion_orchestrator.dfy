/**
 * The conversion run: import through the import use case, optionally turn hot cues into memory
 * cues, export through the export use case, and report progress at 10, 40, 70 and 100 percent on
 * the way. The use cases are collaborators whose outcome the orchestrator only reacts to: each is a
 * function from its arguments to what it returned or the message of what it raised. The progress
 * callback is a log of the calls it received.
 */
module Orchestration {
  import opened Wrappers
  import opened CuePoints
  import opened Tracks
  import opened Collections
  import opened Conversion
  import RekordboxExport

  /** What a collaborator call came back with: a value, or an exception and its `str`. */
  datatype Outcome<T> = Returned(value: T) | Raised(message: string)

  /** A call into a collaborator: the import, the hot-cue conversion, the export. */
  datatype Step =
    | Import(inputFile: string, inputFormat: string)
    | Process
    | Export(collection: Collection, outputFile: string, outputFormat: string, options: map<string, bool>)

  /** The progress callback: it keeps every `(percentage, message)` it is called with, in order. */
  class ProgressLog {
    var calls: seq<(int, string)>

    constructor ()
      ensures calls == []
    {
      calls := [];
    }

    method Call(percentage: int, message: string)
      modifies this
      ensures calls == old(calls) + [(percentage, message)]
    {
      calls := calls + [(percentage, message)];
    }
  }

  /** `options or {}`. */
  function OptionsOrEmpty(options: Option<map<string, bool>>): map<string, bool>
  {
    options.GetOr(map[])
  }

  /** The collection an import produced, if it produced one. */
  function ImportedCollection(imported: Outcome<Option<Collection>>): Option<Collection>
  {
    if imported.Returned? then imported.value else None
  }

  /** The run succeeds exactly when the import gives a collection and the export then reports success. */
  predicate Succeeded(imported: Outcome<Option<Collection>>, exported: Outcome<bool>)
  {
    ImportedCollection(imported).Some? && exported == Returned(true)
  }

  /** The progress reports of a run, given what the import and (once reached) the export came back with. */
  function Progress(inputFormat: string, outputFormat: string, imported: Outcome<Option<Collection>>, exported: Outcome<bool>)
    : seq<(int, string)>
  {
    [(10, "Importing " + inputFormat + " library...")]
    + match imported
      case Raised(e) => [(100, "Error importing library: " + e)]
      case Returned(None) => [(100, "Failed to import " + inputFormat + " library")]
      case Returned(Some(_)) => [(40, "Processing library...")] + ExportReports(outputFormat, exported)
  }

  /** The reports of the export stage: 70 before the export, then 100 with its outcome. */
  function ExportReports(outputFormat: string, exported: Outcome<bool>): seq<(int, string)>
  {
    [(70, "Exporting to " + outputFormat + "...")]
    + match exported
      case Raised(e) => [(100, "Error exporting library: " + e)]
      case Returned(false) => [(100, "Failed to export to " + outputFormat)]
      case Returned(true) => [(100, "Conversion completed successfully")]
  }

  /** The collaborator calls of a run: the import always; then, given a collection, the conversion when asked for and the export. */
  function Steps(inputFile: string, inputFormat: string, outputFile: string, outputFormat: string,
                 options: map<string, bool>, imported: Outcome<Option<Collection>>): seq<Step>
  {
    [Import(inputFile, inputFormat)]
    + match ImportedCollection(imported)
      case None => []
      case Some(c) =>
        (if RekordboxExport.ConvertHotCues(options) then [Process] else []) + [Export(c, outputFile, outputFormat, options)]
  }

  /** The percentages a run reports. */
  function Percentages(reports: seq<(int, string)>): (r: seq<int>)
    ensures |r| == |reports| && forall i :: 0 <= i < |r| ==> r[i] == reports[i].0
  {
    seq(|reports|, i requires 0 <= i < |reports| => reports[i].0)
  }

  /**
   * A successful run reports 10, 40, 70 and 100; a failed import reports 10 and then 100; a failed export
   * reports 10, 40, 70 and then 100.
   */
  lemma ProgressPercentages(inputFormat: string, outputFormat: string, imported: Outcome<Option<Collection>>, exported: Outcome<bool>)
    ensures Percentages(Progress(inputFormat, outputFormat, imported, exported))
         == if ImportedCollection(imported).None? then [10, 100] else [10, 40, 70, 100]
  {
    var p := Progress(inputFormat, outputFormat, imported, exported);
    if ImportedCollection(imported).None? {
      assert |p| == 2 && p[0].0 == 10 && p[1].0 == 100;
    } else {
      assert |p| == 4 && p[0].0 == 10 && p[1].0 == 40 && p[2].0 == 70 && p[3].0 == 100;
    }
  }

  /** Every run ends with exactly one report at 100, and the percentages rise from one report to the next. */
  lemma ProgressOrdered(inputFormat: string, outputFormat: string, imported: Outcome<Option<Collection>>, exported: Outcome<bool>)
    ensures var p := Percentages(Progress(inputFormat, outputFormat, imported, exported));
      p != [] && p[|p| - 1] == 100 && (forall i :: 0 <= i < |p| - 1 ==> p[i] < 100)
      && forall i, j :: 0 <= i < j < |p| ==> p[i] < p[j]
  {
    ProgressPercentages(inputFormat, outputFormat, imported, exported);
  }

  /** The last report says the conversion completed exactly when the run succeeded. */
  lemma ProgressOutcome(inputFormat: string, outputFormat: string, imported: Outcome<Option<Collection>>, exported: Outcome<bool>)
    ensures var p := Progress(inputFormat, outputFormat, imported, exported);
      p != [] && (p[|p| - 1].1 == "Conversion completed successfully" <==> Succeeded(imported, exported))
  {
    var p := Progress(inputFormat, outputFormat, imported, exported);
    var last := p[|p| - 1].1;
    if !Succeeded(imported, exported) {
      assert last[0] != 'C';
    }
  }

  /**
   * A run calls the import first; it converts hot cues exactly when it got a collection and the option
   * asks for it; it exports exactly when it got a collection, and then passes that collection and the
   * options unchanged, last.
   */
  lemma StepsOrder(inputFile: string, inputFormat: string, outputFile: string, outputFormat: string,
                   options: map<string, bool>, imported: Outcome<Option<Collection>>)
    ensures var s := Steps(inputFile, inputFormat, outputFile, outputFormat, options, imported);
      s != [] && s[0] == Import(inputFile, inputFormat)
      && (Process in s <==> ImportedCollection(imported).Some? && RekordboxExport.ConvertHotCues(options))
      && (ImportedCollection(imported).None? ==> s == [Import(inputFile, inputFormat)])
      && (ImportedCollection(imported).Some? ==>
            s[|s| - 1] == Export(ImportedCollection(imported).value, outputFile, outputFormat, options)
            && forall i :: 0 <= i < |s| - 1 ==> !s[i].Export?)
  {
    var s := Steps(inputFile, inputFormat, outputFile, outputFormat, options, imported);
    if ImportedCollection(imported).Some? && !RekordboxExport.ConvertHotCues(options) {
      assert |s| == 2 && s[0] != Process && s[1] != Process;
    }
  }

  /** A run that got a collection: its reports and calls, in the order the stages append them. */
  lemma ImportedRun(log: seq<(int, string)>, calls: seq<Step>, inputFile: string, inputFormat: string, outputFile: string,
                    outputFormat: string, options: map<string, bool>, imported: Outcome<Option<Collection>>,
                    exported: Outcome<bool>)
    requires ImportedCollection(imported).Some?
    ensures log + Progress(inputFormat, outputFormat, imported, exported)
         == log + [(10, "Importing " + inputFormat + " library...")] + [(40, "Processing library...")]
            + ExportReports(outputFormat, exported)
    ensures calls + Steps(inputFile, inputFormat, outputFile, outputFormat, options, imported)
         == calls + [Import(inputFile, inputFormat)] + (if RekordboxExport.ConvertHotCues(options) then [Process] else [])
            + [Export(ImportedCollection(imported).value, outputFile, outputFormat, options)]
  {
  }

  class ConversionOrchestrator {
    const importUseCase: (string, string) -> Outcome<Option<Collection>>
    const exportUseCase: (Collection, string, string, map<string, bool>) -> Outcome<bool>
    const conversionService: ConversionService
    var progressCallback: Option<ProgressLog>
    /** The collaborator calls made so far. */
    ghost var steps: seq<Step>

    /** `ConversionOrchestrator(import_use_case, export_use_case, conversion_service)`: no callback yet. */
    constructor (importUseCase: (string, string) -> Outcome<Option<Collection>>,
                 exportUseCase: (Collection, string, string, map<string, bool>) -> Outcome<bool>,
                 conversionService: ConversionService)
      ensures this.importUseCase == importUseCase && this.exportUseCase == exportUseCase
      ensures this.conversionService == conversionService
      ensures progressCallback == None && steps == []
    {
      this.importUseCase, this.exportUseCase := importUseCase, exportUseCase;
      this.conversionService := conversionService;
      progressCallback, steps := None, [];
    }

    /** The callback object, if there is one. */
    ghost function Sink(): set<object>
      reads this
    {
      if progressCallback.Some? then {progressCallback.value} else {}
    }

    /** `set_progress_callback`: the callback is replaced. */
    method SetProgressCallback(callback: ProgressLog)
      modifies this`progressCallback
      ensures progressCallback == Some(callback)
    {
      progressCallback := Some(callback);
    }

    /** `_report_progress`: without a callback nothing happens; otherwise the callback receives the pair once. */
    method ReportProgress(percentage: int, message: string)
      modifies Sink()
      ensures progressCallback.Some? ==> progressCallback.value.calls == old(progressCallback.value.calls) + [(percentage, message)]
    {
      if progressCallback.Some? {
        progressCallback.value.Call(percentage, message);
      }
    }

    /** What the export comes back with in a run, when the run gets that far. */
    function Exported(inputFile: string, inputFormat: string, outputFile: string, outputFormat: string,
                      options: map<string, bool>): Outcome<bool>
    {
      match ImportedCollection(importUseCase(inputFile, inputFormat))
      case None => Returned(false)
      case Some(c) => exportUseCase(c, outputFile, outputFormat, options)
    }

    /** The tracks of the collection the import produces, which the conversion may rewrite. */
    ghost function ImportedTracks(inputFile: string, inputFormat: string): set<Track>
      reads ImportedObjects(inputFile, inputFormat)
    {
      match ImportedCollection(importUseCase(inputFile, inputFormat))
      case None => {}
      case Some(c) => c.tracks.items.Values
    }

    ghost function ImportedObjects(inputFile: string, inputFormat: string): set<object>
    {
      match ImportedCollection(importUseCase(inputFile, inputFormat))
      case None => {}
      case Some(c) => {c}
    }

    /**
     * `convert`: the run reports `Progress` to the callback, makes the calls `Steps` lists and returns
     * whether the conversion succeeded. The imported tracks keep their cue lists; each cue's type goes
     * through `HotToMemory` exactly when the options ask for it.
     */
    method Convert(inputFile: string, inputFormat: string, outputFile: string, outputFormat: string,
                   options: Option<map<string, bool>>) returns (ok: bool)
      requires var c := ImportedCollection(importUseCase(inputFile, inputFormat));
        c.Some? ==> allocated(c.value) && c.value.Valid()
      modifies this`steps, Sink()
      modifies ImportedTracks(inputFile, inputFormat)`cuePoints, CuesOf(ImportedTracks(inputFile, inputFormat))`cueType
      ensures var imported, opts := importUseCase(inputFile, inputFormat), OptionsOrEmpty(options);
        ok <==> Succeeded(imported, Exported(inputFile, inputFormat, outputFile, outputFormat, opts))
      ensures var imported, opts := importUseCase(inputFile, inputFormat), OptionsOrEmpty(options);
        progressCallback.Some? ==>
          progressCallback.value.calls
          == old(progressCallback.value.calls)
             + Progress(inputFormat, outputFormat, imported, Exported(inputFile, inputFormat, outputFile, outputFormat, opts))
      ensures steps == old(steps) + Steps(inputFile, inputFormat, outputFile, outputFormat, OptionsOrEmpty(options),
                                          importUseCase(inputFile, inputFormat))
      ensures forall t :: t in old(ImportedTracks(inputFile, inputFormat)) ==> t.cuePoints == old(t.cuePoints)
      ensures forall t, c :: t in old(ImportedTracks(inputFile, inputFormat)) && c in t.cuePoints ==>
        c.cueType == if RekordboxExport.ConvertHotCues(OptionsOrEmpty(options)) then HotToMemory(old(c.cueType))
                     else old(c.cueType)
    {
      var opts := OptionsOrEmpty(options);
      ghost var log := if progressCallback.Some? then progressCallback.value.calls else [];
      ghost var calls := steps;
      ReportProgress(10, "Importing " + inputFormat + " library...");
      steps := steps + [Import(inputFile, inputFormat)];
      var imported := importUseCase(inputFile, inputFormat);
      if imported.Raised? {
        ReportProgress(100, "Error importing library: " + imported.message);
        return false;
      }
      if imported.value.None? {
        ReportProgress(100, "Failed to import " + inputFormat + " library");
        return false;
      }
      var collection := ProcessLibrary(imported.value.value, opts);
      ok := ExportStage(collection, outputFile, outputFormat, opts);
      ImportedRun(log, calls, inputFile, inputFormat, outputFile, outputFormat, opts, imported,
                  Exported(inputFile, inputFormat, outputFile, outputFormat, opts));
    }

    /** The processing stage of `convert`: report 40 and convert hot cues when the options ask for it. */
    method ProcessLibrary(collection: Collection, options: map<string, bool>) returns (r: Collection)
      requires collection.Valid()
      modifies this`steps, Sink(), collection.tracks.items.Values`cuePoints, CuesOf(collection.tracks.items.Values)`cueType
      ensures r == collection
      ensures progressCallback.Some? ==>
        progressCallback.value.calls == old(progressCallback.value.calls) + [(40, "Processing library...")]
      ensures steps == old(steps) + if RekordboxExport.ConvertHotCues(options) then [Process] else []
      ensures forall t :: t in old(collection.tracks.items.Values) ==> t.cuePoints == old(t.cuePoints)
      ensures forall t, c :: t in old(collection.tracks.items.Values) && c in t.cuePoints ==>
        c.cueType == if RekordboxExport.ConvertHotCues(options) then HotToMemory(old(c.cueType)) else old(c.cueType)
    {
      ReportProgress(40, "Processing library...");
      r := collection;
      if RekordboxExport.ConvertHotCues(options) {
        steps := steps + [Process];
        r := conversionService.ConvertHotCuesToMemoryCues(collection);
      }
    }

    /** The export stage of `convert`: report 70, export, and report 100 with the export's outcome. */
    method ExportStage(collection: Collection, outputFile: string, outputFormat: string, options: map<string, bool>)
      returns (ok: bool)
      modifies this`steps, Sink()
      ensures var exported := exportUseCase(collection, outputFile, outputFormat, options);
        ok <==> exported == Returned(true)
      ensures progressCallback.Some? ==>
        progressCallback.value.calls
        == old(progressCallback.value.calls) + ExportReports(outputFormat, exportUseCase(collection, outputFile, outputFormat, options))
      ensures steps == old(steps) + [Export(collection, outputFile, outputFormat, options)]
    {
      ReportProgress(70, "Exporting to " + outputFormat + "...");
      steps := steps + [Export(collection, outputFile, outputFormat, options)];
      var success := exportUseCase(collection, outputFile, outputFormat, options);
      if success.Raised? {
        ReportProgress(100, "Error exporting library: " + success.message);
        return false;
      }
      if !success.value {
        ReportProgress(100, "Failed to export to " + outputFormat);
        return false;
      }
      ReportProgress(100, "Conversion completed successfully");
      return true;
    }
  }
}
