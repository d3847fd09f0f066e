/**
 * The table of library exporters, keyed by format name without regard to case. An exporter is
 * known here only by its `format_name` and its identity; what it does is the exporter's business.
 */
module ExporterRegistries {
  import opened Wrappers
  import opened Sequences
  import opened OrderedDicts
  import opened Text

  /** A registered exporter: its `format_name` and which exporter object it is. */
  datatype Exporter = Exporter(formatName: string, handle: nat)

  class ExporterRegistry {
    var exporters: ODict<string, Exporter>

    /** Every exporter is stored under its own lower-cased format name. */
    ghost predicate Valid()
      reads this
    {
      exporters.Valid() && forall k :: k in exporters.items ==> Lower(exporters.items[k].formatName) == k
    }

    /** `ExporterRegistry()`: an empty table. */
    constructor ()
      ensures Valid() && exporters == Empty()
    {
      exporters := Empty();
    }

    /**
     * `register`: the exporter is stored under its lower-cased format name, replacing an exporter whose
     * name differs from it only in case, in that exporter's place; every other name finds what it found.
     */
    method Register(exporter: Exporter)
      requires Valid()
      modifies this`exporters
      ensures Valid()
      ensures exporters == old(exporters).Put(Lower(exporter.formatName), exporter)
      ensures GetExporter(exporter.formatName) == Some(exporter)
      ensures forall name :: Lower(name) != Lower(exporter.formatName) ==> GetExporter(name) == old(GetExporter(name))
    {
      exporters := exporters.Put(Lower(exporter.formatName), exporter);
    }

    /**
     * `get_exporter`: the exporter registered under the name in any case, or nothing. A found exporter's
     * own name equals the asked one up to case.
     */
    function GetExporter(formatName: string): (r: Option<Exporter>)
      reads this
      ensures r.Some? <==> Lower(formatName) in exporters.items
      ensures r.Some? ==> r.value == exporters.items[Lower(formatName)]
      ensures Valid() && r.Some? ==> Lower(r.value.formatName) == Lower(formatName)
    {
      exporters.Get(Lower(formatName))
    }

    /** `get_all_exporters`: each stored exporter once, in table order; no two share a name up to case. */
    function GetAllExporters(): (r: seq<Exporter>)
      requires Valid()
      reads this
      ensures |r| == |exporters.keys|
      ensures forall i :: 0 <= i < |r| ==> r[i] == exporters.items[exporters.keys[i]]
      ensures forall i, j :: 0 <= i < j < |r| ==> Lower(r[i].formatName) != Lower(r[j].formatName)
    {
      var r := exporters.Values();
      assert forall i :: 0 <= i < |r| ==> Lower(r[i].formatName) == exporters.keys[i];
      r
    }

    /** `get_format_names`: the stored exporters' names as they were registered, in table order. */
    function GetFormatNames(): (r: seq<string>)
      requires Valid()
      reads this
      ensures |r| == |exporters.keys|
      ensures forall i :: 0 <= i < |r| ==> r[i] == exporters.items[exporters.keys[i]].formatName
      ensures forall i :: 0 <= i < |r| ==> Lower(r[i]) == exporters.keys[i]
    {
      var all := GetAllExporters();
      seq(|all|, i requires 0 <= i < |all| => all[i].formatName)
    }
  }

  /** Asking for a listed name gives back the exporter listed at the same place. */
  lemma NamesFindTheirExporters(reg: ExporterRegistry)
    requires reg.Valid()
    ensures var names, all := reg.GetFormatNames(), reg.GetAllExporters();
      forall i :: 0 <= i < |names| ==> reg.GetExporter(names[i]) == Some(all[i])
  {
  }

  /** A name is found exactly when it matches a listed name up to case. */
  lemma NamesCoverTable(reg: ExporterRegistry, name: string)
    requires reg.Valid()
    ensures reg.GetExporter(name).Some? <==> exists i :: 0 <= i < |reg.GetFormatNames()| && Lower(reg.GetFormatNames()[i]) == Lower(name)
  {
    var names := reg.GetFormatNames();
    if reg.GetExporter(name).Some? {
      var i := FirstIndex(reg.exporters.keys, Lower(name));
      assert Lower(names[i]) == Lower(name);
    }
  }
}
